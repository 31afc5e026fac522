/** Random choices as data. A call of `random.sample(bus, k)` followed by one
    `random.random()` per sampled event is represented by the list of `Pick`s it
    produced: the position of each sampled event in the bus and its draw. */
module Sampling {
  import opened Wrappers
  import opened EmployeeData

  datatype Pick = Pick(index: nat, draw: real)

  /** `int(n * 0.8)`: how many events of a bus of `n` one update samples. */
  function SampleSize(n: nat): (k: nat)
    ensures k <= n
    ensures 5 * k <= 4 * n < 5 * k + 5
  {
    var k := ((n as real) * 0.8).Floor;
    assert k as real <= (n as real) * 0.8 < k as real + 1.0;
    assert (5 * k) as real <= (4 * n) as real < (5 * k + 5) as real;
    k
  }

  /** Every pick names a position of a bus of `size` events. */
  predicate InBus(picks: seq<Pick>, size: nat)
  {
    forall i :: 0 <= i < |picks| ==> picks[i].index < size
  }

  /** What `random.sample(bus, count)` can return: `count` distinct positions of
      the bus; each pick's draw comes from `random.random()`. */
  predicate ValidSample(picks: seq<Pick>, size: nat, count: nat)
  {
    && |picks| == count
    && InBus(picks, size)
    && (forall i, j :: 0 <= i < j < |picks| ==> picks[i].index != picks[j].index)
    && (forall i :: 0 <= i < |picks| ==> IsDraw(picks[i].draw))
  }

  /** `random.choice` among `n` candidates: the position a draw selects. */
  function Choice(n: nat, draw: real): (i: nat)
    requires n > 0 && IsDraw(draw)
    ensures i < n
  {
    var x := draw * (n as real);
    assert 0.0 <= x < n as real;
    x.Floor
  }

  /** `n` distinct positions below `size`: what `random.sample` of `n` elements
      of a list of `size` returns, as positions into that list. */
  predicate ValidPositions(ps: seq<nat>, size: nat, n: nat)
  {
    && |ps| == n
    && (forall i :: 0 <= i < |ps| ==> ps[i] < size)
    && (forall i, j :: 0 <= i < j < |ps| ==> ps[i] != ps[j])
  }

  /** The sizes the three catalog buses give: 6 of 8, 4 of 5 and 3 of 4. */
  lemma CatalogSampleSizes()
    ensures SampleSize(8) == 6 && SampleSize(5) == 4 && SampleSize(4) == 3
  {
  }
}
