/** Aggregates over the employees of the network, in dict order: the sums,
    counts and averages that crisis generation, the game-over check and the
    metrics compare against thresholds. Python's `/` on two integers gives a
    float; the model uses exact reals. */
module Population {
  import opened EmployeeData

  /** `sum(f(e) for e in es)`. */
  function Total(es: seq<Employee>, f: Employee -> int): (r: int)
    ensures (forall i :: 0 <= i < |es| ==> f(es[i]) < 0) && es != [] ==> r < 0
  {
    if es == [] then 0 else f(es[0]) + Total(es[1..], f)
  }

  /** `[e for e in es if p(e)]`. */
  function Where(es: seq<Employee>, p: Employee -> bool): (r: seq<Employee>)
    ensures |r| <= |es|
    ensures forall x :: x in r <==> x in es && p(x)
  {
    if es == [] then []
    else (if p(es[0]) then [es[0]] else []) + Where(es[1..], p)
  }

  /** `len([e for e in es if p(e)])`. */
  function CountWhere(es: seq<Employee>, p: Employee -> bool): (r: nat)
    ensures r <= |es|
    ensures r > 0 <==> exists i :: 0 <= i < |es| && p(es[i])
  {
    var w := Where(es, p);
    if w == [] then
      assert forall i :: 0 <= i < |es| ==> !p(es[i]) by {
        forall i | 0 <= i < |es| ensures !p(es[i]) {
          assert es[i] in es;
        }
      }
      0
    else
      assert w[0] in es && p(w[0]);
      |w|
  }

  /** `sum(f(e) for e in es) / len(es)`. */
  function Average(es: seq<Employee>, f: Employee -> int): real
    requires es != []
  {
    (Total(es, f) as real) / (|es| as real)
  }

  /** A sum over a concatenation is the sum of the two sums: the total of the
      population does not depend on how it is split. */
  lemma {:induction false} TotalAppend(a: seq<Employee>, b: seq<Employee>, f: Employee -> int)
    ensures Total(a + b, f) == Total(a, f) + Total(b, f)
  {
    if a != [] {
      assert (a + b)[1..] == a[1..] + b;
      TotalAppend(a[1..], b, f);
    } else {
      assert a + b == b;
    }
  }

  /** The filter keeps the order: filtering a concatenation concatenates the filters. */
  lemma {:induction false} WhereAppend(a: seq<Employee>, b: seq<Employee>, p: Employee -> bool)
    ensures Where(a + b, p) == Where(a, p) + Where(b, p)
  {
    if a != [] {
      assert (a + b)[0] == a[0];
      assert (a + b)[1..] == a[1..] + b;
      WhereAppend(a[1..], b, p);
    } else {
      assert a + b == b;
    }
  }

  /** Counts add up over a concatenation. */
  lemma CountWhereAppend(a: seq<Employee>, b: seq<Employee>, p: Employee -> bool)
    ensures CountWhere(a + b, p) == CountWhere(a, p) + CountWhere(b, p)
  {
    WhereAppend(a, b, p);
  }

  /** The count is the sum of one for every employee that passes and zero for
      every other: `len([e for e in es if p(e)]) == sum(1 for e in es if p(e))`. */
  lemma {:induction false} CountIsTotalOfIndicator(es: seq<Employee>, p: Employee -> bool)
    ensures CountWhere(es, p) == Total(es, e => if p(e) then 1 else 0)
  {
    if es != [] {
      CountIsTotalOfIndicator(es[1..], p);
      assert es == [es[0]] + es[1..];
      WhereAppend([es[0]], es[1..], p);
    }
  }

  /** Comparing the average with a whole threshold is comparing the sum with
      the threshold times the count, in both directions. */
  lemma AverageVersusTotal(es: seq<Employee>, f: Employee -> int, t: int)
    requires es != []
    ensures Average(es, f) < t as real <==> Total(es, f) < t * |es|
    ensures Average(es, f) > t as real <==> Total(es, f) > t * |es|
  {
    var n := |es| as real;
    assert Average(es, f) * n == Total(es, f) as real;
    assert (t * |es|) as real == (t as real) * n;
  }

  /** A share of the population: `count > n * 0.7` holds exactly when ten
      times the count exceeds seven times `n`. */
  lemma ShareAbove(count: nat, n: nat)
    ensures (count as real) > (n as real) * 0.7 <==> 10 * count > 7 * n
  {
  }
}
