/** Building the fully connected employee network (hr_game/creation/network.py).

    The global random generator is a parameter: `stream` is what successive
    `random.random()` calls return when nothing is seeded, and `seeded(s)` is what
    they return right after `random.seed(s)`. */
module NetworkBuild {
  import opened Wrappers
  import opened EmployeeData

  datatype Rng = Rng(stream: nat -> real, seeded: int -> nat -> real)

  /** Every value the generator can return is a draw. */
  ghost predicate DrawsOnly(rng: Rng)
  {
    && (forall i :: IsDraw(rng.stream(i)))
    && (forall s, i :: IsDraw(rng.seeded(s)(i)))
  }

  predicate UnitMultipliers(r: Relationship)
  {
    IsDraw(r.attraction) && IsDraw(r.resentment) && IsDraw(r.synergy) && IsDraw(r.friendship)
  }

  /** `randomize_relationship(seed)`, the unseeded generator standing at position
      `pos`. With a seed the generator is reset first, so the position does not
      matter. */
  function RandomizeRelationship(seed: Option<int>, rng: Rng, pos: nat): (r: Relationship)
    ensures DrawsOnly(rng) ==> UnitMultipliers(r)
    ensures seed.Some? ==> r.attraction == rng.seeded(seed.value)(0) && r.friendship == rng.seeded(seed.value)(3)
    ensures seed.None? ==> r.attraction == rng.stream(pos) && r.friendship == rng.stream(pos + 3)
  {
    match seed
    case Some(s) => Relationship(rng.seeded(s)(0), rng.seeded(s)(1), rng.seeded(s)(2), rng.seeded(s)(3))
    case None => Relationship(rng.stream(pos), rng.stream(pos + 1), rng.stream(pos + 2), rng.stream(pos + 3))
  }

  /** Every relationship built from the same seed is the same. */
  lemma SeededRelationshipsAgree(s: int, rng: Rng, p: nat, q: nat)
    ensures RandomizeRelationship(Some(s), rng, p) == RandomizeRelationship(Some(s), rng, q)
  {
  }

  /** The loop variables of `create_fully_connected_network`: `nodes` with its
      insertion order, `edges`, and how many unseeded draws were consumed. */
  datatype Building = Building(nodes: map<Id, Employee>, roster: seq<Id>, edges: seq<Triple>, pos: nat)

  /** `nodes[e.employee_id] = e`: a new key goes to the end of the order, an
      existing key keeps its place and takes the new value. */
  function Insert(st: Building, e: Employee): (r: Building)
    ensures r.nodes == st.nodes[e.id := e] && r.edges == st.edges && r.pos == st.pos
    ensures e.id in st.nodes ==> r.roster == st.roster
    ensures e.id !in st.nodes ==> r.roster == st.roster + [e.id]
  {
    Building(st.nodes[e.id := e], if e.id in st.nodes then st.roster else st.roster + [e.id], st.edges, st.pos)
  }

  /** What holds of the loop variables before outer iteration `i`. */
  ghost predicate Invariant(es: seq<Employee>, i: nat, st: Building)
  {
    && i <= |es|
    && (forall k :: k in st.nodes <==> k in Ids(es)[..i])
    && Distinct(st.roster)
    && (forall k :: k in st.nodes <==> k in st.roster)
    && (forall k :: k in st.nodes ==> st.nodes[k].id == k)
    && EndsIn(st.edges, Ids(es))
  }

  /** Every edge joins two of the given ids. */
  ghost predicate EndsIn(edges: seq<Triple>, ids: seq<Id>)
  {
    forall t :: t in edges ==> t.a in ids && t.b in ids
  }

  /** The inner loop only adds edges between ids of the list. */
  lemma {:induction false} InnerEnds(es: seq<Employee>, i: nat, j: nat, seed: Option<int>, rng: Rng, st: Building)
    requires i < |es| && j <= |es|
    requires EndsIn(st.edges, Ids(es))
    ensures EndsIn(Inner(es, i, j, seed, rng, st).edges, Ids(es))
    decreases |es| - j
  {
    if j < |es| {
      var j': nat := j + 1;
      if es[j].id in st.nodes {
        InnerEnds(es, i, j', seed, rng, st);
      } else {
        var t := Triple(es[i].id, es[j].id, RandomizeRelationship(seed, rng, st.pos));
        var next := st.(edges := st.edges + [t], pos := st.pos + 4);
        assert Ids(es)[i] == t.a && Ids(es)[j] == t.b;
        InnerStep(es, i, j, j', seed, rng, st, next);
        InnerEnds(es, i, j', seed, rng, next);
      }
    }
  }

  /** The inner loop of outer iteration `i`, from position `j` on. */
  function Inner(es: seq<Employee>, i: nat, j: nat, seed: Option<int>, rng: Rng, st: Building): (r: Building)
    requires i < |es| && j <= |es|
    ensures r.nodes == st.nodes && r.roster == st.roster
    ensures |st.edges| <= |r.edges| && r.edges[..|st.edges|] == st.edges
    decreases |es| - j
  {
    if j == |es| then st
    else if es[j].id in st.nodes then Inner(es, i, j + 1, seed, rng, st)
    else
      var t := Triple(es[i].id, es[j].id, RandomizeRelationship(seed, rng, st.pos));
      var next := st.(edges := st.edges + [t], pos := st.pos + 4);
      var r := Inner(es, i, j + 1, seed, rng, next);
      assert r.edges[..|st.edges|] == next.edges[..|next.edges|][..|st.edges|];
      r
  }

  /** The outer loop from iteration `i` on. */
  function Outer(es: seq<Employee>, i: nat, seed: Option<int>, rng: Rng, st: Building): (r: Building)
    requires Invariant(es, i, st)
    ensures Invariant(es, |es|, r)
    decreases |es| - i
  {
    if i == |es| then st
    else
      var next := Inner(es, i, 0, seed, rng, Insert(st, es[i]));
      StepKeepsInvariant(es, i, seed, rng, st);
      Outer(es, i + 1, seed, rng, next)
  }

  /** One outer iteration keeps the loop invariant. */
  lemma StepKeepsInvariant(es: seq<Employee>, i: nat, seed: Option<int>, rng: Rng, st: Building)
    requires Invariant(es, i, st) && i < |es|
    ensures Invariant(es, i + 1, Inner(es, i, 0, seed, rng, Insert(st, es[i])))
  {
    assert Ids(es)[..i + 1] == Ids(es)[..i] + [es[i].id];
    InnerEnds(es, i, 0, seed, rng, Insert(st, es[i]));
  }

  /** `create_fully_connected_network(employees, seed)`. Every employee is stored
      under its id, every relationship joins two stored employees, and the keys
      are exactly the ids of the list. */
  function Build(es: seq<Employee>, seed: Option<int>, rng: Rng): (r: Network)
    ensures WellFormed(r) && Closed(r)
    ensures forall k :: k in r.employees <==> k in Ids(es)
    ensures DrawsOnly(rng) ==> forall t :: t in r.relationships ==> UnitMultipliers(t.rel)
    ensures seed.Some? ==> forall t :: t in r.relationships ==> t.rel == RandomizeRelationship(seed, rng, 0)
  {
    var st0 := Building(map[], [], [], 0);
    var st := Outer(es, 0, seed, rng, st0);
    assert Ids(es)[..|es|] == Ids(es);
    OuterDraws(es, 0, seed, rng, st0);
    Network(st.nodes, st.roster, st.edges)
  }

  /** Every relationship in `edges` came out of `randomize_relationship(seed)`:
      its multipliers are draws when the generator only returns draws, and with a
      seed it is the one relationship that seed gives. */
  ghost predicate Randomized(seed: Option<int>, rng: Rng, edges: seq<Triple>)
  {
    forall t :: t in edges ==>
      && (DrawsOnly(rng) ==> UnitMultipliers(t.rel))
      && (seed.Some? ==> t.rel == RandomizeRelationship(seed, rng, 0))
  }

  lemma {:induction false} InnerDraws(es: seq<Employee>, i: nat, j: nat, seed: Option<int>, rng: Rng, st: Building)
    requires i < |es| && j <= |es|
    requires Randomized(seed, rng, st.edges)
    ensures Randomized(seed, rng, Inner(es, i, j, seed, rng, st).edges)
    decreases |es| - j
  {
    if j < |es| {
      var j': nat := j + 1;
      if es[j].id in st.nodes {
        InnerDraws(es, i, j', seed, rng, st);
      } else {
        var t := Triple(es[i].id, es[j].id, RandomizeRelationship(seed, rng, st.pos));
        var next := st.(edges := st.edges + [t], pos := st.pos + 4);
        InnerStep(es, i, j, j', seed, rng, st, next);
        InnerDraws(es, i, j', seed, rng, next);
      }
    }
  }

  lemma {:induction false} OuterDraws(es: seq<Employee>, i: nat, seed: Option<int>, rng: Rng, st: Building)
    requires Invariant(es, i, st)
    requires Randomized(seed, rng, st.edges)
    ensures Randomized(seed, rng, Outer(es, i, seed, rng, st).edges)
    decreases |es| - i
  {
    if i < |es| {
      InnerDraws(es, i, 0, seed, rng, Insert(st, es[i]));
      StepKeepsInvariant(es, i, seed, rng, st);
      OuterDraws(es, i + 1, seed, rng, Inner(es, i, 0, seed, rng, Insert(st, es[i])));
    }
  }

  // ---------------------------------------------------------------------------
  // The reference: every unordered pair of a list once, in list order

  /** The pairs `(ids[i], ids[k])` for `k` from `j` on. */
  function Row(ids: seq<Id>, i: nat, j: nat): (r: seq<(Id, Id)>)
    requires i < |ids| && j <= |ids|
    ensures |r| == |ids| - j
    decreases |ids| - j
  {
    if j == |ids| then [] else [(ids[i], ids[j])] + Row(ids, i, j + 1)
  }

  /** One unfolding of `Row`, with the next column named. */
  lemma RowCons(ids: seq<Id>, i: nat, j: nat, j': nat)
    requires i < |ids| && j < |ids| && j' == j + 1
    ensures Row(ids, i, j) == [(ids[i], ids[j])] + Row(ids, i, j')
  {
  }

  lemma {:induction false} RowAt(ids: seq<Id>, i: nat, j: nat)
    requires i < |ids| && j <= |ids|
    ensures forall x :: 0 <= x < |Row(ids, i, j)| ==> Row(ids, i, j)[x] == (ids[i], ids[j + x])
    decreases |ids| - j
  {
    if j < |ids| {
      RowAt(ids, i, j + 1);
    }
  }

  /** The pairs `(ids[i], ids[j])` with `from <= i < j`, row by row. */
  function PairsFrom(ids: seq<Id>, from: nat): seq<(Id, Id)>
    requires from <= |ids|
    decreases |ids| - from
  {
    if from == |ids| then [] else Row(ids, from, from + 1) + PairsFrom(ids, from + 1)
  }

  function Pairs(ids: seq<Id>): seq<(Id, Id)>
  {
    PairsFrom(ids, 0)
  }

  /** The `(a, b)` ids of each relationship, in list order. */
  function Ends(edges: seq<Triple>): (r: seq<(Id, Id)>)
    ensures |r| == |edges|
  {
    if edges == [] then [] else Ends(edges[..|edges| - 1]) + [(edges[|edges| - 1].a, edges[|edges| - 1].b)]
  }

  /** The `x`-th pair is the ends of the `x`-th relationship. */
  lemma {:induction false} EndsAt(edges: seq<Triple>, x: nat)
    requires x < |edges|
    ensures Ends(edges)[x] == (edges[x].a, edges[x].b)
    decreases |edges|
  {
    var last := |edges| - 1;
    if x < last {
      EndsAt(edges[..last], x);
      assert edges[..last][x] == edges[x];
    }
  }

  lemma EndsSnoc(a: seq<Triple>, t: Triple)
    ensures Ends(a + [t]) == Ends(a) + [(t.a, t.b)]
  {
    assert (a + [t])[..|a|] == a;
  }

  lemma {:induction false} InnerSkips(es: seq<Employee>, i: nat, j: nat, seed: Option<int>, rng: Rng, st: Building)
    requires i < |es| && j <= i + 1
    requires forall x :: j <= x <= i ==> es[x].id in st.nodes
    ensures Inner(es, i, j, seed, rng, st) == Inner(es, i, i + 1, seed, rng, st)
    decreases i + 1 - j
  {
    if j < i + 1 {
      var j': nat := j + 1;
      assert Inner(es, i, j, seed, rng, st) == Inner(es, i, j', seed, rng, st);
      InnerSkips(es, i, j', seed, rng, st);
    }
  }

  lemma {:induction false} InnerAddsRow(es: seq<Employee>, i: nat, j: nat, seed: Option<int>, rng: Rng, st: Building)
    requires i < |es| && i < j <= |es|
    requires forall x :: j <= x < |es| ==> es[x].id !in st.nodes
    ensures Ends(Inner(es, i, j, seed, rng, st).edges) == Ends(st.edges) + Row(Ids(es), i, j)
    decreases |es| - j
  {
    if j < |es| {
      var ids, j': nat := Ids(es), j + 1;
      var t := Triple(es[i].id, es[j].id, RandomizeRelationship(seed, rng, st.pos));
      var next := st.(edges := st.edges + [t], pos := st.pos + 4);
      InnerStep(es, i, j, j', seed, rng, st, next);
      InnerAddsRow(es, i, j', seed, rng, next);
      EndsSnoc(st.edges, t);
      RowCons(ids, i, j, j');
      Glue(Ends(Inner(es, i, j', seed, rng, next).edges), Ends(next.edges), Ends(st.edges), (ids[i], ids[j]), Row(ids, i, j'), Row(ids, i, j));
    }
  }

  /** An inner iteration that meets an id not stored yet appends one edge. */
  lemma InnerStep(es: seq<Employee>, i: nat, j: nat, j': nat, seed: Option<int>, rng: Rng, st: Building, next: Building)
    requires i < |es| && j < |es| && j' == j + 1
    requires es[j].id !in st.nodes
    requires next == st.(edges := st.edges + [Triple(es[i].id, es[j].id, RandomizeRelationship(seed, rng, st.pos))], pos := st.pos + 4)
    ensures Inner(es, i, j, seed, rng, st) == Inner(es, i, j', seed, rng, next)
  {
  }

  /** Splicing one element between a prefix and a suffix. */
  lemma Glue<T>(x: seq<T>, m: seq<T>, a: seq<T>, p: T, r1: seq<T>, r: seq<T>)
    requires x == m + r1 && m == a + [p] && r == [p] + r1
    ensures x == a + r
  {
    AppendAssoc(a, [p], r1);
  }

  /** With distinct ids, the inner loop of iteration `i` meets no stored id
      after position `i`. */
  lemma FreshAfter(es: seq<Employee>, i: nat, j: nat, st: Building)
    requires Distinct(Ids(es)) && i < j < |es|
    requires forall k :: k in st.nodes <==> k in Ids(es)[..i + 1]
    ensures es[j].id !in st.nodes
  {
    var ids := Ids(es);
    var seen := ids[..i + 1];
    forall x | 0 <= x < |seen| ensures seen[x] != es[j].id {
      assert ids[x] != ids[j];
    }
  }

  lemma AppendAssoc<T>(a: seq<T>, b: seq<T>, c: seq<T>)
    ensures (a + b) + c == a + (b + c)
  {
  }

  lemma SliceCons<T>(front: seq<T>, s: seq<T>, i: nat)
    requires i < |s|
    ensures (front + [s[i]]) + s[i + 1..] == front + s[i..]
  {
  }

  /** With distinct ids, outer iteration `i` meets an id not stored yet. */
  lemma FreshId(es: seq<Employee>, i: nat, st: Building)
    requires Distinct(Ids(es)) && Invariant(es, i, st) && i < |es|
    ensures es[i].id !in st.nodes
  {
    var ids := Ids(es);
    var seen := ids[..i];
    forall x | 0 <= x < |seen| ensures seen[x] != es[i].id {
      assert ids[x] != ids[i];
    }
  }

  lemma {:induction false} OuterAddsPairs(es: seq<Employee>, i: nat, seed: Option<int>, rng: Rng, st: Building)
    requires Distinct(Ids(es)) && Invariant(es, i, st)
    ensures Ends(Outer(es, i, seed, rng, st).edges) == Ends(st.edges) + PairsFrom(Ids(es), i)
    decreases |es| - i
  {
    if i < |es| {
      var ids := Ids(es);
      var inserted := Insert(st, es[i]);
      assert ids[..i + 1] == ids[..i] + [es[i].id];
      var next := Inner(es, i, 0, seed, rng, inserted);
      forall x | 0 <= x <= i ensures es[x].id in inserted.nodes {
        assert es[x].id == ids[..i + 1][x];
      }
      InnerSkips(es, i, 0, seed, rng, inserted);
      forall x | i + 1 <= x < |es| ensures es[x].id !in inserted.nodes {
        FreshAfter(es, i, x, inserted);
      }
      InnerAddsRow(es, i, i + 1, seed, rng, inserted);
      StepKeepsInvariant(es, i, seed, rng, st);
      OuterAddsPairs(es, i + 1, seed, rng, next);
      assert Outer(es, i, seed, rng, st) == Outer(es, i + 1, seed, rng, next);
      assert Ends(next.edges) == Ends(st.edges) + Row(ids, i, i + 1);
      assert PairsFrom(ids, i) == Row(ids, i, i + 1) + PairsFrom(ids, i + 1);
      AppendAssoc(Ends(st.edges), Row(ids, i, i + 1), PairsFrom(ids, i + 1));
    }
  }

  lemma {:induction false} OuterKeepsOrder(es: seq<Employee>, i: nat, seed: Option<int>, rng: Rng, st: Building)
    requires Distinct(Ids(es)) && Invariant(es, i, st)
    ensures Outer(es, i, seed, rng, st).roster == st.roster + Ids(es)[i..]
    decreases |es| - i
  {
    var ids := Ids(es);
    if i < |es| {
      FreshId(es, i, st);
      var next := Inner(es, i, 0, seed, rng, Insert(st, es[i]));
      StepKeepsInvariant(es, i, seed, rng, st);
      OuterKeepsOrder(es, i + 1, seed, rng, next);
      SliceCons(st.roster, ids, i);
    }
  }

  /** With distinct ids the network is fully connected in list order: the
      relationships join exactly the pairs `(ids[i], ids[j])` with `i < j`, row by
      row, and the dict order is the list order. */
  lemma BuildIsFullyConnected(es: seq<Employee>, seed: Option<int>, rng: Rng)
    requires Distinct(Ids(es))
    ensures Ends(Build(es, seed, rng).relationships) == Pairs(Ids(es))
    ensures Build(es, seed, rng).roster == Ids(es)
    ensures forall i :: 0 <= i < |es| ==> Build(es, seed, rng).employees[es[i].id] == es[i]
  {
    var st0 := Building(map[], [], [], 0);
    OuterAddsPairs(es, 0, seed, rng, st0);
    OuterKeepsOrder(es, 0, seed, rng, st0);
    var st := Outer(es, 0, seed, rng, st0);
    forall i | 0 <= i < |es| ensures st.nodes[es[i].id] == es[i] {
      StoredLast(es, 0, seed, rng, st0, i);
    }
  }

  /** With distinct ids, the value stored under `es[x].id` is `es[x]`. */
  lemma {:induction false} StoredLast(es: seq<Employee>, i: nat, seed: Option<int>, rng: Rng, st: Building, x: nat)
    requires Distinct(Ids(es)) && Invariant(es, i, st) && x < |es|
    requires x < i ==> st.nodes[es[x].id] == es[x]
    ensures Outer(es, i, seed, rng, st).nodes[es[x].id] == es[x]
    decreases |es| - i
  {
    if i < |es| {
      var i': nat := i + 1;
      var next := Inner(es, i, 0, seed, rng, Insert(st, es[i]));
      StoredStep(es, i, seed, rng, st, x);
      assert Outer(es, i, seed, rng, st) == Outer(es, i', seed, rng, next);
      StoredLast(es, i', seed, rng, next, x);
    } else {
      assert x < i;
    }
  }

  /** One outer iteration stores `es[i]` and, with distinct ids, keeps what the
      earlier iterations stored. */
  lemma StoredStep(es: seq<Employee>, i: nat, seed: Option<int>, rng: Rng, st: Building, x: nat)
    requires Distinct(Ids(es)) && Invariant(es, i, st) && i < |es| && x < |es|
    requires x < i ==> st.nodes[es[x].id] == es[x]
    ensures var next := Inner(es, i, 0, seed, rng, Insert(st, es[i]));
      Invariant(es, i + 1, next) && (x <= i ==> next.nodes[es[x].id] == es[x])
  {
    StepKeepsInvariant(es, i, seed, rng, st);
    if x < i {
      assert Ids(es)[x] != Ids(es)[i];
    }
  }

  // ---------------------------------------------------------------------------
  // Properties of the reference

  lemma {:induction false} PairsFromCount(ids: seq<Id>, from: nat)
    requires from <= |ids|
    ensures 2 * |PairsFrom(ids, from)| == (|ids| - from) * (|ids| - from - 1)
    decreases |ids| - from
  {
    if from < |ids| {
      PairsFromCount(ids, from + 1);
      var m := |ids| - from;
      assert |PairsFrom(ids, from)| == (m - 1) + |PairsFrom(ids, from + 1)|;
      assert m * (m - 1) == (m - 1) * (m - 2) + 2 * (m - 1) by {
        assert m * (m - 1) == (m - 1) * m;
        assert (m - 1) * m == (m - 1) * (m - 2) + (m - 1) * 2;
      }
    }
  }

  /** A network of `n` employees holds `n * (n - 1) / 2` relationships. */
  lemma PairsCount(ids: seq<Id>)
    ensures |Pairs(ids)| == |ids| * (|ids| - 1) / 2
  {
    PairsFromCount(ids, 0);
  }

  /** How many of the pairs mention `k` at either end. */
  function Mentions(k: Id, ps: seq<(Id, Id)>): nat
  {
    if ps == [] then 0 else (if ps[0].0 == k || ps[0].1 == k then 1 else 0) + Mentions(k, ps[1..])
  }

  lemma {:induction false} MentionsAppend(k: Id, a: seq<(Id, Id)>, b: seq<(Id, Id)>)
    ensures Mentions(k, a + b) == Mentions(k, a) + Mentions(k, b)
  {
    if a != [] {
      assert (a + b)[0] == a[0];
      assert (a + b)[1..] == a[1..] + b;
      MentionsAppend(k, a[1..], b);
    } else {
      assert a + b == b;
    }
  }

  /** Row `i` mentions `ids[m]` in every pair when `i == m`, and otherwise once
      when column `m` is still ahead. */
  lemma {:induction false} RowMentions(ids: seq<Id>, i: nat, j: nat, m: nat)
    requires Distinct(ids) && i < |ids| && j <= |ids| && m < |ids|
    ensures Mentions(ids[m], Row(ids, i, j)) == if i == m then |ids| - j else if j <= m then 1 else 0
    decreases |ids| - j
  {
    if j < |ids| {
      var j': nat := j + 1;
      RowCons(ids, i, j, j');
      RowMentions(ids, i, j', m);
      assert (ids[i] == ids[m]) == (i == m);
      assert (ids[j] == ids[m]) == (j == m);
    }
  }

  /** The rows from `from` on mention `ids[m]` once for every other id when row
      `m` is among them, and never otherwise. */
  lemma {:induction false} PairsFromMentions(ids: seq<Id>, from: nat, m: nat)
    requires Distinct(ids) && from <= |ids| && m < |ids|
    ensures Mentions(ids[m], PairsFrom(ids, from)) == if from <= m then |ids| - 1 - from else 0
    decreases |ids| - from
  {
    if from < |ids| {
      var next: nat := from + 1;
      RowMentions(ids, from, next, m);
      PairsFromMentions(ids, next, m);
      MentionsAppend(ids[m], Row(ids, from, next), PairsFrom(ids, next));
    }
  }

  /** In the pairs of distinct ids, each id is paired with every other one once. */
  lemma PairsMentionEachOthers(ids: seq<Id>, m: nat)
    requires Distinct(ids) && m < |ids|
    ensures Mentions(ids[m], Pairs(ids)) == |ids| - 1
  {
    PairsFromMentions(ids, 0, m);
  }

  lemma {:induction false} PairsFromSound(ids: seq<Id>, from: nat)
    requires from <= |ids|
    ensures forall p :: p in PairsFrom(ids, from) ==>
      exists i, j :: from <= i < j < |ids| && ids[i] == p.0 && ids[j] == p.1
    decreases |ids| - from
  {
    if from < |ids| {
      PairsFromSound(ids, from + 1);
      var row := Row(ids, from, from + 1);
      RowAt(ids, from, from + 1);
      forall p | p in row ensures exists i, j :: from <= i < j < |ids| && ids[i] == p.0 && ids[j] == p.1 {
        var x :| 0 <= x < |row| && row[x] == p;
        assert ids[from] == p.0 && ids[from + 1 + x] == p.1;
      }
    }
  }

  lemma {:induction false} PairsFromComplete(ids: seq<Id>, from: nat)
    requires from <= |ids|
    ensures forall i, j :: from <= i < j < |ids| ==> (ids[i], ids[j]) in PairsFrom(ids, from)
    decreases |ids| - from
  {
    if from < |ids| {
      PairsFromComplete(ids, from + 1);
      var row := Row(ids, from, from + 1);
      RowAt(ids, from, from + 1);
      forall i, j | from <= i < j < |ids| ensures (ids[i], ids[j]) in PairsFrom(ids, from) {
        if i == from {
          assert row[j - from - 1] == (ids[i], ids[j]);
        } else {
          assert (ids[i], ids[j]) in PairsFrom(ids, from + 1);
        }
      }
    }
  }

  lemma {:induction false} PairsFromDistinct(ids: seq<Id>, from: nat)
    requires Distinct(ids) && from <= |ids|
    ensures Distinct(PairsFrom(ids, from))
    ensures forall p :: p in PairsFrom(ids, from) ==> exists i :: from <= i < |ids| && ids[i] == p.0
    decreases |ids| - from
  {
    if from < |ids| {
      PairsFromDistinct(ids, from + 1);
      var row := Row(ids, from, from + 1);
      RowAt(ids, from, from + 1);
      var rest := PairsFrom(ids, from + 1);
      forall p | p in rest ensures p.0 != ids[from] {
        var i :| from + 1 <= i < |ids| && ids[i] == p.0;
      }
      assert Distinct(row) by {
        forall x, y | 0 <= x < y < |row| ensures row[x] != row[y] {
          assert ids[from + 1 + x] != ids[from + 1 + y];
        }
      }
      DistinctConcat(row, rest);
      forall p | p in row + rest ensures exists i :: from <= i < |ids| && ids[i] == p.0 {
        if p in row {
          var x :| 0 <= x < |row| && row[x] == p;
          assert ids[from] == p.0;
        }
      }
    }
  }

  lemma DistinctConcat<T>(a: seq<T>, b: seq<T>)
    requires Distinct(a) && Distinct(b)
    requires forall x :: x in a ==> x !in b
    ensures Distinct(a + b)
  {
    forall i, j | 0 <= i < j < |a + b| ensures (a + b)[i] != (a + b)[j] {
      if i < |a| && |a| <= j {
        assert (a + b)[i] in a && (a + b)[j] in b;
      }
    }
  }

  /** The reference pairs every two employees exactly once: a pair is listed iff
      its first id comes before its second in the list, no pair is listed twice,
      and no pair is listed in both orientations or with itself. */
  lemma PairsAreEachUnorderedPairOnce(ids: seq<Id>)
    requires Distinct(ids)
    ensures forall i, j :: 0 <= i < j < |ids| ==> (ids[i], ids[j]) in Pairs(ids)
    ensures forall p :: p in Pairs(ids) ==> exists i, j :: 0 <= i < j < |ids| && ids[i] == p.0 && ids[j] == p.1
    ensures Distinct(Pairs(ids))
    ensures forall a, b :: (a, b) in Pairs(ids) ==> a != b && (b, a) !in Pairs(ids)
  {
    PairsFromSound(ids, 0);
    PairsFromComplete(ids, 0);
    PairsFromDistinct(ids, 0);
    forall a, b | (a, b) in Pairs(ids) ensures a != b && (b, a) !in Pairs(ids) {
      var i, j :| 0 <= i < j < |ids| && ids[i] == a && ids[j] == b;
    }
  }
}
