/** The three-phase office scheduler (hr_game/simulation/run.py).

    Each update samples `SampleSize(|bus|)` distinct events of its bus and applies
    every sampled delta in sample order; a delta equal to the null sentinel is
    applied too and only its narration is suppressed. The three update functions
    return their narration as a log instead of printing it; the cycle functions
    keep only the updated values. A cycle updates every relationship, then every
    employee, then every employee once for each relationship it belongs to. */
module Scheduler {
  import opened Wrappers
  import opened EmployeeData
  import opened Events
  import opened Sampling
  import NetworkBuild

  /** An updated entity with the lines the update would print. */
  datatype Narrated<T> = Narrated(value: T, log: seq<string>)

  datatype Buses = Buses(
    employee: seq<EmployeeEvent>,
    relationship: seq<RelationshipEvent>,
    effecting: seq<EffectingEvent>)

  const CatalogBuses: Buses := Buses(EmployeeBus, RelationshipBus, EffectingBus)

  // ---------------------------------------------------------------------------
  // One entity, one cycle

  /** The loop body of `employee_update`, folded over the sampled picks. */
  function EmployeeEvents(u: Updater, e: Employee, verbose: bool, bus: seq<EmployeeEvent>, picks: seq<Pick>): (r: Narrated<Employee>)
    requires InBus(picks, |bus|)
    ensures |r.log| <= |picks|
    ensures !verbose ==> r.log == []
    ensures r.value == e.(stats := r.value.stats)
    ensures KeepsRange(u) && StatsInRange(e.stats) ==> StatsInRange(r.value.stats)
    decreases |picks|
  {
    if picks == [] then Narrated(e, [])
    else
      var ev := bus[picks[0].index];
      var d := EmployeePdf(ev, e, picks[0].draw);
      var rest := EmployeeEvents(u, Apply(u, e, d), verbose, bus, picks[1..]);
      var line := if d != NullDelta() && verbose then ["-- " + EmployeeDescription(ev, d)] else [];
      Narrated(rest.value, line + rest.log)
  }

  /** `employee_update(employee, verbose, events)`. */
  function EmployeeUpdate(u: Updater, e: Employee, verbose: bool, bus: seq<EmployeeEvent>, picks: seq<Pick>): (r: Narrated<Employee>)
    requires ValidSample(picks, |bus|, SampleSize(|bus|))
    ensures |r.log| <= SampleSize(|bus|)
    ensures r.value == e.(stats := r.value.stats)
    ensures KeepsRange(u) && StatsInRange(e.stats) ==> StatsInRange(r.value.stats)
  {
    EmployeeEvents(u, e, verbose, bus, picks)
  }

  /** An update rule that ignores the delta and counts its calls in `salary`. */
  function CountingUpdater(): Updater
  {
    Updater((s: Stats, d: EmployeeDelta) => s.(salary := s.salary + 1), (r: Relationship, d: RelationshipDelta) => r)
  }

  /** Every sampled delta reaches `update`, the null sentinel included: an update
      rule that counts its calls is called once per pick, verbose or not. */
  lemma {:induction false} EveryPickIsApplied(e: Employee, verbose: bool, bus: seq<EmployeeEvent>, picks: seq<Pick>)
    requires InBus(picks, |bus|)
    ensures EmployeeEvents(CountingUpdater(), e, verbose, bus, picks).value.stats.salary == e.stats.salary + |picks|
    decreases |picks|
  {
    if picks != [] {
      var ev := bus[picks[0].index];
      var d := EmployeePdf(ev, e, picks[0].draw);
      EveryPickIsApplied(Apply(CountingUpdater(), e, d), verbose, bus, picks[1..]);
    }
  }

  /** Printing never steers the state: the verbose and the silent update agree,
      and the verbose log has one line per non-null delta. */
  lemma {:induction false} NarrationIsOnlyNarration(u: Updater, e: Employee, bus: seq<EmployeeEvent>, picks: seq<Pick>)
    requires InBus(picks, |bus|)
    ensures EmployeeEvents(u, e, true, bus, picks).value == EmployeeEvents(u, e, false, bus, picks).value
    ensures |EmployeeEvents(u, e, true, bus, picks).log| == NonNullCount(u, e, bus, picks)
    decreases |picks|
  {
    if picks != [] {
      var ev := bus[picks[0].index];
      var d := EmployeePdf(ev, e, picks[0].draw);
      NarrationIsOnlyNarration(u, Apply(u, e, d), bus, picks[1..]);
    }
  }

  /** How many of the sampled events return something other than the null delta. */
  function NonNullCount(u: Updater, e: Employee, bus: seq<EmployeeEvent>, picks: seq<Pick>): nat
    requires InBus(picks, |bus|)
    decreases |picks|
  {
    if picks == [] then 0
    else
      var d := EmployeePdf(bus[picks[0].index], e, picks[0].draw);
      (if d != NullDelta() then 1 else 0) + NonNullCount(u, Apply(u, e, d), bus, picks[1..])
  }

  /** The words every narrated relationship change opens with; `print` puts a
      space between the header and the event's description. */
  function PairHeader(e1: Employee, e2: Employee): string
  {
    "the relationship between " + e1.name + " and " + e2.name + " changed-- "
  }

  /** `l` narrates a change to the relationship of `e1` and `e2`. */
  predicate Announces(e1: Employee, e2: Employee, l: string)
  {
    PairHeader(e1, e2) <= l
  }

  /** The loop body of `relationship_update`, folded over the sampled picks. */
  function RelationshipEvents(u: Updater, e1: Employee, e2: Employee, rel: Relationship, verbose: bool,
                              bus: seq<RelationshipEvent>, picks: seq<Pick>): (r: Narrated<Relationship>)
    requires InBus(picks, |bus|)
    ensures verbose ==> |r.log| == |picks|
    ensures !verbose ==> r.log == []
    ensures forall l :: l in r.log ==> Announces(e1, e2, l)
    decreases |picks|
  {
    if picks == [] then Narrated(rel, [])
    else
      var ev := bus[picks[0].index];
      var d := RelationshipPdf(ev, rel, e1, e2, picks[0].draw);
      var rest := RelationshipEvents(u, e1, e2, u.relationship(rel, d), verbose, bus, picks[1..]);
      RelationshipNarration(ev, rel, e1, e2, picks[0].draw);
      var line := if d != NullRelationshipDelta() && verbose
        then [PairHeader(e1, e2) + RelationshipDescription(ev, d)]
        else [];
      Narrated(rest.value, line + rest.log)
  }

  /** `relationship_update(e, e2, relationship, verbose, events)`: it works on a
      copy, so only the returned relationship carries the changes. Since no
      relationship event returns the null sentinel, a verbose update narrates
      every sampled event. */
  function RelationshipUpdate(u: Updater, e1: Employee, e2: Employee, rel: Relationship, verbose: bool,
                              bus: seq<RelationshipEvent>, picks: seq<Pick>): (r: Narrated<Relationship>)
    requires ValidSample(picks, |bus|, SampleSize(|bus|))
    ensures verbose ==> |r.log| == SampleSize(|bus|)
    ensures !verbose ==> r.log == []
    ensures forall l :: l in r.log ==> Announces(e1, e2, l)
  {
    RelationshipEvents(u, e1, e2, rel, verbose, bus, picks)
  }

  /** The loop body of `employee_updates_from_rel`, folded over the sampled picks. */
  function EffectingEvents(u: Updater, e: Employee, rel: Relationship, verbose: bool,
                           bus: seq<EffectingEvent>, picks: seq<Pick>): (r: Narrated<Employee>)
    requires InBus(picks, |bus|)
    ensures |r.log| <= |picks|
    ensures !verbose ==> r.log == []
    ensures r.value == e.(stats := r.value.stats)
    ensures KeepsRange(u) && StatsInRange(e.stats) ==> StatsInRange(r.value.stats)
    decreases |picks|
  {
    if picks == [] then Narrated(e, [])
    else
      var ev := bus[picks[0].index];
      var d := EffectingPdf(ev, rel, e, picks[0].draw);
      var rest := EffectingEvents(u, Apply(u, e, d), rel, verbose, bus, picks[1..]);
      var line := if d != NullDelta() && verbose then ["-- " + EffectingDescription(ev, d)] else [];
      Narrated(rest.value, line + rest.log)
  }

  /** `employee_updates_from_rel(employee, relationship, verbose, events)`: it
      works on a copy of the employee and returns it. */
  function EffectingUpdate(u: Updater, e: Employee, rel: Relationship, verbose: bool,
                           bus: seq<EffectingEvent>, picks: seq<Pick>): (r: Narrated<Employee>)
    requires ValidSample(picks, |bus|, SampleSize(|bus|))
    ensures |r.log| <= SampleSize(|bus|)
    ensures r.value == e.(stats := r.value.stats)
    ensures KeepsRange(u) && StatsInRange(e.stats) ==> StatsInRange(r.value.stats)
  {
    EffectingEvents(u, e, rel, verbose, bus, picks)
  }

  /** `simulate_employee`: `cycles` employee updates of a copy. The source returns
      nothing, so the caller's employee is left as it was; this is the final
      state of the copy. */
  function SimulateEmployee(u: Updater, e: Employee, cycles: nat, bus: seq<EmployeeEvent>, picks: nat -> seq<Pick>): (r: Employee)
    requires forall c :: ValidSample(picks(c), |bus|, SampleSize(|bus|))
    ensures r.id == e.id && r.name == e.name && r.age == e.age && r.memShort == e.memShort
    ensures cycles == 0 ==> r == e
    ensures KeepsRange(u) && StatsInRange(e.stats) ==> StatsInRange(r.stats)
    decreases cycles
  {
    if cycles == 0 then e
    else
      var before := SimulateEmployee(u, e, cycles - 1, bus, picks);
      EmployeeUpdate(u, before, false, bus, picks(cycles - 1)).value
  }

  // ---------------------------------------------------------------------------
  // The office, one cycle at a time

  /** The random outcome of a whole simulation: the picks of relationship `i` in
      cycle `c`, of employee `k` in cycle `c`, and of employee `k` against
      relationship `i` in cycle `c`. */
  datatype OfficeDraws = OfficeDraws(
    relationship: (nat, nat) -> seq<Pick>,
    employee: (nat, Id) -> seq<Pick>,
    effecting: (nat, Id, nat) -> seq<Pick>)

  ghost predicate ValidDraws(b: Buses, o: OfficeDraws)
  {
    && (forall c, i :: ValidSample(o.relationship(c, i), |b.relationship|, SampleSize(|b.relationship|)))
    && (forall c, k :: ValidSample(o.employee(c, k), |b.employee|, SampleSize(|b.employee|)))
    && (forall c, k, i :: ValidSample(o.effecting(c, k, i), |b.effecting|, SampleSize(|b.effecting|)))
  }

  /** The new relationship of triple `t` in phase one of cycle `c`. */
  function NewRelationship(u: Updater, emps: map<Id, Employee>, t: Triple, verbose: bool, b: Buses, picks: seq<Pick>): Relationship
    requires t.a in emps && t.b in emps
    requires ValidSample(picks, |b.relationship|, SampleSize(|b.relationship|))
  {
    RelationshipUpdate(u, emps[t.a], emps[t.b], t.rel, verbose, b.relationship, picks).value
  }

  /** Phase one from index `i` on: each triple keeps its ids and gets the
      relationship its update returns, read from the employees as they were
      before the phase. */
  function RelationshipPhase(u: Updater, emps: map<Id, Employee>, rels: seq<Triple>, i: nat, c: nat,
                             verbose: bool, b: Buses, o: OfficeDraws): (r: seq<Triple>)
    requires ValidDraws(b, o)
    requires i <= |rels|
    requires forall t :: t in rels ==> t.a in emps && t.b in emps
    ensures |r| == |rels|
    ensures forall j :: 0 <= j < i ==> r[j] == rels[j]
    ensures forall j :: 0 <= j < |rels| ==> r[j].a == rels[j].a && r[j].b == rels[j].b
    decreases |rels| - i
  {
    if i == |rels| then rels
    else
      var t := rels[i];
      var updated := rels[i := Triple(t.a, t.b, NewRelationship(u, emps, t, verbose, b, o.relationship(c, i)))];
      RelationshipPhase(u, emps, updated, i + 1, c, verbose, b, o)
  }

  /** Phase one gives triple `j`, for `j` from `i` on, the relationship its own
      update computes from the employees as they were before the phase. */
  lemma {:induction false} RelationshipPhaseAt(u: Updater, emps: map<Id, Employee>, rels: seq<Triple>, i: nat, c: nat,
                                               verbose: bool, b: Buses, o: OfficeDraws, j: nat)
    requires ValidDraws(b, o)
    requires i <= j < |rels|
    requires forall t :: t in rels ==> t.a in emps && t.b in emps
    ensures RelationshipPhase(u, emps, rels, i, c, verbose, b, o)[j]
      == Triple(rels[j].a, rels[j].b, NewRelationship(u, emps, rels[j], verbose, b, o.relationship(c, j)))
    decreases |rels| - i
  {
    var t := rels[i];
    var i': nat := i + 1;
    var updated := rels[i := Triple(t.a, t.b, NewRelationship(u, emps, t, verbose, b, o.relationship(c, i)))];
    assert forall x :: x in updated ==> x.a in emps && x.b in emps by {
      forall x | x in updated ensures x.a in emps && x.b in emps {
        var y :| 0 <= y < |updated| && updated[y] == x;
        assert rels[y] in rels;
      }
    }
    assert RelationshipPhase(u, emps, rels, i, c, verbose, b, o) == RelationshipPhase(u, emps, updated, i', c, verbose, b, o);
    if i < j {
      RelationshipPhaseAt(u, emps, updated, i', c, verbose, b, o, j);
    }
  }

  /** Phase two over the ids still to visit: each visited employee is replaced by
      the result of one `employee_update`; nobody else changes, and only the
      attributes a delta carries can change. */
  function EmployeePhase(u: Updater, emps: map<Id, Employee>, ids: seq<Id>, c: nat,
                         verbose: bool, b: Buses, o: OfficeDraws): (r: map<Id, Employee>)
    requires ValidDraws(b, o)
    requires Distinct(ids) && forall k :: k in ids ==> k in emps
    ensures OnlyStatsChanged(emps, r)
    ensures forall k :: k in emps && k !in ids ==> r[k] == emps[k]
    ensures KeepsRange(u) && PopulationInRange(emps) ==> PopulationInRange(r)
    decreases |ids|
  {
    if ids == [] then emps
    else
      var k := ids[0];
      var next := emps[k := EmployeeUpdate(u, emps[k], verbose, b.employee, o.employee(c, k)).value];
      assert forall x :: x in ids[1..] ==> x != k;
      assert OnlyStatsChanged(emps, next);
      assert KeepsRange(u) && PopulationInRange(emps) ==> PopulationInRange(next) by {
        if KeepsRange(u) && PopulationInRange(emps) {
          assert StatsInRange(next[k].stats);
        }
      }
      var r := EmployeePhase(u, next, ids[1..], c, verbose, b, o);
      OnlyStatsChangedTransitive(emps, next, r);
      r
  }

  /** Phase two replaces each visited employee by the result of its own
      `employee_update`. */
  lemma {:induction false} EmployeePhaseAt(u: Updater, emps: map<Id, Employee>, ids: seq<Id>, c: nat,
                                           verbose: bool, b: Buses, o: OfficeDraws, k: Id)
    requires ValidDraws(b, o)
    requires Distinct(ids) && forall x :: x in ids ==> x in emps
    requires k in ids
    ensures EmployeePhase(u, emps, ids, c, verbose, b, o)[k] == EmployeeUpdate(u, emps[k], verbose, b.employee, o.employee(c, k)).value
    decreases |ids|
  {
    var h := ids[0];
    var next := emps[h := EmployeeUpdate(u, emps[h], verbose, b.employee, o.employee(c, h)).value];
    assert forall x :: x in ids[1..] ==> x != h;
    if k != h {
      assert k in ids[1..];
      EmployeePhaseAt(u, next, ids[1..], c, verbose, b, o, k);
    }
  }

  /** The indices from `j` on of the triples that mention `k`, in list order. */
  function InvolvingFrom(k: Id, rels: seq<Triple>, j: nat): (r: seq<nat>)
    requires j <= |rels|
    ensures forall i :: 0 <= i < |r| ==> j <= r[i] < |rels|
    ensures forall x: nat :: x in r <==> j <= x < |rels| && (rels[x].a == k || rels[x].b == k)
    ensures forall x, y :: 0 <= x < y < |r| ==> r[x] < r[y]
    decreases |rels| - j
  {
    if j == |rels| then []
    else
      var rest := InvolvingFrom(k, rels, j + 1);
      var head := if rels[j].a == k || rels[j].b == k then [j] else [];
      assert forall x: nat :: x in head + rest <==> x in head || x in rest;
      head + rest
  }

  /** The indices of the triples that mention `k`, in list order. */
  function Involving(k: Id, rels: seq<Triple>): (r: seq<nat>)
    ensures forall i :: 0 <= i < |r| ==> r[i] < |rels|
    ensures forall x: nat :: x in r <==> x < |rels| && (rels[x].a == k || rels[x].b == k)
    ensures forall x, y :: 0 <= x < y < |r| ==> r[x] < r[y]
  {
    InvolvingFrom(k, rels, 0)
  }

  /** The triples from `j` on that mention `k` are as many as the pairs of
      their ends that do. */
  lemma {:induction false} InvolvingFromCount(k: Id, rels: seq<Triple>, j: nat)
    requires j <= |rels|
    ensures |InvolvingFrom(k, rels, j)| == NetworkBuild.Mentions(k, NetworkBuild.Ends(rels)[j..])
    decreases |rels| - j
  {
    if j < |rels| {
      var j': nat := j + 1;
      var e := NetworkBuild.Ends(rels);
      InvolvingFromCount(k, rels, j');
      NetworkBuild.EndsAt(rels, j);
      assert e[j..][0] == e[j];
      assert e[j..][1..] == e[j'..];
    }
  }

  /** In a network built fully connected from employees with distinct ids, each
      employee is in exactly one triple with every other employee, so phase three
      applies its effecting update `n - 1` times per cycle. */
  lemma EachEmployeeMeetsEveryOther(es: seq<Employee>, seed: Option<int>, rng: NetworkBuild.Rng, k: Id)
    requires Distinct(Ids(es)) && k in Ids(es)
    ensures |Involving(k, NetworkBuild.Build(es, seed, rng).relationships)| == |es| - 1
  {
    var rels := NetworkBuild.Build(es, seed, rng).relationships;
    var m :| 0 <= m < |es| && Ids(es)[m] == k;
    InvolvingFromCount(k, rels, 0);
    assert NetworkBuild.Ends(rels)[0..] == NetworkBuild.Ends(rels);
    NetworkBuild.BuildIsFullyConnected(es, seed, rng);
    NetworkBuild.PairsMentionEachOthers(Ids(es), m);
  }

  /** Phase three for one employee, the inner loop of the source: every triple of
      the list is visited and those mentioning `k` apply their effects. */
  function EffectsFrom(u: Updater, e: Employee, k: Id, rels: seq<Triple>, j: nat, c: nat,
                       verbose: bool, b: Buses, o: OfficeDraws): (r: Employee)
    requires ValidDraws(b, o)
    requires j <= |rels|
    ensures r == e.(stats := r.stats)
    ensures KeepsRange(u) && StatsInRange(e.stats) ==> StatsInRange(r.stats)
    decreases |rels| - j
  {
    if j == |rels| then e
    else
      var t := rels[j];
      var next := if t.a == k || t.b == k
        then EffectingUpdate(u, e, t.rel, verbose, b.effecting, o.effecting(c, k, j)).value
        else e;
      EffectsFrom(u, next, k, rels, j + 1, c, verbose, b, o)
  }

  /** The effects of the triples at `idx`, one `employee_updates_from_rel` each,
      in the order of `idx`. */
  function EffectsAlong(u: Updater, e: Employee, k: Id, rels: seq<Triple>, idx: seq<nat>, c: nat,
                        verbose: bool, b: Buses, o: OfficeDraws): Employee
    requires ValidDraws(b, o)
    requires forall i :: 0 <= i < |idx| ==> idx[i] < |rels|
    decreases |idx|
  {
    if idx == [] then e
    else
      var j := idx[0];
      EffectsAlong(u, EffectingUpdate(u, e, rels[j].rel, verbose, b.effecting, o.effecting(c, k, j)).value,
                   k, rels, idx[1..], c, verbose, b, o)
  }

  lemma {:induction false} EffectsFromIsAlong(u: Updater, e: Employee, k: Id, rels: seq<Triple>, j: nat, c: nat,
                                              verbose: bool, b: Buses, o: OfficeDraws)
    requires ValidDraws(b, o)
    requires j <= |rels|
    ensures EffectsFrom(u, e, k, rels, j, c, verbose, b, o) == EffectsAlong(u, e, k, rels, InvolvingFrom(k, rels, j), c, verbose, b, o)
    decreases |rels| - j
  {
    if j < |rels| {
      var t := rels[j];
      if t.a == k || t.b == k {
        var next := EffectingUpdate(u, e, t.rel, verbose, b.effecting, o.effecting(c, k, j)).value;
        EffectsFromIsAlong(u, next, k, rels, j + 1, c, verbose, b, o);
        assert InvolvingFrom(k, rels, j) == [j] + InvolvingFrom(k, rels, j + 1);
      } else {
        EffectsFromIsAlong(u, e, k, rels, j + 1, c, verbose, b, o);
        assert InvolvingFrom(k, rels, j) == InvolvingFrom(k, rels, j + 1);
      }
    }
  }

  /** Phase three visits, for employee `k`, exactly the triples that mention `k`,
      in list order, and applies one `employee_updates_from_rel` for each. */
  lemma EffectsFollowInvolving(u: Updater, e: Employee, k: Id, rels: seq<Triple>, c: nat,
                               verbose: bool, b: Buses, o: OfficeDraws)
    requires ValidDraws(b, o)
    ensures EffectsFrom(u, e, k, rels, 0, c, verbose, b, o) == EffectsAlong(u, e, k, rels, Involving(k, rels), c, verbose, b, o)
  {
    EffectsFromIsAlong(u, e, k, rels, 0, c, verbose, b, o);
  }

  /** Phase three over the ids still to visit. */
  function EffectingPhase(u: Updater, emps: map<Id, Employee>, ids: seq<Id>, rels: seq<Triple>, c: nat,
                          verbose: bool, b: Buses, o: OfficeDraws): (r: map<Id, Employee>)
    requires ValidDraws(b, o)
    requires Distinct(ids) && forall k :: k in ids ==> k in emps
    ensures OnlyStatsChanged(emps, r)
    ensures forall k :: k in emps && k !in ids ==> r[k] == emps[k]
    ensures KeepsRange(u) && PopulationInRange(emps) ==> PopulationInRange(r)
    decreases |ids|
  {
    if ids == [] then emps
    else
      var k := ids[0];
      var next := emps[k := EffectsFrom(u, emps[k], k, rels, 0, c, verbose, b, o)];
      assert forall x :: x in ids[1..] ==> x != k;
      assert OnlyStatsChanged(emps, next);
      var r := EffectingPhase(u, next, ids[1..], rels, c, verbose, b, o);
      OnlyStatsChangedTransitive(emps, next, r);
      r
  }

  /** Phase three replaces each visited employee by its own inner loop over the
      relationship list. */
  lemma {:induction false} EffectingPhaseAt(u: Updater, emps: map<Id, Employee>, ids: seq<Id>, rels: seq<Triple>, c: nat,
                                            verbose: bool, b: Buses, o: OfficeDraws, k: Id)
    requires ValidDraws(b, o)
    requires Distinct(ids) && forall x :: x in ids ==> x in emps
    requires k in ids
    ensures EffectingPhase(u, emps, ids, rels, c, verbose, b, o)[k] == EffectsFrom(u, emps[k], k, rels, 0, c, verbose, b, o)
    decreases |ids|
  {
    var h := ids[0];
    var next := emps[h := EffectsFrom(u, emps[h], h, rels, 0, c, verbose, b, o)];
    assert forall x :: x in ids[1..] ==> x != h;
    if k != h {
      assert k in ids[1..];
      EffectingPhaseAt(u, next, ids[1..], rels, c, verbose, b, o, k);
    }
  }

  /** Replacing only the relationships of a closed list keeps it closed. */
  lemma SameEndsStayClosed(emps: map<Id, Employee>, rels: seq<Triple>, rels': seq<Triple>)
    requires forall t :: t in rels ==> t.a in emps && t.b in emps
    requires |rels'| == |rels|
    requires forall j :: 0 <= j < |rels| ==> rels'[j].a == rels[j].a && rels'[j].b == rels[j].b
    ensures forall t :: t in rels' ==> t.a in emps && t.b in emps
  {
    forall t | t in rels' ensures t.a in emps && t.b in emps {
      var j :| 0 <= j < |rels'| && rels'[j] == t;
      assert rels[j] in rels;
    }
  }

  /** One cycle of `simulate_office`: relationships, then employees, then the
      effects of relationships on employees, each phase reading what the earlier
      ones wrote. */
  function OfficeCycle(u: Updater, n: Network, c: nat, verbose: bool, b: Buses, o: OfficeDraws): (r: Network)
    requires ValidDraws(b, o)
    requires WellFormed(n) && Closed(n)
    ensures SameShape(n, r)
    ensures WellFormed(r) && Closed(r)
    ensures KeepsRange(u) && PopulationInRange(n.employees) ==> PopulationInRange(r.employees)
  {
    var rels := RelationshipPhase(u, n.employees, n.relationships, 0, c, verbose, b, o);
    var afterEmployees := EmployeePhase(u, n.employees, n.roster, c, verbose, b, o);
    var afterEffects := EffectingPhase(u, afterEmployees, n.roster, rels, c, verbose, b, o);
    SameEndsStayClosed(n.employees, n.relationships, rels);
    OnlyStatsChangedTransitive(n.employees, afterEmployees, afterEffects);
    OnlyStatsChangedKeepsWellFormed(n, afterEffects);
    Network(afterEffects, n.roster, rels)
  }

  /** Each cycle's phases in terms of the state before the cycle: every employee
      gets exactly one `employee_update` and then, in list order, one
      `employee_updates_from_rel` per triple that mentions it, using the
      relationships phase one of the same cycle produced. */
  lemma OfficeCycleSteps(u: Updater, n: Network, c: nat, verbose: bool, b: Buses, o: OfficeDraws, k: Id)
    requires ValidDraws(b, o)
    requires WellFormed(n) && Closed(n)
    requires k in n.employees
    ensures var r := OfficeCycle(u, n, c, verbose, b, o);
      var afterUpdate := EmployeeUpdate(u, n.employees[k], verbose, b.employee, o.employee(c, k)).value;
      r.employees[k] == EffectsAlong(u, afterUpdate, k, r.relationships, Involving(k, r.relationships), c, verbose, b, o)
  {
    var rels := RelationshipPhase(u, n.employees, n.relationships, 0, c, verbose, b, o);
    var afterEmployees := EmployeePhase(u, n.employees, n.roster, c, verbose, b, o);
    EmployeePhaseAt(u, n.employees, n.roster, c, verbose, b, o, k);
    EffectingPhaseAt(u, afterEmployees, n.roster, rels, c, verbose, b, o, k);
    EffectsFollowInvolving(u, afterEmployees[k], k, rels, c, verbose, b, o);
  }

  /** `after` holds the same employees and relationships as `before`: only
      stats and relationship values differ. */
  ghost predicate SameShape(before: Network, after: Network)
  {
    && OnlyStatsChanged(before.employees, after.employees) && after.roster == before.roster
    && |after.relationships| == |before.relationships|
    && forall j :: 0 <= j < |before.relationships| ==>
      after.relationships[j].a == before.relationships[j].a && after.relationships[j].b == before.relationships[j].b
  }

  lemma SameShapeTransitive(n1: Network, n2: Network, n3: Network)
    requires SameShape(n1, n2) && SameShape(n2, n3)
    ensures SameShape(n1, n3)
  {
    OnlyStatsChangedTransitive(n1.employees, n2.employees, n3.employees);
  }

  /** `simulate_office` over `cycles` cycles; cycle `c` narrates only when
      `c % 10 == 0`. */
  function SimulateOffice(u: Updater, n: Network, cycles: nat, verbose: bool, b: Buses, o: OfficeDraws): (r: Network)
    requires ValidDraws(b, o)
    requires WellFormed(n) && Closed(n)
    ensures SameShape(n, r)
    ensures WellFormed(r) && Closed(r)
    ensures KeepsRange(u) && PopulationInRange(n.employees) ==> PopulationInRange(r.employees)
    decreases cycles
  {
    if cycles == 0 then n
    else
      var before := SimulateOffice(u, n, cycles - 1, verbose, b, o);
      var r := OfficeCycle(u, before, cycles - 1, verbose && (cycles - 1) % 10 == 0, b, o);
      SameShapeTransitive(n, before, r);
      r
  }
}
