/** The entity records of the simulator (hr_game/data/employee.py) and the
    employee network they live in.

    `Employee.update` and `EmployeeRelationship.update` are called throughout the
    simulator but are not defined in the module that declares the records, so the
    model does not fix them: an `Updater` carries both as function values and
    every operation that applies a delta takes one. The employee update only
    sees the eight attributes that a delta carries (`Stats`), so an update can
    never change an employee's id, name, age, level or memory. */
module EmployeeData {
  import opened Wrappers

  /** The stable key of an employee in the network. */
  type Id = string

  datatype Trait = Trait(name: string, effect: real)

  /** The attributes an `EmployeeDelta` adjusts, one field per delta field. */
  datatype Stats = Stats(
    stress: int,
    greed: int,
    salary: int,
    anger: int,
    happiness: int,
    health: int,
    horniness: int,
    productivity: int)

  datatype Employee = Employee(
    id: Id,
    name: string,
    age: int,
    stats: Stats,
    traits: seq<Trait>,
    memShort: seq<string>,
    department: string,
    level: string,
    tenureMonths: int)

  /** Signed changes; every field must be supplied, there are no defaults. */
  datatype EmployeeDelta = EmployeeDelta(
    stress: int,
    greed: int,
    salary: int,
    anger: int,
    happiness: int,
    health: int,
    horniness: int,
    productivity: int)

  datatype Relationship = Relationship(attraction: real, resentment: real, synergy: real, friendship: real)

  datatype RelationshipDelta = RelationshipDelta(attraction: real, resentment: real, synergy: real, friendship: real)

  /** One `(employee_id_a, employee_id_b, relationship)` entry of the network. */
  datatype Triple = Triple(a: Id, b: Id, rel: Relationship)

  /** The employee mapping together with its insertion order (`roster`), which is
      the order in which Python iterates the dict, and the relationship list. */
  datatype Network = Network(employees: map<Id, Employee>, roster: seq<Id>, relationships: seq<Triple>)

  /** The two update rules the model leaves abstract. */
  datatype Updater = Updater(
    employee: (Stats, EmployeeDelta) -> Stats,
    relationship: (Relationship, RelationshipDelta) -> Relationship)

  /** A random draw: `random.random()` returns a value in [0, 1). */
  predicate IsDraw(x: real) { 0.0 <= x < 1.0 }

  /** An employee built with every defaulted field left at its default; the
      fields the record declares without a default are arguments. */
  function NewEmployee(id: Id, name: string, age: int, health: int, department: string, level: string, tenureMonths: int): (e: Employee)
    ensures e.id == id && e.name == name && e.age == age
    ensures e.stats.stress == 0 && e.stats.greed == 20 && e.stats.salary == 80_000
    ensures e.stats.anger == 0 && e.stats.horniness == 0 && e.stats.happiness == 50
    ensures e.stats.productivity == 10
    ensures e.traits == []
    ensures StatsInRange(e.stats)
  {
    Employee(id, name, age, Stats(0, 20, 80_000, 0, 50, health, 0, 10), [], [], department, level, tenureMonths)
  }

  /** A relationship with every multiplier at its default. */
  function NewRelationship(): (r: Relationship)
    ensures r.attraction == 1.0 && r.resentment == 1.0 && r.synergy == 1.0 && r.friendship == 1.0
  {
    Relationship(1.0, 1.0, 1.0, 1.0)
  }

  /** The documented 0-100 scale of an attribute. */
  predicate InScale(x: int) { 0 <= x <= 100 }

  /** Every attribute documented as a 0-100 scale lies on it. */
  predicate StatsInRange(s: Stats)
  {
    InScale(s.stress) && InScale(s.greed) && InScale(s.anger)
    && InScale(s.horniness) && InScale(s.happiness) && InScale(s.productivity)
  }

  /** The assumption the model makes of the unseen employee update: it keeps the
      documented scales, whatever the delta. */
  ghost predicate KeepsRange(u: Updater)
  {
    forall s: Stats, d: EmployeeDelta :: StatsInRange(s) ==> StatsInRange(u.employee(s, d))
  }

  ghost predicate PopulationInRange(m: map<Id, Employee>)
  {
    forall k :: k in m ==> StatsInRange(m[k].stats)
  }

  /** `employee.update(delta)`. */
  function Apply(u: Updater, e: Employee, d: EmployeeDelta): (r: Employee)
    ensures r == e.(stats := r.stats)
    ensures KeepsRange(u) && StatsInRange(e.stats) ==> StatsInRange(r.stats)
  {
    e.(stats := u.employee(e.stats, d))
  }

  /** `employee.mem_short.append(note)`. */
  function Remember(e: Employee, note: string): (r: Employee)
    ensures r.stats == e.stats && r.id == e.id && r.name == e.name
    ensures |r.memShort| == |e.memShort| + 1 && r.memShort[|e.memShort|] == note
    ensures r.memShort[..|e.memShort|] == e.memShort
  {
    e.(memShort := e.memShort + [note])
  }

  /** `after` holds the same employees as `before`, each changed at most in the
      attributes a delta carries. */
  ghost predicate OnlyStatsChanged(before: map<Id, Employee>, after: map<Id, Employee>)
  {
    && after.Keys == before.Keys
    && forall k :: k in after ==> after[k] == before[k].(stats := after[k].stats)
  }

  lemma OnlyStatsChangedTransitive(m1: map<Id, Employee>, m2: map<Id, Employee>, m3: map<Id, Employee>)
    requires OnlyStatsChanged(m1, m2) && OnlyStatsChanged(m2, m3)
    ensures OnlyStatsChanged(m1, m3)
  {
    forall k | k in m3 ensures m3[k] == m1[k].(stats := m3[k].stats) {
      assert m2[k] == m1[k].(stats := m2[k].stats);
    }
  }

  /** Changing only attributes keeps the dict invariant. */
  lemma OnlyStatsChangedKeepsWellFormed(n: Network, m: map<Id, Employee>)
    requires WellFormed(n) && OnlyStatsChanged(n.employees, m)
    ensures WellFormed(n.(employees := m))
  {
    forall k | k in m ensures m[k].id == k {
      assert m[k] == n.employees[k].(stats := m[k].stats);
    }
  }

  /** The dict invariant: the roster lists every key exactly once, and every
      employee is stored under its own id. */
  ghost predicate WellFormed(n: Network)
  {
    && Distinct(n.roster)
    && (forall k :: k in n.employees <==> k in n.roster)
    && (forall k :: k in n.employees ==> n.employees[k].id == k)
  }

  /** Every relationship refers to two employees of the network. */
  ghost predicate Closed(n: Network)
  {
    forall t :: t in n.relationships ==> t.a in n.employees && t.b in n.employees
  }

  /** `list(employees.values())`: the employees in dict order. */
  function ValuesOf(m: map<Id, Employee>, ids: seq<Id>): (r: seq<Employee>)
    ensures |r| <= |ids|
    ensures (forall k :: k in ids ==> k in m) ==> |r| == |ids| && forall i :: 0 <= i < |ids| ==> r[i] == m[ids[i]]
    ensures forall e :: e in r ==> exists k :: k in m && k in ids && m[k] == e
  {
    if ids == [] then []
    else (if ids[0] in m then [m[ids[0]]] else []) + ValuesOf(m, ids[1..])
  }

  function Values(n: Network): seq<Employee>
  {
    ValuesOf(n.employees, n.roster)
  }

  /** The ids of a list of employees, in order. */
  function Ids(es: seq<Employee>): (r: seq<Id>)
    ensures |r| == |es| && forall i :: 0 <= i < |es| ==> r[i] == es[i].id
  {
    seq(|es|, i requires 0 <= i < |es| => es[i].id)
  }

  /** The roster with every id of `gone` left out, order kept. */
  function Without(ids: seq<Id>, gone: set<Id>): (r: seq<Id>)
    ensures forall k :: k in r <==> k in ids && k !in gone
    ensures Distinct(ids) ==> Distinct(r)
    ensures |r| <= |ids|
  {
    if ids == [] then []
    else (if ids[0] in gone then [] else [ids[0]]) + Without(ids[1..], gone)
  }

  /** Leaving ids out works element by element: a single id survives exactly when it is not gone. */
  lemma WithoutSingleton(k: Id, gone: set<Id>)
    ensures Without([k], gone) == if k in gone then [] else [k]
  {
    assert [k][1..] == [];
  }

  /** Leaving ids out keeps the order of the roster: it distributes over concatenation. */
  lemma {:induction false} WithoutAppend(a: seq<Id>, b: seq<Id>, gone: set<Id>)
    ensures Without(a + b, gone) == Without(a, gone) + Without(b, gone)
  {
    if a == [] {
      assert a + b == b;
    } else {
      assert (a + b)[0] == a[0];
      assert (a + b)[1..] == a[1..] + b;
      WithoutAppend(a[1..], b, gone);
    }
  }

  /** `del employees[k]` for every `k` of `gone`; the relationship list is not touched. */
  function RemoveEmployees(n: Network, gone: set<Id>): (r: Network)
    ensures r.employees.Keys == n.employees.Keys - gone
    ensures forall k :: k in r.employees ==> r.employees[k] == n.employees[k]
    ensures r.relationships == n.relationships
    ensures WellFormed(n) ==> WellFormed(r)
  {
    Network(n.employees - gone, Without(n.roster, gone), n.relationships)
  }

  lemma {:induction false} WellFormedSize(n: Network)
    requires WellFormed(n)
    ensures |n.employees| == |n.roster|
    ensures |Values(n)| == |n.roster|
  {
    DistinctCard(n.roster);
    assert n.employees.Keys == set k | k in n.roster;
  }

  lemma {:induction false} DistinctCard<T>(s: seq<T>)
    requires Distinct(s)
    ensures |set x | x in s| == |s|
  {
    if s != [] {
      DistinctCard(s[1..]);
      assert (set x | x in s) == {s[0]} + (set x | x in s[1..]);
      assert s[0] !in s[1..];
    }
  }
}
