/** The bookkeeping of the game engine (hr_game/engine/game_loop.py): advancing
    a day, the crisis countdown, the player's actions on one employee, the
    game-over test and the company metrics.

    `step_day` draws differently from the office scheduler: it samples three
    employee events per employee and two relationship and two effecting events
    per relationship, and applies a sampled event only when a fresh gate draw
    exceeds a threshold. Every draw is an argument. */
module GameLoop {
  import opened Wrappers
  import opened EmployeeData
  import opened CompanyData
  import opened Sampling
  import opened Events
  import Population
  import CrisisGeneration
  import UserActions
  import Scheduler

  // ---------------------------------------------------------------------------
  // Draws of one day

  /** One sampled event: its position in the bus, the gate draw, and the draw
      handed to its `pdf`. */
  datatype GatedPick = GatedPick(index: nat, gate: real, draw: real)

  /** One sampled effecting event of a relationship: the gate draw, then one
      draw for each end. */
  datatype PairPick = PairPick(index: nat, gate: real, first: real, second: real)

  /** `random.sample(bus, count)` with the draws each sampled event consumes. */
  predicate ValidGated(ps: seq<GatedPick>, size: nat, count: nat)
  {
    && |ps| == count
    && (forall i :: 0 <= i < |ps| ==> ps[i].index < size && IsDraw(ps[i].gate) && IsDraw(ps[i].draw))
    && (forall i, j :: 0 <= i < j < |ps| ==> ps[i].index != ps[j].index)
  }

  predicate ValidPairPicks(ps: seq<PairPick>, size: nat, count: nat)
  {
    && |ps| == count
    && (forall i :: 0 <= i < |ps| ==> ps[i].index < size && IsDraw(ps[i].gate) && IsDraw(ps[i].first) && IsDraw(ps[i].second))
    && (forall i, j :: 0 <= i < j < |ps| ==> ps[i].index != ps[j].index)
  }

  /** Everything one `step_day` draws: the employee picks by id, the
      relationship and effecting picks by position in the relationship list,
      and the draws of the crisis tests. */
  datatype DayDraws = DayDraws(
    employee: map<Id, seq<GatedPick>>,
    relationship: seq<seq<GatedPick>>,
    effecting: seq<seq<PairPick>>,
    crisis: CrisisGeneration.CrisisDraws)

  /** The gate an employee event must pass, and the one a relationship or
      effecting event must pass. */
  const EmployeeGate: real := 0.7
  const PairGate: real := 0.8

  predicate ValidDayDraws(g: GameState, d: DayDraws)
  {
    && (forall k :: k in g.network.employees ==>
          k in d.employee && ValidGated(d.employee[k], |EmployeeBus|, Min(3, |EmployeeBus|)))
    && |d.relationship| == |g.network.relationships|
    && |d.effecting| == |g.network.relationships|
    && (forall j :: 0 <= j < |d.relationship| ==>
          ValidGated(d.relationship[j], |RelationshipBus|, Min(2, |RelationshipBus|)))
    && (forall j :: 0 <= j < |d.effecting| ==>
          ValidPairPicks(d.effecting[j], |EffectingBus|, Min(2, |EffectingBus|)))
    && CrisisGeneration.ValidCrisisDraws(d.crisis)
  }

  // ---------------------------------------------------------------------------
  // The daily events

  /** The sampled employee events of one employee: each applies when its gate
      draw exceeds 0.7. */
  function EmployeeDay(u: Updater, e: Employee, picks: seq<GatedPick>): (r: Employee)
    requires forall i :: 0 <= i < |picks| ==> picks[i].index < |EmployeeBus|
    ensures r == e.(stats := r.stats)
    decreases |picks|
  {
    if picks == [] then e
    else
      var p := picks[0];
      var e' := if p.gate > EmployeeGate then Apply(u, e, EmployeePdf(EmployeeBus[p.index], e, p.draw)) else e;
      EmployeeDay(u, e', picks[1..])
  }

  /** How many picks pass a gate. */
  function Passing(gates: seq<real>, threshold: real): (r: nat)
    ensures r <= |gates|
  {
    if gates == [] then 0 else (if gates[0] > threshold then 1 else 0) + Passing(gates[1..], threshold)
  }

  function Gates(picks: seq<GatedPick>): (r: seq<real>)
    ensures |r| == |picks| && forall i :: 0 <= i < |picks| ==> r[i] == picks[i].gate
  {
    seq(|picks|, i requires 0 <= i < |picks| => picks[i].gate)
  }

  /** The picks whose gate draw exceeds `threshold`, in order. */
  function Open(picks: seq<GatedPick>, threshold: real): (r: seq<GatedPick>)
    ensures |r| <= |picks|
    ensures forall p :: p in r <==> p in picks && p.gate > threshold
  {
    if picks == [] then []
    else (if picks[0].gate > threshold then [picks[0]] else []) + Open(picks[1..], threshold)
  }

  /** Every pick's relationship event applied in turn, with no gate: the
      reference the gated loop is compared with. */
  function ApplyAll(u: Updater, rel: Relationship, e1: Employee, e2: Employee, picks: seq<GatedPick>): Relationship
    requires forall p :: p in picks ==> p.index < |RelationshipBus|
    decreases |picks|
  {
    if picks == [] then rel
    else
      var p := picks[0];
      ApplyAll(u, u.relationship(rel, RelationshipPdf(RelationshipBus[p.index], rel, e1, e2, p.draw)), e1, e2, picks[1..])
  }

  /** The sampled relationship events of one pair: each that passes its gate
      updates the relationship, read by the next. Gating a pick is dropping it:
      the result is every open pick's event applied in order. */
  function RelationshipDay(u: Updater, rel: Relationship, e1: Employee, e2: Employee, picks: seq<GatedPick>): (r: Relationship)
    requires forall i :: 0 <= i < |picks| ==> picks[i].index < |RelationshipBus|
    ensures r == ApplyAll(u, rel, e1, e2, Open(picks, PairGate))
    decreases |picks|
  {
    if picks == [] then rel
    else
      var p := picks[0];
      var rel' := if p.gate > PairGate then u.relationship(rel, RelationshipPdf(RelationshipBus[p.index], rel, e1, e2, p.draw)) else rel;
      var rest := Open(picks[1..], PairGate);
      assert Open(picks, PairGate) == if p.gate > PairGate then [p] + rest else rest;
      assert p.gate > PairGate ==> ([p] + rest)[0] == p && ([p] + rest)[1..] == rest;
      RelationshipDay(u, rel', e1, e2, picks[1..])
  }

  /** One effecting event that passed its gate: the first end is updated,
      then the second, each with its own draw. */
  function EffectBoth(u: Updater, m: map<Id, Employee>, a: Id, b: Id, rel: Relationship, ev: EffectingEvent,
                      first: real, second: real): (r: map<Id, Employee>)
    requires a in m && b in m
    ensures OnlyStatsChanged(m, r)
    ensures forall k :: k in r && k != a && k != b ==> r[k] == m[k]
  {
    var m1 := m[a := Apply(u, m[a], EffectingPdf(ev, rel, m[a], first))];
    m1[b := Apply(u, m1[b], EffectingPdf(ev, rel, m1[b], second))]
  }

  /** The sampled effecting events of one pair: each that passes its gate
      updates both ends. */
  function EffectingDay(u: Updater, m: map<Id, Employee>, a: Id, b: Id, rel: Relationship, picks: seq<PairPick>): (r: map<Id, Employee>)
    requires a in m && b in m
    requires forall i :: 0 <= i < |picks| ==> picks[i].index < |EffectingBus|
    ensures OnlyStatsChanged(m, r)
    ensures forall k :: k in r && k != a && k != b ==> r[k] == m[k]
    decreases |picks|
  {
    if picks == [] then m
    else
      var p := picks[0];
      var m' := if p.gate > PairGate then EffectBoth(u, m, a, b, rel, EffectingBus[p.index], p.first, p.second) else m;
      var r := EffectingDay(u, m', a, b, rel, picks[1..]);
      OnlyStatsChangedTransitive(m, m', r);
      r
  }

  /** Whether both ends of a relationship are employees of `n`. */
  predicate Linked(n: Network, t: Triple)
  {
    t.a in n.employees && t.b in n.employees
  }

  /** The picks of every relationship lie in their buses. */
  predicate PairPicksInBus(d: seq<seq<GatedPick>>, f: seq<seq<PairPick>>)
  {
    && (forall j, i :: 0 <= j < |d| && 0 <= i < |d[j]| ==> d[j][i].index < |RelationshipBus|)
    && (forall j, i :: 0 <= j < |f| && 0 <= i < |f[j]| ==> f[j][i].index < |EffectingBus|)
  }

  /** Position `j` of the relationship loop: when both ends are employees,
      the relationship meets its sampled events, then its ends meet theirs;
      otherwise nothing happens. */
  function PairStep(u: Updater, n: Network, rp: seq<GatedPick>, fp: seq<PairPick>, j: nat): (r: Network)
    requires j < |n.relationships|
    requires forall i :: 0 <= i < |rp| ==> rp[i].index < |RelationshipBus|
    requires forall i :: 0 <= i < |fp| ==> fp[i].index < |EffectingBus|
    ensures r.roster == n.roster
    ensures OnlyStatsChanged(n.employees, r.employees)
    ensures |r.relationships| == |n.relationships|
    ensures forall i :: 0 <= i < |r.relationships| && i != j ==> r.relationships[i] == n.relationships[i]
    ensures r.relationships[j].a == n.relationships[j].a && r.relationships[j].b == n.relationships[j].b
    ensures forall k :: k in r.employees && k != n.relationships[j].a && k != n.relationships[j].b ==>
      r.employees[k] == n.employees[k]
    ensures !Linked(n, n.relationships[j]) ==> r == n
  {
    var t := n.relationships[j];
    if Linked(n, t) then
      var m := n.employees;
      var rel := RelationshipDay(u, t.rel, m[t.a], m[t.b], rp);
      n.(employees := EffectingDay(u, m, t.a, t.b, rel, fp), relationships := n.relationships[j := Triple(t.a, t.b, rel)])
    else n
  }

  /** The loop over the relationships can run from position `j`. */
  predicate Ready(n: Network, d: seq<seq<GatedPick>>, f: seq<seq<PairPick>>, j: nat)
  {
    j <= |n.relationships| == |d| == |f| && PairPicksInBus(d, f)
  }

  /** The relationship loop of `step_day` from position `j` on. */
  function PairsFrom(u: Updater, n: Network, d: seq<seq<GatedPick>>, f: seq<seq<PairPick>>, j: nat): (r: Network)
    requires Ready(n, d, f, j)
    ensures r.roster == n.roster
    ensures OnlyStatsChanged(n.employees, r.employees)
    ensures |r.relationships| == |n.relationships|
    ensures forall i :: 0 <= i < |r.relationships| ==>
      r.relationships[i].a == n.relationships[i].a && r.relationships[i].b == n.relationships[i].b
    decreases |n.relationships| - j
  {
    if j == |n.relationships| then n
    else
      var n' := PairStep(u, n, d[j], f[j], j);
      var r := PairsFrom(u, n', d, f, j + 1);
      OnlyStatsChangedTransitive(n.employees, n'.employees, r.employees);
      r
  }

  // ---------------------------------------------------------------------------
  // Crisis countdown and game over

  /** A crisis one day later. */
  function Tick(c: CrisisEvent): CrisisEvent
  {
    c.(daysRemaining := c.daysRemaining - 1)
  }

  /** The end of `step_day`: every crisis loses a day and those left with none
      are dropped. */
  function Countdown(cs: seq<CrisisEvent>): (r: seq<CrisisEvent>)
    ensures |r| <= |cs|
    ensures forall i :: 0 <= i < |r| ==> r[i].daysRemaining > 0
  {
    if cs == [] then []
    else (if Tick(cs[0]).daysRemaining > 0 then [Tick(cs[0])] else []) + Countdown(cs[1..])
  }

  /** Why the game ends. */
  datatype EndCause = Deserted | Bankrupt | Collapsed | Toxic

  function Reason(c: EndCause): string
  {
    match c
    case Deserted => "All employees have left the company!"
    case Bankrupt => "Company has gone bankrupt!"
    case Collapsed => "Company culture has completely collapsed!"
    case Toxic => "Workplace has become too toxic - mass resignation!"
  }

  predicate Enraged(e: Employee) { e.stats.anger > 80 }

  /** The first game-over test that holds, in the order the source tries them. */
  function EndOf(g: GameState): (r: Option<EndCause>)
    ensures r == Some(EndCause.Deserted) <==> Values(g.network) == []
    ensures r == Some(EndCause.Bankrupt) <==> Values(g.network) != [] && g.company.budget < -500_000
  {
    var es := Values(g.network);
    if es == [] then Some(EndCause.Deserted)
    else if g.company.budget < -500_000 then Some(EndCause.Bankrupt)
    else if Population.Average(es, CrisisGeneration.HappinessOf) < 10.0 && g.day > 30 then Some(EndCause.Collapsed)
    else if (Population.CountWhere(es, Enraged) as real) > (|es| as real) * 0.7 then Some(EndCause.Toxic)
    else None
  }

  /** `check_game_over_conditions`: it only ever sets the flag. */
  function CheckGameOver(g: GameState): (r: GameState)
    ensures r == g.(gameOver := r.gameOver, gameOverReason := r.gameOverReason)
    ensures r.gameOver <==> g.gameOver || EndOf(g).Some?
    ensures EndOf(g).Some? ==> r.gameOverReason == Reason(EndOf(g).value)
  {
    match EndOf(g)
    case None => g
    case Some(c) => g.(gameOver := true, gameOverReason := Reason(c))
  }

  // ---------------------------------------------------------------------------
  // One day

  /** The first half of `step_day`: the day advances, every employee meets its
      sampled events, then every linked relationship and its ends meet theirs. */
  function Advance(u: Updater, g: GameState, d: DayDraws): (r: GameState)
    requires ValidDayDraws(g, d)
    ensures r == g.(day := g.day + 1, network := r.network)
    ensures r.network.roster == g.network.roster
    ensures OnlyStatsChanged(g.network.employees, r.network.employees)
    ensures |r.network.relationships| == |g.network.relationships|
  {
    var m := g.network.employees;
    var m' := map k | k in m :: EmployeeDay(u, m[k], d.employee[k]);
    assert OnlyStatsChanged(m, m');
    var n := PairsFrom(u, g.network.(employees := m'), d.relationship, d.effecting, 0);
    OnlyStatsChangedTransitive(m, m', n.employees);
    g.(day := g.day + 1, network := n)
  }

  /** The crises after the day's generation: a day divisible by seven adds
      those of the advanced state. Python's `%` and Dafny's agree here, since
      the divisor is positive. */
  function WithWeekly(g1: GameState, d: DayDraws): (r: seq<CrisisEvent>)
    requires CrisisGeneration.ValidCrisisDraws(d.crisis)
    ensures |g1.crisisEvents| <= |r| <= |g1.crisisEvents| + 5
  {
    if g1.day % 7 == 0 then g1.crisisEvents + CrisisGeneration.GenerateCrises(g1, d.crisis) else g1.crisisEvents
  }

  /** `step_day`: advance, raise the week's crises, count every crisis down,
      and test for game over. */
  function StepDay(u: Updater, g: GameState, d: DayDraws): (r: GameState)
    requires ValidDayDraws(g, d)
    ensures r.day == g.day + 1
    ensures r.network.roster == g.network.roster
    ensures OnlyStatsChanged(g.network.employees, r.network.employees)
    ensures |r.network.relationships| == |g.network.relationships|
    ensures r.company == g.company && r.completedCrises == g.completedCrises
    ensures g.gameOver ==> r.gameOver
  {
    var g1 := Advance(u, g, d);
    CheckGameOver(g1.(crisisEvents := Countdown(WithWeekly(g1, d))))
  }

  // ---------------------------------------------------------------------------
  // Metrics

  datatype Metrics = Metrics(
    employeeCount: nat,
    avgHappiness: real,
    avgStress: real,
    avgProductivity: real,
    budget: int,
    highRiskEmployees: nat,
    day: int)

  predicate AtRisk(e: Employee) { e.stats.happiness < 30 && e.stats.anger > 60 }

  function ProductivityOf(e: Employee): int { e.stats.productivity }

  /** `get_company_metrics`: an error for an empty company. */
  function CompanyMetrics(g: GameState): (r: Result<Metrics, string>)
    ensures r.Err? <==> Values(g.network) == []
    ensures r.Err? ==> r.error == "No employees"
    ensures r.Ok? ==> && r.value.employeeCount == |Values(g.network)|
                      && r.value.highRiskEmployees <= r.value.employeeCount
                      && r.value.budget == g.company.budget && r.value.day == g.day
    ensures r.Ok? ==> (r.value.highRiskEmployees > 0 <==>
                        exists i :: 0 <= i < |Values(g.network)| && AtRisk(Values(g.network)[i]))
  {
    var es := Values(g.network);
    if es == [] then Err("No employees")
    else Ok(Metrics(
      employeeCount := |es|,
      avgHappiness := Population.Average(es, CrisisGeneration.HappinessOf),
      avgStress := Population.Average(es, CrisisGeneration.StressOf),
      avgProductivity := Population.Average(es, ProductivityOf),
      budget := g.company.budget,
      highRiskEmployees := Population.CountWhere(es, AtRisk),
      day := g.day))
  }

  // ---------------------------------------------------------------------------
  // The player's actions

  /** The actions `apply_user_action` knows. The transfer event exists but no
      action reaches it. */
  datatype Action = Promote | Reprimand | Raise | TimeOff | Fire

  function ActionName(a: Action): string
  {
    match a
    case Promote => "promote"
    case Reprimand => "reprimand"
    case Raise => "give_raise"
    case TimeOff => "give_pto"
    case Fire => "fire"
  }

  /** The `if`/`elif` chain on the action name. */
  function ParseAction(s: string): (r: Option<Action>)
    ensures r.Some? ==> ActionName(r.value) == s
    ensures r.None? ==> forall a :: ActionName(a) != s
  {
    if s == "promote" then Some(Promote)
    else if s == "reprimand" then Some(Reprimand)
    else if s == "give_raise" then Some(Raise)
    else if s == "give_pto" then Some(TimeOff)
    else if s == "fire" then Some(Fire)
    else None
  }

  /** The event behind each action. */
  function EventOf(a: Action): UserActions.UserAction
  {
    match a
    case Promote => UserActions.PromoteEmployee
    case Reprimand => UserActions.ReprimandEmployee
    case Raise => UserActions.GiveRaise
    case TimeOff => UserActions.GivePto
    case Fire => UserActions.FireEmployee
  }

  /** The memory note each action leaves with its target. */
  function ActionNote(a: Action): string
  {
    match a
    case Promote => "Got promoted by leadership"
    case Reprimand => "Was reprimanded by leadership"
    case Raise => "Got a raise from leadership"
    case TimeOff => "Got approved time off"
    case Fire => ""
  }

  /** The message before the event's description. */
  function Opening(a: Action, name: string): string
  {
    match a
    case Promote => "Promoted " + name + ". "
    case Reprimand => "Reprimanded " + name + ". "
    case Raise => "Gave " + name + " a raise. "
    case TimeOff => "Approved PTO for " + name + ". "
    case Fire => "Fired " + name + ". "
  }

  /** The level ladder a promotion climbs. */
  const Levels: seq<string> := ["L1", "L2", "L3", "L4", "L5"]

  /** One step up the ladder; the top level and any level off the ladder stay. */
  function NextLevel(level: string): string
  {
    if level == "L1" then "L2"
    else if level == "L2" then "L3"
    else if level == "L3" then "L4"
    else if level == "L4" then "L5"
    else level
  }

  /** Promotion, reprimand, raise or time off for employee `id`: the event's
      delta at draw 0.5, a step up the ladder for a promotion, the note, and
      the raise paid from the budget. */
  function Treat(u: Updater, g: GameState, id: Id, a: Action): (r: (GameState, string))
    requires id in g.network.employees && a != Fire
    ensures r.0.network.employees.Keys == g.network.employees.Keys
    ensures r.0.day == g.day
    ensures r.0.crisisEvents == g.crisisEvents && r.0.completedCrises == g.completedCrises
    ensures a != Raise ==> r.0.company == g.company
  {
    var e := g.network.employees[id];
    var delta := UserActions.ActionPdf(EventOf(a), e, 0.5);
    var e1 := Apply(u, e, delta);
    var e2 := if a == Promote then e1.(level := NextLevel(e1.level)) else e1;
    var budget := if a == Raise then g.company.budget - delta.salary else g.company.budget;
    var g' := g.(network := g.network.(employees := g.network.employees[id := Remember(e2, ActionNote(a))]),
                 company := g.company.(budget := budget));
    (g', Opening(a, e.name) + UserActions.ActionDescription(EventOf(a), delta))
  }

  /** What every remaining employee suffers when a colleague is fired. */
  function WitnessDelta(): EmployeeDelta
  {
    EmployeeDelta(stress := 5, greed := 5, salary := 0, anger := 5, happiness := -5, health := 0,
                  horniness := 0, productivity := -5)
  }

  function WitnessNote(name: string): string
  {
    "Witnessed " + name + " get fired"
  }

  /** The relationships that do not mention `id`, in order. */
  function Unlinked(rels: seq<Triple>, id: Id): (r: seq<Triple>)
    ensures |r| <= |rels|
    ensures forall t :: t in r <==> t in rels && t.a != id && t.b != id
  {
    if rels == [] then []
    else (if rels[0].a != id && rels[0].b != id then [rels[0]] else []) + Unlinked(rels[1..], id)
  }

  /** The dismissal: the employee and every relationship naming them go, and
      every colleague who stays takes the shock and remembers it. */
  function Dismissal(u: Updater, g: GameState, id: Id): (r: (GameState, string))
    requires id in g.network.employees
    ensures r.0.network.employees.Keys == g.network.employees.Keys - {id}
    ensures r.0.day == g.day && r.0.company == g.company
    ensures r.0.crisisEvents == g.crisisEvents && r.0.completedCrises == g.completedCrises
  {
    var e := g.network.employees[id];
    var delta := UserActions.ActionPdf(UserActions.FireEmployee, e, 0.5);
    var n := RemoveEmployees(g.network, {id});
    var m := map k | k in n.employees :: Remember(Apply(u, n.employees[k], WitnessDelta()), WitnessNote(e.name));
    var g' := g.(network := Network(m, n.roster, Unlinked(g.network.relationships, id)));
    (g', Opening(Fire, e.name) + UserActions.ActionDescription(UserActions.FireEmployee, delta))
  }

  const NotFound: string := "Employee not found."
  const UnknownAction: string := "Unknown action."

  /** `apply_user_action(game_state, action, target_employee_id)`: the new state
      and the message. A missing or empty id, or one that is not an employee,
      changes nothing; so does an action no branch knows. */
  function ApplyUserAction(u: Updater, g: GameState, action: string, target: Option<Id>): (r: (GameState, string))
    ensures (target.None? || target.value == "" || target.value !in g.network.employees) ==> r == (g, NotFound)
    ensures target.Some? && target.value != "" && target.value in g.network.employees && ParseAction(action).None?
      ==> r == (g, UnknownAction)
  {
    if target.None? || target.value == "" || target.value !in g.network.employees then (g, NotFound)
    else match ParseAction(action)
      case None => (g, UnknownAction)
      case Some(Fire) => Dismissal(u, g, target.value)
      case Some(a) => Treat(u, g, target.value, a)
  }

  // ---------------------------------------------------------------------------
  // Properties of a day

  /** Every employee event that passes its gate is applied exactly once and no
      other is: an update rule that counts its calls counts the open gates. */
  lemma {:induction false} EveryOpenGateApplies(e: Employee, picks: seq<GatedPick>)
    requires forall i :: 0 <= i < |picks| ==> picks[i].index < |EmployeeBus|
    ensures EmployeeDay(Scheduler.CountingUpdater(), e, picks).stats.salary
            == e.stats.salary + Passing(Gates(picks), EmployeeGate)
    decreases |picks|
  {
    if picks != [] {
      var p := picks[0];
      var u := Scheduler.CountingUpdater();
      var e' := if p.gate > EmployeeGate then Apply(u, e, EmployeePdf(EmployeeBus[p.index], e, p.draw)) else e;
      EveryOpenGateApplies(e', picks[1..]);
      assert Gates(picks)[1..] == Gates(picks[1..]);
    }
  }

  /** A relationship whose sampled events all fail their gate stays as it was. */
  lemma {:induction false} ClosedGatesKeepRelationship(u: Updater, rel: Relationship, e1: Employee, e2: Employee,
                                                       picks: seq<GatedPick>)
    requires forall i :: 0 <= i < |picks| ==> picks[i].index < |RelationshipBus| && picks[i].gate <= PairGate
    ensures RelationshipDay(u, rel, e1, e2, picks) == rel
    decreases |picks|
  {
    if picks != [] {
      ClosedGatesKeepRelationship(u, rel, e1, e2, picks[1..]);
    }
  }

  /** Ends whose sampled effecting events all fail their gate stay as they were. */
  lemma {:induction false} ClosedGatesKeepEnds(u: Updater, m: map<Id, Employee>, a: Id, b: Id, rel: Relationship,
                                               picks: seq<PairPick>)
    requires a in m && b in m
    requires forall i :: 0 <= i < |picks| ==> picks[i].index < |EffectingBus| && picks[i].gate <= PairGate
    ensures EffectingDay(u, m, a, b, rel, picks) == m
    decreases |picks|
  {
    if picks != [] {
      ClosedGatesKeepEnds(u, m, a, b, rel, picks[1..]);
    }
  }

  /** A relationship with an end that is not an employee is skipped by the
      loop: it comes out as it went in. */
  lemma {:induction false} UnlinkedPairsSkipped(u: Updater, n: Network, d: seq<seq<GatedPick>>, f: seq<seq<PairPick>>,
                                                j: nat, i: nat)
    requires Ready(n, d, f, j)
    requires i < |n.relationships| && !Linked(n, n.relationships[i])
    ensures PairsFrom(u, n, d, f, j).relationships[i] == n.relationships[i]
    decreases |n.relationships| - j
  {
    if j < |n.relationships| {
      var n' := PairStep(u, n, d[j], f[j], j);
      assert n'.relationships[i] == n.relationships[i];
      assert !Linked(n', n'.relationships[i]);
      UnlinkedPairsSkipped(u, n', d, f, j + 1, i);
    }
  }

  /** `k` is an end of no relationship at position `j` or later. */
  predicate NoEndFrom(rels: seq<Triple>, k: Id, j: nat)
  {
    forall i :: j <= i < |rels| ==> rels[i].a != k && rels[i].b != k
  }

  /** One position of the loop leaves alone an employee who is an end of no
      relationship from there on. */
  lemma StepKeepsNonEnd(u: Updater, n: Network, d: seq<seq<GatedPick>>, f: seq<seq<PairPick>>, j: nat, k: Id)
    requires Ready(n, d, f, j) && j < |n.relationships|
    requires k in n.employees && NoEndFrom(n.relationships, k, j)
    ensures var n' := PairStep(u, n, d[j], f[j], j);
      && Ready(n', d, f, j + 1) && k in n'.employees && n'.employees[k] == n.employees[k]
      && NoEndFrom(n'.relationships, k, j + 1)
  {
  }

  /** The relationship loop moves only the ends of the relationships it
      visits. */
  lemma {:induction false} OnlyEndsMove(u: Updater, n: Network, d: seq<seq<GatedPick>>, f: seq<seq<PairPick>>,
                                        j: nat, k: Id)
    requires Ready(n, d, f, j)
    requires k in n.employees && NoEndFrom(n.relationships, k, j)
    ensures PairsFrom(u, n, d, f, j).employees[k] == n.employees[k]
    decreases |n.relationships| - j
  {
    if j < |n.relationships| {
      StepKeepsNonEnd(u, n, d, f, j, k);
      OnlyEndsMove(u, PairStep(u, n, d[j], f[j], j), d, f, j + 1, k);
    }
  }

  /** `step_day` keeps the network well formed. */
  lemma StepDayKeepsWellFormed(u: Updater, g: GameState, d: DayDraws)
    requires ValidDayDraws(g, d) && WellFormed(g.network)
    ensures WellFormed(StepDay(u, g, d).network)
  {
    var r := StepDay(u, g, d);
    OnlyStatsChangedKeepsWellFormed(g.network, r.network.employees);
  }

  /** `step_day` leaves every relationship with an end that is not an
      employee as it was. */
  lemma StepDaySkipsUnlinked(u: Updater, g: GameState, d: DayDraws, i: nat)
    requires ValidDayDraws(g, d)
    requires i < |g.network.relationships| && !Linked(g.network, g.network.relationships[i])
    ensures StepDay(u, g, d).network.relationships[i] == g.network.relationships[i]
  {
    var m := g.network.employees;
    var m' := map k | k in m :: EmployeeDay(u, m[k], d.employee[k]);
    var n0 := g.network.(employees := m');
    assert !Linked(n0, n0.relationships[i]);
    UnlinkedPairsSkipped(u, n0, d.relationship, d.effecting, 0, i);
  }

  /** Off the seventh days the crises only count down; on them the new crises
      come after the old, each with two days left. */
  lemma WeeklyCountdown(g1: GameState, d: DayDraws)
    requires CrisisGeneration.ValidCrisisDraws(d.crisis)
    ensures var r := Countdown(WithWeekly(g1, d));
      var before := Countdown(g1.crisisEvents);
      && (g1.day % 7 != 0 ==> r == before)
      && (g1.day % 7 == 0 ==>
            && |before| <= |r| <= |before| + 5 && r[..|before|] == before
            && forall i :: |before| <= i < |r| ==> r[i].daysRemaining == 2)
  {
    if g1.day % 7 == 0 {
      var added := CrisisGeneration.GenerateCrises(g1, d.crisis);
      CountdownAppend(g1.crisisEvents, added);
      CountdownFresh(added, 3);
    }
  }

  /** `step_day` counts the crises down after raising the week's. */
  lemma StepDayCrises(u: Updater, g: GameState, d: DayDraws)
    requires ValidDayDraws(g, d)
    ensures var r := StepDay(u, g, d).crisisEvents;
      var before := Countdown(g.crisisEvents);
      && ((g.day + 1) % 7 != 0 ==> r == before)
      && ((g.day + 1) % 7 == 0 ==>
            && |before| <= |r| <= |before| + 5 && r[..|before|] == before
            && forall i :: |before| <= i < |r| ==> r[i].daysRemaining == 2)
  {
    StepDayCountsDown(u, g, d);
    WeeklyCountdown(Advance(u, g, d), d);
  }

  lemma StepDayCountsDown(u: Updater, g: GameState, d: DayDraws)
    requires ValidDayDraws(g, d)
    ensures StepDay(u, g, d).crisisEvents == Countdown(WithWeekly(Advance(u, g, d), d))
    ensures Advance(u, g, d).day == g.day + 1
  {
    var g1 := Advance(u, g, d);
    assert StepDay(u, g, d) == CheckGameOver(g1.(crisisEvents := Countdown(WithWeekly(g1, d))));
  }

  /** Counting down a concatenation counts down each part: the countdown keeps
      the order of the crises it keeps. */
  lemma {:induction false} CountdownAppend(a: seq<CrisisEvent>, b: seq<CrisisEvent>)
    ensures Countdown(a + b) == Countdown(a) + Countdown(b)
    decreases |a|
  {
    if a == [] {
      assert a + b == b;
    } else {
      assert (a + b)[1..] == a[1..] + b;
      CountdownAppend(a[1..], b);
    }
  }

  /** The crises left after the countdown are exactly those that had more than
      one day left, each with one day less. */
  lemma {:induction false} CountdownMembers(cs: seq<CrisisEvent>, x: CrisisEvent)
    ensures x in Countdown(cs) <==> exists i :: 0 <= i < |cs| && cs[i].daysRemaining > 1 && x == Tick(cs[i])
    decreases |cs|
  {
    if cs != [] {
      var rest := cs[1..];
      CountdownMembers(rest, x);
      if x in Countdown(rest) {
        var i :| 0 <= i < |rest| && rest[i].daysRemaining > 1 && x == Tick(rest[i]);
        assert cs[i + 1] == rest[i];
      }
      if exists i :: 1 <= i < |cs| && cs[i].daysRemaining > 1 && x == Tick(cs[i]) {
        var i :| 1 <= i < |cs| && cs[i].daysRemaining > 1 && x == Tick(cs[i]);
        assert rest[i - 1] == cs[i];
      }
    }
  }

  /** Crises that all have `days` left, more than one, all survive with one day
      less. */
  lemma {:induction false} CountdownFresh(cs: seq<CrisisEvent>, days: int)
    requires days > 1 && forall i :: 0 <= i < |cs| ==> cs[i].daysRemaining == days
    ensures |Countdown(cs)| == |cs|
    ensures forall i :: 0 <= i < |cs| ==> Countdown(cs)[i] == Tick(cs[i])
    decreases |cs|
  {
    if cs != [] {
      CountdownFresh(cs[1..], days);
    }
  }

  // ---------------------------------------------------------------------------
  // Properties of the game-over test and the metrics

  /** The four ways the game ends, each stated on sums and counts, in the order
      the source tries them; in a well-formed network the first is an empty
      company. */
  lemma GameOverCauses(g: GameState)
    ensures var es := Values(g.network);
      var n := |es|;
      var low := Population.Total(es, CrisisGeneration.HappinessOf) < 10 * n && g.day > 30;
      && (EndOf(g) == Some(EndCause.Deserted) <==> n == 0)
      && (EndOf(g) == Some(EndCause.Bankrupt) <==> n > 0 && g.company.budget < -500_000)
      && (EndOf(g) == Some(EndCause.Collapsed) <==> n > 0 && g.company.budget >= -500_000 && low)
      && (EndOf(g) == Some(EndCause.Toxic) <==>
            n > 0 && g.company.budget >= -500_000 && !low && 10 * Population.CountWhere(es, Enraged) > 7 * n)
    ensures WellFormed(g.network) ==> (EndOf(g) == Some(EndCause.Deserted) <==> |g.network.employees| == 0)
  {
    var es := Values(g.network);
    if es != [] {
      Population.AverageVersusTotal(es, CrisisGeneration.HappinessOf, 10);
      Population.ShareAbove(Population.CountWhere(es, Enraged), |es|);
    }
    if WellFormed(g.network) {
      WellFormedSize(g.network);
    }
  }

  /** `mean` times the head count is the total. */
  predicate MeanOf(mean: real, total: int, count: nat)
  {
    mean * (count as real) == total as real
  }

  lemma MeanTimesCount(mean: real, total: int, count: nat)
    requires count > 0 && mean == (total as real) / (count as real)
    ensures MeanOf(mean, total, count)
  {
  }

  /** The averages of the metrics times the head count give back the totals. */
  lemma MetricsAverages(g: GameState)
    requires CompanyMetrics(g).Ok?
    ensures var m := CompanyMetrics(g).value;
      var es := Values(g.network);
      && MeanOf(m.avgHappiness, Population.Total(es, CrisisGeneration.HappinessOf), m.employeeCount)
      && MeanOf(m.avgStress, Population.Total(es, CrisisGeneration.StressOf), m.employeeCount)
      && MeanOf(m.avgProductivity, Population.Total(es, ProductivityOf), m.employeeCount)
    ensures WellFormed(g.network) ==> CompanyMetrics(g).value.employeeCount == |g.network.employees|
  {
    var es := Values(g.network);
    var m := CompanyMetrics(g).value;
    MeanTimesCount(m.avgHappiness, Population.Total(es, CrisisGeneration.HappinessOf), m.employeeCount);
    MeanTimesCount(m.avgStress, Population.Total(es, CrisisGeneration.StressOf), m.employeeCount);
    MeanTimesCount(m.avgProductivity, Population.Total(es, ProductivityOf), m.employeeCount);
    if WellFormed(g.network) {
      WellFormedSize(g.network);
    }
  }

  // ---------------------------------------------------------------------------
  // Properties of the player's actions

  /** Every action name parses back to its action. */
  lemma ActionNamesParse(a: Action)
    ensures ParseAction(ActionName(a)) == Some(a)
  {
  }

  /** A promotion climbs one rung of the ladder, stays at the top, and leaves a
      level off the ladder alone. */
  lemma PromotionLadder()
    ensures forall i :: 0 <= i < |Levels| - 1 ==> NextLevel(Levels[i]) == Levels[i + 1]
    ensures NextLevel(Levels[|Levels| - 1]) == Levels[|Levels| - 1]
    ensures forall l :: l !in Levels ==> NextLevel(l) == l
  {
  }

  /** Promotion, reprimand, raise and time off change the target alone; the
      budget moves only for a raise. */
  lemma TreatTouchesOnlyTarget(u: Updater, g: GameState, id: Id, a: Action)
    requires id in g.network.employees && a != Fire
    ensures var r := Treat(u, g, id, a).0;
      && r.network.roster == g.network.roster && r.network.relationships == g.network.relationships
      && (forall k :: k in r.network.employees && k != id ==> r.network.employees[k] == g.network.employees[k])
      && (a != Raise ==> r.company == g.company)
      && r.day == g.day && r.crisisEvents == g.crisisEvents && r.gameOver == g.gameOver
      && r.completedCrises == g.completedCrises
  {
  }

  lemma TreatKeepsWellFormed(u: Updater, g: GameState, id: Id, a: Action)
    requires id in g.network.employees && a != Fire && WellFormed(g.network)
    ensures WellFormed(Treat(u, g, id, a).0.network)
  {
    TreatChangesTarget(u, g, id, a);
  }

  /** The target takes the event's delta, climbs the ladder only when promoted,
      and remembers the action's note last. */
  lemma TreatChangesTarget(u: Updater, g: GameState, id: Id, a: Action)
    requires id in g.network.employees && a != Fire
    ensures var e := g.network.employees[id];
      var e' := Treat(u, g, id, a).0.network.employees[id];
      && e'.id == e.id && e'.name == e.name
      && e'.stats == Apply(u, e, UserActions.ActionPdf(EventOf(a), e, 0.5)).stats
      && e'.level == (if a == Promote then NextLevel(e.level) else e.level)
      && e'.memShort == e.memShort + [ActionNote(a)]
  {
  }

  /** A raise is paid from the budget: it falls by the raise, at least 5000. */
  lemma RaisePaysFromBudget(u: Updater, g: GameState, id: Id)
    requires id in g.network.employees
    ensures var r := Treat(u, g, id, Raise).0;
      && r.company.budget == g.company.budget - UserActions.RaiseAmount(g.network.employees[id].stats.salary)
      && r.company.budget <= g.company.budget - 5000
      && r.company == g.company.(budget := r.company.budget)
  {
  }

  /** The relationships a dismissal keeps are the others, in order. */
  lemma {:induction false} UnlinkedAppend(a: seq<Triple>, b: seq<Triple>, id: Id)
    ensures Unlinked(a + b, id) == Unlinked(a, id) + Unlinked(b, id)
    decreases |a|
  {
    if a == [] {
      assert a + b == b;
    } else {
      assert (a + b)[1..] == a[1..] + b;
      UnlinkedAppend(a[1..], b, id);
    }
  }

  /** Firing removes the employee and every relationship naming them, keeps
      every other relationship, and gives each colleague who stays the shock
      and its memory; the budget does not move. */
  lemma FireRemovesAndShocks(u: Updater, g: GameState, id: Id)
    requires id in g.network.employees
    ensures var r := Dismissal(u, g, id).0;
      var name := g.network.employees[id].name;
      && r.network.employees.Keys == g.network.employees.Keys - {id}
      && (forall t :: t in r.network.relationships ==> t.a != id && t.b != id)
      && (forall t :: t in g.network.relationships && t.a != id && t.b != id ==> t in r.network.relationships)
      && (forall k :: k in r.network.employees ==>
            r.network.employees[k] == Remember(Apply(u, g.network.employees[k], WitnessDelta()), WitnessNote(name)))
      && r.company == g.company && r.day == g.day && r.crisisEvents == g.crisisEvents
      && r.completedCrises == g.completedCrises
    ensures WellFormed(g.network) ==> WellFormed(Dismissal(u, g, id).0.network)
  {
    var r := Dismissal(u, g, id).0;
    var n := RemoveEmployees(g.network, {id});
    if WellFormed(g.network) {
      assert WellFormed(n);
      forall k | k in r.network.employees ensures r.network.employees[k].id == k {
        assert r.network.employees[k].id == n.employees[k].id;
      }
    }
  }

  /** A player's action keeps the network well formed. */
  lemma ApplyUserActionKeepsWellFormed(u: Updater, g: GameState, action: string, target: Option<Id>)
    requires WellFormed(g.network)
    ensures WellFormed(ApplyUserAction(u, g, action, target).0.network)
  {
    if target.Some? && target.value != "" && target.value in g.network.employees {
      match ParseAction(action)
      case None =>
      case Some(a) =>
        if a == Fire {
          FireRemovesAndShocks(u, g, target.value);
        } else {
          TreatKeepsWellFormed(u, g, target.value, a);
        }
    }
  }

  /** Only a raise spends: every other action, and every refused one, leaves
      the company as it was. */
  lemma OnlyRaiseSpends(u: Updater, g: GameState, action: string, target: Option<Id>)
    ensures var r := ApplyUserAction(u, g, action, target).0;
      && (action != "give_raise" ==> r.company == g.company)
      && r.day == g.day && r.crisisEvents == g.crisisEvents && r.completedCrises == g.completedCrises
  {
    if target.Some? && target.value != "" && target.value in g.network.employees {
      match ParseAction(action)
      case None =>
      case Some(a) =>
        assert ActionName(a) == action;
    }
  }
}
