/** What the player's answer to a crisis does to the company
    (`apply_crisis_resolution` in hr_game/events/crisis.py).

    The chosen option's consequence key selects one of fifteen handlers; keys no
    handler knows (the harassment options and the board negotiation) change
    nothing but the record of completed crises. Handlers adjust every remaining
    employee by a fixed delta and leave a note in their memory, some dismiss
    employees first, some target the employee a quit crisis names, and some
    move the budget. The ids `random.sample` picks for the ringleaders are an
    argument, as positions into the dict order. */
module CrisisResolution {
  import opened Wrappers
  import opened EmployeeData
  import opened CompanyData
  import opened Sampling
  import Sorting
  import Text
  import Events

  /** The consequence keys a handler exists for. */
  datatype Consequence =
    | BoostMorale | AngerIncrease | BudgetHitMoraleBoost | FearAndResentment
    | RetainPromote | RetainRaise | RetainTalk | LoseEmployee
    | MentalHealthWeek | HireMoreStaff | FlexibleWork | IgnoreBurnout
    | LayoffPerformance | LayoffTenure | SalaryCuts

  function Key(c: Consequence): string
  {
    match c
    case BoostMorale => "boost_morale"
    case AngerIncrease => "anger_increase"
    case BudgetHitMoraleBoost => "budget_hit_morale_boost"
    case FearAndResentment => "fear_and_resentment"
    case RetainPromote => "retain_promote"
    case RetainRaise => "retain_raise"
    case RetainTalk => "retain_talk"
    case LoseEmployee => "lose_employee"
    case MentalHealthWeek => "mental_health_week"
    case HireMoreStaff => "hire_more_staff"
    case FlexibleWork => "flexible_work"
    case IgnoreBurnout => "ignore_burnout"
    case LayoffPerformance => "layoff_performance"
    case LayoffTenure => "layoff_tenure"
    case SalaryCuts => "salary_cuts"
  }

  /** The `if`/`elif` chain on the consequence key. */
  function ParseKey(s: string): (r: Option<Consequence>)
    ensures r.Some? ==> Key(r.value) == s
    ensures r.None? ==> forall c :: Key(c) != s
  {
    if s == "boost_morale" then Some(BoostMorale)
    else if s == "anger_increase" then Some(AngerIncrease)
    else if s == "budget_hit_morale_boost" then Some(BudgetHitMoraleBoost)
    else if s == "fear_and_resentment" then Some(FearAndResentment)
    else if s == "retain_promote" then Some(RetainPromote)
    else if s == "retain_raise" then Some(RetainRaise)
    else if s == "retain_talk" then Some(RetainTalk)
    else if s == "lose_employee" then Some(LoseEmployee)
    else if s == "mental_health_week" then Some(MentalHealthWeek)
    else if s == "hire_more_staff" then Some(HireMoreStaff)
    else if s == "flexible_work" then Some(FlexibleWork)
    else if s == "ignore_burnout" then Some(IgnoreBurnout)
    else if s == "layoff_performance" then Some(LayoffPerformance)
    else if s == "layoff_tenure" then Some(LayoffTenure)
    else if s == "salary_cuts" then Some(SalaryCuts)
    else None
  }

  /** Every key names exactly its handler. */
  lemma KeyRoundTrip(c: Consequence)
    ensures ParseKey(Key(c)) == Some(c)
  {
  }

  /** The handlers that single out the employee a quit crisis names. */
  predicate Targeted(c: Consequence)
  {
    c == RetainPromote || c == RetainRaise || c == RetainTalk || c == LoseEmployee
  }

  /** `EmployeeDelta` in the order the source writes its fields. */
  function D(stress: int, happiness: int, health: int, greed: int, salary: int, horniness: int,
             anger: int, productivity: int): EmployeeDelta
  {
    EmployeeDelta(stress := stress, greed := greed, salary := salary, anger := anger,
                  happiness := happiness, health := health, horniness := horniness,
                  productivity := productivity)
  }

  /** `int(salary * 0.15)`: the amount a salary cut takes. */
  function SalaryCut(salary: int): int
  {
    Events.Trunc((salary as real) * 0.15)
  }

  /** The delta each handler applies to an employee it affects. Only the
      salary cut depends on the employee. */
  function Delta(c: Consequence, e: Employee): EmployeeDelta
  {
    match c
    case BoostMorale => D(-10, 15, 0, 0, 0, 0, -10, 5)
    case AngerIncrease => D(15, -15, 0, 0, 0, 0, 20, -10)
    case BudgetHitMoraleBoost => D(-5, 10, 0, -5, 2000, 0, -5, 5)
    case FearAndResentment => D(20, -25, 0, 10, 0, 0, 15, -15)
    case RetainPromote => D(-10, 30, 0, -10, 20000, 0, -20, 15)
    case RetainRaise => D(-5, 20, 0, -15, 15000, 0, -15, 10)
    case RetainTalk => D(-10, 15, 0, 0, 0, 0, -10, 5)
    case LoseEmployee => D(5, -5, 0, 5, 0, 0, 5, -5)
    case MentalHealthWeek => D(-25, 20, 15, 0, 0, 0, -10, 10)
    case HireMoreStaff => D(-15, 10, 0, 0, 0, 0, -5, 15)
    case FlexibleWork => D(-10, 15, 5, 0, 0, 0, -5, 5)
    case IgnoreBurnout => D(10, -15, -10, 0, 0, 0, 15, -20)
    case LayoffPerformance => D(15, -10, 0, 10, 0, 0, 10, -5)
    case LayoffTenure => D(10, -15, 0, 5, 0, 0, 15, -10)
    case SalaryCuts => D(20, -20, 0, 15, -SalaryCut(e.stats.salary), 0, 20, -15)
  }

  /** The memory note each handler leaves with an employee it affects. */
  function Note(c: Consequence): string
  {
    match c
    case BoostMorale => "Management listened to our concerns"
    case AngerIncrease => "Management ignored our concerns"
    case BudgetHitMoraleBoost => "Got a small raise during difficult times"
    case FearAndResentment => "Witnessed colleagues get fired for speaking up"
    case RetainPromote => "Got promoted after threatening to quit"
    case RetainRaise => "Got substantial raise after threatening to quit"
    case RetainTalk => "Had meaningful conversation with leadership"
    case LoseEmployee => "Key colleague quit - management did nothing"
    case MentalHealthWeek => "Company gave us mental health week"
    case HireMoreStaff => "Company hired more people to help with workload"
    case FlexibleWork => "Got flexible work arrangements"
    case IgnoreBurnout => "Management ignored our burnout"
    case LayoffPerformance => "Company laid off low performers"
    case LayoffTenure => "Company laid off newest employees"
    case SalaryCuts => "Salary cut by 15% due to budget crisis"
  }

  /** The handlers that meet the employees' demands, as opposed to those that
      punish them or cut back. */
  predicate Conciliatory(c: Consequence)
  {
    || c == BoostMorale || c == BudgetHitMoraleBoost || c == RetainPromote || c == RetainRaise
    || c == RetainTalk || c == MentalHealthWeek || c == HireMoreStaff || c == FlexibleWork
  }

  /** Every handler moves stress, happiness, anger and productivity together:
      a conciliatory one lowers stress and anger and raises happiness and
      productivity, every other one does the opposite. Only the two raises, the
      small raise and the salary cut touch the salary, and the cut takes
      `int(salary * 0.15)`. */
  lemma DeltaDirections(c: Consequence, e: Employee)
    ensures var d := Delta(c, e);
      && (d.happiness > 0 <==> Conciliatory(c))
      && (Conciliatory(c) ==> d.stress < 0 && d.anger < 0 && d.productivity > 0)
      && (!Conciliatory(c) ==> d.stress > 0 && d.anger > 0 && d.productivity < 0 && d.happiness < 0)
      && (c != BudgetHitMoraleBoost && c != RetainPromote && c != RetainRaise && c != SalaryCuts ==> d.salary == 0)
      && (c == SalaryCuts ==> d.salary == -SalaryCut(e.stats.salary))
  {
  }

  /** `emp.update(delta)` followed by `emp.mem_short.append(note)`. */
  function Affect(u: Updater, c: Consequence, e: Employee): (r: Employee)
    ensures r == e.(stats := r.stats, memShort := r.memShort)
    ensures r.memShort == e.memShort + [Note(c)]
  {
    Remember(Apply(u, e, Delta(c, e)), Note(c))
  }

  // ---------------------------------------------------------------------------
  // Building blocks of the handlers

  /** Every employee of the company affected by `c`. */
  function Everyone(u: Updater, g: GameState, c: Consequence): (r: GameState)
    ensures r.network.employees.Keys == g.network.employees.Keys
    ensures forall k :: k in r.network.employees ==> r.network.employees[k] == Affect(u, c, g.network.employees[k])
  {
    var m := g.network.employees;
    g.(network := g.network.(employees := map k | k in m :: Affect(u, c, m[k])))
  }

  lemma EveryoneKeepsWellFormed(u: Updater, g: GameState, c: Consequence)
    requires WellFormed(g.network)
    ensures WellFormed(Everyone(u, g, c).network)
  {
    var r := Everyone(u, g, c).network;
    assert r.roster == g.network.roster;
    forall k | k in r.employees ensures r.employees[k].id == k {
      assert r.employees[k].id == g.network.employees[k].id;
    }
  }

  /** `del employees[k]` for every `k` in `gone`. */
  function Dismiss(g: GameState, gone: set<Id>): (r: GameState)
    ensures WellFormed(g.network) ==> WellFormed(r.network)
  {
    g.(network := RemoveEmployees(g.network, gone))
  }

  /** `game_state.company.budget -= amount`. */
  function Spend(g: GameState, amount: int): GameState
  {
    g.(company := g.company.(budget := g.company.budget - amount))
  }

  /** The first employee, in dict order, whose name starts with `prefix`: the
      loop with `break` the targeted handlers run. */
  function FirstMatch(ids: seq<Id>, m: map<Id, Employee>, prefix: string): (r: Option<Id>)
    ensures r.Some? ==> r.value in ids && r.value in m && Text.StartsWith(m[r.value].name, prefix)
    ensures r.None? ==> forall k :: k in ids && k in m ==> !Text.StartsWith(m[k].name, prefix)
  {
    if ids == [] then None
    else if ids[0] in m && Text.StartsWith(m[ids[0]].name, prefix) then Some(ids[0])
    else FirstMatch(ids[1..], m, prefix)
  }

  /** No employee before the match qualifies. */
  lemma {:induction false} FirstMatchIsFirst(ids: seq<Id>, m: map<Id, Employee>, prefix: string)
    requires FirstMatch(ids, m, prefix).Some?
    ensures exists i :: (0 <= i < |ids| && ids[i] == FirstMatch(ids, m, prefix).value &&
        forall j :: 0 <= j < i && ids[j] in m ==> !Text.StartsWith(m[ids[j]].name, prefix))
  {
    if !(ids[0] in m && Text.StartsWith(m[ids[0]].name, prefix)) {
      var rest := ids[1..];
      FirstMatchIsFirst(rest, m, prefix);
      var i :| 0 <= i < |rest| && rest[i] == FirstMatch(rest, m, prefix).value &&
        forall j :: 0 <= j < i && rest[j] in m ==> !Text.StartsWith(m[rest[j]].name, prefix);
      assert ids[i + 1] == rest[i];
      forall j | 0 <= j < i + 1 && ids[j] in m ensures !Text.StartsWith(m[ids[j]].name, prefix) {
        if j > 0 {
          assert ids[j] == rest[j - 1];
        }
      }
    }
  }

  /** The employee a targeted handler picks for a crisis titled `title`: the
      first whose name starts with the title's first word. */
  function Target(g: GameState, title: string): Option<Id>
  {
    match Text.FirstWord(title)
    case None => None
    case Some(w) => FirstMatch(g.network.roster, g.network.employees, w)
  }

  /** The target as a set: empty when there is none. */
  function Targets(g: GameState, title: string): set<Id>
  {
    match Target(g, title)
    case None => {}
    case Some(id) => {id}
  }

  /** The retain handlers: the target alone is affected. */
  function Encourage(u: Updater, g: GameState, title: string, c: Consequence): (r: GameState)
    ensures r.network.employees.Keys == g.network.employees.Keys
    ensures r.network.roster == g.network.roster
    ensures forall k :: k in r.network.employees ==>
      r.network.employees[k] == if Target(g, title) == Some(k) then Affect(u, c, g.network.employees[k]) else g.network.employees[k]
  {
    match Target(g, title)
    case None => g
    case Some(id) =>
      var m := g.network.employees;
      g.(network := g.network.(employees := m[id := Affect(u, c, m[id])]))
  }

  /** `len(employees) // 4` ringleaders, at most three. */
  function RingleaderCount(size: nat): nat
  {
    Min(3, size / 4)
  }

  /** The ids at positions `ps` of `ids`. */
  function At(ids: seq<Id>, ps: seq<nat>): (r: seq<Id>)
    requires forall i :: 0 <= i < |ps| ==> ps[i] < |ids|
    ensures |r| == |ps| && forall i :: 0 <= i < |ps| ==> r[i] == ids[ps[i]]
  {
    seq(|ps|, i requires 0 <= i < |ps| => ids[ps[i]])
  }

  function Members(s: seq<Id>): set<Id>
  {
    set x | x in s
  }

  /** `max(1, n // 5)` layoffs, but no more than there are employees. */
  function LayoffCount(size: nat): nat
  {
    Min(Max(1, size / 5), size)
  }

  /** The employees a layoff removes: the first `LayoffCount` of the stable sort
      by `k`. */
  function LaidOff(k: Sorting.SortKey, n: Network): seq<Id>
  {
    var sorted := Sorting.SortBy(k, Values(n));
    Ids(sorted[..LayoffCount(|sorted|)])
  }

  // ---------------------------------------------------------------------------
  // The handlers and the resolution

  /** The precondition `random.sample` puts on its draw: as many distinct
      positions of the dict order as there are ringleaders to fire. */
  predicate RingleadersFit(n: Network, fired: seq<nat>)
  {
    ValidPositions(fired, |n.roster|, RingleaderCount(|n.roster|))
  }

  const IndexError: string := "list index out of range"

  /** The handlers that single out an employee and dismiss no one. */
  predicate Retaining(c: Consequence)
  {
    c == RetainPromote || c == RetainRaise || c == RetainTalk
  }

  /** What each handler takes from the budget; the salary cut gives back. */
  function Cost(c: Consequence, size: nat): int
  {
    match c
    case BudgetHitMoraleBoost => 50_000 * size
    case RetainRaise => 15_000
    case MentalHealthWeek => 100_000
    case HireMoreStaff => 200_000
    case SalaryCuts => -50_000 * size
    case _ => 0
  }

  /** Five handlers move the budget. Only the salary cut, on a non-empty
      company, brings money back; the small raise costs money exactly when
      there is someone to pay; the retention raise costs what it adds to the
      salary. */
  lemma CostSigns(c: Consequence, size: nat)
    ensures Cost(c, size) < 0 <==> c == SalaryCuts && size > 0
    ensures Cost(c, size) > 0 <==>
      c == RetainRaise || c == MentalHealthWeek || c == HireMoreStaff || (c == BudgetHitMoraleBoost && size > 0)
    ensures forall e :: Cost(RetainRaise, size) == Delta(RetainRaise, e).salary
  {
  }

  /** Whom each handler dismisses before it affects the rest: the ringleaders,
      the quitter, or the lowest of a sort; nobody for the others. */
  function Dismissed(g: GameState, title: string, c: Consequence, fired: seq<nat>): set<Id>
    requires c == FearAndResentment ==> RingleadersFit(g.network, fired)
  {
    match c
    case FearAndResentment => Members(At(g.network.roster, fired))
    case LoseEmployee => Targets(g, title)
    case LayoffPerformance => Members(LaidOff(Sorting.ByProductivity, g.network))
    case LayoffTenure => Members(LaidOff(Sorting.ByTenure, g.network))
    case _ => {}
  }

  /** The handler of `c`, with `fired` the ringleaders' positions. A targeted
      handler raises when the title has no word: `split()[0]` of nothing. The
      retain handlers affect the target alone; every other handler dismisses
      its share and affects everyone who remains. Each then pays its cost. */
  function Handle(u: Updater, g: GameState, title: string, c: Consequence, fired: seq<nat>): (r: Result<GameState, string>)
    requires WellFormed(g.network)
    requires c == FearAndResentment ==> RingleadersFit(g.network, fired)
    ensures r.Err? <==> Targeted(c) && Text.FirstWord(title).None?
    ensures r.Ok? ==> r.value.completedCrises == g.completedCrises
  {
    var size := |g.network.employees|;
    if Targeted(c) && Text.FirstWord(title).None? then Err(IndexError)
    else if Retaining(c) then Ok(Spend(Encourage(u, g, title, c), Cost(c, size)))
    else Ok(Purge(u, g, title, c, fired))
  }

  /** A dismissing handler: dismiss, affect whoever remains, pay the cost. */
  function Purge(u: Updater, g: GameState, title: string, c: Consequence, fired: seq<nat>): (r: GameState)
    requires c == FearAndResentment ==> RingleadersFit(g.network, fired)
    ensures r.network.employees.Keys == g.network.employees.Keys - Dismissed(g, title, c, fired)
    ensures forall k :: k in r.network.employees ==> r.network.employees[k] == Affect(u, c, g.network.employees[k])
  {
    Spend(Everyone(u, Dismiss(g, Dismissed(g, title, c, fired)), c), Cost(c, |g.network.employees|))
  }

  /** Where `crisis.options[choice_idx]` lands: Python counts a negative index
      from the end. */
  function Position(crisis: CrisisEvent, idx: int): (p: Option<nat>)
    ensures p.Some? ==> p.value < |crisis.options|
    ensures p.Some? <==> -|crisis.options| <= idx < |crisis.options|
  {
    if 0 <= idx < |crisis.options| then Some(idx)
    else if -|crisis.options| <= idx < 0 then Some(idx + |crisis.options|)
    else None
  }

  /** The handler the choice selects, if the index is in range and a handler
      exists for its key. */
  function Chosen(crisis: CrisisEvent, idx: int): Option<Consequence>
  {
    match Position(crisis, idx)
    case None => None
    case Some(p) => ParseKey(crisis.options[p].consequence)
  }

  /** `apply_crisis_resolution(game_state, crisis, choice_idx)`. */
  function Resolve(u: Updater, g: GameState, crisis: CrisisEvent, idx: int, fired: seq<nat>): (r: Result<GameState, string>)
    requires WellFormed(g.network)
    requires Chosen(crisis, idx) == Some(FearAndResentment) ==> RingleadersFit(g.network, fired)
    ensures idx >= |crisis.options| ==> r == Ok(g)
    ensures r.Err? <==> idx < -|crisis.options|
                        || (Chosen(crisis, idx).Some? && Targeted(Chosen(crisis, idx).value) && Text.FirstWord(crisis.title).None?)
    ensures r.Ok? && idx < |crisis.options| ==> r.value.completedCrises == g.completedCrises + [crisis.title]
  {
    if idx >= |crisis.options| then Ok(g)
    else if idx < -|crisis.options| then Err(IndexError)
    else
      var after := match Chosen(crisis, idx)
        case None => Ok(g)
        case Some(c) => Handle(u, g, crisis.title, c, fired);
      match after
      case Err(e) => Err(e)
      case Ok(g') => Ok(g'.(completedCrises := g'.completedCrises + [crisis.title]))
  }

  // ---------------------------------------------------------------------------
  // Properties

  /** Shorthand for the state a successful resolution leaves. */
  function After(u: Updater, g: GameState, crisis: CrisisEvent, idx: int, fired: seq<nat>): GameState
    requires WellFormed(g.network)
    requires Chosen(crisis, idx) == Some(FearAndResentment) ==> RingleadersFit(g.network, fired)
    requires Resolve(u, g, crisis, idx, fired).Ok?
  {
    Resolve(u, g, crisis, idx, fired).value
  }

  /** A chosen handler runs, and the crisis is recorded on top of its result. */
  lemma ResolveRunsHandler(u: Updater, g: GameState, crisis: CrisisEvent, idx: int, fired: seq<nat>, c: Consequence)
    requires WellFormed(g.network)
    requires Chosen(crisis, idx) == Some(c)
    requires c == FearAndResentment ==> RingleadersFit(g.network, fired)
    ensures var h := Handle(u, g, crisis.title, c, fired);
      Resolve(u, g, crisis, idx, fired) ==
        if h.Err? then Err(IndexError) else Ok(h.value.(completedCrises := h.value.completedCrises + [crisis.title]))
  {
  }

  /** An option whose key no handler knows changes nothing but the record of
      completed crises. */
  lemma UnhandledKeyOnlyRecords(u: Updater, g: GameState, crisis: CrisisEvent, idx: int, fired: seq<nat>)
    requires WellFormed(g.network)
    requires -|crisis.options| <= idx < |crisis.options| && Chosen(crisis, idx).None?
    ensures Resolve(u, g, crisis, idx, fired) == Ok(g.(completedCrises := g.completedCrises + [crisis.title]))
  {
  }

  lemma HandleKeepsWellFormed(u: Updater, g: GameState, title: string, c: Consequence, fired: seq<nat>)
    requires WellFormed(g.network)
    requires c == FearAndResentment ==> RingleadersFit(g.network, fired)
    requires Handle(u, g, title, c, fired).Ok?
    ensures WellFormed(Handle(u, g, title, c, fired).value.network)
  {
    if Retaining(c) {
      EncourageKeepsWellFormed(u, g, title, c);
    } else {
      EveryoneKeepsWellFormed(u, Dismiss(g, Dismissed(g, title, c, fired)), c);
    }
  }

  lemma EncourageKeepsWellFormed(u: Updater, g: GameState, title: string, c: Consequence)
    requires WellFormed(g.network)
    ensures WellFormed(Encourage(u, g, title, c).network)
  {
    var r := Encourage(u, g, title, c).network;
    forall k | k in r.employees ensures r.employees[k].id == k {
      assert r.employees[k].id == g.network.employees[k].id;
    }
  }

  /** A resolution keeps the dict invariant. */
  lemma ResolveKeepsWellFormed(u: Updater, g: GameState, crisis: CrisisEvent, idx: int, fired: seq<nat>)
    requires WellFormed(g.network)
    requires Chosen(crisis, idx) == Some(FearAndResentment) ==> RingleadersFit(g.network, fired)
    requires Resolve(u, g, crisis, idx, fired).Ok?
    ensures WellFormed(After(u, g, crisis, idx, fired).network)
  {
    if Chosen(crisis, idx).Some? {
      HandleKeepsWellFormed(u, g, crisis.title, Chosen(crisis, idx).value, fired);
    }
  }

  /** What a handler may touch: the budget, and the employees, of whom it may
      remove some and change only the attributes and the memory of the rest. */
  ghost predicate HandlerFrame(g: GameState, r: GameState)
  {
    && r == g.(company := r.company, network := r.network)
    && r.company == g.company.(budget := r.company.budget)
    && r.network.relationships == g.network.relationships
    && r.network.employees.Keys <= g.network.employees.Keys
    && forall k :: k in r.network.employees ==>
         r.network.employees[k] == g.network.employees[k].(stats := r.network.employees[k].stats,
                                                           memShort := r.network.employees[k].memShort)
  }

  /** Frames compose. */
  lemma FrameTrans(a: GameState, b: GameState, c: GameState)
    requires HandlerFrame(a, b) && HandlerFrame(b, c)
    ensures HandlerFrame(a, c)
  {
  }

  lemma EveryoneFrame(u: Updater, g: GameState, c: Consequence)
    ensures HandlerFrame(g, Everyone(u, g, c))
  {
  }

  lemma DismissFrame(g: GameState, gone: set<Id>)
    ensures HandlerFrame(g, Dismiss(g, gone))
  {
  }

  lemma SpendFrame(g: GameState, amount: int)
    ensures HandlerFrame(g, Spend(g, amount))
  {
  }

  lemma EncourageFrame(u: Updater, g: GameState, title: string, c: Consequence)
    ensures HandlerFrame(g, Encourage(u, g, title, c))
  {
  }

  lemma HandleFrame(u: Updater, g: GameState, title: string, c: Consequence, fired: seq<nat>)
    requires WellFormed(g.network)
    requires c == FearAndResentment ==> RingleadersFit(g.network, fired)
    requires Handle(u, g, title, c, fired).Ok?
    ensures HandlerFrame(g, Handle(u, g, title, c, fired).value)
  {
    var cost := Cost(c, |g.network.employees|);
    if Retaining(c) {
      var e := Encourage(u, g, title, c);
      EncourageFrame(u, g, title, c);
      SpendFrame(e, cost);
      FrameTrans(g, e, Spend(e, cost));
    } else {
      var d := Dismiss(g, Dismissed(g, title, c, fired));
      var a := Everyone(u, d, c);
      DismissFrame(g, Dismissed(g, title, c, fired));
      EveryoneFrame(u, d, c);
      SpendFrame(a, cost);
      FrameTrans(g, d, a);
      FrameTrans(g, a, Spend(a, cost));
    }
  }

  /** Nothing else changes: a resolution leaves the day, the open crises, the
      game-over flag, the relationships and every company field but the budget
      as they were, adds no employee, and changes only the attributes and the
      memory of the employees it keeps. */
  lemma ResolveFrame(u: Updater, g: GameState, crisis: CrisisEvent, idx: int, fired: seq<nat>)
    requires WellFormed(g.network)
    requires Chosen(crisis, idx) == Some(FearAndResentment) ==> RingleadersFit(g.network, fired)
    requires Resolve(u, g, crisis, idx, fired).Ok?
    ensures var r := After(u, g, crisis, idx, fired);
      HandlerFrame(g, r.(completedCrises := g.completedCrises))
  {
    if Chosen(crisis, idx).Some? {
      HandleFrame(u, g, crisis.title, Chosen(crisis, idx).value, fired);
    }
  }

  /** A handler pays its cost and nothing else from the budget. */
  lemma HandleBudget(u: Updater, g: GameState, title: string, c: Consequence, fired: seq<nat>)
    requires WellFormed(g.network)
    requires c == FearAndResentment ==> RingleadersFit(g.network, fired)
    requires Handle(u, g, title, c, fired).Ok?
    ensures Handle(u, g, title, c, fired).value.company.budget == g.company.budget - Cost(c, |g.network.employees|)
  {
  }

  /** The budget moves only for five handlers: 50 000 per employee for the
      small raise, 15 000 for the retention raise, 100 000 for the mental
      health week, 200 000 for new staff, and back by 50 000 per employee for
      the salary cuts. */
  lemma ResolveBudget(u: Updater, g: GameState, crisis: CrisisEvent, idx: int, fired: seq<nat>)
    requires WellFormed(g.network)
    requires Chosen(crisis, idx) == Some(FearAndResentment) ==> RingleadersFit(g.network, fired)
    requires Resolve(u, g, crisis, idx, fired).Ok?
    ensures var b := After(u, g, crisis, idx, fired).company.budget;
      var b0 := g.company.budget;
      var n := |g.network.employees|;
      match Chosen(crisis, idx)
      case Some(BudgetHitMoraleBoost) => b == b0 - 50_000 * n
      case Some(RetainRaise) => b == b0 - 15_000
      case Some(MentalHealthWeek) => b == b0 - 100_000
      case Some(HireMoreStaff) => b == b0 - 200_000
      case Some(SalaryCuts) => b == b0 + 50_000 * n
      case _ => b == b0
  {
    match Chosen(crisis, idx)
    case None =>
    case Some(c) =>
      ResolveRunsHandler(u, g, crisis, idx, fired, c);
      HandleBudget(u, g, crisis.title, c, fired);
  }

  /** The handlers that affect every employee and dismiss no one. */
  predicate Collective(c: Consequence)
  {
    !Targeted(c) && c != FearAndResentment && c != LayoffPerformance && c != LayoffTenure
  }

  /** What the dismissing handlers ask of their state and draws. */
  ghost predicate Dismissing(g: GameState, c: Consequence, fired: seq<nat>)
  {
    && WellFormed(g.network)
    && (c == FearAndResentment ==> RingleadersFit(g.network, fired))
    && !Retaining(c)
  }

  /** Every handler but the retain ones is a purge. */
  lemma HandlePurges(u: Updater, g: GameState, title: string, c: Consequence, fired: seq<nat>, r: GameState)
    requires Dismissing(g, c, fired) && Handle(u, g, title, c, fired) == Ok(r)
    ensures r == Purge(u, g, title, c, fired)
  {
  }

  lemma CollectiveDismissesNobody(g: GameState, title: string, c: Consequence, fired: seq<nat>)
    requires WellFormed(g.network) && Collective(c)
    ensures Dismissing(g, c, fired) && Dismissed(g, title, c, fired) == {}
  {
  }

  /** A collective answer keeps every employee and gives each its delta and
      its note. */
  lemma CollectiveAffectsEveryone(u: Updater, g: GameState, crisis: CrisisEvent, idx: int, fired: seq<nat>)
    requires WellFormed(g.network)
    requires Chosen(crisis, idx).Some? && Collective(Chosen(crisis, idx).value)
    ensures Resolve(u, g, crisis, idx, fired).Ok?
    ensures var c := Chosen(crisis, idx).value;
      var before := g.network.employees;
      var after := After(u, g, crisis, idx, fired).network.employees;
      && after.Keys == before.Keys
      && forall k :: k in after ==> after[k] == Affect(u, c, before[k])
  {
    var c := Chosen(crisis, idx).value;
    ResolveRunsHandler(u, g, crisis, idx, fired, c);
    var h := Handle(u, g, crisis.title, c, fired);
    assert h.Ok?;
    CollectiveDismissesNobody(g, crisis.title, c, fired);
    HandlePurges(u, g, crisis.title, c, fired, h.value);
  }

  /** Positions without repeats into a roster without repeats give ids without
      repeats. */
  lemma AtDistinct(ids: seq<Id>, ps: seq<nat>)
    requires Distinct(ids) && ValidPositions(ps, |ids|, |ps|)
    ensures Distinct(At(ids, ps))
  {
    var r := At(ids, ps);
    forall i, j | 0 <= i < j < |r| ensures r[i] != r[j] {
      if ps[i] < ps[j] {
        assert ids[ps[i]] != ids[ps[j]];
      } else {
        assert ids[ps[j]] != ids[ps[i]];
      }
    }
  }

  /** The ringleaders are employees, `min(3, n // 4)` of them. */
  lemma RingleadersAreStored(n: Network, fired: seq<nat>)
    requires WellFormed(n) && RingleadersFit(n, fired)
    ensures Members(At(n.roster, fired)) <= n.employees.Keys
    ensures |Members(At(n.roster, fired))| == RingleaderCount(|n.employees|)
  {
    WellFormedSize(n);
    AtDistinct(n.roster, fired);
    DistinctCard(At(n.roster, fired));
    forall k | k in Members(At(n.roster, fired)) ensures k in n.employees {
      var i :| 0 <= i < |fired| && At(n.roster, fired)[i] == k;
      assert n.roster[fired[i]] in n.roster;
    }
  }

  /** Taking away what is taken away gives it back. */
  lemma RemovedPart<T>(a: set<T>, b: set<T>)
    requires b <= a
    ensures a - (a - b) == b
  {
  }

  /** The intimidation answer fires the ringleaders at the sampled positions,
      `min(3, n // 4)` of them, and leaves every survivor shaken. */
  lemma FearFiresRingleaders(u: Updater, g: GameState, title: string, fired: seq<nat>)
    requires WellFormed(g.network) && RingleadersFit(g.network, fired)
    ensures Handle(u, g, title, FearAndResentment, fired).Ok?
    ensures var before := g.network.employees;
      var after := Handle(u, g, title, FearAndResentment, fired).value.network.employees;
      && after.Keys == before.Keys - Members(At(g.network.roster, fired))
      && |before.Keys - after.Keys| == RingleaderCount(|before|)
      && forall k :: k in after ==> after[k] == Affect(u, FearAndResentment, before[k])
  {
    var r := Handle(u, g, title, FearAndResentment, fired).value;
    assert Dismissing(g, FearAndResentment, fired);
    HandlePurges(u, g, title, FearAndResentment, fired, r);
    RingleadersAreStored(g.network, fired);
    RemovedPart(g.network.employees.Keys, Members(At(g.network.roster, fired)));
  }

  /** The layoff that sorts by `k`. */
  function LayoffBy(k: Sorting.SortKey): Consequence
  {
    match k
    case ByProductivity => LayoffPerformance
    case ByTenure => LayoffTenure
  }

  /** A sequence without repeats counts every element at most once. */
  lemma {:induction false} OnceCounted<T>(s: seq<T>, x: T)
    requires Distinct(s)
    ensures multiset(s)[x] <= 1
  {
    if s != [] {
      assert s == [s[0]] + s[1..];
      assert Distinct(s[1..]) by {
        forall i, j | 0 <= i < j < |s[1..]| ensures s[1..][i] != s[1..][j] {
          assert s[1..][i] == s[i + 1] && s[1..][j] == s[j + 1];
        }
      }
      OnceCounted(s[1..], x);
      if s[0] == x {
        assert x !in s[1..] by {
          forall i | 0 <= i < |s[1..]| ensures s[1..][i] != x {
            assert s[1..][i] == s[i + 1];
          }
        }
      }
    }
  }

  /** An element at two positions is counted twice. */
  lemma TwiceCounted<T>(s: seq<T>, i: nat, j: nat)
    requires i < j < |s| && s[i] == s[j]
    ensures multiset(s)[s[i]] >= 2
  {
    assert s == s[..j] + s[j..];
    assert s[..j][i] == s[i];
    assert s[j..][0] == s[j];
    assert s[i] in multiset(s[..j]) && s[j] in multiset(s[j..]);
  }

  lemma PermutationKeepsDistinct<T>(a: seq<T>, b: seq<T>)
    requires Distinct(a) && multiset(a) == multiset(b)
    ensures Distinct(b)
  {
    forall i, j | 0 <= i < j < |b| ensures b[i] != b[j] {
      if b[i] == b[j] {
        TwiceCounted(b, i, j);
        OnceCounted(a, b[i]);
      }
    }
  }

  /** In a well-formed network every listed employee is the one stored under
      its own id, and no two are alike. */
  lemma ValuesAreStored(n: Network)
    requires WellFormed(n)
    ensures Distinct(Values(n))
    ensures forall e :: e in Values(n) ==> e.id in n.employees && n.employees[e.id] == e
  {
    var v := Values(n);
    WellFormedSize(n);
    forall i, j | 0 <= i < j < |v| ensures v[i] != v[j] {
      assert v[i].id == n.roster[i] && v[j].id == n.roster[j];
    }
  }

  /** The sorted employees are the stored ones, without repeats. */
  lemma SortedAreStored(k: Sorting.SortKey, n: Network)
    requires WellFormed(n)
    ensures var sorted := Sorting.SortBy(k, Values(n));
      && Distinct(sorted)
      && forall e :: e in sorted ==> e.id in n.employees && n.employees[e.id] == e
  {
    var sorted := Sorting.SortBy(k, Values(n));
    ValuesAreStored(n);
    PermutationKeepsDistinct(Values(n), sorted);
    forall e | e in sorted ensures e.id in n.employees && n.employees[e.id] == e {
      assert e in multiset(sorted);
      assert e in Values(n);
    }
  }

  /** The laid-off ids are stored, without repeats, `LayoffCount` of them. */
  lemma LaidOffAreStored(k: Sorting.SortKey, n: Network)
    requires WellFormed(n)
    ensures Members(LaidOff(k, n)) <= n.employees.Keys
    ensures |Members(LaidOff(k, n))| == LayoffCount(|n.employees|)
  {
    var sorted := Sorting.SortBy(k, Values(n));
    var ids := LaidOff(k, n);
    WellFormedSize(n);
    SortedAreStored(k, n);
    assert forall i :: 0 <= i < |ids| ==> ids[i] == sorted[i].id && sorted[i] in sorted;
    forall i, j | 0 <= i < j < |ids| ensures ids[i] != ids[j] {
      assert sorted[i] != sorted[j];
    }
    DistinctCard(ids);
  }

  /** Someone kept by a layoff sits after the cut in the sorted list. */
  lemma KeptSitsAfterCut(k: Sorting.SortKey, n: Network, b: Id) returns (q: nat)
    requires WellFormed(n)
    requires b in n.employees && b !in Members(LaidOff(k, n))
    ensures var sorted := Sorting.SortBy(k, Values(n));
      0 < LayoffCount(|sorted|) <= q < |sorted| && sorted[q] == n.employees[b]
  {
    var sorted := Sorting.SortBy(k, Values(n));
    StoredAreSorted(k, n, b);
    q :| 0 <= q < |sorted| && sorted[q] == n.employees[b];
    assert sorted[q].id == b;
    InsideCut(k, n, q);
  }

  /** Whoever sorts before the cut is laid off. */
  lemma InsideCut(k: Sorting.SortKey, n: Network, q: nat)
    requires q < |Sorting.SortBy(k, Values(n))|
    ensures var sorted := Sorting.SortBy(k, Values(n));
      q < LayoffCount(|sorted|) ==> sorted[q].id in Members(LaidOff(k, n))
  {
    var sorted := Sorting.SortBy(k, Values(n));
    var ids := LaidOff(k, n);
    if q < LayoffCount(|sorted|) {
      assert sorted[..LayoffCount(|sorted|)][q] == sorted[q];
      assert ids[q] == sorted[q].id;
    }
  }

  lemma StoredAreSorted(k: Sorting.SortKey, n: Network, b: Id)
    requires WellFormed(n) && b in n.employees
    ensures n.employees[b] in Sorting.SortBy(k, Values(n))
  {
    WellFormedSize(n);
    var p :| 0 <= p < |n.roster| && n.roster[p] == b;
    assert Values(n)[p] == n.employees[b];
    assert n.employees[b] in multiset(Sorting.SortBy(k, Values(n)));
  }

  /** The rank of the last employee laid off, when any is. */
  function Cutoff(k: Sorting.SortKey, n: Network): int
  {
    var sorted := Sorting.SortBy(k, Values(n));
    Sorting.LastKey(k, sorted, LayoffCount(|sorted|))
  }

  /** A laid-off id is that of an employee sorted before the cut. */
  lemma LaidOffAt(k: Sorting.SortKey, n: Network, a: Id) returns (i: nat)
    requires a in Members(LaidOff(k, n))
    ensures var sorted := Sorting.SortBy(k, Values(n));
      i < LayoffCount(|sorted|) <= |sorted| && sorted[i].id == a
  {
    var sorted := Sorting.SortBy(k, Values(n));
    var cut := LayoffCount(|sorted|);
    var ids := LaidOff(k, n);
    i :| 0 <= i < |ids| && ids[i] == a;
    assert sorted[..cut][i] == sorted[i];
  }

  /** Each position of the sorted list holds the stored employee of its id. */
  lemma StoredAt(k: Sorting.SortKey, n: Network, i: nat)
    requires WellFormed(n) && i < |Sorting.SortBy(k, Values(n))|
    ensures var e := Sorting.SortBy(k, Values(n))[i];
      e.id in n.employees && n.employees[e.id] == e
  {
    var sorted := Sorting.SortBy(k, Values(n));
    SortedAreStored(k, n);
    assert sorted[i] in sorted;
  }

  /** Everyone laid off ranks at or below the cutoff. */
  lemma {:induction false} LaidOffUpToCutoff(k: Sorting.SortKey, n: Network, gone: set<Id>, a: Id)
    requires WellFormed(n) && gone == Members(LaidOff(k, n)) && a in gone
    ensures a in n.employees && Sorting.KeyOf(k, n.employees[a]) <= Cutoff(k, n)
  {
    var sorted := Sorting.SortBy(k, Values(n));
    var cut := LayoffCount(|sorted|);
    var i := LaidOffAt(k, n, a);
    StoredAt(k, n, i);
    Sorting.UpToLast(k, sorted, cut, i);
  }

  /** Everyone kept ranks at or above the cutoff. */
  lemma {:induction false} KeptFromCutoff(k: Sorting.SortKey, n: Network, gone: set<Id>, b: Id)
    requires WellFormed(n) && gone == Members(LaidOff(k, n)) && b in n.employees && b !in gone
    ensures Cutoff(k, n) <= Sorting.KeyOf(k, n.employees[b])
  {
    var sorted := Sorting.SortBy(k, Values(n));
    var cut := LayoffCount(|sorted|);
    var q := KeptSitsAfterCut(k, n, b);
    Sorting.FromLast(k, sorted, cut, q);
  }

  /** Nobody laid off ranks above the cutoff, and nobody kept below it. */
  lemma {:induction false} LaidOffAreLowest(k: Sorting.SortKey, n: Network, gone: set<Id>)
    requires WellFormed(n) && gone == Members(LaidOff(k, n))
    ensures forall a :: a in gone ==> a in n.employees && Sorting.KeyOf(k, n.employees[a]) <= Cutoff(k, n)
    ensures forall b :: b in n.employees && b !in gone ==> Cutoff(k, n) <= Sorting.KeyOf(k, n.employees[b])
  {
    forall a | a in gone ensures a in n.employees && Sorting.KeyOf(k, n.employees[a]) <= Cutoff(k, n) {
      LaidOffUpToCutoff(k, n, gone, a);
    }
    forall b | b in n.employees && b !in gone ensures Cutoff(k, n) <= Sorting.KeyOf(k, n.employees[b]) {
      KeptFromCutoff(k, n, gone, b);
    }
  }

  /** The ids the layoffs keep: all but the laid off. */
  lemma LayoffKeys(u: Updater, g: GameState, title: string, k: Sorting.SortKey, fired: seq<nat>, r: GameState)
    requires WellFormed(g.network)
    requires Handle(u, g, title, LayoffBy(k), fired) == Ok(r)
    ensures r.network.employees.Keys == g.network.employees.Keys - Members(LaidOff(k, g.network))
  {
    assert Dismissing(g, LayoffBy(k), fired) by {
      match k
      case ByProductivity =>
      case ByTenure =>
    }
    HandlePurges(u, g, title, LayoffBy(k), fired, r);
    LayoffDismisses(g, title, k, fired);
  }

  lemma LayoffDismisses(g: GameState, title: string, k: Sorting.SortKey, fired: seq<nat>)
    ensures Dismissed(g, title, LayoffBy(k), fired) == Members(LaidOff(k, g.network))
  {
    match k
    case ByProductivity =>
    case ByTenure =>
  }

  /** Keeping all but the laid off keeps all but `LayoffCount` employees, none
      ranked below anyone who leaves. */
  lemma {:induction false} LowestLeave(k: Sorting.SortKey, n: Network, kept: set<Id>)
    requires WellFormed(n) && kept == n.employees.Keys - Members(LaidOff(k, n))
    ensures kept <= n.employees.Keys
    ensures |n.employees.Keys - kept| == LayoffCount(|n.employees|)
    ensures forall a, b :: a in n.employees && a !in kept && b in kept ==>
      Sorting.KeyOf(k, n.employees[a]) <= Sorting.KeyOf(k, n.employees[b])
  {
    var gone := Members(LaidOff(k, n));
    LaidOffAreStored(k, n);
    LaidOffAreLowest(k, n, gone);
    RemovedPart(n.employees.Keys, gone);
  }

  /** The layoffs dismiss `max(1, n // 5)` employees (all of them when fewer
      remain), none of them ranked above anyone who stays under the sort key. */
  lemma LayoffRemovesLowest(u: Updater, g: GameState, title: string, k: Sorting.SortKey, fired: seq<nat>, r: GameState)
    requires WellFormed(g.network)
    requires Handle(u, g, title, LayoffBy(k), fired) == Ok(r)
    ensures var before := g.network.employees;
      var after := r.network.employees;
      && after.Keys <= before.Keys
      && |before.Keys - after.Keys| == LayoffCount(|before|)
      && (forall a, b :: a in before && a !in after && b in after ==>
            Sorting.KeyOf(k, before[a]) <= Sorting.KeyOf(k, before[b]))
  {
    LayoffKeys(u, g, title, k, fired, r);
    LowestLeave(k, g.network, r.network.employees.Keys);
  }

  /** A retain answer to a crisis whose title has a word keeps everyone and
      affects only the employee the title names. */
  lemma RetainAffectsOnlyTarget(u: Updater, g: GameState, title: string, c: Consequence, fired: seq<nat>)
    requires WellFormed(g.network) && Retaining(c) && Text.FirstWord(title).Some?
    ensures Handle(u, g, title, c, fired).Ok?
    ensures var before := g.network.employees;
      var after := Handle(u, g, title, c, fired).value.network.employees;
      && after.Keys == before.Keys
      && forall k :: k in after ==> after[k] == if Target(g, title) == Some(k) then Affect(u, c, before[k]) else before[k]
  {
  }

  /** The employee a title names is an employee. */
  lemma TargetIsStored(g: GameState, title: string)
    ensures Target(g, title).Some? ==> Target(g, title).value in g.network.employees
  {
  }

  /** The quit answer dismisses the employee the title names, if any. */
  lemma LoseDismissesTarget(g: GameState, title: string, fired: seq<nat>)
    ensures Dismissed(g, title, LoseEmployee, fired) == Targets(g, title)
  {
    var c := LoseEmployee;
    assert !c.FearAndResentment? && c.LoseEmployee?;
  }

  /** Letting the employee go removes the employee the title names, if any,
      and nobody else. */
  lemma LoseEmployeeRemovesTarget(u: Updater, g: GameState, title: string, fired: seq<nat>, r: GameState)
    requires WellFormed(g.network)
    requires Handle(u, g, title, LoseEmployee, fired) == Ok(r)
    ensures match Target(g, title)
      case None => r.network.employees.Keys == g.network.employees.Keys
      case Some(id) => id in g.network.employees && r.network.employees.Keys == g.network.employees.Keys - {id}
  {
    assert Dismissing(g, LoseEmployee, fired);
    HandlePurges(u, g, title, LoseEmployee, fired, r);
    LoseDismissesTarget(g, title, fired);
    TargetIsStored(g, title);
    WithoutTarget(g, title, r.network.employees.Keys);
  }

  lemma WithoutTarget(g: GameState, title: string, after: set<Id>)
    requires after == g.network.employees.Keys - Targets(g, title)
    ensures match Target(g, title)
      case None => after == g.network.employees.Keys
      case Some(id) => after == g.network.employees.Keys - {id}
  {
  }
}
