/** The five crises the company can face and the test that raises each one
    (`generate_crisis_events` in hr_game/events/crisis.py).

    Every test compares a population figure with a threshold and then a fresh
    `random.random()` draw with a probability; the draws are arguments, one per
    test, and the quitter is chosen with one more draw. */
module CrisisGeneration {
  import opened Wrappers
  import opened EmployeeData
  import opened CompanyData
  import opened Sampling
  import Population
  import Text

  /** The five crises, in the order the source tests them. */
  datatype CrisisKind = Revolt | Quit | Harassment | Burnout | BudgetCut

  const AllKinds: seq<CrisisKind> := [Revolt, Quit, Harassment, Burnout, BudgetCut]

  function Rank(k: CrisisKind): nat
  {
    match k
    case Revolt => 0
    case Quit => 1
    case Harassment => 2
    case Burnout => 3
    case BudgetCut => 4
  }

  /** Strictly increasing rank: in source order, with no kind twice. */
  predicate RankOrdered(ks: seq<CrisisKind>)
  {
    forall i, j :: 0 <= i < j < |ks| ==> Rank(ks[i]) < Rank(ks[j])
  }

  /** The six `random.random()` / `random.choice` draws one call may consume. */
  datatype CrisisDraws = CrisisDraws(
    revolt: real, quit: real, quitChoice: real, harassment: real, burnout: real, budget: real)

  predicate ValidCrisisDraws(d: CrisisDraws)
  {
    && IsDraw(d.revolt) && IsDraw(d.quit) && IsDraw(d.quitChoice)
    && IsDraw(d.harassment) && IsDraw(d.burnout) && IsDraw(d.budget)
  }

  function HappinessOf(e: Employee): int { e.stats.happiness }

  function StressOf(e: Employee): int { e.stats.stress }

  /** The employees who may threaten to quit. */
  predicate Unhappy(e: Employee) { e.stats.happiness < 20 && e.stats.anger > 60 }

  predicate Furious(e: Employee) { e.stats.anger > 70 }

  /** Whether the test for crisis `k` passes in state `g` with draws `d`. */
  predicate Fires(g: GameState, d: CrisisDraws, k: CrisisKind)
  {
    var es := Values(g.network);
    && es != []
    && match k
       case Revolt => Population.Average(es, HappinessOf) < 30.0 && d.revolt > 0.7
       case Quit => Population.Where(es, Unhappy) != [] && d.quit > 0.6
       case Harassment => Population.CountWhere(es, Furious) >= 3 && d.harassment > 0.8
       case Burnout => Population.Average(es, StressOf) > 70.0 && d.burnout > 0.75
       case BudgetCut => g.company.profitability < 20 && d.budget > 0.6
  }

  /** `random.choice(unhappy_employees)`. */
  function Quitter(g: GameState, d: CrisisDraws): (e: Employee)
    requires Fires(g, d, Quit) && IsDraw(d.quitChoice)
    ensures e in Values(g.network) && Unhappy(e)
  {
    var unhappy := Population.Where(Values(g.network), Unhappy);
    var e := unhappy[Choice(|unhappy|, d.quitChoice)];
    assert e in unhappy;
    e
  }

  /** `CrisisOption` records built from four (choice, consequence) pairs. */
  function Menu(c1: string, k1: string, c2: string, k2: string, c3: string, k3: string,
                c4: string, k4: string): (r: seq<CrisisOption>)
    ensures |r| == 4
  {
    [CrisisOption(c1, k1), CrisisOption(c2, k2), CrisisOption(c3, k3), CrisisOption(c4, k4)]
  }

  function QuitTitle(name: string): string { name + " Threatens to Quit" }

  /** The title of each crisis; the quit crisis names the quitter. */
  function Title(k: CrisisKind, name: string): string
  {
    match k
    case Revolt => "Employee Revolt"
    case Quit => QuitTitle(name)
    case Harassment => "Workplace Harassment Complaint"
    case Burnout => "Burnout Epidemic"
    case BudgetCut => "Budget Crisis - Layoffs Required"
  }

  /** The description of each crisis; the quit crisis names the quitter and
      their department. */
  function Description(k: CrisisKind, name: string, department: string): string
  {
    match k
    case Revolt =>
      "Multiple employees are organizing to demand better working conditions. Morale is at an all-time low and productivity has plummeted. You need to act fast."
    case Quit =>
      name + " is one of your key " + department + " employees, but they're extremely unhappy. They've submitted their resignation letter and are giving you one chance to change their mind."
    case Harassment =>
      "An employee has filed a formal harassment complaint against a colleague. The situation is tense and other employees are watching how you handle it."
    case Burnout =>
      "Multiple employees are showing signs of severe burnout. Sick days are up 300% and productivity is down. The team is at a breaking point."
    case BudgetCut =>
      "The company is in financial trouble. The board is demanding 20% workforce reduction to cut costs. You need to decide how to handle this."
  }

  /** The four options of each crisis, each a choice text and a consequence key. */
  function Options(k: CrisisKind): (r: seq<CrisisOption>)
    ensures |r| == 4
  {
    match k
    case Revolt =>
      Menu("Meet with employee representatives and negotiate", "boost_morale",
           "Ignore the complaints and crack down harder", "anger_increase",
           "Give everyone a small raise", "budget_hit_morale_boost",
           "Fire the ringleaders", "fear_and_resentment")
    case Quit =>
      Menu("Promote them immediately", "retain_promote",
           "Give them a substantial raise", "retain_raise",
           "Have a heart-to-heart conversation", "retain_talk",
           "Let them go", "lose_employee")
    case Harassment =>
      Menu("Launch full investigation", "investigation",
           "Try to mediate between them", "mediation",
           "Move one employee to different department", "transfer",
           "Dismiss the complaint as office drama", "ignore_complaint")
    case Burnout =>
      Menu("Mandate company-wide mental health week", "mental_health_week",
           "Hire additional staff to reduce workload", "hire_more_staff",
           "Implement flexible work arrangements", "flexible_work",
           "Push through - they'll adapt", "ignore_burnout")
    case BudgetCut =>
      Menu("Lay off lowest performers", "layoff_performance",
           "Lay off newest employees (LIFO)", "layoff_tenure",
           "Cut everyone's salary by 15%", "salary_cuts",
           "Try to negotiate with the board", "negotiate_board")
  }

  /** The severity each crisis is raised with; none is ever low. */
  function SeverityOf(k: CrisisKind): (r: Severity)
    ensures r != Low
    ensures r == Critical <==> k == Revolt || k == BudgetCut
    ensures r == Medium <==> k == Burnout
  {
    match k
    case Revolt => Critical
    case Quit => High
    case Harassment => High
    case Burnout => Medium
    case BudgetCut => Critical
  }

  /** The crisis of kind `k`, about employee `e` when it is a quit crisis; a
      new crisis has three days to run. */
  function CrisisFor(k: CrisisKind, e: Employee): (r: CrisisEvent)
    ensures r == NewCrisis(Title(k, e.name), Description(k, e.name, e.department), Options(k)).(severity := SeverityOf(k))
    ensures r.daysRemaining == 3 && |r.options| == 4
  {
    CrisisEvent(Title(k, e.name), Description(k, e.name, e.department), Options(k), 3, SeverityOf(k))
  }

  /** The employee a quit crisis is about: the quitter when the quit test
      passes, an empty placeholder otherwise (only the quit crisis reads it). */
  function Subject(g: GameState, d: CrisisDraws): (e: Employee)
    requires IsDraw(d.quitChoice)
    ensures Fires(g, d, Quit) ==> e in Values(g.network) && Unhappy(e)
  {
    if Fires(g, d, Quit) then Quitter(g, d) else NewEmployee("", "", 0, 0, "", "", 0)
  }

  /** The tests of `ks` run in order: the kinds whose test `passes`. */
  function RunTests(passes: CrisisKind -> bool, ks: seq<CrisisKind>): (r: seq<CrisisKind>)
    ensures |r| <= |ks|
    ensures forall k :: k in r ==> passes(k)
  {
    if ks == [] then []
    else (if passes(ks[0]) then [ks[0]] else []) + RunTests(passes, ks[1..])
  }

  /** The five tests of state `g` under draws `d`. */
  function Test(g: GameState, d: CrisisDraws): CrisisKind -> bool
  {
    k => Fires(g, d, k)
  }

  /** The kinds of crisis raised: none for an empty company, otherwise those of
      the five tests that pass, in source order. */
  function Raised(g: GameState, d: CrisisDraws): (r: seq<CrisisKind>)
    ensures |r| <= 5
    ensures forall k :: k in r ==> Fires(g, d, k)
  {
    if Values(g.network) == [] then [] else RunTests(Test(g, d), AllKinds)
  }

  /** `generate_crisis_events`: each raised kind announced in turn. */
  function GenerateCrises(g: GameState, d: CrisisDraws): (r: seq<CrisisEvent>)
    requires ValidCrisisDraws(d)
    ensures Values(g.network) == [] ==> r == []
    ensures |r| == |Raised(g, d)| <= 5
    ensures forall i :: 0 <= i < |r| ==> r[i] == CrisisFor(Raised(g, d)[i], Subject(g, d))
  {
    var ks := Raised(g, d);
    var e := Subject(g, d);
    seq(|ks|, i requires 0 <= i < |ks| => CrisisFor(ks[i], e))
  }

  // ---------------------------------------------------------------------------
  // Properties

  /** A kind comes out of the tests exactly when it is tested and its test
      passes. */
  lemma {:induction false} RunTestsRaises(passes: CrisisKind -> bool, ks: seq<CrisisKind>, k: CrisisKind)
    ensures k in RunTests(passes, ks) <==> k in ks && passes(k)
  {
    if ks != [] {
      RunTestsRaises(passes, ks[1..], k);
      assert ks == [ks[0]] + ks[1..];
    }
  }

  /** Tests run in increasing rank raise kinds in increasing rank, so no crisis
      is raised twice. */
  lemma {:induction false} RunTestsInOrder(passes: CrisisKind -> bool, ks: seq<CrisisKind>)
    requires RankOrdered(ks)
    ensures RankOrdered(RunTests(passes, ks))
  {
    if ks != [] {
      var r := RunTests(passes, ks);
      var head := if passes(ks[0]) then [ks[0]] else [];
      var rest := RunTests(passes, ks[1..]);
      assert r == head + rest;
      RunTestsInOrder(passes, ks[1..]);
      forall j | 0 <= j < |rest| ensures Rank(ks[0]) < Rank(rest[j]) {
        assert rest[j] in rest;
        RunTestsRaises(passes, ks[1..], rest[j]);
        var m :| 0 <= m < |ks[1..]| && ks[1..][m] == rest[j];
        assert ks[m + 1] == ks[1..][m];
      }
      forall i, j | 0 <= i < j < |r| ensures Rank(r[i]) < Rank(r[j]) {
        assert r[j] == rest[j - |head|];
        if i >= |head| {
          assert r[i] == rest[i - |head|];
        }
      }
    }
  }

  /** Each crisis is raised exactly when its test passes. */
  lemma CrisisRaisedIffTestPasses(g: GameState, d: CrisisDraws, k: CrisisKind)
    ensures k in Raised(g, d) <==> Fires(g, d, k)
  {
    if Values(g.network) != [] {
      RunTestsRaises(Test(g, d), AllKinds, k);
    }
  }

  /** The crises come in the order revolt, quit, harassment, burnout, budget,
      none of them twice. */
  lemma CrisesInSourceOrder(g: GameState, d: CrisisDraws)
    ensures RankOrdered(Raised(g, d))
  {
    if Values(g.network) != [] {
      AllKindsRanked();
      RunTestsInOrder(Test(g, d), AllKinds);
    }
  }

  /** The source tests the kinds in rank order. */
  lemma AllKindsRanked()
    ensures RankOrdered(AllKinds)
  {
    assert forall i :: 0 <= i < |AllKinds| ==> Rank(AllKinds[i]) == i;
  }

  /** The averaged tests in whole numbers: an average below (above) a
      threshold is a sum below (above) the threshold times the head count. */
  lemma AveragedTestsExactly(g: GameState, d: CrisisDraws)
    ensures var es := Values(g.network);
      var n := |es|;
      && (Fires(g, d, Revolt) <==>
            n > 0 && Population.Total(es, HappinessOf) < 30 * n && d.revolt > 0.7)
      && (Fires(g, d, Burnout) <==>
            n > 0 && Population.Total(es, StressOf) > 70 * n && d.burnout > 0.75)
  {
    var es := Values(g.network);
    if es != [] {
      Population.AverageVersusTotal(es, HappinessOf, 30);
      Population.AverageVersusTotal(es, StressOf, 70);
    }
  }

  /** The quit test passes exactly when some employee is unhappy and its draw
      is above 0.6; the harassment and budget tests need a non-empty company. */
  lemma CountedTestsExactly(g: GameState, d: CrisisDraws)
    ensures var es := Values(g.network);
      var n := |es|;
      && (Fires(g, d, Quit) <==> (exists i :: 0 <= i < n && Unhappy(es[i])) && d.quit > 0.6)
      && (Fires(g, d, Harassment) <==> n > 0 && Population.CountWhere(es, Furious) >= 3 && d.harassment > 0.8)
      && (Fires(g, d, BudgetCut) <==> n > 0 && g.company.profitability < 20 && d.budget > 0.6)
  {
    var es := Values(g.network);
    var w := Population.Where(es, Unhappy);
    if w != [] {
      assert w[0] in w;
    }
    if exists i :: 0 <= i < |es| && Unhappy(es[i]) {
      var i :| 0 <= i < |es| && Unhappy(es[i]);
      assert es[i] in es;
      assert es[i] in w;
    }
  }

  /** A quit crisis names an unhappy employee of the company in its title and
      their department in its description. */
  lemma QuitCrisisNamesQuitter(g: GameState, d: CrisisDraws, i: nat)
    requires ValidCrisisDraws(d)
    requires i < |GenerateCrises(g, d)| && Raised(g, d)[i] == Quit
    ensures exists e :: e in Values(g.network) && Unhappy(e) && GenerateCrises(g, d)[i] == CrisisFor(Quit, e)
  {
    assert Quit in Raised(g, d);
  }

  /** The title of a quit crisis starts with the quitter's first name: when the
      name starts with a non-space character, the title's first word is a
      prefix of the name. */
  lemma QuitTitleStartsWithName(name: string)
    requires |name| > 0 && !Text.IsSpace(name[0])
    ensures Text.FirstWord(QuitTitle(name)).Some?
    ensures Text.StartsWith(name, Text.FirstWord(QuitTitle(name)).value)
  {
    Text.FirstWordIsPrefixOfName(name, " Threatens to Quit");
  }
}
