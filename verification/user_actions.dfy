/** The six actions a player can take on one employee
    (hr_game/events/user_actions.py). Each is an employee event: a delta from the
    employee and a draw, and a sentence describing the delta. Only the transfer
    reads the draw, and only the raise and the dismissal read the employee. */
module UserActions {
  import opened Wrappers
  import opened EmployeeData
  import opened Events
  import Text

  datatype UserAction =
    | PromoteEmployee
    | ReprimandEmployee
    | GiveRaise
    | TransferDepartment
    | FireEmployee
    | GivePto

  /** `int(salary * 0.1)` for a salary in whole units. */
  function TenthOfSalary(salary: int): (r: int)
    ensures salary >= 0 ==> r == salary / 10
    ensures salary < 0 ==> r <= 0
  {
    var x := (salary as real) * 0.1;
    if salary >= 0 then
      var q, m := salary / 10, salary % 10;
      assert x == q as real + (m as real) / 10.0;
      Trunc(x)
    else
      Trunc(x)
  }

  /** The raise `GiveRaise` grants: a tenth of the salary, but at least 5000. */
  function RaiseAmount(salary: int): (r: int)
    ensures r >= 5000
    ensures salary >= 50_000 ==> r == salary / 10
    ensures salary < 50_000 ==> r == 5000
  {
    Max(5000, TenthOfSalary(salary))
  }

  /** The delta `TransferDepartment` returns: a welcome move above one half, an
      unwelcome one otherwise. */
  function TransferDelta(draw: real): (d: EmployeeDelta)
    ensures d == ZeroDelta().(stress := d.stress, happiness := d.happiness)
    ensures d.happiness > 0 <==> draw > 0.5
    ensures draw > 0.5 ==> d.stress == 10 && d.happiness == 5
    ensures draw <= 0.5 ==> d.stress == -5 && d.happiness == -10
  {
    var stressChange := if draw > 0.5 then 10 else -5;
    var happinessChange := if draw > 0.5 then 5 else -10;
    EmployeeDelta(stress := stressChange, happiness := happinessChange, health := 0, greed := 0,
                  salary := 0, horniness := 0, anger := 0, productivity := 0)
  }

  /** `pdf` of a user action. */
  function ActionPdf(a: UserAction, e: Employee, draw: real): (d: EmployeeDelta)
    ensures a == GiveRaise ==> d.salary == RaiseAmount(e.stats.salary) && d.salary >= 5000
    ensures a == FireEmployee ==> e.stats.salary + d.salary == 0
    ensures a == TransferDepartment ==> d == TransferDelta(draw)
  {
    match a
    case PromoteEmployee =>
      EmployeeDelta(stress := 5, happiness := 25, health := 0, greed := -5, salary := 15_000,
                    horniness := 0, anger := -5, productivity := 10)
    case ReprimandEmployee =>
      EmployeeDelta(stress := 15, happiness := -20, health := -5, greed := 5, salary := 0,
                    horniness := 0, anger := 15, productivity := -10)
    case GiveRaise =>
      EmployeeDelta(stress := -5, happiness := 15, health := 0, greed := -10, salary := RaiseAmount(e.stats.salary),
                    horniness := 0, anger := -5, productivity := 5)
    case TransferDepartment =>
      TransferDelta(draw)
    case FireEmployee =>
      EmployeeDelta(stress := 50, happiness := -50, health := -20, greed := 20, salary := -e.stats.salary,
                    horniness := 0, anger := 50, productivity := -50)
    case GivePto =>
      EmployeeDelta(stress := -20, happiness := 20, health := 10, greed := 0, salary := 0,
                    horniness := 0, anger := -10, productivity := 5)
  }

  /** `description` of a user action. */
  function ActionDescription(a: UserAction, d: EmployeeDelta): string
  {
    match a
    case PromoteEmployee => "Promoted! They're thrilled about the new role and salary bump."
    case ReprimandEmployee => "Reprimanded. They're upset and demotivated by the criticism."
    case GiveRaise => "Got a raise of $" + Text.Commas(d.salary) + "! They're feeling appreciated."
    case TransferDepartment =>
      if d.happiness > 0 then "Transferred to new department. They're excited for the fresh start."
      else "Transferred to new department. They're anxious about the change."
    case FireEmployee => "Fired. They're devastated and furious."
    case GivePto => "Approved for time off. They're refreshed and grateful."
  }

  /** Promotion, reprimand and time off ignore both the employee and the draw:
      any two calls return the same delta. */
  lemma ConstantActions(a: UserAction, e1: Employee, e2: Employee, draw1: real, draw2: real)
    requires a == PromoteEmployee || a == ReprimandEmployee || a == GivePto
    ensures ActionPdf(a, e1, draw1) == ActionPdf(a, e2, draw2)
    ensures a == PromoteEmployee ==> ActionPdf(a, e1, draw1).salary == 15_000
    ensures a != PromoteEmployee ==> ActionPdf(a, e1, draw1).salary == 0
  {
  }

  /** The raise and the dismissal read only the salary, and the transfer only
      the draw. */
  lemma ActionInputs(e1: Employee, e2: Employee, draw1: real, draw2: real)
    ensures e1.stats.salary == e2.stats.salary ==>
      ActionPdf(GiveRaise, e1, draw1) == ActionPdf(GiveRaise, e2, draw2)
      && ActionPdf(FireEmployee, e1, draw1) == ActionPdf(FireEmployee, e2, draw2)
    ensures ActionPdf(TransferDepartment, e1, draw1) == ActionPdf(TransferDepartment, e2, draw1)
  {
  }

  /** A transfer is narrated as exciting exactly when its draw is above one
      half, which is when it raises happiness. */
  lemma TransferNarration(e: Employee, draw: real)
    ensures var d := ActionPdf(TransferDepartment, e, draw);
      ActionDescription(TransferDepartment, d) == "Transferred to new department. They're excited for the fresh start."
      <==> draw > 0.5
  {
  }

  /** The raise sentence spells out the delta's amount: with the thousands
      separators dropped it reads the plain decimal numeral of the raise. */
  lemma RaiseNarration(e: Employee, draw: real)
    ensures var d := ActionPdf(GiveRaise, e, draw);
      var amount := Text.Commas(d.salary);
      && ActionDescription(GiveRaise, d) == "Got a raise of $" + amount + "! They're feeling appreciated."
      && Text.DropCommas(amount) == Text.Decimal(d.salary)
  {
    var d := ActionPdf(GiveRaise, e, draw);
    Text.GroupedWithoutCommas(d.salary);
  }
}
