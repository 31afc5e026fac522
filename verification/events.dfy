/** The event catalog (hr_game/events/example.py).

    Every event maps its subject and one random draw to a delta. The three kinds
    of event differ in their subject: one employee (`EmployeeEvent`), a
    relationship and the employee it affects (`EffectingEvent`), or a
    relationship and both of its employees (`RelationshipEvent`). When an event
    does not trigger it returns the null delta of its kind. */
module Events {
  import opened EmployeeData

  datatype EmployeeEvent =
    | HasABaby
    | BadDayAtWork
    | GoodDayAtWork
    | CoffeeBreak
    | OfficeGossip
    | Promotion
    | MissedDeadline

  datatype EffectingEvent =
    | EnteringFlowState
    | PickAFight
    | HaveAnAffair
    | PlaySomeGolf
    | SecretRivalry

  datatype RelationshipEvent =
    | RomanticLunch
    | OverheadGossip
    | BrainstormingSession
    | RiskyJoke

  /** Python's `int(x)` on a float: truncation toward zero. */
  function Trunc(x: real): (r: int)
    ensures x >= 0.0 ==> 0 <= r && r as real <= x < r as real + 1.0
    ensures x < 0.0 ==> r <= 0 && r as real - 1.0 < x <= r as real
  {
    if x >= 0.0 then x.Floor else -((-x).Floor)
  }

  /** The sentinel an employee event returns when it does not trigger. It is
      not a zero change: health -10, greed +20 and horniness -50. */
  function NullDelta(): EmployeeDelta
  {
    EmployeeDelta(stress := 0, greed := 20, salary := 0, anger := 0, happiness := 0,
                  health := -10, horniness := -50, productivity := 0)
  }

  /** The sentinel a relationship event returns when it does not trigger. */
  function NullRelationshipDelta(): RelationshipDelta
  {
    RelationshipDelta(1.0, 1.0, 1.0, 1.0)
  }

  function ZeroDelta(): EmployeeDelta
  {
    EmployeeDelta(0, 0, 0, 0, 0, 0, 0, 0)
  }

  /** The employee sentinel differs from "no change" in exactly three fields;
      the relationship sentinel multiplies every field by one. */
  lemma NullDeltasAreNotNeutral()
    ensures NullDelta() != ZeroDelta()
    ensures NullDelta() == ZeroDelta().(health := -10, greed := 20, horniness := -50)
    ensures NullRelationshipDelta() == RelationshipDelta(1.0, 1.0, 1.0, 1.0)
  {
  }

  // ---------------------------------------------------------------------------
  // Employee events

  function HasABabyPdf(e: Employee, draw: real): (d: EmployeeDelta)
    ensures d != NullDelta() <==> e.stats.horniness > 50 && 10 < e.age < 40 && draw > 0.5
    ensures d != NullDelta() ==> d == NullDelta().(stress := 10, happiness := 20, productivity := -10)
  {
    if e.stats.horniness > 50 && 40 > e.age > 10 && draw > 0.5 then
      EmployeeDelta(stress := 10, happiness := 20, health := -10, greed := 20, salary := 0,
                    horniness := -50, anger := 0, productivity := -10)
    else NullDelta()
  }

  function BadDayAtWorkPdf(e: Employee, draw: real): (d: EmployeeDelta)
    ensures d != NullDelta() <==> draw > 0.8
    ensures d != NullDelta() ==> d.stress == 10 && d.happiness == -10 && d.anger == 10 && d.productivity == -5
  {
    if draw > 0.8 then
      EmployeeDelta(stress := 10, happiness := -10, health := 0, greed := 0, salary := 0,
                    horniness := 10, anger := 10, productivity := -5)
    else NullDelta()
  }

  function GoodDayAtWorkPdf(e: Employee, draw: real): (d: EmployeeDelta)
    ensures d != NullDelta() <==> draw > 0.8
    ensures d != NullDelta() ==> d.stress == -10 && d.happiness == 10 && d.anger == -10 && d.productivity == 0
  {
    if draw > 0.8 then
      EmployeeDelta(stress := -10, happiness := 10, health := 0, greed := 0, salary := 0,
                    horniness := -10, anger := -10, productivity := 0)
    else NullDelta()
  }

  /** The stress a coffee break relieves: half the stress, capped at ten. */
  function CoffeeRelief(stress: int): (r: int)
    ensures stress >= 0 ==> 0 <= r <= 10
    ensures r <= 10 && 2 * r <= stress
  {
    if 10 <= stress / 2 then 10 else stress / 2
  }

  function CoffeeBreakPdf(e: Employee, draw: real): (d: EmployeeDelta)
    ensures d != NullDelta() <==> draw > 0.3
    ensures d != NullDelta() ==> d.stress == -CoffeeRelief(e.stats.stress) && d.happiness == 5 && d.productivity == 5
    ensures d != NullDelta() && e.stats.stress >= 0 ==> -10 <= d.stress <= 0
  {
    var relief := CoffeeRelief(e.stats.stress);
    if draw > 0.3 then
      EmployeeDelta(stress := -relief, happiness := 5, health := 0, greed := 0, salary := 0,
                    horniness := 0, anger := 0, productivity := 5)
    else NullDelta()
  }

  function OfficeGossipPdf(e: Employee, draw: real): (d: EmployeeDelta)
    ensures d != NullDelta() <==> draw > 0.6
    ensures d != NullDelta() ==> d.anger == 5 + e.stats.anger / 10 && d.happiness == -(2 + e.stats.happiness / 20)
  {
    var angerIncrease := 5 + e.stats.anger / 10;
    var happinessLoss := 2 + e.stats.happiness / 20;
    if draw > 0.6 then
      EmployeeDelta(stress := 2, happiness := -happinessLoss, health := 0, greed := 0, salary := 0,
                    horniness := 0, anger := angerIncrease, productivity := 0)
    else NullDelta()
  }

  function PromotionPdf(e: Employee, draw: real): (d: EmployeeDelta)
    ensures d != NullDelta() <==> draw > 0.9
    ensures d != NullDelta() ==>
      d.salary == 20_000 && d.greed == -10 && d.happiness == 20 + e.stats.greed / 5 && d.stress == 5 + e.stats.stress / 10
  {
    var happinessBoost := 20 + e.stats.greed / 5;
    var stressIncrease := 5 + e.stats.stress / 10;
    if draw > 0.9 then
      EmployeeDelta(stress := stressIncrease, happiness := happinessBoost, health := 0, greed := -10,
                    salary := 20_000, horniness := 0, anger := 0, productivity := 10)
    else NullDelta()
  }

  function MissedDeadlinePdf(e: Employee, draw: real): (d: EmployeeDelta)
    ensures d != NullDelta() <==> draw > 0.5
    ensures d != NullDelta() ==> d.stress == 10 + e.stats.stress / 5 && d.happiness == -(10 + e.stats.happiness / 10)
  {
    var stressIncrease := 10 + e.stats.stress / 5;
    var happinessLoss := 10 + e.stats.happiness / 10;
    if draw > 0.5 then
      EmployeeDelta(stress := stressIncrease, happiness := -happinessLoss, health := -5, greed := 0,
                    salary := 0, horniness := 0, anger := 10, productivity := -10)
    else NullDelta()
  }

  /** `pdf` of an employee event. */
  function EmployeePdf(ev: EmployeeEvent, e: Employee, draw: real): EmployeeDelta
  {
    match ev
    case HasABaby => HasABabyPdf(e, draw)
    case BadDayAtWork => BadDayAtWorkPdf(e, draw)
    case GoodDayAtWork => GoodDayAtWorkPdf(e, draw)
    case CoffeeBreak => CoffeeBreakPdf(e, draw)
    case OfficeGossip => OfficeGossipPdf(e, draw)
    case Promotion => PromotionPdf(e, draw)
    case MissedDeadline => MissedDeadlinePdf(e, draw)
  }

  /** `description` of an employee event; none of them looks at the delta. */
  function EmployeeDescription(ev: EmployeeEvent, d: EmployeeDelta): string
  {
    match ev
    case HasABaby => "They had a kid! Its looks just like them."
    case BadDayAtWork => "Ugh today sucked."
    case GoodDayAtWork => "Ugh today rocked!."
    case CoffeeBreak => "They took a coffee break and feel a bit better."
    case OfficeGossip => "They got caught up in office gossip. Drama everywhere!"
    case Promotion => "Congratulations! They got promoted and their salary increased."
    case MissedDeadline => "They missed a deadline and feel awful."
  }

  /** The source comments promise that the state-dependent magnitudes grow with
      the state they read: coffee helps the stressed more, gossip hits the angry
      harder, promotion pleases the greedy more, a missed deadline weighs more on
      the stressed. */
  lemma MagnitudesAreMonotone(e1: Employee, e2: Employee, draw: real)
    requires e1.stats.stress <= e2.stats.stress && e1.stats.anger <= e2.stats.anger
    requires e1.stats.greed <= e2.stats.greed
    ensures draw > 0.3 ==> -CoffeeBreakPdf(e1, draw).stress <= -CoffeeBreakPdf(e2, draw).stress
    ensures draw > 0.6 ==> OfficeGossipPdf(e1, draw).anger <= OfficeGossipPdf(e2, draw).anger
    ensures draw > 0.9 ==> PromotionPdf(e1, draw).happiness <= PromotionPdf(e2, draw).happiness
    ensures draw > 0.5 ==> MissedDeadlinePdf(e1, draw).stress <= MissedDeadlinePdf(e2, draw).stress
  {
  }

  // ---------------------------------------------------------------------------
  // Events a relationship has on one of its employees

  /** The productivity boost of a flow state: `int(1 + synergy) * 10`. */
  function FlowBoost(synergy: real): int
  {
    Trunc(1.0 + synergy) * 10
  }

  function EnteringFlowStatePdf(r: Relationship, e: Employee, draw: real): (d: EmployeeDelta)
    ensures d != NullDelta()
    ensures d.productivity == FlowBoost(r.synergy) && d.productivity % 10 == 0
    ensures d.stress == -Trunc(r.synergy * (e.stats.stress as real) / 100.0)
    ensures d.greed == 0 && d.salary == 0 && d.anger == 0 && d.happiness == 0
  {
    var productivityIncrease := Trunc(1.0 + r.synergy) * 10;
    var stressDecrease := -Trunc(r.synergy * (e.stats.stress as real) / 100.0);
    EmployeeDelta(stress := stressDecrease, greed := 0, salary := 0, anger := 0, happiness := 0,
                  health := 0, horniness := 0, productivity := productivityIncrease)
  }

  function PickAFightPdf(r: Relationship, e: Employee, draw: real): (d: EmployeeDelta)
    ensures d != NullDelta() <==> r.resentment * (e.stats.anger as real) > 100.0 * draw
    ensures d != NullDelta() ==> d.stress == 10 && d.anger == 5 && d.happiness == -10
  {
    if r.resentment * (e.stats.anger as real) > 100.0 * draw then
      EmployeeDelta(stress := 10, greed := 0, salary := 0, anger := 5, happiness := -10,
                    health := 0, horniness := 0, productivity := -5)
    else NullDelta()
  }

  function HaveAnAffairPdf(r: Relationship, e: Employee, draw: real): (d: EmployeeDelta)
    ensures d != NullDelta() <==> (e.stats.horniness as real) * (1.0 + r.attraction) > 100.0 * draw
    ensures d != NullDelta() ==> d.happiness == -20 && d.anger == 10
  {
    if (e.stats.horniness as real) * (1.0 + r.attraction) > 100.0 * draw then
      EmployeeDelta(stress := 10, greed := 0, salary := 0, anger := 10, happiness := -20,
                    health := 0, horniness := -5, productivity := -10)
    else NullDelta()
  }

  function PlaySomeGolfPdf(r: Relationship, e: Employee, draw: real): (d: EmployeeDelta)
    ensures d != NullDelta() <==> r.friendship > draw
    ensures d != NullDelta() ==> d.salary == Trunc(10_000.0 * draw)
    ensures d != NullDelta() && IsDraw(draw) ==> 0 <= d.salary < 10_000
  {
    if r.friendship > draw then
      EmployeeDelta(stress := -10, greed := 0, salary := Trunc(10_000.0 * draw), anger := -10,
                    happiness := 10, health := 0, horniness := -5, productivity := 5)
    else NullDelta()
  }

  function SecretRivalryPdf(r: Relationship, e: Employee, draw: real): (d: EmployeeDelta)
    ensures d != NullDelta() <==> r.resentment > draw && r.friendship < draw && e.stats.stress < 80
    ensures d != NullDelta() ==> r.friendship < r.resentment
  {
    if r.resentment > draw && r.friendship < draw && e.stats.stress < 80 then
      EmployeeDelta(stress := 10, greed := 10, salary := 0, anger := 5, happiness := -5,
                    health := 0, horniness := -5, productivity := 10)
    else NullDelta()
  }

  function EffectingPdf(ev: EffectingEvent, r: Relationship, e: Employee, draw: real): EmployeeDelta
  {
    match ev
    case EnteringFlowState => EnteringFlowStatePdf(r, e, draw)
    case PickAFight => PickAFightPdf(r, e, draw)
    case HaveAnAffair => HaveAnAffairPdf(r, e, draw)
    case PlaySomeGolf => PlaySomeGolfPdf(r, e, draw)
    case SecretRivalry => SecretRivalryPdf(r, e, draw)
  }

  /** The flow-state wording buckets the productivity by `> 15`, `> 10`, `> 5`. */
  function FlowWord(productivity: int): string
  {
    if productivity > 15 then "super productive."
    else if productivity > 10 then "somewhat productive."
    else if productivity > 5 then "disappointingly productive"
    else "unproductive"
  }

  function EffectingDescription(ev: EffectingEvent, d: EmployeeDelta): string
  {
    match ev
    case EnteringFlowState => "Entered a " + FlowWord(d.productivity) + " flow state!"
    case PickAFight => "They picked a fight with a co-worker. Not good for their heart."
    case HaveAnAffair => "They are ruining their life. They decided to have an affair but left their location on. Their partner is suspicious."
    case PlaySomeGolf => "Played a round of golf. Woah! This is really good for their career!"
    case SecretRivalry => "They started a one sided rivalry with a co-worker. Just you wait..."
  }

  /** Since the flow boost is a multiple of ten, the "somewhat productive" bucket
      (boost in 11..15) is never chosen for a flow state, and a synergy in [0, 1)
      always gives the "disappointingly productive" bucket. */
  lemma {:induction false} FlowWordBuckets(r: Relationship, e: Employee, draw: real)
    ensures FlowWord(EnteringFlowStatePdf(r, e, draw).productivity) != "somewhat productive."
    ensures 0.0 <= r.synergy < 1.0 ==>
      EnteringFlowStatePdf(r, e, draw).productivity == 10
      && FlowWord(EnteringFlowStatePdf(r, e, draw).productivity) == "disappointingly productive"
  {
    var p := EnteringFlowStatePdf(r, e, draw).productivity;
    assert p % 10 == 0;
    if 0.0 <= r.synergy < 1.0 {
      assert Trunc(1.0 + r.synergy) == 1;
    }
  }

  // ---------------------------------------------------------------------------
  // Events on a relationship between two employees

  function RomanticLunchPdf(r: Relationship, e1: Employee, e2: Employee, draw: real): (d: RelationshipDelta)
    ensures d != NullRelationshipDelta()
    ensures d.attraction == (if r.attraction > 0.5 then 1.5 else 0.5) * ((e1.stats.horniness + e2.stats.horniness) as real) / 100.0
    ensures d.resentment == 0.75 && d.synergy == 1.0 && d.friendship == 1.25
  {
    RelationshipDelta(
      attraction := ((if r.attraction > 0.5 then 1.0 else 0.0) + 0.5) * ((e1.stats.horniness + e2.stats.horniness) as real) / 100.0,
      resentment := 0.75,
      synergy := 1.0,
      friendship := 1.25)
  }

  function OverheadGossipPdf(r: Relationship, e1: Employee, e2: Employee, draw: real): (d: RelationshipDelta)
    ensures d != NullRelationshipDelta()
    ensures d == NullRelationshipDelta().(resentment := 0.75)
  {
    RelationshipDelta(attraction := 1.0, resentment := 0.75, synergy := 1.0, friendship := 1.0)
  }

  function BrainstormingSessionPdf(r: Relationship, e1: Employee, e2: Employee, draw: real): (d: RelationshipDelta)
    ensures d != NullRelationshipDelta()
    ensures d.synergy == 1.5 <==> r.synergy > 0.5 && e1.stats.stress + e2.stats.stress < 100 && draw > 0.3
    ensures d.synergy != 1.5 ==> d.synergy == 0.8
  {
    if (r.synergy > 0.5 && e1.stats.stress + e2.stats.stress < 100) && draw > 0.3 then
      RelationshipDelta(attraction := 1.0, resentment := -0.5, synergy := 1.5, friendship := 1.2)
    else
      RelationshipDelta(attraction := 1.0, resentment := 1.0, synergy := 0.8, friendship := 0.9)
  }

  function RiskyJokePdf(r: Relationship, e1: Employee, e2: Employee, draw: real): (d: RelationshipDelta)
    ensures d != NullRelationshipDelta()
    ensures d.friendship == 1.5 <==> r.friendship > r.resentment && draw > 0.4
    ensures d.friendship != 1.5 ==> d.friendship == 0.8
  {
    if r.friendship > r.resentment && draw > 0.4 then
      RelationshipDelta(attraction := 1.0, resentment := 0.5, synergy := 1.5, friendship := 1.5)
    else
      RelationshipDelta(attraction := 0.75, resentment := 1.5, synergy := 0.8, friendship := 0.8)
  }

  function RelationshipPdf(ev: RelationshipEvent, r: Relationship, e1: Employee, e2: Employee, draw: real): RelationshipDelta
  {
    match ev
    case RomanticLunch => RomanticLunchPdf(r, e1, e2, draw)
    case OverheadGossip => OverheadGossipPdf(r, e1, e2, draw)
    case BrainstormingSession => BrainstormingSessionPdf(r, e1, e2, draw)
    case RiskyJoke => RiskyJokePdf(r, e1, e2, draw)
  }

  function RelationshipDescription(ev: RelationshipEvent, d: RelationshipDelta): string
  {
    match ev
    case RomanticLunch =>
      if d.attraction > 0.5 then "Things are getting complicated between these two..."
      else "Some people can just be platonic."
    case OverheadGossip => "They overheard someone talking about them..."
    case BrainstormingSession =>
      if d.synergy > 1.0 then "The brainstorming session sparked some great ideas!"
      else "The brainstorming session went nowhere and tensions rose."
    case RiskyJoke =>
      if d.friendship > 1.0 then "The risky joke landed perfectly \U{E2}\U{20AC}\U{201D} everyone laughed!"
      else "The risky joke fell flat and created awkward tension."
  }

  /** No relationship event ever returns the null sentinel, so every one of them
      is narrated; and the wording of the two branching events tells which
      branch was taken. */
  lemma {:induction false} RelationshipNarration(ev: RelationshipEvent, r: Relationship, e1: Employee, e2: Employee, draw: real)
    ensures RelationshipPdf(ev, r, e1, e2, draw) != NullRelationshipDelta()
    ensures ev == BrainstormingSession ==>
      (RelationshipDescription(ev, RelationshipPdf(ev, r, e1, e2, draw)) == "The brainstorming session sparked some great ideas!"
       <==> r.synergy > 0.5 && e1.stats.stress + e2.stats.stress < 100 && draw > 0.3)
    ensures ev == RiskyJoke ==>
      (RelationshipDescription(ev, RelationshipPdf(ev, r, e1, e2, draw)) == "The risky joke fell flat and created awkward tension."
       <==> !(r.friendship > r.resentment && draw > 0.4))
  {
    match ev
    case BrainstormingSession =>
      var d := BrainstormingSessionPdf(r, e1, e2, draw);
      assert d.synergy > 1.0 <==> d.synergy == 1.5;
    case RiskyJoke =>
      var d := RiskyJokePdf(r, e1, e2, draw);
      assert d.friendship > 1.0 <==> d.friendship == 1.5;
    case _ =>
  }

  // ---------------------------------------------------------------------------
  // The three buses

  const EmployeeBus: seq<EmployeeEvent> :=
    [HasABaby, GoodDayAtWork, BadDayAtWork, CoffeeBreak, OfficeGossip, MissedDeadline, Promotion, MissedDeadline]

  const EffectingBus: seq<EffectingEvent> :=
    [EnteringFlowState, PickAFight, HaveAnAffair, PlaySomeGolf, SecretRivalry]

  const RelationshipBus: seq<RelationshipEvent> :=
    [RomanticLunch, OverheadGossip, BrainstormingSession, RiskyJoke]
}
