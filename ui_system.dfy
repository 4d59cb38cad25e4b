/**
 * The month and decision state machine of uiSystem.js. A card hit pauses the
 * simulation and opens a decision popup; the second hit of a month also runs
 * the month end, which credits the monthly revenue and then checks for a win
 * before it checks for a loss. Sounds, popup HTML and the status element are
 * presentation and are not modelled; the status text chosen by `updateUI`
 * is modelled as the value `StatusLine`.
 */
module UiSystem {
  import opened Wrappers
  import opened State

  datatype DecisionEffect = AddRevenue(amount: int) | AddCash(amount: int)

  datatype Decision = Decision(option1: DecisionEffect, option2: DecisionEffect)

  /** The three business decisions and their two options (uiSystem.js:37-56). */
  const DECISIONS: seq<Decision> := [
    Decision(AddRevenue(20), AddCash(50)),
    Decision(AddRevenue(30), AddCash(100)),
    Decision(AddRevenue(25), AddCash(75))
  ]

  /** What `endMonth` leads to: a terminal screen, or the monthly revenue wave. */
  datatype MonthEnd = Victory | GameOver | RevenueWave(totalRevenue: int)

  /** `decisions[Math.floor(Math.random() * decisions.length)]` for a draw in [0, 1). */
  function PickDecision(draw: real): (d: Decision)
    requires 0.0 <= draw < 1.0
    ensures d in DECISIONS
  {
    var k := (draw * 3.0).Floor;
    assert 0 <= k < 3;
    DECISIONS[k]
  }

  /** Every decision of the table offers revenue as its first option and cash as its second. */
  lemma DecisionOptions(d: Decision)
    requires d in DECISIONS
    ensures d.option1.AddRevenue? && d.option2.AddCash?
    ensures d.option1.amount > 0 && d.option2.amount > 0
  {
  }

  function ApplyEffect(gs: GameState, e: DecisionEffect): GameState {
    match e
    case AddRevenue(n) => gs.(revenue := gs.revenue + n)
    case AddCash(n) => gs.(cash := gs.cash + n)
  }

  /** The chosen option applied and the game resumed (uiSystem.js:81-93). */
  function AfterDecision(gs: GameState, d: Decision, choice: int): (r: GameState)
    requires d in DECISIONS
    ensures r.gameStarted
    ensures choice == 0 ==>
      r.cash == gs.cash && r.revenue == gs.revenue + d.option1.amount && r.revenue - gs.revenue in {20, 30, 25}
    ensures choice != 0 ==>
      r.revenue == gs.revenue && r.cash == gs.cash + d.option2.amount && r.cash - gs.cash in {50, 100, 75}
    ensures r.(gameStarted := gs.gameStarted, cash := gs.cash, revenue := gs.revenue) == gs
  {
    var e := if choice == 0 then d.option1 else d.option2;
    ApplyEffect(gs, e).(gameStarted := true)
  }

  /** The month's revenue credited, the month advanced, the counter cleared (uiSystem.js:125-130). */
  function Credited(gs: GameState): GameState {
    gs.(cash := gs.cash + gs.revenue, month := gs.month + 1, cardsThisMonth := 0)
  }

  /** The month-end verdict on the credited record: a win is checked before a loss. */
  function Verdict(gs: GameState): (v: MonthEnd)
    ensures v == Victory <==> Won(gs)
    ensures v == GameOver <==> !Won(gs) && OutOfTime(gs)
    ensures v.RevenueWave? <==> !Won(gs) && !OutOfTime(gs)
    ensures v.RevenueWave? ==> v.totalRevenue == gs.revenue
  {
    if Won(gs) then Victory
    else if OutOfTime(gs) then GameOver
    else RevenueWave(gs.revenue)
  }

  /** Both terminal screens stop the game for good (uiSystem.js:173-175, 198-200). */
  function Ended(gs: GameState): GameState {
    gs.(gameStarted := false, gameEnded := true)
  }

  /** The record after `endMonth` (uiSystem.js:124-171). */
  function AfterMonthEnd(gs: GameState): (r: GameState)
    ensures r.cash == gs.cash + gs.revenue && r.month == gs.month + 1 && r.cardsThisMonth == 0
    ensures r.revenue == gs.revenue && r.maxCardsPerMonth == gs.maxCardsPerMonth
    ensures Verdict(Credited(gs)).RevenueWave? ==> r == Credited(gs)
    ensures !Verdict(Credited(gs)).RevenueWave? ==> r == Ended(Credited(gs)) && !r.gameStarted && r.gameEnded
  {
    var c := Credited(gs);
    if Verdict(c).RevenueWave? then c else Ended(c)
  }

  /** Whether a hit on a record completes the month (uiSystem.js:24). */
  predicate CompletesMonth(gs: GameState) {
    gs.cardsThisMonth + 1 >= gs.maxCardsPerMonth
  }

  /** The record after `hitCard` (uiSystem.js:3-27): paused, counted, and the month ended when due. */
  function AfterHit(gs: GameState): (r: GameState)
    ensures !r.gameStarted
    ensures CompletesMonth(gs) ==> r == AfterMonthEnd(gs.(gameStarted := false, cardsThisMonth := gs.cardsThisMonth + 1))
    ensures !CompletesMonth(gs) ==> r == gs.(gameStarted := false, cardsThisMonth := gs.cardsThisMonth + 1)
    ensures 0 <= gs.cardsThisMonth < gs.maxCardsPerMonth ==> 0 <= r.cardsThisMonth < r.maxCardsPerMonth
  {
    var counted := gs.(gameStarted := false, cardsThisMonth := gs.cardsThisMonth + 1);
    if counted.cardsThisMonth >= counted.maxCardsPerMonth then AfterMonthEnd(counted) else counted
  }

  /** What a hit leads to: nothing yet, or the outcome of the month end it triggers. */
  function HitOutcome(gs: GameState): (o: Option<MonthEnd>)
    ensures o.Some? <==> CompletesMonth(gs)
  {
    var counted := gs.(gameStarted := false, cardsThisMonth := gs.cardsThisMonth + 1);
    if counted.cardsThisMonth >= counted.maxCardsPerMonth then Some(Verdict(Credited(counted))) else None
  }

  /**
   * The status line `updateUI` writes (uiSystem.js:277-289). In the goal line
   * a missing target or month limit makes the percentage and the months left
   * not-a-number in the source; here they are None.
   */
  datatype Status =
    | Goal(target: Option<int>, progress: Option<int>, monthsLeft: Option<int>)
    | OneMoreCard
    | MonthComplete

  /** `Math.round`: the nearest integer, halves rounded up. */
  function Round(x: real): (n: int)
    ensures n as real - 0.5 <= x < n as real + 0.5
  {
    (x + 0.5).Floor
  }

  function StatusLine(gs: GameState): (s: Status)
    ensures s.Goal? <==> gs.cardsThisMonth == 0
    ensures s == OneMoreCard <==> gs.cardsThisMonth == 1
    ensures s == MonthComplete <==> gs.cardsThisMonth != 0 && gs.cardsThisMonth != 1
    ensures s.Goal? ==> s.target == gs.targetCash
    ensures s.Goal? ==> (s.monthsLeft.Some? <==> gs.maxMonths.Some?)
    ensures s.Goal? && gs.maxMonths.Some? ==> s.monthsLeft.value == gs.maxMonths.value - gs.month + 1
    ensures s.Goal? ==> (s.progress.Some? <==> gs.targetCash.Some? && gs.targetCash.value != 0)
    ensures s.Goal? && s.progress.Some? ==>
      var pct := gs.cash as real * 100.0 / gs.targetCash.value as real;
      s.progress.value as real - 0.5 <= pct < s.progress.value as real + 0.5
  {
    if gs.cardsThisMonth == 0 then
      var progress :=
        if gs.targetCash.Some? && gs.targetCash.value != 0
        then Some(Round(gs.cash as real * 100.0 / gs.targetCash.value as real))
        else None;
      var monthsLeft := if gs.maxMonths.Some? then Some(gs.maxMonths.value - gs.month + 1) else None;
      Goal(gs.targetCash, progress, monthsLeft)
    else if gs.cardsThisMonth == 1 then OneMoreCard
    else MonthComplete
  }

  /** A user-visible event of the state machine: a card hit, a decision button, a plain close. */
  datatype UiEvent = Hit(decisionDraw: real) | Decide(choice: int) | Close

  /** The game record and the decision the popup currently offers. */
  datatype Ui = Ui(gs: GameState, decision: Option<Decision>)

  predicate DrawsInRange(events: seq<UiEvent>) {
    forall k :: 0 <= k < |events| && events[k].Hit? ==> 0.0 <= events[k].decisionDraw < 1.0
  }

  predicate DecisionKnown(ui: Ui) {
    ui.decision.Some? ==> ui.decision.value in DECISIONS
  }

  /** One event as the Session methods below perform it. */
  function Step(ui: Ui, e: UiEvent): (r: Ui)
    requires DecisionKnown(ui)
    requires e.Hit? ==> 0.0 <= e.decisionDraw < 1.0
    ensures DecisionKnown(r)
  {
    match e
    case Hit(draw) => Ui(AfterHit(ui.gs), Some(PickDecision(draw)))
    case Decide(choice) =>
      if ui.decision.None? then ui else Ui(AfterDecision(ui.gs, ui.decision.value, choice), ui.decision)
    case Close => Ui(ui.gs.(gameStarted := true), ui.decision)
  }

  function Run(ui: Ui, events: seq<UiEvent>): (r: Ui)
    requires DecisionKnown(ui) && DrawsInRange(events)
    ensures DecisionKnown(r)
    decreases |events|
  {
    if events == [] then ui else Run(Step(ui, events[0]), events[1..])
  }

  lemma DrawsInRangeTail(events: seq<UiEvent>)
    requires DrawsInRange(events) && events != []
    ensures DrawsInRange(events[1..])
  {
    forall k | 0 <= k < |events[1..]| && events[1..][k].Hit?
      ensures 0.0 <= events[1..][k].decisionDraw < 1.0
    {
      assert events[1..][k] == events[k + 1];
    }
  }

  function Hits(events: seq<UiEvent>): nat {
    if events == [] then 0 else (if events[0].Hit? then 1 else 0) + Hits(events[1..])
  }

  /** How many of the events end a month when applied in order. */
  function MonthEnds(ui: Ui, events: seq<UiEvent>): nat
    requires DecisionKnown(ui) && DrawsInRange(events)
    decreases |events|
  {
    if events == [] then 0
    else (if events[0].Hit? && CompletesMonth(ui.gs) then 1 else 0) + MonthEnds(Step(ui, events[0]), events[1..])
  }

  /**
   * With two cards per month, every second hit ends exactly one month: the
   * counter is the number of hits modulo two and the month advances once per
   * pair, whatever decisions are taken in between.
   */
  lemma {:induction false} MonthEveryTwoHits(ui: Ui, events: seq<UiEvent>)
    requires DecisionKnown(ui) && DrawsInRange(events)
    requires ui.gs.maxCardsPerMonth == 2 && 0 <= ui.gs.cardsThisMonth < 2
    ensures Run(ui, events).gs.maxCardsPerMonth == 2
    ensures Run(ui, events).gs.cardsThisMonth == (ui.gs.cardsThisMonth + Hits(events)) % 2
    ensures MonthEnds(ui, events) == (ui.gs.cardsThisMonth + Hits(events)) / 2
    ensures Run(ui, events).gs.month == ui.gs.month + MonthEnds(ui, events)
    decreases |events|
  {
    if events != [] {
      var next := Step(ui, events[0]);
      DrawsInRangeTail(events);
      MonthEveryTwoHits(next, events[1..]);
    }
  }

  /**
   * Outside a restart, cash never decreases: month ends add the revenue and
   * decisions add positive amounts, and the revenue itself only grows.
   */
  lemma {:induction false} CashNeverDecreases(ui: Ui, events: seq<UiEvent>)
    requires DecisionKnown(ui) && DrawsInRange(events)
    requires ui.gs.revenue >= 0
    ensures Run(ui, events).gs.cash >= ui.gs.cash
    ensures Run(ui, events).gs.revenue >= ui.gs.revenue
    decreases |events|
  {
    if events != [] {
      var next := Step(ui, events[0]);
      DrawsInRangeTail(events);
      CashNeverDecreases(next, events[1..]);
    }
  }

  /**
   * Before a restart installs a target and a month limit, no month end ends
   * the game: however many cards are hit, the ended flag is never set.
   */
  lemma {:induction false} NoEndWithoutTarget(ui: Ui, events: seq<UiEvent>)
    requires DecisionKnown(ui) && DrawsInRange(events)
    requires ui.gs.targetCash == None && ui.gs.maxMonths == None
    ensures Run(ui, events).gs.gameEnded == ui.gs.gameEnded
    ensures Run(ui, events).gs.targetCash == None && Run(ui, events).gs.maxMonths == None
    decreases |events|
  {
    if events != [] {
      var next := Step(ui, events[0]);
      DrawsInRangeTail(events);
      NoEndWithoutTarget(next, events[1..]);
    }
  }

  /**
   * The `gameState` record together with the decision the open popup offers
   * (`window.currentDecision`).
   */
  class Session {
    var gs: GameState
    var currentDecision: Option<Decision>

    ghost predicate Valid()
      reads this
    {
      currentDecision.Some? ==> currentDecision.value in DECISIONS
    }

    /** The page's initial record (game.js:2-11); no decision is open yet. */
    constructor ()
      ensures Valid() && gs == MENU_STATE && currentDecision == None
    {
      gs := MENU_STATE;
      currentDecision := None;
    }

    /** showCardPopup (uiSystem.js:29-76): pauses updates and stores a random decision. */
    method ShowCardPopup(decisionDraw: real)
      requires 0.0 <= decisionDraw < 1.0
      modifies this
      ensures Valid()
      ensures gs == old(gs).(gameStarted := false)
      ensures currentDecision == Some(PickDecision(decisionDraw))
    {
      gs := gs.(gameStarted := false);
      currentDecision := Some(PickDecision(decisionDraw));
    }

    /** hitCard (uiSystem.js:3-27). */
    method HitCard(decisionDraw: real) returns (monthEnd: Option<MonthEnd>)
      requires 0.0 <= decisionDraw < 1.0
      modifies this
      ensures Valid()
      ensures gs == AfterHit(old(gs)) && monthEnd == HitOutcome(old(gs))
      ensures currentDecision == Some(PickDecision(decisionDraw))
    {
      ShowCardPopup(decisionDraw);
      gs := gs.(cardsThisMonth := gs.cardsThisMonth + 1);
      if gs.cardsThisMonth >= gs.maxCardsPerMonth {
        var outcome := EndMonth();
        monthEnd := Some(outcome);
      } else {
        monthEnd := None;
      }
    }

    /**
     * endMonth (uiSystem.js:124-171). On a revenue wave the source schedules
     * the bill spawns on timers; the caller receives the wave's total instead.
     */
    method EndMonth() returns (outcome: MonthEnd)
      modifies this`gs
      ensures gs == AfterMonthEnd(old(gs))
      ensures outcome == Verdict(Credited(old(gs)))
    {
      gs := gs.(cash := gs.cash + gs.revenue);
      gs := gs.(month := gs.month + 1, cardsThisMonth := 0);
      if Won(gs) {
        ShowVictoryScreen();
        outcome := Victory;
        return;
      }
      if OutOfTime(gs) {
        ShowGameOverScreen();
        outcome := GameOver;
        return;
      }
      outcome := RevenueWave(gs.revenue);
    }

    /** The state part of showVictoryScreen (uiSystem.js:173-175). */
    method ShowVictoryScreen()
      modifies this`gs
      ensures gs == Ended(old(gs))
    {
      gs := gs.(gameStarted := false, gameEnded := true);
    }

    /** The state part of showGameOverScreen (uiSystem.js:198-200). */
    method ShowGameOverScreen()
      modifies this`gs
      ensures gs == Ended(old(gs))
    {
      gs := gs.(gameStarted := false, gameEnded := true);
    }

    /**
     * makeDecision (uiSystem.js:78-104). With no decision stored the source
     * fails on `decision.option1` before changing anything; `ok` is false then.
     * The next card spawn, deferred by a timer, is the caller's to make.
     */
    method MakeDecision(choice: int) returns (ok: bool)
      requires Valid()
      modifies this`gs
      ensures ok <==> old(currentDecision).Some?
      ensures ok ==> gs == AfterDecision(old(gs), currentDecision.value, choice)
      ensures !ok ==> gs == old(gs)
    {
      if currentDecision.None? {
        ok := false;
        return;
      }
      var decision := currentDecision.value;
      if choice == 0 {
        gs := ApplyEffect(gs, decision.option1);
      } else {
        gs := ApplyEffect(gs, decision.option2);
      }
      gs := gs.(gameStarted := true);
      ok := true;
    }

    /** closePopup (uiSystem.js:106-122): resumes the game; the deferred respawn is the caller's. */
    method ClosePopup()
      modifies this`gs
      ensures gs == old(gs).(gameStarted := true)
    {
      gs := gs.(gameStarted := true);
    }
  }
}
