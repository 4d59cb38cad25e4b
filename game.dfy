/**
 * The top level of game.js and restartGame of uiSystem.js: one simulation
 * tick updates the road, the sprite, the decorations, the card and the money
 * in that order, and the menu, select and restart transitions reset the
 * subsystems.
 */
module Game {
  import opened Wrappers
  import opened Config
  import opened Entities
  import opened Projection
  import opened State
  import UiSystem
  import CardSystem
  import MoneySystem
  import Renderer

  // ---------------------------------------------------------------------------
  // Road animation

  /** The road offset after one tick (game.js:105-108). */
  function RoadStep(r: real): (n: real)
    ensures 0.0 <= r <= 1.0 ==> 0.0 < n <= 1.0
    ensures r + GAME_SPEED <= 1.0 ==> n == r + GAME_SPEED
    ensures r + GAME_SPEED > 1.0 ==> n == r + GAME_SPEED - 1.0
  {
    var next := r + GAME_SPEED;
    if next > 1.0 then next - 1.0 else next
  }

  function RoadAfter(r: real, n: nat): real {
    if n == 0 then r else RoadStep(RoadAfter(r, n - 1))
  }

  /**
   * Within 100 ticks the offset from r in [0, 1] has advanced by 0.01 per
   * tick, wrapping once past 1.
   */
  lemma {:induction false} RoadAdvances(r: real, n: nat)
    requires 0.0 <= r <= 1.0 && n <= 100
    ensures r + GAME_SPEED * n as real <= 1.0 ==> RoadAfter(r, n) == r + GAME_SPEED * n as real
    ensures r + GAME_SPEED * n as real > 1.0 ==> RoadAfter(r, n) == r + GAME_SPEED * n as real - 1.0
  {
    if n > 0 {
      RoadAdvances(r, n - 1);
    }
  }

  /** From the start the offset reaches exactly 1.0 after 100 ticks, and the offset then repeats every 100 ticks. */
  lemma RoadCycle(r: real)
    requires 0.0 < r <= 1.0
    ensures RoadAfter(0.0, 100) == 1.0
    ensures RoadAfter(r, 100) == r
  {
    RoadAdvances(0.0, 100);
    RoadAdvances(r, 100);
  }

  /** With no money on the road the first card of a session spawns at its start distance exactly. */
  lemma {:induction false} SpawnOnEmptyRoad(start: real, d: real)
    requires CardSystem.SearchResult(start, [], d)
    ensures d == start
  {
    var k: nat :| d == CardSystem.Candidate(start, k) &&
      forall j: nat :: j < k ==> !CardSystem.ClearOfMoney([], CardSystem.Candidate(start, j));
    if k > 0 {
      assert CardSystem.ClearOfMoney([], CardSystem.Candidate(start, 0));
      assert false;
    }
  }

  /** The player's sprite configuration for a business (game.js:19-28). */
  function SpriteConfigOf(id: BusinessId): (cfg: Renderer.SpriteConfig)
    ensures cfg.frames == Some(BusinessOf(id).character.frames) && |cfg.frames.value| > 0
    ensures cfg.frameSpeed == Some(BusinessOf(id).character.frameSpeed)
  {
    var ch := BusinessOf(id).character;
    Renderer.SpriteConfig(Some(ch.frames), Some(ch.frameSpeed), Some(ch.frameWidth), Some(ch.frameHeight), Some(ch.scale))
  }

  /** The record restartGame installs (uiSystem.js:228-240); the game resumes at its end. */
  function RestartState(id: BusinessId): (gs: GameState)
    ensures gs.selectedBusiness == Some(id) && gs.revenue == BusinessOf(id).revenue
    ensures gs.cash == 0 && gs.month == 1 && gs.cardsThisMonth == 0 && gs.maxCardsPerMonth == 2
    ensures gs.targetCash == Some(1000) && gs.maxMonths == Some(12) && !gs.gameEnded
    ensures !Won(gs) && !OutOfTime(gs)
  {
    GameState(Some(id), 0, BusinessOf(id).revenue, 1, false, 0.0, 0, 2, Some(1000), Some(12), false)
  }

  /** Everything the page keeps, with the sprite made on selection (game.js:14). */
  class Game {
    const session: UiSystem.Session
    const cards: CardSystem.CardSystem
    const money: MoneySystem.MoneySystem
    const background: Renderer.Background
    var sprite: Option<Renderer.Sprite>
    var canvas: Canvas

    ghost function SpriteFrame(): set<object>
      reads this
    {
      if sprite.Some? then {sprite.value} else {}
    }

    ghost predicate Valid()
      reads this, session, money, SpriteFrame()
    {
      session.Valid() && money.Valid() && (sprite.Some? ==> sprite.value.Valid())
    }

    /** The page at load time (game.js:2-14, 155-158). */
    constructor (window: Canvas)
      ensures Valid() && fresh(session) && fresh(cards) && fresh(money) && fresh(background)
      ensures session.gs == MENU_STATE && session.currentDecision == None && sprite == None && canvas == window
      ensures cards.currentCard == None && cards.isFirstCard && background.decorations == []
      ensures money.objects == [] && money.pool == [] && money.effect == None
    {
      session := new UiSystem.Session();
      cards := new CardSystem.CardSystem();
      money := new MoneySystem.MoneySystem();
      background := new Renderer.Background();
      sprite := None;
      canvas := window;
    }

    /**
     * update (game.js:101-123) with the random draws of the tick passed in.
     * With the game paused nothing moves. Otherwise the road, sprite,
     * decorations and card move, and the money moves only if the card did not
     * hit in this tick, since the hit has paused the game by then.
     */
    method Update(isMobile: bool, spawnDraw: real, depthDraw: real, d: Renderer.DecorationDraws, decisionDraw: real)
      returns (hit: bool, monthEnd: Option<UiSystem.MonthEnd>)
      requires Valid() && 0.0 <= spawnDraw < 1.0 && 0.0 <= depthDraw < 1.0 && Renderer.DrawsInRange(d)
      requires 0.0 <= decisionDraw < 1.0
      modifies session, cards, money, background, SpriteFrame()
      ensures Valid()
      ensures !old(session.gs.gameStarted) ==>
        !hit && monthEnd.None? && unchanged(session, cards, money, background) && unchanged(SpriteFrame())
      ensures old(session.gs.gameStarted) ==>
        hit == CardSystem.HitsThisTick(old(cards.currentCard), 1.0) &&
        cards.currentCard == CardSystem.TickSlot(old(cards.currentCard), 1.0) &&
        cards.isFirstCard == old(cards.isFirstCard)
      ensures old(session.gs.gameStarted) && hit ==>
        session.gs == UiSystem.AfterHit(old(session.gs).(roadOffset := RoadStep(old(session.gs.roadOffset)))) &&
        monthEnd == UiSystem.HitOutcome(old(session.gs).(roadOffset := RoadStep(old(session.gs.roadOffset)))) &&
        session.currentDecision == Some(UiSystem.PickDecision(decisionDraw)) &&
        money.objects == old(money.objects) && money.pool == old(money.pool) && money.effect == old(money.effect)
      ensures old(session.gs.gameStarted) && !hit ==>
        session.gs == old(session.gs).(roadOffset := RoadStep(old(session.gs.roadOffset)),
                                       cash := old(session.gs.cash) + MoneySystem.Credit(old(money.objects), 1.0)) &&
        monthEnd.None? && session.currentDecision == old(session.currentDecision) &&
        money.objects == MoneySystem.Survivors(old(money.objects), 1.0) &&
        money.pool == MoneySystem.OfferAll(old(money.pool), MoneySystem.Released(old(money.objects), 1.0)) &&
        money.effect == MoneySystem.Countdown(MoneySystem.LatestEffect(old(money.effect), old(money.objects), 1.0, canvas), 1.0)
      ensures sprite.Some? ==>
        unchanged(sprite.value`isLoaded, sprite.value`frames, sprite.value`frameSpeed, sprite.value`scaledFrames,
                  sprite.value`frameWidth, sprite.value`frameHeight, sprite.value`scale)
      ensures old(session.gs.gameStarted) && sprite.Some? ==>
        (!sprite.value.isLoaded ==> sprite.value.frameCounter == old(sprite.value.frameCounter) &&
                                    sprite.value.currentFrame == old(sprite.value.currentFrame)) &&
        (sprite.value.isLoaded ==>
           Renderer.Anim(sprite.value.frameCounter, sprite.value.currentFrame) ==
           Renderer.AnimTick(Renderer.Anim(old(sprite.value.frameCounter), old(sprite.value.currentFrame)),
                             sprite.value.frameSpeed, |sprite.value.frames|))
      ensures old(session.gs.gameStarted) ==>
        background.decorations == Renderer.Drifted(canvas, old(background.decorations)) +
                                  Renderer.Spawned(old(session.gs), isMobile, spawnDraw, depthDraw, d)
    {
      hit, monthEnd := false, None;
      if !session.gs.gameStarted {
        return;
      }
      session.gs := session.gs.(roadOffset := RoadStep(session.gs.roadOffset));
      if sprite.Some? {
        sprite.value.Update();
      }
      background.UpdateBackgroundDecorations(session.gs, canvas, isMobile, spawnDraw, depthDraw, d);
      hit, monthEnd := cards.UpdateGameCards(session, 1.0, decisionDraw);
      money.Update(session, canvas, 1.0);
    }

    /** initCanvas (renderer.js:224-235): the canvas takes the window's size. */
    method InitCanvas(window: Canvas)
      modifies this`canvas
      ensures canvas == window
    {
      canvas := window;
    }

    /** The resize handler (game.js:149-153): only a running game follows the window. */
    method Resize(window: Canvas)
      modifies this`canvas
      ensures session.gs.gameStarted ==> canvas == window
      ensures !session.gs.gameStarted ==> canvas == old(canvas)
    {
      if session.gs.gameStarted {
        InitCanvas(window);
      }
    }

    /**
     * selectBusiness (game.js:49-70). The card is spawned against the money
     * still on the road, since the money list is cleared only after it.
     */
    method SelectBusiness(id: BusinessId, window: Canvas, isMobile: bool,
                          decorationDraws: seq<(real, Renderer.DecorationDraws)>, typeDraw: real)
      requires Valid() && 0.0 <= typeDraw < 1.0
      requires |decorationDraws| == Renderer.MaxDecorations(isMobile)
      requires forall k :: 0 <= k < |decorationDraws| ==>
        0.0 <= decorationDraws[k].0 < 1.0 && Renderer.DrawsInRange(decorationDraws[k].1)
      modifies this, session, cards, money, background
      ensures Valid()
      ensures session.gs == old(session.gs).(selectedBusiness := Some(id), revenue := BusinessOf(id).revenue,
                                             gameStarted := true)
      ensures canvas == window && sprite.Some? && fresh(sprite.value) && !sprite.value.isLoaded
      ensures sprite.value.frames == BusinessOf(id).character.frames &&
        sprite.value.frameSpeed == BusinessOf(id).character.frameSpeed &&
        sprite.value.currentFrame == 0 && sprite.value.frameCounter == 0
      ensures sprite.value.frameWidth == BusinessOf(id).character.frameWidth &&
        sprite.value.frameHeight == BusinessOf(id).character.frameHeight &&
        sprite.value.scale == BusinessOf(id).character.scale
      ensures session.currentDecision == old(session.currentDecision)
      ensures |background.decorations| == Renderer.MaxDecorations(isMobile)
      ensures forall k :: 0 <= k < |decorationDraws| ==>
        background.decorations[k] == Renderer.NewDecoration(BusinessOf(id).decorations,
                                                            Renderer.InitialDepth(decorationDraws[k].0),
                                                            decorationDraws[k].1)
      ensures forall k :: 0 <= k < |background.decorations| ==> 1.0 <= background.decorations[k].z < 5.0
      ensures cards.currentCard.Some? && !cards.isFirstCard &&
        CardSystem.SearchResult(6.0, old(money.objects), cards.currentCard.value.z) &&
        cards.currentCard.value.cardType in CardSystem.CARD_TYPES && cards.currentCard.value.x == 0.0
      ensures money.objects == [] && money.effect == None && money.pool == old(money.pool)
    {
      session.gs := session.gs.(selectedBusiness := Some(id));
      session.gs := session.gs.(revenue := BusinessOf(id).revenue);
      InitCanvas(window);
      var s := new Renderer.Sprite(SpriteConfigOf(id));
      sprite := Some(s);
      background.InitBackgroundDecorations(session.gs, isMobile, decorationDraws);
      cards.InitGameCards(money.objects, typeDraw);
      money.InitMoneySystem();
      session.gs := session.gs.(gameStarted := true);
    }

    /** goBack (game.js:72-92): back to the menu record with empty decorations, card slot and money list. */
    method GoBack()
      requires Valid()
      modifies session`gs, cards, money, background
      ensures Valid()
      ensures session.gs == MENU_STATE
      ensures background.decorations == [] && cards.currentCard == None && cards.isFirstCard
      ensures money.objects == [] && money.effect == None
      ensures money.pool == MoneySystem.OfferAll(old(money.pool), old(money.objects))
    {
      session.gs := session.gs.(gameStarted := false);
      background.decorations := [];
      cards.ResetCardSystem();
      money.ResetMoneySystem();
      session.gs := MENU_STATE;
    }

    /**
     * restartGame (uiSystem.js:224-261). With no business selected the source
     * fails on `selectedBusiness.revenue` before changing anything; `ok` is
     * false then. Otherwise a fresh twelve-month game towards 1000 starts,
     * with its first card six units ahead on the emptied road.
     */
    method RestartGame(typeDraw: real) returns (ok: bool)
      requires Valid() && 0.0 <= typeDraw < 1.0
      modifies session`gs, cards, money
      ensures Valid()
      ensures ok <==> old(session.gs.selectedBusiness).Some?
      ensures !ok ==> unchanged(session`gs, cards, money)
      ensures ok ==> session.gs == RestartState(old(session.gs.selectedBusiness).value).(gameStarted := true)
      ensures ok ==> cards.currentCard.Some? && cards.currentCard.value.z == 6.0 &&
                     cards.currentCard.value.cardType in CardSystem.CARD_TYPES &&
                     cards.currentCard.value.x == 0.0 && !cards.isFirstCard
      ensures ok ==> money.objects == [] && money.effect == None &&
                     money.pool == MoneySystem.OfferAll(old(money.pool), old(money.objects))
    {
      if session.gs.selectedBusiness.None? {
        ok := false;
        return;
      }
      session.gs := RestartState(session.gs.selectedBusiness.value);
      cards.ResetCardSystem();
      money.ResetMoneySystem();
      cards.InitGameCards(money.objects, typeDraw);
      SpawnOnEmptyRoad(6.0, cards.currentCard.value.z);
      money.InitMoneySystem();
      session.gs := session.gs.(gameStarted := true);
      ok := true;
    }
  }
}
