/**
 * The single decision card of cardSystem.js. At most one card is live; it
 * spawns some distance ahead (farther for the first card of a session),
 * pushed out while a money pickup is too close, and travels towards the
 * player until it reaches the hit depth, where it triggers `hitCard` and the
 * slot is cleared. Respawning is left to the popup handlers.
 */
module CardSystem {
  import opened Wrappers
  import opened Entities
  import opened Projection
  import UiSystem

  /** cardSystem.js:7 */
  const CARD_TYPES: seq<string> := ["card1", "card2", "card3", "card4"]

  /** A card at or nearer than this depth hits the player (cardSystem.js:75). */
  const HIT_DEPTH: real := 0.2

  /** No card spawns beyond this depth (cardSystem.js:47). */
  const MAX_SPAWN_DISTANCE: real := 12.0

  /** The default distance parameter of spawnCardAt (cardSystem.js:126). */
  const DEFAULT_CARD_DISTANCE: real := 3.5

  /** `CARD_TYPES[Math.floor(Math.random() * CARD_TYPES.length)]` for a draw in [0, 1) (cardSystem.js:20-22). */
  function GetRandomCardType(draw: real): (t: string)
    requires 0.0 <= draw < 1.0
    ensures t in CARD_TYPES
  {
    var k := (draw * 4.0).Floor;
    assert 0 <= k < 4;
    CARD_TYPES[k]
  }

  /** `type || getRandomCardType()`: an absent or empty type is replaced by a random one. */
  function ChosenType(cardType: Option<string>, draw: real): (t: string)
    requires 0.0 <= draw < 1.0
    ensures cardType.Some? && cardType.value != "" ==> t == cardType.value
    ensures cardType.None? || cardType.value == "" ==> t in CARD_TYPES
  {
    if cardType.Some? && cardType.value != "" then cardType.value else GetRandomCardType(draw)
  }

  /** The first spawn of a session is farther away (cardSystem.js:43). */
  function StartDistance(isFirstCard: bool): real {
    if isFirstCard then 6.0 else 3.5
  }

  /** No money pickup lies within 2 units of depth d (cardSystem.js:49-54). */
  predicate ClearOfMoney(money: seq<Money>, d: real) {
    forall k :: 0 <= k < |money| ==> Abs(money[k].z - d) >= 2.0
  }

  /** The j-th candidate depth from a start depth. */
  function Candidate(start: real, j: nat): real {
    start + 0.5 * j as real
  }

  /**
   * d is where the search of cardSystem.js:47-58 stops: the first candidate
   * clear of money, or the ceiling 12 if every candidate before it was blocked.
   */
  ghost predicate SearchResult(start: real, money: seq<Money>, d: real) {
    (exists k: nat :: d == Candidate(start, k) &&
      forall j: nat :: j < k ==> !ClearOfMoney(money, Candidate(start, j))) &&
    (ClearOfMoney(money, d) || d == MAX_SPAWN_DISTANCE) &&
    start <= d <= MAX_SPAWN_DISTANCE
  }

  /** The distance search of spawnCard (cardSystem.js:43-58). */
  method FindSpawnDistance(isFirstCard: bool, money: seq<Money>) returns (spawnDistance: real)
    ensures SearchResult(StartDistance(isFirstCard), money, spawnDistance)
  {
    var start := StartDistance(isFirstCard);
    ghost var k: nat := 0;
    spawnDistance := start;
    var safeToSpawn := false;
    while !safeToSpawn && spawnDistance < 12.0
      invariant spawnDistance == Candidate(start, k) && spawnDistance <= 12.0
      invariant forall j: nat :: j < k ==> !ClearOfMoney(money, Candidate(start, j))
      invariant safeToSpawn ==> ClearOfMoney(money, spawnDistance)
      decreases 30 - k, if safeToSpawn then 0 else 1
    {
      safeToSpawn := true;
      for m := 0 to |money|
        invariant safeToSpawn
        invariant forall j :: 0 <= j < m ==> Abs(money[j].z - spawnDistance) >= 2.0
      {
        if Abs(money[m].z - spawnDistance) < 2.0 {
          safeToSpawn := false;
          break;
        }
      }
      if !safeToSpawn {
        HalfStepBound(if isFirstCard then 12 + k else 7 + k, 24);
        spawnDistance := spawnDistance + 0.5;
        k := k + 1;
      }
    }
  }

  // ---------------------------------------------------------------------------
  // Motion and hits

  /** The card after one tick's move (cardSystem.js:72). */
  function Approach(card: Card, delta: real): Card {
    card.(z := card.z - ENTITY_SPEED * delta)
  }

  /** The slot after a tick of a running game (cardSystem.js:68-82): a card that reaches the hit depth is cleared. */
  function TickSlot(slot: Option<Card>, delta: real): Option<Card> {
    if slot.None? then None
    else if Approach(slot.value, delta).z <= HIT_DEPTH then None
    else Some(Approach(slot.value, delta))
  }

  /** Whether the tick makes the live card hit the player. */
  predicate HitsThisTick(slot: Option<Card>, delta: real) {
    slot.Some? && Approach(slot.value, delta).z <= HIT_DEPTH
  }

  /** The number of hits over a run of ticks, with no respawn in between. */
  function HitsOver(slot: Option<Card>, deltas: seq<real>): nat
    decreases |deltas|
  {
    if deltas == [] then 0
    else (if HitsThisTick(slot, deltas[0]) then 1 else 0) + HitsOver(TickSlot(slot, deltas[0]), deltas[1..])
  }

  /** A card hits at most once: after the hit the slot stays empty until something respawns it. */
  lemma {:induction false} AtMostOneHit(slot: Option<Card>, deltas: seq<real>)
    ensures HitsOver(slot, deltas) <= 1
    ensures slot.None? ==> HitsOver(slot, deltas) == 0
    decreases |deltas|
  {
    if deltas != [] {
      AtMostOneHit(TickSlot(slot, deltas[0]), deltas[1..]);
      if HitsThisTick(slot, deltas[0]) {
        AtMostOneHit(None, deltas[1..]);
      }
    }
  }

  /** n unit ticks, the delta every tick of `update` passes (game.js:119). */
  function UnitTicks(n: nat): (ds: seq<real>)
    ensures |ds| == n && forall k :: 0 <= k < n ==> ds[k] == 1.0
  {
    seq(n, _ => 1.0)
  }

  /** A card at depth z is hit exactly once within any n >= 1 unit ticks with z - 0.025n <= 0.2. */
  lemma {:induction false} HitWithin(card: Card, n: nat)
    requires n >= 1 && card.z - ENTITY_SPEED * n as real <= HIT_DEPTH
    ensures HitsOver(Some(card), UnitTicks(n)) == 1
    decreases n
  {
    var ds := UnitTicks(n);
    assert ds[0] == 1.0 && ds[1..] == UnitTicks(n - 1);
    if HitsThisTick(Some(card), 1.0) {
      AtMostOneHit(None, ds[1..]);
    } else {
      HitWithin(Approach(card, 1.0), n - 1);
    }
  }

  // ---------------------------------------------------------------------------
  // Drawing choice

  /** The load state of an image: `complete` and `naturalWidth`. */
  datatype ImageState = ImageState(complete: bool, naturalWidth: int)

  /** What drawGameCards puts on screen: the type's image, the generic card image, or the glyph. */
  datatype CardArt = TypeImage | GenericImage | Glyph

  predicate Usable(img: Option<ImageState>) {
    img.Some? && img.value.complete && img.value.naturalWidth > 0
  }

  /** `Math.floor(300 * scale)`, the card's drawn size in pixels. */
  function CardSize(c: Canvas, card: Card): int
    requires card.z != -0.5
  {
    (300.0 * WorldToScreen(c, card.x, card.z).scale).Floor
  }

  /**
   * drawGameCards' choice (cardSystem.js:84-116): nothing for an empty slot,
   * a card at or behind the player's plane or one 10 pixels or smaller;
   * otherwise the first usable of the type image and the generic image, else
   * the glyph.
   */
  function CardArtFor(slot: Option<Card>, c: Canvas, typeImages: map<string, ImageState>,
                      cardImage: Option<ImageState>): (r: Option<CardArt>)
    ensures r.None? <==> slot.None? || slot.value.z <= 0.0 || CardSize(c, slot.value) <= 10
    ensures r == Some(TypeImage) <==> r.Some? && slot.value.cardType in typeImages && Usable(Some(typeImages[slot.value.cardType]))
    ensures r == Some(GenericImage) <==> r.Some? && !(slot.value.cardType in typeImages && Usable(Some(typeImages[slot.value.cardType]))) && Usable(cardImage)
    ensures r == Some(Glyph) <==> r.Some? && !(slot.value.cardType in typeImages && Usable(Some(typeImages[slot.value.cardType]))) && !Usable(cardImage)
  {
    if slot.None? || slot.value.z <= 0.0 then None
    else if CardSize(c, slot.value) <= 10 then None
    else
      var img := if slot.value.cardType in typeImages then Some(typeImages[slot.value.cardType]) else None;
      if Usable(img) then Some(TypeImage)
      else if Usable(cardImage) then Some(GenericImage)
      else Some(Glyph)
  }

  // ---------------------------------------------------------------------------
  // The card slot

  class CardSystem {
    var currentCard: Option<Card>
    var isFirstCard: bool

    /** The module's globals as the page loads them (cardSystem.js:2, 18). */
    constructor ()
      ensures currentCard == None && isFirstCard
    {
      currentCard := None;
      isFirstCard := true;
    }

    /** hasCard (cardSystem.js:138-140). */
    predicate HasCard(): (b: bool)
      reads this
      ensures b <==> currentCard.Some?
    {
      currentCard != None
    }

    /**
     * spawnCard (cardSystem.js:41-66): the search starts at 6 for the first
     * card and 3.5 afterwards, and the next spawn is never a first one.
     */
    method SpawnCard(cardType: Option<string>, money: seq<Money>, typeDraw: real)
      requires 0.0 <= typeDraw < 1.0
      modifies this
      ensures !isFirstCard && HasCard()
      ensures SearchResult(StartDistance(old(isFirstCard)), money, currentCard.value.z)
      ensures currentCard.value.cardType == ChosenType(cardType, typeDraw) && currentCard.value.x == 0.0
    {
      var spawnDistance := FindSpawnDistance(isFirstCard, money);
      isFirstCard := false;
      var chosen := ChosenType(cardType, typeDraw);
      currentCard := Some(Card(spawnDistance, chosen, 0.0));
    }

    /** initGameCards (cardSystem.js:24-39), without the image loading: a fresh session's first card. */
    method InitGameCards(money: seq<Money>, typeDraw: real)
      requires 0.0 <= typeDraw < 1.0
      modifies this
      ensures !isFirstCard && HasCard()
      ensures SearchResult(StartDistance(true), money, currentCard.value.z)
      ensures currentCard.value.cardType in CARD_TYPES && currentCard.value.x == 0.0
    {
      currentCard := None;
      isFirstCard := true;
      SpawnCard(Some(GetRandomCardType(typeDraw)), money, typeDraw);
    }

    /**
     * updateGameCards (cardSystem.js:68-82): nothing while paused or with no
     * card; otherwise the card moves, and on reaching the hit depth `hitCard`
     * runs once and the slot is cleared, with no respawn.
     */
    method UpdateGameCards(session: UiSystem.Session, delta: real, decisionDraw: real)
      returns (hit: bool, monthEnd: Option<UiSystem.MonthEnd>)
      requires 0.0 <= decisionDraw < 1.0
      modifies this`currentCard, session
      ensures !old(session.gs.gameStarted) || old(currentCard).None? ==>
        !hit && currentCard == old(currentCard) &&
        session.gs == old(session.gs) && session.currentDecision == old(session.currentDecision)
      ensures old(session.gs.gameStarted) ==>
        hit == HitsThisTick(old(currentCard), delta) && currentCard == TickSlot(old(currentCard), delta)
      ensures hit ==>
        session.gs == UiSystem.AfterHit(old(session.gs)) &&
        monthEnd == UiSystem.HitOutcome(old(session.gs)) &&
        session.currentDecision == Some(UiSystem.PickDecision(decisionDraw))
      ensures !hit ==> session.gs == old(session.gs) && session.currentDecision == old(session.currentDecision) &&
                       monthEnd.None?
      ensures session.Valid() || !hit
    {
      hit, monthEnd := false, None;
      if !session.gs.gameStarted || currentCard.None? {
        return;
      }
      currentCard := Some(Approach(currentCard.value, delta));
      if currentCard.value.z <= HIT_DEPTH {
        monthEnd := session.HitCard(decisionDraw);
        hit := true;
        currentCard := None;
      }
    }

    /** resetCardSystem (cardSystem.js:118-121). */
    method ResetCardSystem()
      modifies this
      ensures currentCard == None && isFirstCard
    {
      currentCard := None;
      isFirstCard := true;
    }

    /**
     * spawnCardAt (cardSystem.js:126-135): exactly at the given distance, no
     * spacing search; an omitted distance (None) is 3.5.
     */
    method SpawnCardAt(distance: Option<real>, cardType: Option<string>, typeDraw: real)
      requires 0.0 <= typeDraw < 1.0
      modifies this
      ensures currentCard == Some(Card(if distance.Some? then distance.value else DEFAULT_CARD_DISTANCE,
                                       ChosenType(cardType, typeDraw), 0.0))
      ensures !isFirstCard && HasCard()
    {
      var z := if distance.Some? then distance.value else DEFAULT_CARD_DISTANCE;
      var chosen := ChosenType(cardType, typeDraw);
      currentCard := Some(Card(z, chosen, 0.0));
      isFirstCard := false;
    }
  }
}
