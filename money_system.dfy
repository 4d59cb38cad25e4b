/**
 * The money pickups of moneySystem.js: an ordered list of live pickups, a
 * bounded free-list of spare records, and the single floating "+$value"
 * effect. Each tick walks the list from the back, drops records that were
 * collected on the previous tick, moves the others towards the player, and
 * credits a pickup's value to cash once it reaches the collection depth.
 *
 * Records are values here: a record taken from the pool has every field
 * overwritten before it is used, so which spare record is reused is not
 * observable.
 */
module MoneySystem {
  import opened Wrappers
  import opened Entities
  import opened Projection
  import opened State
  import UiSystem

  /** moneySystem.js:10 */
  const MAX_MONEY_POOL_SIZE: nat := 20

  /** The default value parameter of spawnMoneyAt (moneySystem.js:242). */
  const DEFAULT_MONEY_VALUE: int := 50

  /** A pickup at or nearer than this depth is collected (moneySystem.js:73). */
  const COLLECT_DEPTH: real := 0.3

  /** An uncollected pickup behind this depth is dropped (moneySystem.js:79). */
  const CULL_DEPTH: real := -2.0

  /** Lifetime of the collection effect, in ticks at delta multiplier 1 (moneySystem.js:173). */
  const EFFECT_TIMER: real := 30.0

  /** The fresh `{}` handed out when the pool is empty; callers set all its fields. */
  const BLANK: Money := Money(0.0, 0, 0.0, false)

  /**
   * The floating "+$value" text: where it was collected on screen, how long it
   * still shows, and the value. `at` is None where the projection divides by
   * zero and the source's coordinates are not finite.
   */
  datatype CollectionEffect = CollectionEffect(at: Option<Screen>, timer: real, value: int)

  // ---------------------------------------------------------------------------
  // The pool

  /** returnMoneyToPool on a pool value (moneySystem.js:19-23). */
  function Offer(pool: seq<Money>, m: Money): (r: seq<Money>)
    ensures |pool| <= MAX_MONEY_POOL_SIZE ==> |r| <= MAX_MONEY_POOL_SIZE
    ensures r == pool + [m] <==> |pool| < MAX_MONEY_POOL_SIZE
    ensures r != pool + [m] ==> r == pool
  {
    if |pool| < MAX_MONEY_POOL_SIZE then pool + [m] else pool
  }

  /** The records ms offered to the pool one after another. */
  function OfferAll(pool: seq<Money>, ms: seq<Money>): seq<Money>
    decreases |ms|
  {
    if ms == [] then pool else OfferAll(Offer(pool, ms[0]), ms[1..])
  }

  lemma {:induction false} OfferAllSnoc(pool: seq<Money>, ms: seq<Money>, m: Money)
    ensures OfferAll(pool, ms + [m]) == Offer(OfferAll(pool, ms), m)
    decreases |ms|
  {
    if ms == [] {
      assert ms + [m] == [m];
      assert [m][1..] == [];
    } else {
      assert (ms + [m])[0] == ms[0];
      assert (ms + [m])[1..] == ms[1..] + [m];
      OfferAllSnoc(Offer(pool, ms[0]), ms[1..], m);
    }
  }

  /**
   * Offering records to a pool holding at most 20 keeps the first ones that
   * fit and drops the rest: the pool is the old pool followed by a prefix of
   * the offered records, and never holds more than 20.
   */
  lemma {:induction false} OfferAllKeepsPrefix(pool: seq<Money>, ms: seq<Money>)
    requires |pool| <= MAX_MONEY_POOL_SIZE
    ensures var r := OfferAll(pool, ms);
      |r| == (if |pool| + |ms| <= MAX_MONEY_POOL_SIZE then |pool| + |ms| else MAX_MONEY_POOL_SIZE) &&
      r == (pool + ms)[..|r|]
    decreases |ms|
  {
    if ms != [] {
      OfferAllKeepsPrefix(Offer(pool, ms[0]), ms[1..]);
      if |pool| < MAX_MONEY_POOL_SIZE {
        assert pool + [ms[0]] + ms[1..] == pool + ms;
      } else {
        OfferAllFull(pool, ms[1..]);
      }
    }
  }

  lemma {:induction false} OfferAllFull(pool: seq<Money>, ms: seq<Money>)
    requires |pool| >= MAX_MONEY_POOL_SIZE
    ensures OfferAll(pool, ms) == pool
    decreases |ms|
  {
    if ms != [] {
      OfferAllFull(Offer(pool, ms[0]), ms[1..]);
    }
  }

  // ---------------------------------------------------------------------------
  // One tick of the update loop, as a function of the list

  /** What one tick does to one record. */
  datatype Fate = Release | Move(moved: Money) | Collect(moved: Money)

  /**
   * The body of the update loop for one record (moneySystem.js:61-83). A
   * record that is already collected is released; otherwise it moves by
   * 0.025 per delta unit and is collected at depth 0.3 or nearer. The cull
   * behind depth -2 can never fire: a record still farther than 0.3 cannot
   * also be behind -2, so only collected records are released.
   */
  function Advance(m: Money, delta: real): (f: Fate)
    ensures f.Release? <==> m.collected
    ensures f.Move? ==> f.moved == m.(z := m.z - ENTITY_SPEED * delta) && f.moved.z > COLLECT_DEPTH
    ensures f.Collect? ==> f.moved == m.(z := m.z - ENTITY_SPEED * delta) && f.moved.z <= COLLECT_DEPTH
  {
    if m.collected then Release
    else
      var moved := m.(z := m.z - ENTITY_SPEED * delta);
      if moved.z <= COLLECT_DEPTH then Collect(moved)
      else if moved.z < CULL_DEPTH then Release
      else Move(moved)
  }

  /** The records of s that stay in the list, in order, collected ones flagged. */
  function Survivors(s: seq<Money>, delta: real): seq<Money>
    decreases |s|
  {
    if s == [] then [] else Kept(Advance(s[0], delta)) + Survivors(s[1..], delta)
  }

  /** What a fate leaves in the list. */
  function Kept(f: Fate): seq<Money> {
    match f
    case Release => []
    case Move(m) => [m]
    case Collect(m) => [m.(collected := true)]
  }

  /** The backward sweep over m followed by rest, in terms of the sweep over rest. */
  lemma SweepCons(m: Money, rest: seq<Money>, delta: real, e: Option<CollectionEffect>, c: Canvas)
    ensures var s := [m] + rest;
      var f := Advance(m, delta);
      Survivors(s, delta) == Kept(f) + Survivors(rest, delta) &&
      Released(s, delta) == (if f.Release? then Released(rest, delta) + [m] else Released(rest, delta)) &&
      Credit(s, delta) == (if f.Collect? then m.value else 0) + Credit(rest, delta) &&
      LatestEffect(e, s, delta, c) == (if f.Collect? then Some(EffectAt(c, f.moved)) else LatestEffect(e, rest, delta, c))
  {
    var s := [m] + rest;
    assert s[0] == m && s[1..] == rest;
    assert Released(rest, delta) + [] == Released(rest, delta);
  }

  /** The records of s released to the pool, in the order the backward loop releases them. */
  function Released(s: seq<Money>, delta: real): seq<Money>
    decreases |s|
  {
    if s == [] then []
    else Released(s[1..], delta) + (if Advance(s[0], delta).Release? then [s[0]] else [])
  }

  /** The cash the tick credits: the values of the records it collects. */
  function Credit(s: seq<Money>, delta: real): int
    decreases |s|
  {
    if s == [] then 0
    else (if Advance(s[0], delta).Collect? then s[0].value else 0) + Credit(s[1..], delta)
  }

  /** The effect a collection creates at the record's screen position (moneySystem.js:169-175). */
  function EffectAt(c: Canvas, m: Money): (e: CollectionEffect)
    ensures e.timer == EFFECT_TIMER && e.value == m.value
    ensures m.z != -0.5 ==> e.at == Some(WorldToScreen(c, m.x, m.z))
  {
    CollectionEffect(if m.z == -0.5 then None else Some(WorldToScreen(c, m.x, m.z)), EFFECT_TIMER, m.value)
  }

  /**
   * The effect after the loop: the backward walk visits the lowest index
   * last, so the collection nearest the front of the list overwrites the
   * others; with no collection the old effect stays.
   */
  function LatestEffect(e: Option<CollectionEffect>, s: seq<Money>, delta: real, c: Canvas): Option<CollectionEffect>
    decreases |s|
  {
    if s == [] then e
    else match Advance(s[0], delta)
      case Collect(m) => Some(EffectAt(c, m))
      case _ => LatestEffect(e, s[1..], delta, c)
  }

  /** The effect's countdown at the end of a tick (moneySystem.js:86-91). */
  function Countdown(e: Option<CollectionEffect>, delta: real): (r: Option<CollectionEffect>)
    ensures e.None? ==> r.None?
    ensures e.Some? && e.value.timer - delta <= 0.0 ==> r.None?
    ensures e.Some? && e.value.timer - delta > 0.0 ==> r == Some(e.value.(timer := e.value.timer - delta))
  {
    if e.None? then None
    else
      var t := e.value.timer - delta;
      if t <= 0.0 then None else Some(e.value.(timer := t))
  }

  /** The value still on the road: the values of the records not yet collected. */
  function Pending(s: seq<Money>): int
    decreases |s|
  {
    if s == [] then 0 else (if s[0].collected then 0 else s[0].value) + Pending(s[1..])
  }

  /**
   * A tick neither creates nor loses money: what it credits to cash is
   * exactly what leaves the uncollected part of the list. So a record is
   * credited once, when it is collected, and never again.
   */
  lemma {:induction false} TickConservesMoney(s: seq<Money>, delta: real)
    ensures Credit(s, delta) + Pending(Survivors(s, delta)) == Pending(s)
    decreases |s|
  {
    if s != [] {
      TickConservesMoney(s[1..], delta);
      var rest := Survivors(s[1..], delta);
      match Advance(s[0], delta)
      case Release =>
        assert Survivors(s, delta) == rest by {
          assert Kept(Advance(s[0], delta)) == [];
        }
      case Move(m) =>
        assert ([m] + rest)[1..] == rest;
      case Collect(m) =>
        assert ([m.(collected := true)] + rest)[1..] == rest;
    }
  }

  /** The list after one tick per entry of deltas. */
  function AfterTicks(s: seq<Money>, deltas: seq<real>): seq<Money>
    decreases |deltas|
  {
    if deltas == [] then s else AfterTicks(Survivors(s, deltas[0]), deltas[1..])
  }

  /** The cash credited over the ticks. */
  function CreditOverTicks(s: seq<Money>, deltas: seq<real>): int
    decreases |deltas|
  {
    if deltas == [] then 0 else Credit(s, deltas[0]) + CreditOverTicks(Survivors(s, deltas[0]), deltas[1..])
  }

  /**
   * Over any number of ticks without new spawns, the cash credited plus the
   * value still uncollected equals the value that was uncollected at the
   * start.
   */
  lemma {:induction false} TicksConserveMoney(s: seq<Money>, deltas: seq<real>)
    ensures CreditOverTicks(s, deltas) + Pending(AfterTicks(s, deltas)) == Pending(s)
    decreases |deltas|
  {
    if deltas != [] {
      TickConservesMoney(s, deltas[0]);
      TicksConserveMoney(Survivors(s, deltas[0]), deltas[1..]);
    }
  }

  /** Every record is worth at least nothing, as every spawn of the game makes them from a non-negative revenue. */
  predicate NonNegativeValues(s: seq<Money>) {
    forall k :: 0 <= k < |s| ==> s[k].value >= 0
  }

  lemma {:induction false} PendingNonNegative(s: seq<Money>)
    requires NonNegativeValues(s)
    ensures Pending(s) >= 0
    decreases |s|
  {
    if s != [] {
      assert NonNegativeValues(s[1..]) by {
        forall k | 0 <= k < |s[1..]|
          ensures s[1..][k].value >= 0
        {
          assert s[1..][k] == s[k + 1];
        }
      }
      PendingNonNegative(s[1..]);
    }
  }

  /** A tick over records of non-negative value never lowers cash. */
  lemma {:induction false} CreditNonNegative(s: seq<Money>, delta: real)
    requires NonNegativeValues(s)
    ensures Credit(s, delta) >= 0
    decreases |s|
  {
    if s != [] {
      assert NonNegativeValues(s[1..]) by {
        forall k | 0 <= k < |s[1..]|
          ensures s[1..][k].value >= 0
        {
          assert s[1..][k] == s[k + 1];
        }
      }
      CreditNonNegative(s[1..], delta);
    }
  }

  /** A tick keeps the values of the records it keeps. */
  lemma {:induction false} SurvivorsNonNegative(s: seq<Money>, delta: real)
    requires NonNegativeValues(s)
    ensures NonNegativeValues(Survivors(s, delta))
    decreases |s|
  {
    if s != [] {
      assert NonNegativeValues(s[1..]) by {
        forall k | 0 <= k < |s[1..]|
          ensures s[1..][k].value >= 0
        {
          assert s[1..][k] == s[k + 1];
        }
      }
      SurvivorsNonNegative(s[1..], delta);
      var kept, rest := Kept(Advance(s[0], delta)), Survivors(s[1..], delta);
      assert forall k :: 0 <= k < |kept| ==> kept[k].value == s[0].value;
      forall k | 0 <= k < |kept + rest|
        ensures (kept + rest)[k].value >= 0
      {
        if k >= |kept| {
          assert (kept + rest)[k] == rest[k - |kept|];
        }
      }
    }
  }

  /**
   * Over any run of ticks over records of non-negative value, cash never
   * falls and the total credited never exceeds the value that was
   * uncollected at the start.
   */
  lemma {:induction false} CreditOverTicksBounded(s: seq<Money>, deltas: seq<real>)
    requires NonNegativeValues(s)
    ensures 0 <= CreditOverTicks(s, deltas) <= Pending(s)
    decreases |deltas|
  {
    if deltas == [] {
      PendingNonNegative(s);
    } else {
      CreditNonNegative(s, deltas[0]);
      SurvivorsNonNegative(s, deltas[0]);
      TickConservesMoney(s, deltas[0]);
      CreditOverTicksBounded(Survivors(s, deltas[0]), deltas[1..]);
    }
  }

  // ---------------------------------------------------------------------------
  // Spacing and the monthly bills

  /** hasEnoughSpaceForMoney's answer (moneySystem.js:198-212). */
  predicate SpaceFor(card: Option<Card>, objects: seq<Money>, z: real) {
    !(card.Some? && Abs(card.value.z - z) < 2.0) &&
    forall k :: 0 <= k < |objects| ==> Abs(objects[k].z - z) >= 1.2
  }

  /** `Math.floor(Math.random() * 3) + 3` (moneySystem.js:216). */
  function NumBills(draw: real): (n: int)
    requires 0.0 <= draw < 1.0
    ensures 3 <= n <= 5
  {
    (draw * 3.0).Floor + 3
  }

  /** `Math.floor(totalRevenue / numBills)`: the bills never add up to more than the revenue. */
  function BillValue(totalRevenue: int, numBills: int): (v: int)
    requires numBills > 0
    ensures numBills * v <= totalRevenue < numBills * (v + 1)
  {
    totalRevenue / numBills
  }

  /** The j-th candidate depth for bill i: 3.5 + 1.5i, pushed out by 0.5 per step. */
  function BillCandidate(i: nat, j: nat): real {
    3.5 + 1.5 * i as real + 0.5 * j as real
  }

  class MoneySystem {
    var objects: seq<Money>
    var pool: seq<Money>
    var effect: Option<CollectionEffect>

    ghost predicate Valid()
      reads this
    {
      |pool| <= MAX_MONEY_POOL_SIZE
    }

    /** The module's globals as the page loads them (moneySystem.js:2-9). */
    constructor ()
      ensures Valid() && objects == [] && pool == [] && effect == None
    {
      objects, pool, effect := [], [], None;
    }

    /** getMoneyFromPool (moneySystem.js:12-17): the last spare record, or a fresh one. */
    method GetMoneyFromPool() returns (m: Money)
      modifies this`pool
      ensures old(pool) != [] ==> m == old(pool)[|old(pool)| - 1] && pool == old(pool)[..|old(pool)| - 1]
      ensures old(pool) == [] ==> m == BLANK && pool == []
    {
      if |pool| > 0 {
        m := pool[|pool| - 1];
        pool := pool[..|pool| - 1];
        return;
      }
      m := BLANK;
    }

    /** returnMoneyToPool (moneySystem.js:19-23): kept only while the pool has room. */
    method ReturnMoneyToPool(m: Money)
      modifies this`pool
      ensures pool == Offer(old(pool), m)
      ensures old(|pool|) <= MAX_MONEY_POOL_SIZE ==> |pool| <= MAX_MONEY_POOL_SIZE
    {
      if |pool| < MAX_MONEY_POOL_SIZE {
        pool := pool + [m];
      }
    }

    /** The list and effect part of initMoneySystem (moneySystem.js:25-41); the pool is kept. */
    method InitMoneySystem()
      modifies this`objects, this`effect
      ensures objects == [] && effect == None
    {
      objects := [];
      effect := None;
    }

    /** spawnMoneyAt (moneySystem.js:242-251); an omitted value (None) is 50. */
    method SpawnMoneyAt(distance: real, value: Option<int>)
      requires Valid()
      modifies this`objects, this`pool
      ensures Valid()
      ensures objects == old(objects) + [Money(distance, if value.Some? then value.value else DEFAULT_MONEY_VALUE, 0.0, false)]
      ensures pool == if old(pool) == [] then [] else old(pool)[..|old(pool)| - 1]
    {
      var v := if value.Some? then value.value else DEFAULT_MONEY_VALUE;
      var newMoney := GetMoneyFromPool();
      newMoney := newMoney.(z := distance, value := v, x := 0.0, collected := false);
      objects := objects + [newMoney];
    }

    /** spawnMoney (moneySystem.js:43-54): a tenth of the revenue, four units ahead, once a business is chosen. */
    method SpawnMoney(gs: GameState)
      requires Valid()
      modifies this`objects, this`pool
      ensures Valid()
      ensures gs.selectedBusiness.None? ==> objects == old(objects) && pool == old(pool)
      ensures gs.selectedBusiness.Some? ==>
        objects == old(objects) + [Money(4.0, gs.revenue / 10, 0.0, false)] &&
        pool == if old(pool) == [] then [] else old(pool)[..|old(pool)| - 1]
    {
      if gs.selectedBusiness.None? {
        return;
      }
      var newMoney := GetMoneyFromPool();
      newMoney := newMoney.(z := 4.0, value := gs.revenue / 10, x := 0.0, collected := false);
      objects := objects + [newMoney];
    }

    /** collectMoney, state part (moneySystem.js:162-187). */
    method CollectMoney(session: UiSystem.Session, c: Canvas, i: nat)
      requires i < |objects|
      modifies this`objects, this`effect, session`gs
      ensures effect == Some(EffectAt(c, old(objects[i])))
      ensures session.gs == old(session.gs).(cash := old(session.gs.cash) + old(objects[i].value))
      ensures objects == old(objects)[i := old(objects[i]).(collected := true)]
    {
      var money := objects[i];
      effect := Some(EffectAt(c, money));
      session.gs := session.gs.(cash := session.gs.cash + money.value);
      objects := objects[i := money.(collected := true)];
    }

    /**
     * updateMoneySystem (moneySystem.js:56-92): nothing while the game is
     * paused; otherwise one backward sweep and the effect countdown.
     */
    method Update(session: UiSystem.Session, c: Canvas, delta: real)
      requires Valid()
      modifies this, session`gs
      ensures Valid()
      ensures !old(session.gs.gameStarted) ==>
        objects == old(objects) && pool == old(pool) && effect == old(effect) && session.gs == old(session.gs)
      ensures old(session.gs.gameStarted) ==>
        objects == Survivors(old(objects), delta) &&
        pool == OfferAll(old(pool), Released(old(objects), delta)) &&
        effect == Countdown(LatestEffect(old(effect), old(objects), delta, c), delta) &&
        session.gs == old(session.gs).(cash := old(session.gs.cash) + Credit(old(objects), delta))
    {
      if !session.gs.gameStarted {
        return;
      }
      ghost var orig, pool0, effect0, gs0 := objects, pool, effect, session.gs;
      var i := |objects|;
      assert orig[i..] == [];
      while i > 0
        invariant 0 <= i <= |orig|
        invariant SweptFrom(orig, i, pool0, effect0, gs0, session.gs, delta, c)
      {
        i := i - 1;
        SweepStep(session, c, delta, i, orig, pool0, effect0, gs0);
      }
      assert orig[0..] == orig;
      if effect.Some? {
        effect := Some(effect.value.(timer := effect.value.timer - delta));
        if effect.value.timer <= 0.0 {
          effect := None;
        }
      }
    }

    /** The loop invariant of Update: records from index k on have been swept. */
    ghost predicate SweptFrom(orig: seq<Money>, k: nat, pool0: seq<Money>, effect0: Option<CollectionEffect>,
                              gs0: GameState, gs: GameState, delta: real, c: Canvas)
      reads this
    {
      k <= |orig| &&
      objects == orig[..k] + Survivors(orig[k..], delta) &&
      pool == OfferAll(pool0, Released(orig[k..], delta)) &&
      |pool| <= MAX_MONEY_POOL_SIZE &&
      effect == LatestEffect(effect0, orig[k..], delta, c) &&
      gs == gs0.(cash := gs0.cash + Credit(orig[k..], delta))
    }

    /**
     * The body of the update loop for index i (moneySystem.js:61-83), given
     * that the records after i have been swept.
     */
    method SweepStep(session: UiSystem.Session, c: Canvas, delta: real, i: nat,
                     ghost orig: seq<Money>, ghost pool0: seq<Money>,
                     ghost effect0: Option<CollectionEffect>, ghost gs0: GameState)
      requires i < |orig| && SweptFrom(orig, i + 1, pool0, effect0, gs0, session.gs, delta, c)
      modifies this, session`gs
      ensures SweptFrom(orig, i, pool0, effect0, gs0, session.gs, delta, c)
    {
      SplitAt(objects, orig, i, Survivors(orig[i + 1..], delta));
      match Advance(objects[i], delta)
      case Release =>
        ReleaseStep(c, delta, i, orig, pool0, effect0, gs0, session.gs);
      case Move(moved) =>
        MoveStep(c, delta, i, moved, orig, pool0, effect0, gs0, session.gs);
      case Collect(moved) =>
        CollectStep(session, c, delta, i, moved, orig, pool0, effect0, gs0);
    }

    /** The loop step for a record that was collected on the previous tick. */
    method ReleaseStep(c: Canvas, delta: real, i: nat, ghost orig: seq<Money>, ghost pool0: seq<Money>,
                       ghost effect0: Option<CollectionEffect>, ghost gs0: GameState, ghost gs: GameState)
      requires i < |orig| && SweptFrom(orig, i + 1, pool0, effect0, gs0, gs, delta, c)
      requires Advance(orig[i], delta).Release?
      modifies this`objects, this`pool
      ensures SweptFrom(orig, i, pool0, effect0, gs0, gs, delta, c)
    {
      assert orig[i..] == [orig[i]] + orig[i + 1..];
      SweepCons(orig[i], orig[i + 1..], delta, effect0, c);
      SplitAt(objects, orig, i, Survivors(orig[i + 1..], delta));
      ReleaseAt(i, delta, orig, pool0);
    }

    /** The loop step for a record that moves and stays beyond the collection depth. */
    method MoveStep(c: Canvas, delta: real, i: nat, moved: Money, ghost orig: seq<Money>, ghost pool0: seq<Money>,
                    ghost effect0: Option<CollectionEffect>, ghost gs0: GameState, ghost gs: GameState)
      requires i < |orig| && SweptFrom(orig, i + 1, pool0, effect0, gs0, gs, delta, c)
      requires Advance(orig[i], delta) == Move(moved)
      modifies this`objects
      ensures SweptFrom(orig, i, pool0, effect0, gs0, gs, delta, c)
    {
      assert orig[i..] == [orig[i]] + orig[i + 1..];
      SweepCons(orig[i], orig[i + 1..], delta, effect0, c);
      ReplaceAt(objects, orig, i, Survivors(orig[i + 1..], delta), moved);
      objects := objects[i := moved];
    }

    /** The loop step for a record that reaches the collection depth. */
    method CollectStep(session: UiSystem.Session, c: Canvas, delta: real, i: nat, moved: Money,
                       ghost orig: seq<Money>, ghost pool0: seq<Money>,
                       ghost effect0: Option<CollectionEffect>, ghost gs0: GameState)
      requires i < |orig| && SweptFrom(orig, i + 1, pool0, effect0, gs0, session.gs, delta, c)
      requires Advance(orig[i], delta) == Collect(moved)
      modifies this`objects, this`effect, session`gs
      ensures SweptFrom(orig, i, pool0, effect0, gs0, session.gs, delta, c)
    {
      assert orig[i..] == [orig[i]] + orig[i + 1..];
      SweepCons(orig[i], orig[i + 1..], delta, effect0, c);
      ghost var rest := Survivors(orig[i + 1..], delta);
      SplitAt(objects, orig, i, rest);
      ReplaceAt(objects, orig, i, rest, moved.(collected := true));
      CollectAt(session, c, i, moved, delta, orig);
    }

    /** A record already collected goes back to the pool and leaves the list (moneySystem.js:63-67). */
    method ReleaseAt(i: nat, delta: real, ghost orig: seq<Money>, ghost pool0: seq<Money>)
      requires i < |orig| && i < |objects| && objects[i] == orig[i]
      requires pool == OfferAll(pool0, Released(orig[i + 1..], delta)) && |pool| <= MAX_MONEY_POOL_SIZE
      modifies this`objects, this`pool
      ensures objects == old(objects[..i] + objects[i + 1..])
      ensures pool == OfferAll(pool0, Released(orig[i + 1..], delta) + [orig[i]])
      ensures |pool| <= MAX_MONEY_POOL_SIZE
    {
      var money := objects[i];
      ReturnMoneyToPool(money);
      OfferAllSnoc(pool0, Released(orig[i + 1..], delta), money);
      objects := objects[..i] + objects[i + 1..];
    }

    /** A record that reached the player is moved, then collected in place (moneySystem.js:70-76). */
    method CollectAt(session: UiSystem.Session, c: Canvas, i: nat, moved: Money, delta: real, ghost orig: seq<Money>)
      requires i < |objects|
      modifies this`objects, this`effect, session`gs
      ensures objects == old(objects)[i := moved.(collected := true)]
      ensures effect == Some(EffectAt(c, moved))
      ensures session.gs == old(session.gs).(cash := old(session.gs.cash) + moved.value)
    {
      objects := objects[i := moved];
      CollectMoney(session, c, i);
    }

    /** resetMoneySystem (moneySystem.js:189-195): every live record is offered back to the pool. */
    method ResetMoneySystem()
      requires Valid()
      modifies this
      ensures Valid()
      ensures objects == [] && effect == None
      ensures pool == OfferAll(old(pool), old(objects))
    {
      ghost var pool0, live := pool, objects;
      for k := 0 to |objects|
        invariant objects == live
        invariant pool == OfferAll(pool0, live[..k])
        invariant |pool| <= MAX_MONEY_POOL_SIZE
      {
        ReturnMoneyToPool(objects[k]);
        OfferAllSnoc(pool0, live[..k], live[k]);
        assert live[..k + 1] == live[..k] + [live[k]];
      }
      assert live[..|live|] == live;
      objects := [];
      effect := None;
    }

    /** hasEnoughSpaceForMoney (moneySystem.js:198-212). */
    method HasEnoughSpaceForMoney(card: Option<Card>, z: real) returns (ok: bool)
      ensures ok <==> SpaceFor(card, objects, z)
    {
      if card.Some? && Abs(card.value.z - z) < 2.0 {
        return false;
      }
      for k := 0 to |objects|
        invariant forall j :: 0 <= j < k ==> Abs(objects[j].z - z) >= 1.2
      {
        if Abs(objects[k].z - z) < 1.2 {
          return false;
        }
      }
      return true;
    }

    /**
     * The depth search of one bill (moneySystem.js:222-226): the first
     * candidate with room, or the first one at depth 10 or beyond.
     */
    method FindBillDistance(card: Option<Card>, i: nat) returns (z: real)
      ensures exists k: nat :: (z == BillCandidate(i, k) &&
        forall j: nat :: j < k ==> !SpaceFor(card, objects, BillCandidate(i, j)) && BillCandidate(i, j) < 10.0)
      ensures SpaceFor(card, objects, z) || z >= 10.0
      ensures i <= 4 ==> z <= 10.0
    {
      ghost var k: nat := 0;
      z := 3.5 + 1.5 * i as real;
      var free := HasEnoughSpaceForMoney(card, z);
      while !free && z < 10.0
        invariant z == BillCandidate(i, k)
        invariant free <==> SpaceFor(card, objects, z)
        invariant forall j: nat :: j < k ==> !SpaceFor(card, objects, BillCandidate(i, j)) && BillCandidate(i, j) < 10.0
        invariant i <= 4 ==> z <= 10.0
        decreases 20 - k
      {
        HalfStepBound(7 + 3 * i + k, 20);
        z := z + 0.5;
        k := k + 1;
        free := HasEnoughSpaceForMoney(card, z);
      }
    }

    /**
     * One delayed bill of the monthly wave, as its timer callback runs it
     * (moneySystem.js:219-237): only while the game is running.
     */
    method SpawnBill(gs: GameState, card: Option<Card>, i: nat, numBills: int, totalRevenue: int)
      requires Valid() && numBills > 0
      modifies this`objects, this`pool
      ensures Valid()
      ensures !gs.gameStarted ==> objects == old(objects) && pool == old(pool)
      ensures gs.gameStarted ==>
        |objects| == |old(objects)| + 1 && objects[..|old(objects)|] == old(objects) &&
        objects[|old(objects)|].value == BillValue(totalRevenue, numBills) &&
        objects[|old(objects)|].x == 0.0 && !objects[|old(objects)|].collected &&
        (SpaceFor(card, old(objects), objects[|old(objects)|].z) || objects[|old(objects)|].z >= 10.0) &&
        pool == if old(pool) == [] then [] else old(pool)[..|old(pool)| - 1]
      ensures gs.gameStarted ==> exists k: nat ::
        objects[|old(objects)|].z == BillCandidate(i, k) &&
        forall j: nat :: j < k ==> !SpaceFor(card, old(objects), BillCandidate(i, j)) && BillCandidate(i, j) < 10.0
    {
      if gs.gameStarted {
        var billValue := BillValue(totalRevenue, numBills);
        var spawnZ := FindBillDistance(card, i);
        var newMoney := GetMoneyFromPool();
        newMoney := newMoney.(z := spawnZ, value := billValue, x := 0.0, collected := false);
        objects := objects + [newMoney];
      }
    }
  }

  lemma SplitAt(objects: seq<Money>, orig: seq<Money>, i: nat, rest: seq<Money>)
    requires i < |orig| && objects == orig[..i + 1] + rest
    ensures i < |objects| && objects[i] == orig[i]
    ensures objects[..i] + objects[i + 1..] == orig[..i] + rest
  {
    assert objects[..i] == orig[..i];
    assert objects[i + 1..] == rest;
  }

  lemma ReplaceAt(objects: seq<Money>, orig: seq<Money>, i: nat, rest: seq<Money>, y: Money)
    requires i < |orig| && objects == orig[..i + 1] + rest
    ensures objects[i := y] == orig[..i] + ([y] + rest)
  {
    assert objects == orig[..i] + [orig[i]] + rest;
  }
}
