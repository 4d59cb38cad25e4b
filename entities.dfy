/**
 * The records that move down the road: money pickups and the decision card.
 * Both advance towards the player by the same per-tick distance.
 */
module Entities {
  import opened Config

  /** Distance an entity travels per tick at delta multiplier 1: GAME_SPEED * 2.5. */
  const ENTITY_SPEED: real := GAME_SPEED * 2.5

  /** A money pickup (moneySystem.js:47-50): depth, value, lateral offset, collected flag. */
  datatype Money = Money(z: real, value: int, x: real, collected: bool)

  /** The live decision card (cardSystem.js:60-64). */
  datatype Card = Card(z: real, cardType: string, x: real)

  function Abs(r: real): (a: real)
    ensures a >= 0.0 && (a == r || a == -r)
  {
    if r < 0.0 then -r else r
  }

  /** Search candidates are multiples of 0.5, so one step from below a cap of cap/2 lands at most on the cap. */
  lemma HalfStepBound(n: int, cap: int)
    requires n as real * 0.5 < cap as real * 0.5
    ensures (n + 1) as real * 0.5 <= cap as real * 0.5
  {
    assert n < cap;
    assert (n + 1) as real <= cap as real;
  }
}
