/**
 * The static tables of config.js that the simulation reads: the base game
 * speed and, per business theme, the monthly revenue, the player sprite
 * configuration and the decoration glyphs. Colours and texts are presentation
 * and are left out.
 */
module Config {

  /** config.js:90 */
  const GAME_SPEED: real := 0.01

  /** The keys of BUSINESS_TYPES (config.js:2). */
  datatype BusinessId = Tech | Restaurant | Retail | Finance

  /** The `character` entry of a business: the sprite sheet layout. */
  datatype CharacterConfig = CharacterConfig(
    frameWidth: int, frameHeight: int, frameSpeed: int, scale: int, frames: seq<(int, int)>)

  /** One row of BUSINESS_TYPES, reduced to what the simulation reads. */
  datatype Business = Business(
    name: string, revenue: int, character: CharacterConfig, decorations: seq<string>)

  const WALK_FRAMES: seq<(int, int)> := [(1, 2), (0, 2), (3, 2), (0, 2)]

  /** The business theme a menu card selects. */
  function BusinessOf(id: BusinessId): (b: Business)
    ensures b.revenue > 0
    ensures |b.decorations| == 8
    ensures b.character.frames == WALK_FRAMES && b.character.frameSpeed > 0
  {
    match id
    case Tech =>
      Business("Tech Startup", 150, CharacterConfig(32, 32, 8, 10, WALK_FRAMES),
               ["💻", "🖥️", "📱", "⚡", "🚀", "💡", "🔧", "📊"])
    case Restaurant =>
      Business("Restaurant Chain", 120, CharacterConfig(32, 32, 6, 10, WALK_FRAMES),
               ["🍕", "🍔", "🍟", "🥤", "🍰", "🧑‍🍳", "🍽️", "🏪"])
    case Retail =>
      Business("Retail Empire", 100, CharacterConfig(32, 32, 10, 10, WALK_FRAMES),
               ["🛍️", "👕", "👗", "👠", "📦", "🏬", "🛒", "💳"])
    case Finance =>
      Business("Financial Services", 200, CharacterConfig(32, 32, 4, 10, WALK_FRAMES),
               ["💰", "💎", "🏦", "💳", "📈", "💸", "🏛️", "💵"])
  }
}
