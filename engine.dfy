/**
 * The simulation engine (crate::Game) as the witness layer sees it.
 *
 * The engine's code is not part of this model. Its state is represented by
 * where it started and the list of mutating calls made on it through the
 * witness operations (`Game::npc_turn` and `Game::events` also change it and
 * are not part of this model). What it answers
 * is an `Engine` value, a bundle of total functions of the world BEFORE the
 * call, so that every property proved here holds for every engine.
 */
module Engine {
  import opened Wrappers
  import Player

  datatype CardinalDirection = North | East | South | West

  /** The time since the last tick; passed to the engine, never inspected. */
  datatype Duration = Duration(nanos: nat)

  /** crate::Config is not part of this model; only its identity reaches the engine. */
  datatype Config = Config(id: nat)

  /** The inputs the witness layer forwards to handle_input. */
  datatype Input =
    | Walk(direction: CardinalDirection)
    | Wait
    | Upgrade(upgrade: Player.Upgrade)

  /**
   * The engine's control-flow signal. `Other` stands for the variants the
   * witness layer does not handle (it reaches a todo!() on them).
   */
  datatype GameControlFlow = Upgrade | GameOver | Other(tag: nat)

  /** NoItemToGet is raised by the witness layer; the engine's own errors are opaque. */
  datatype ActionError = NoItemToGet | Rejected(reason: nat)

  /** The weapon lying under the player, as far as is_ranged / is_melee tell. */
  datatype Weapon = Weapon(isRanged: bool, isMelee: bool)

  /** A mutating call on the engine. */
  datatype Call =
    | HandleTick(since: Duration, config: Config)
    | HandleInput(input: Input, config: Config)
    | EquipRangedFromGround(slot: Player.RangedWeaponSlot)
    | EquipMeleeFromGround

  /** What crate::Game::new was built from: the configuration and the draw from the caller's rng. */
  datatype Origin = Origin(config: Config, seed: nat)

  /** crate::Game: its origin and every mutating call made on it, oldest first. */
  datatype World = World(origin: Origin, calls: seq<Call>)
  {
    /** The world after the engine has been given `more`. */
    function Then(more: seq<Call>): World
    {
      World(origin, calls + more)
    }
  }

  /** The engine's answers, each a function of the world before the call. */
  datatype Engine = Engine(
    handleTick: (World, Duration, Config) -> Option<GameControlFlow>,
    handleInput: (World, Input, Config) -> Result<Option<GameControlFlow>, ActionError>,
    weaponUnderPlayer: World -> Option<Weapon>)
}
