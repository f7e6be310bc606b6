/**
 * The capability tokens ("witnesses") that gate every change of a game.
 *
 * Each token wraps the marker `Private`; holding a token is
 * the permission to perform one of the operations legal in its mode, and
 * every such operation consumes it and hands back the next `Witness`.
 *
 * Dafny values can be copied, so the move-only discipline is modelled by a
 * stamp on the marker: a marker authorizes a change of a game exactly when
 * its stamp equals the number of engine calls the game's world has seen.
 * Every change appends one call and re-stamps the marker it hands back, so
 * the token that was spent can never authorize anything again.
 */
module Witness {
  import opened Wrappers
  import E = Engine
  import P = Player

  /**
   * The marker of the tokens; `stamp` stands for its move history. The
   * source keeps it private to the module; here its constructor is visible
   * to every module, so only sessions of `Traces` are guaranteed to use
   * markers handed out by the operations below.
   */
  datatype Private = Private(stamp: nat)

  datatype RunningToken = RunningToken(private: Private)
  {
    /** Running::into_witness */
    function IntoWitness(): (w: Witness)
      ensures w.Running? && w.running == this
      ensures w.Marker() == Some(private)
    {
      Running(this)
    }

    /**
     * Running::get: looks at the weapon under the player (a read-only borrow
     * of the game), ranged first, and either offers to pick it up or reports
     * NoItemToGet and hands the Running token back.
     */
    function Get(engine: E.Engine, world: E.World): (r: (Witness, Result<(), E.ActionError>))
      ensures var weapon := engine.weaponUnderPlayer(world);
        && (r.0.GetRangedWeapon? <==> weapon.Some? && weapon.value.isRanged)
        && (r.0.GetMeleeWeapon? <==> weapon.Some? && !weapon.value.isRanged && weapon.value.isMelee)
      ensures r.0.Running? <==> r.1.Err?
      ensures r.1.Err? ==> r.0 == Running(this) && r.1.error == E.NoItemToGet
      ensures var weapon := engine.weaponUnderPlayer(world);
        !(weapon.Some? && (weapon.value.isRanged || weapon.value.isMelee)) ==> r == (Running(this), Err(E.NoItemToGet))
      ensures r.0.Marker() == Some(private)
    {
      match engine.weaponUnderPlayer(world)
      case Some(weapon) =>
        if weapon.isRanged then (GetRangedWeapon(GetRangedWeaponToken(private)), Ok(()))
        else if weapon.isMelee then (GetMeleeWeapon(GetMeleeWeaponToken(private)), Ok(()))
        else (IntoWitness(), Err(E.NoItemToGet))
      case None => (IntoWitness(), Err(E.NoItemToGet))
    }
  }

  datatype UpgradeToken = UpgradeToken(private: Private)
  {
    /** Upgrade::cancel: back to normal play, carrying the same marker. */
    function Cancel(): (w: Witness)
      ensures w.Running? && w.Marker() == Some(private)
    {
      Running(RunningToken(private))
    }
  }

  datatype GetRangedWeaponToken = GetRangedWeaponToken(private: Private)
  {
    /** GetRangedWeapon::cancel */
    function Cancel(): (w: Witness)
      ensures w.Running? && w.Marker() == Some(private)
    {
      Running(RunningToken(private))
    }
  }

  datatype GetMeleeWeaponToken = GetMeleeWeaponToken(private: Private)
  {
    /** GetMeleeWeapon::cancel */
    function Cancel(): (w: Witness)
      ensures w.Running? && w.Marker() == Some(private)
    {
      Running(RunningToken(private))
    }
  }

  /** The game's current legal continuation; GameOver carries no token. */
  datatype Witness =
    | Running(running: RunningToken)
    | Upgrade(upgrade: UpgradeToken)
    | GetRangedWeapon(ranged: GetRangedWeaponToken)
    | GetMeleeWeapon(melee: GetMeleeWeaponToken)
    | GameOver
  {
    /** The marker inside the token, if there is one. */
    function Marker(): (p: Option<Private>)
      ensures p.None? <==> GameOver?
      ensures Running? ==> p == Some(running.private)
      ensures Upgrade? ==> p == Some(upgrade.private)
      ensures GetRangedWeapon? ==> p == Some(ranged.private)
      ensures GetMeleeWeapon? ==> p == Some(melee.private)
    {
      match this
      case Running(t) => Some(t.private)
      case Upgrade(t) => Some(t.private)
      case GetRangedWeapon(t) => Some(t.private)
      case GetMeleeWeapon(t) => Some(t.private)
      case GameOver => None
    }
  }

  /** How a call ends: it returns, or it reaches one of the source's todo!() arms and panics. */
  datatype Exit<+T> = Returns(value: T) | Todo

  /** The match of Running::tick on the engine's tick signal. */
  function TickOutcome(signal: Option<E.GameControlFlow>, private: Private): (r: Exit<Witness>)
    ensures r == Returns(Running(RunningToken(private))) <==> signal.None?
    ensures r == Returns(Upgrade(UpgradeToken(private))) <==> signal == Some(E.GameControlFlow.Upgrade)
    ensures r == Returns(GameOver) <==> signal == Some(E.GameControlFlow.GameOver)
    ensures r.Todo? <==> signal.Some? && signal.value.Other?
    ensures r.Returns? ==> !r.value.GetRangedWeapon? && !r.value.GetMeleeWeapon?
  {
    match signal
    case None => Returns(Running(RunningToken(private)))
    case Some(flow) =>
      match flow
      case Upgrade => Returns(Upgrade(UpgradeToken(private)))
      case GameOver => Returns(GameOver)
      case Other(_) => Todo
  }

  /** The match of Game::witness_handle_input on the engine's answer to an input. */
  function InputOutcome(answer: Result<Option<E.GameControlFlow>, E.ActionError>, private: Private)
    : (r: Exit<(Witness, Result<(), E.ActionError>)>)
    ensures answer.Err? ==> r == Returns((Running(RunningToken(private)), Err(answer.error)))
    ensures answer == Ok(None) ==> r == Returns((Running(RunningToken(private)), Ok(())))
    ensures answer == Ok(Some(E.GameControlFlow.Upgrade)) ==> r == Returns((Upgrade(UpgradeToken(private)), Ok(())))
    ensures answer == Ok(Some(E.GameControlFlow.GameOver)) ==> r == Returns((GameOver, Ok(())))
    ensures r.Todo? <==> answer.Ok? && answer.value.Some? && answer.value.value.Other?
    ensures r.Returns? && r.value.0.GameOver? ==> r.value.1.Ok?
  {
    match answer
    case Err(e) => Returns((Running(RunningToken(private)), Err(e)))
    case Ok(None) => Returns((Running(RunningToken(private)), Ok(())))
    case Ok(Some(flow)) =>
      match flow
      case Upgrade => Returns((Upgrade(UpgradeToken(private)), Ok(())))
      case GameOver => Returns((GameOver, Ok(())))
      case Other(_) => Todo
  }

  /** The operations a driver can invoke, one per token method. */
  datatype Op =
    | Tick(since: E.Duration, config: E.Config)
    | Walk(direction: E.CardinalDirection, config: E.Config)
    | Wait(config: E.Config)
    | Get
    | ApplyUpgrade(choice: P.Upgrade, config: E.Config)
    | CancelUpgrade
    | CommitRanged(slot: P.RangedWeaponSlot)
    | CancelRanged
    | CommitMelee
    | CancelMelee

  /** Which token type owns each operation: the only operations a witness offers. */
  predicate Offers(w: Witness, op: Op)
  {
    match op
    case Tick(_, _) => w.Running?
    case Walk(_, _) => w.Running?
    case Wait(_) => w.Running?
    case Get => w.Running?
    case ApplyUpgrade(_, _) => w.Upgrade?
    case CancelUpgrade => w.Upgrade?
    case CommitRanged(_) => w.GetRangedWeapon?
    case CancelRanged => w.GetRangedWeapon?
    case CommitMelee => w.GetMeleeWeapon?
    case CancelMelee => w.GetMeleeWeapon?
  }

  /** The engine calls each operation makes, in order: at most one. */
  function Forwards(op: Op): seq<E.Call>
  {
    match op
    case Tick(since, config) => [E.HandleTick(since, config)]
    case Walk(direction, config) => [E.HandleInput(E.Input.Walk(direction), config)]
    case Wait(config) => [E.HandleInput(E.Input.Wait, config)]
    case Get => []
    case ApplyUpgrade(choice, config) => [E.HandleInput(E.Input.Upgrade(choice), config)]
    case CancelUpgrade => []
    case CommitRanged(slot) => [E.EquipRangedFromGround(slot)]
    case CancelRanged => []
    case CommitMelee => [E.EquipMeleeFromGround]
    case CancelMelee => []
  }

  /**
   * The transition table, as the code behaves: the modes an operation can
   * lead to, and whether it can fail. Errors only come from input dispatch
   * and from get, and always land in Running.
   */
  predicate Table(op: Op, to: Witness, failed: bool)
  {
    match op
    case Tick(_, _) => !failed && (to.Running? || to.Upgrade? || to.GameOver?)
    case Get => if failed then to.Running? else to.GetRangedWeapon? || to.GetMeleeWeapon?
    case CancelUpgrade => !failed && to.Running?
    case CommitRanged(_) => !failed && to.Running?
    case CancelRanged => !failed && to.Running?
    case CommitMelee => !failed && to.Running?
    case CancelMelee => !failed && to.Running?
    case _ => if failed then to.Running? else to.Running? || to.Upgrade? || to.GameOver?
  }

  /**
   * One operation on the world `world` presented with witness `w`: the
   * witness and result the operation returns. The world afterwards is
   * `world.Then(Forwards(op))` whatever the outcome, since the engine call
   * precedes the todo!() panic. A spent marker is replaced by one stamped
   * with the new number of engine calls.
   */
  function Step(engine: E.Engine, world: E.World, w: Witness, op: Op)
    : (r: Exit<(Witness, Result<(), E.ActionError>)>)
    requires Offers(w, op)
    ensures r.Returns? ==> Table(op, r.value.0, r.value.1.Err?)
    ensures r.Todo? ==> |Forwards(op)| == 1
    ensures r.Todo? ==> op.Tick? || op.Walk? || op.Wait? || op.ApplyUpgrade?
    ensures w.Marker() == Some(Private(|world.calls|)) && r.Returns? && !r.value.0.GameOver?
      ==> r.value.0.Marker() == Some(Private(|world.calls| + |Forwards(op)|))
  {
    var next := Private(|world.calls| + 1);
    match op
    case Tick(since, config) =>
      (match TickOutcome(engine.handleTick(world, since, config), next)
       case Returns(v) => Returns((v, Ok(())))
       case Todo => Todo)
    case Walk(direction, config) =>
      InputOutcome(engine.handleInput(world, E.Input.Walk(direction), config), next)
    case Wait(config) =>
      InputOutcome(engine.handleInput(world, E.Input.Wait, config), next)
    case Get => Returns(w.running.Get(engine, world))
    case ApplyUpgrade(choice, config) =>
      InputOutcome(engine.handleInput(world, E.Input.Upgrade(choice), config), next)
    case CancelUpgrade => Returns((w.upgrade.Cancel(), Ok(())))
    case CommitRanged(_) => Returns((Running(RunningToken(next)), Ok(())))
    case CancelRanged => Returns((w.ranged.Cancel(), Ok(())))
    case CommitMelee => Returns((Running(RunningToken(next)), Ok(())))
    case CancelMelee => Returns((w.melee.Cancel(), Ok(())))
  }

  /**
   * The game handle: owner of the engine's world. In the source only
   * `new_game` and `into_game` build one and `inner_game` is private; here the
   * constructor and `inner` are public, so the token discipline holds for
   * changes made through the methods below only.
   */
  class Game {
    var inner: E.World

    constructor (inner: E.World)
      ensures this.inner == inner
    {
      this.inner := inner;
    }

    /** Whether `p` is the marker of the token currently entitled to change this game. */
    predicate Authorizes(p: Private)
      reads this
    {
      p.stamp == |inner.calls|
    }

    /** Running::tick */
    method Tick(engine: E.Engine, tok: RunningToken, since: E.Duration, config: E.Config)
      returns (w: Exit<Witness>)
      requires Authorizes(tok.private)
      modifies this
      ensures inner == old(inner).Then(Forwards(Op.Tick(since, config)))
      ensures Step(engine, old(inner), Running(tok), Op.Tick(since, config))
        == if w.Returns? then Returns((w.value, Ok(()))) else Todo
      ensures !Authorizes(tok.private)
      ensures w.Returns? && !w.value.GameOver? ==> Authorizes(w.value.Marker().value)
    {
      var Private(stamp) := tok.private;
      var signal := engine.handleTick(inner, since, config);
      inner := inner.Then([E.HandleTick(since, config)]);
      w := TickOutcome(signal, Private(stamp + 1));
    }

    /** Running::walk */
    method Walk(engine: E.Engine, tok: RunningToken, direction: E.CardinalDirection, config: E.Config)
      returns (r: Exit<(Witness, Result<(), E.ActionError>)>)
      requires Authorizes(tok.private)
      modifies this
      ensures inner == old(inner).Then(Forwards(Op.Walk(direction, config)))
      ensures r == Step(engine, old(inner), Running(tok), Op.Walk(direction, config))
      ensures !Authorizes(tok.private)
      ensures r.Returns? && !r.value.0.GameOver? ==> Authorizes(r.value.0.Marker().value)
    {
      r := WitnessHandleInput(engine, E.Input.Walk(direction), config, tok.private);
    }

    /** Running::wait */
    method Wait(engine: E.Engine, tok: RunningToken, config: E.Config)
      returns (r: Exit<(Witness, Result<(), E.ActionError>)>)
      requires Authorizes(tok.private)
      modifies this
      ensures inner == old(inner).Then(Forwards(Op.Wait(config)))
      ensures r == Step(engine, old(inner), Running(tok), Op.Wait(config))
      ensures !Authorizes(tok.private)
      ensures r.Returns? && !r.value.0.GameOver? ==> Authorizes(r.value.0.Marker().value)
    {
      r := WitnessHandleInput(engine, E.Input.Wait, config, tok.private);
    }

    /** Upgrade::upgrade: like walk and wait, so a failed upgrade lands in Running. */
    method ApplyUpgrade(engine: E.Engine, tok: UpgradeToken, choice: P.Upgrade, config: E.Config)
      returns (r: Exit<(Witness, Result<(), E.ActionError>)>)
      requires Authorizes(tok.private)
      modifies this
      ensures inner == old(inner).Then(Forwards(Op.ApplyUpgrade(choice, config)))
      ensures r == Step(engine, old(inner), Upgrade(tok), Op.ApplyUpgrade(choice, config))
      ensures !Authorizes(tok.private)
      ensures r.Returns? && !r.value.0.GameOver? ==> Authorizes(r.value.0.Marker().value)
    {
      r := WitnessHandleInput(engine, E.Input.Upgrade(choice), config, tok.private);
    }

    /** GetRangedWeapon::commit: equips from the ground, then back to Running. */
    method CommitRanged(engine: E.Engine, tok: GetRangedWeaponToken, slot: P.RangedWeaponSlot)
      returns (w: Witness)
      requires Authorizes(tok.private)
      modifies this
      ensures inner == old(inner).Then(Forwards(Op.CommitRanged(slot)))
      ensures Step(engine, old(inner), GetRangedWeapon(tok), Op.CommitRanged(slot)) == Returns((w, Ok(())))
      ensures !Authorizes(tok.private)
      ensures w.Running? && Authorizes(w.running.private)
    {
      inner := inner.Then([E.EquipRangedFromGround(slot)]);
      var Private(stamp) := tok.private;
      w := Running(RunningToken(Private(stamp + 1)));
    }

    /** GetMeleeWeapon::commit */
    method CommitMelee(engine: E.Engine, tok: GetMeleeWeaponToken) returns (w: Witness)
      requires Authorizes(tok.private)
      modifies this
      ensures inner == old(inner).Then(Forwards(Op.CommitMelee))
      ensures Step(engine, old(inner), GetMeleeWeapon(tok), Op.CommitMelee) == Returns((w, Ok(())))
      ensures !Authorizes(tok.private)
      ensures w.Running? && Authorizes(w.running.private)
    {
      inner := inner.Then([E.EquipMeleeFromGround]);
      var Private(stamp) := tok.private;
      w := Running(RunningToken(Private(stamp + 1)));
    }

    /**
     * Game::witness_handle_input: forwards one input to the engine and turns
     * its answer into the next witness, whatever mode the marker came from.
     */
    method WitnessHandleInput(engine: E.Engine, input: E.Input, config: E.Config, private: Private)
      returns (r: Exit<(Witness, Result<(), E.ActionError>)>)
      requires Authorizes(private)
      modifies this
      ensures inner == old(inner).Then([E.HandleInput(input, config)])
      ensures r == InputOutcome(engine.handleInput(old(inner), input, config), Private(|inner.calls|))
    {
      var answer := engine.handleInput(inner, input, config);
      inner := inner.Then([E.HandleInput(input, config)]);
      r := InputOutcome(answer, Private(private.stamp + 1));
    }

    /** Game::into_running_game */
    function IntoRunningGame(running: RunningToken): (saved: RunningGame)
      reads this
      requires Authorizes(running.private)
      ensures saved.game == inner
    {
      NewRunningGame(this, running)
    }
  }

  /** new_game: a fresh world and the first Running token for it. */
  method NewGame(config: E.Config, seed: nat) returns (game: Game, running: RunningToken)
    ensures fresh(game)
    ensures game.inner == E.World(E.Origin(config, seed), [])
    ensures game.Authorizes(running.private)
  {
    game := new Game(E.World(E.Origin(config, seed), []));
    running := RunningToken(Private(0));
  }

  /**
   * A saved game: only the world. Through `NewRunningGame` a snapshot can be
   * taken only with a live Running token; the constructor itself is public
   * here, so that guarantee covers the functions of this module only.
   */
  datatype RunningGame = RunningGame(game: E.World)
  {
    /** RunningGame::into_game, as values: the saved world and a Running token minted for it. */
    function Restored(): (r: (E.World, RunningToken))
      ensures r.0 == game
      ensures r.1.private.stamp == |r.0.calls|
    {
      (game, RunningToken(Private(|game.calls|)))
    }
  }

  /** RunningGame::new: the Running token is demanded and then dropped. */
  function NewRunningGame(game: Game, running: RunningToken): (saved: RunningGame)
    reads game
    requires game.Authorizes(running.private)
    ensures saved.game == game.inner
  {
    RunningGame(game.inner)
  }

  /** RunningGame::into_game: a new game handle around the saved world, ready to play. */
  method IntoGame(saved: RunningGame) returns (game: Game, running: RunningToken)
    ensures fresh(game)
    ensures (game.inner, running) == saved.Restored()
    ensures game.Authorizes(running.private)
  {
    game := new Game(saved.game);
    running := RunningToken(Private(|saved.game.calls|));
  }

  /** Saving and restoring gives back the same world and the same, still live, token. */
  lemma SaveThenRestore(game: Game, running: RunningToken)
    requires game.Authorizes(running.private)
    ensures NewRunningGame(game, running).Restored() == (game.inner, running)
  {
  }
}
