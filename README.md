# Witness protocol of orbital-decay, in Dafny

This project models the capability-token ("witness") layer of the game crate
(`game/src/witness.rs`). That layer is the only way to advance a turn, choose
an upgrade or equip a weapon from the ground; `Game::npc_turn` and
`Game::events` are the two entry points that change the engine without a token.
The driver holds a `Witness`, which is one of these modes:

- `Running`
- `Upgrade`
- `GetRangedWeapon`
- `GetMeleeWeapon`
- `GameOver`

Each mode except `GameOver` wraps a token, and each token wraps the marker `Private`, which the source keeps private to its module.
A token offers only the operations legal in its mode.
Each operation consumes the token and returns the next witness.

Modules:

- `Wrappers`: Rust's `Option` and `Result`.
- `Player`: the upgrade and weapon-slot values that are passed through to the engine.
- `Engine`: the simulation engine (`crate::Game`), treated as an opaque oracle.
  The engine's state (`World`) is its origin plus the list of mutating calls made on it through the witness operations.
  Its answers come from an `Engine` value: total functions of the world before each call.
  Every property below therefore holds for every engine.
- `Witness`: the source file itself.
  - The tokens and `Witness`.
  - The two signal matches: `TickOutcome` for `Running::tick` and `InputOutcome` for `Game::witness_handle_input`.
  - The pure operations (`get`, the three `cancel`s, `into_witness`, `RunningGame::new`/`into_game`) as functions.
  - The mutating operations (`tick`, `walk`, `wait`, `upgrade`, both `commit`s) as methods of the class `Game`.
    Each of these methods has a `modifies` clause.
    Each method's `ensures` states its new world and ties its result to `Step`.
    `Step` is the specification function of one operation.
  - `Offers` is the table of which token owns which operation.
  - `Table` is the table of where each operation can lead.
  - `Forwards` is the table of which engine call each operation makes.
- `Traces`: whole sessions of operations (`Run`) and the properties that hold over every session.

Single use of tokens is modelled with a stamp on the marker.
A marker authorizes a change of a `Game` exactly when its stamp equals the number of engine calls the world has seen.
Every change appends one call and hands back a marker with the next stamp.
As long as the world changes only through the `Game` methods, as in every `Traces` session, the spent token never authorizes anything again (`Traces.SpentInOrder`).
`todo!()` arms become the explicit outcome `Exit.Todo`; no behaviour is invented for them.

Three behaviours of the code worth noting:

- A failed `Upgrade::upgrade` returns `Running`, not `Upgrade`, because `witness_handle_input` maps every engine error to `Running` (game/src/witness.rs:173).
- A successful upgrade whose engine answer is the `Upgrade` signal returns `Upgrade` again.
- No operation returns `GameOver` together with an error.

## Model

| member | source | states |
|---|---|---|
| Witness.Witness.Marker | game/src/witness.rs:41-47 | every witness but GameOver carries exactly one marker, the one inside its token; GameOver carries none |
| Witness.RunningToken.IntoWitness | game/src/witness.rs:75-77 | wraps the token as the Running witness, keeping its marker |
| Witness.TickOutcome | game/src/witness.rs:79-88 | no signal gives Running, Upgrade gives Upgrade, GameOver gives GameOver (each if and only if), any other signal panics; tick never offers a pickup |
| Witness.Game.Tick | game/src/witness.rs:79-88 | appends exactly one handle_tick call, returns Step's witness for a tick (no error), and spends the token: it is stale afterwards and the returned token is live |
| Witness.Game.Walk | game/src/witness.rs:90-98 | forwards exactly Input::Walk(direction) once; outcome is Step's (that is, witness_handle_input's); old token stale, new token live |
| Witness.Game.Wait | game/src/witness.rs:100-103 | forwards exactly Input::Wait once; outcome is Step's; old token stale, new token live |
| Witness.RunningToken.Get | game/src/witness.rs:105-117 | GetRangedWeapon iff a ranged weapon is under the player (ranged checked first), GetMeleeWeapon iff a non-ranged melee weapon is, otherwise the same Running token with Err(NoItemToGet); the marker is kept and no world is changed |
| Witness.Game.ApplyUpgrade | game/src/witness.rs:121-130 | forwards exactly Input::Upgrade(choice) once; outcome is Step's, so an engine error lands in Running |
| Witness.UpgradeToken.Cancel | game/src/witness.rs:132-135 | always Running with the same marker; takes no game |
| Witness.Game.CommitRanged | game/src/witness.rs:139-143 | appends exactly one equip-ranged-from-ground call for the given slot, then returns a live Running token |
| Witness.GetRangedWeaponToken.Cancel | game/src/witness.rs:145-148 | always Running with the same marker; takes no game |
| Witness.Game.CommitMelee | game/src/witness.rs:152-156 | appends exactly one equip-melee-from-ground call, then returns a live Running token |
| Witness.GetMeleeWeaponToken.Cancel | game/src/witness.rs:158-161 | always Running with the same marker; takes no game |
| Witness.InputOutcome | game/src/witness.rs:172-177 | Err(e) gives (Running, Err(e)); Ok(None) gives (Running, Ok); Ok(Upgrade) gives (Upgrade, Ok); Ok(GameOver) gives (GameOver, Ok); panics iff another signal; never GameOver with Err |
| Witness.Game.WitnessHandleInput | game/src/witness.rs:165-179 | appends exactly one handle_input call and returns InputOutcome of the engine's answer, with a freshly stamped marker |
| Witness.Step | game/src/witness.rs:70-162 | every operation ends in a mode its row of Table allows (errors only from input dispatch and get, always in Running; tick, cancel and commit never fail); only tick and input dispatch can panic; a live marker stays live, stamped with the new call count |
| Witness.NewGame | game/src/witness.rs:63-68 | a fresh game whose world has seen no calls, and a Running token live for it |
| Witness.NewRunningGame | game/src/witness.rs:16-22 | a snapshot needs the game and its live Running token, and keeps exactly the game's world |
| Witness.Game.IntoRunningGame | game/src/witness.rs:185-187 | saving through the game handle keeps exactly its world |
| Witness.RunningGame.Restored | game/src/witness.rs:24-31 | restoring gives back the saved world and a Running token live for it |
| Witness.IntoGame | game/src/witness.rs:24-31 | restoring builds a new game handle around the saved world and a Running token that it authorizes |
| Witness.SaveThenRestore | game/src/witness.rs:16-31 | save then restore gives back the same world and the same token |
| Traces.RunRecordsForwards | game/src/witness.rs:70-162 | after any completed session the world has received exactly the engine calls its operations forward, in order; get and cancel add none |
| Traces.RunKeepsWitnessLive | game/src/witness.rs:34-39 | a session that starts with the live witness always holds the live witness (or GameOver) |
| Traces.SpentInOrder | game/src/witness.rs:34-39 | the k-th engine call of a session is authorized by the marker stamped with the starting call count plus k |
| Traces.NoMarkerSpentTwice | game/src/witness.rs:34-39 | no marker authorizes two engine calls in any session |
| Traces.EquipsAreCommits | game/src/witness.rs:138-161 | the ranged and melee equip calls forwarded by a list of operations match its ranged and melee commits one for one |
| Traces.RunEquipsOncePerCommit | game/src/witness.rs:138-161 | over any completed session, the world gains exactly one equip call of each kind per commit of that kind |
| Traces.GameOverIsFinal | game/src/witness.rs:41-47 | no operation can be issued once the witness is GameOver |

## Left out

- Game.npc_turn, Game.events, Game.player and Game.inner_ref (game/src/witness.rs:181-199) are thin forwards to the engine.
  `npc_turn` and `events` change the world without a token.
  So the claim that every engine call spends a token covers the witness operations only.
- Running::new_panics (game/src/witness.rs:71-73) always panics. It has no member.
- `ControlInput` (game/src/witness.rs:58-61) is declared but used nowhere in the file.
- Witness::running and Witness::upgrade (game/src/witness.rs:49-56) are the constructors `Running(RunningToken(p))` and `Upgrade(UpgradeToken(p))`.
- The engine is not part of this model. Its answers are the `Engine` parameter, and its state is the call log.
- The contents of `Config` and the arithmetic of `Duration` are left out. Both are passed to the engine uninterpreted.
- The caller's random number generator is replaced by the `seed` parameter of `NewGame`.
- The serde derives and the byte format of a saved `RunningGame` are left out.
- The unforgeability of tokens is not modelled on direct calls.
  Dafny cannot hide a constructor or a field without an export set.
  The following are therefore public in the model, though private in the source:
  - the constructor of `Private` and of the token types: any module can build a token with the current stamp and call a `Game` method directly, for example committing a pickup that `get` never offered;
  - the constructor of `RunningGame`: any module can save a world while the game is in a mode other than Running;
  - the constructor of `Game`: any module can build a handle around any world, where the source builds one only in `new_game` and `into_game` (game/src/witness.rs:7-9);
  - the writable field `Game.inner`: any module can append an engine call without a token, or put back an earlier world so that a spent token authorizes again.
  Unforgeability and the mode discipline (a token is minted only by `NewGame`, `IntoGame` or an operation that consumes a token) are stated over `Traces` sessions (`Drives`/`Run`) only, where every operation spends the witness the previous one returned and the world changes only by the calls the operations forward.
- Move semantics are modelled by stamps.
  A Dafny caller can keep a copy of a token, so reusing a token for a pure step (`get`, `cancel`) is not excluded.
  What is excluded is two engine calls on one marker.
- Tokens carry no game identity in the source.
  In the model, a token authorizes whichever game's call count matches its stamp.
- Saving moves the `Game` into the snapshot in the source. In the model, the `Game` object stays reachable after saving.
- The driver loop and the rendering layer are not part of this model.
