/**
 * Whole sessions: a driver holding a witness and issuing one operation after
 * another, as the game loop does. These lemmas state what the witness layer
 * guarantees over every such sequence, for every engine.
 */
module Traces {
  import opened Wrappers
  import E = Engine
  import opened Witness

  /** The world a driver plays on and the witness it holds. */
  datatype Session = Session(world: E.World, held: Witness)
  {
    /** The held witness is the one entitled to change the world (or the game is over). */
    predicate Live()
    {
      held.GameOver? || held.Marker() == Some(Private(|world.calls|))
    }
  }

  /** Every operation of `ops` is offered by the witness held when it is issued: what the type checker enforces. */
  ghost predicate Drives(engine: E.Engine, s: Session, ops: seq<Op>)
    decreases |ops|
  {
    ops != [] ==>
      && Offers(s.held, ops[0])
      && match Step(engine, s.world, s.held, ops[0])
         case Todo => true
         case Returns((w, _)) => Drives(engine, Session(s.world.Then(Forwards(ops[0])), w), ops[1..])
  }

  /** The session reached by issuing `ops`, or Todo if one of them panics. */
  function Run(engine: E.Engine, s: Session, ops: seq<Op>): Exit<Session>
    requires Drives(engine, s, ops)
    decreases |ops|
  {
    if ops == [] then Returns(s)
    else
      match Step(engine, s.world, s.held, ops[0])
      case Todo => Todo
      case Returns((w, _)) => Run(engine, Session(s.world.Then(Forwards(ops[0])), w), ops[1..])
  }

  /** The engine calls of a sequence of operations, in order. */
  function AllForwards(ops: seq<Op>): seq<E.Call>
    decreases |ops|
  {
    if ops == [] then [] else Forwards(ops[0]) + AllForwards(ops[1..])
  }

  /** The stamps of the markers spent on engine calls during a run, in order. */
  function Spent(engine: E.Engine, s: Session, ops: seq<Op>): seq<nat>
    requires Drives(engine, s, ops)
    decreases |ops|
  {
    if ops == [] then []
    else
      var here := if Forwards(ops[0]) == [] then [] else [s.held.Marker().value.stamp];
      match Step(engine, s.world, s.held, ops[0])
      case Todo => here
      case Returns((w, _)) => here + Spent(engine, Session(s.world.Then(Forwards(ops[0])), w), ops[1..])
  }

  function Count<T>(s: seq<T>, p: T -> bool): nat
    decreases |s|
  {
    if s == [] then 0 else (if p(s[0]) then 1 else 0) + Count(s[1..], p)
  }

  lemma {:induction false} CountConcat<T>(a: seq<T>, b: seq<T>, p: T -> bool)
    ensures Count(a + b, p) == Count(a, p) + Count(b, p)
    decreases |a|
  {
    if a != [] {
      assert (a + b)[0] == a[0] && (a + b)[1..] == a[1..] + b;
      CountConcat(a[1..], b, p);
    } else {
      assert a + b == b;
    }
  }

  predicate IsEquipRanged(c: E.Call) { c.EquipRangedFromGround? }
  predicate IsEquipMelee(c: E.Call) { c.EquipMeleeFromGround? }
  predicate IsCommitRanged(op: Op) { op.CommitRanged? }
  predicate IsCommitMelee(op: Op) { op.CommitMelee? }
  predicate CallsEngine(op: Op) { Forwards(op) != [] }

  /**
   * A completed run has given the engine exactly the calls its operations
   * forward, in order, and nothing else: get and cancel add nothing.
   */
  lemma {:induction false} RunRecordsForwards(engine: E.Engine, s: Session, ops: seq<Op>)
    requires Drives(engine, s, ops)
    ensures Run(engine, s, ops).Returns? ==> Run(engine, s, ops).value.world == s.world.Then(AllForwards(ops))
    decreases |ops|
  {
    if ops != [] {
      match Step(engine, s.world, s.held, ops[0])
      case Todo =>
      case Returns((w, _)) =>
        var next := Session(s.world.Then(Forwards(ops[0])), w);
        RunRecordsForwards(engine, next, ops[1..]);
        assert s.world.calls + Forwards(ops[0]) + AllForwards(ops[1..])
            == s.world.calls + (Forwards(ops[0]) + AllForwards(ops[1..]));
    }
  }

  /** A run that starts with the live witness ends with the live witness (or GameOver). */
  lemma {:induction false} RunKeepsWitnessLive(engine: E.Engine, s: Session, ops: seq<Op>)
    requires Drives(engine, s, ops) && s.Live()
    ensures Run(engine, s, ops).Returns? ==> Run(engine, s, ops).value.Live()
    decreases |ops|
  {
    if ops != [] {
      match Step(engine, s.world, s.held, ops[0])
      case Todo =>
      case Returns((w, _)) =>
        RunKeepsWitnessLive(engine, Session(s.world.Then(Forwards(ops[0])), w), ops[1..]);
    }
  }

  /**
   * Single use: starting live, the k-th engine call of a run is authorized by
   * the marker stamped |calls| + k, so no marker is ever spent twice.
   */
  lemma {:induction false} SpentInOrder(engine: E.Engine, s: Session, ops: seq<Op>)
    requires Drives(engine, s, ops) && s.Live()
    ensures |Spent(engine, s, ops)| <= Count(ops, CallsEngine)
    ensures Run(engine, s, ops).Returns? ==> |Spent(engine, s, ops)| == Count(ops, CallsEngine)
    ensures forall k :: 0 <= k < |Spent(engine, s, ops)| ==> Spent(engine, s, ops)[k] == |s.world.calls| + k
    decreases |ops|
  {
    if ops != [] {
      var op := ops[0];
      assert ops == [op] + ops[1..];
      match Step(engine, s.world, s.held, op)
      case Todo =>
      case Returns((w, _)) =>
        var next := Session(s.world.Then(Forwards(op)), w);
        SpentInOrder(engine, next, ops[1..]);
    }
  }

  /** Corollary of SpentInOrder: the markers spent during a run are pairwise distinct. */
  lemma NoMarkerSpentTwice(engine: E.Engine, s: Session, ops: seq<Op>)
    requires Drives(engine, s, ops) && s.Live()
    ensures forall i, j :: 0 <= i < j < |Spent(engine, s, ops)| ==> Spent(engine, s, ops)[i] != Spent(engine, s, ops)[j]
  {
    SpentInOrder(engine, s, ops);
  }

  /** Each commit forwards exactly one equip call and no other operation forwards any. */
  lemma {:induction false} EquipsAreCommits(ops: seq<Op>)
    ensures Count(AllForwards(ops), IsEquipRanged) == Count(ops, IsCommitRanged)
    ensures Count(AllForwards(ops), IsEquipMelee) == Count(ops, IsCommitMelee)
    decreases |ops|
  {
    if ops != [] {
      CountConcat(Forwards(ops[0]), AllForwards(ops[1..]), IsEquipRanged);
      CountConcat(Forwards(ops[0]), AllForwards(ops[1..]), IsEquipMelee);
      EquipsAreCommits(ops[1..]);
    }
  }

  /** Over a completed run, the world gains one ranged (melee) equip call per ranged (melee) commit. */
  lemma RunEquipsOncePerCommit(engine: E.Engine, s: Session, ops: seq<Op>)
    requires Drives(engine, s, ops) && Run(engine, s, ops).Returns?
    ensures Count(Run(engine, s, ops).value.world.calls, IsEquipRanged)
         == Count(s.world.calls, IsEquipRanged) + Count(ops, IsCommitRanged)
    ensures Count(Run(engine, s, ops).value.world.calls, IsEquipMelee)
         == Count(s.world.calls, IsEquipMelee) + Count(ops, IsCommitMelee)
  {
    RunRecordsForwards(engine, s, ops);
    EquipsAreCommits(ops);
    CountConcat(s.world.calls, AllForwards(ops), IsEquipRanged);
    CountConcat(s.world.calls, AllForwards(ops), IsEquipMelee);
  }

  /** GameOver is terminal: no operation can be issued from it. */
  lemma GameOverIsFinal(engine: E.Engine, world: E.World, ops: seq<Op>)
    requires Drives(engine, Session(world, GameOver), ops)
    ensures ops == [] && Run(engine, Session(world, GameOver), ops) == Returns(Session(world, GameOver))
  {
  }
}
