/**
 * The scene manager of apiary/src/scenes/mod.rs: one slot for the current
 * scene, one for a pending next scene, and the operations that install,
 * update, feed input to and clean up the current scene.
 *
 * Scenes are opaque identities. What a scene's hook does to the world is
 * not visible to the manager, so each operation that runs a hook takes the
 * world the hook leaves behind as a parameter (`after`). Every hook call is
 * appended to a ghost trace together with the world the hook was given.
 *
 * The operations are specified twice: as the pure state machine `Step` over
 * `ManagerState` (with the lemmas about runs of it), and as the methods of
 * the class `SceneManager`, which update the slots in place and are proved
 * to take exactly the step `Step` describes.
 */
module Scenes {
  import opened Wrappers
  import opened Winit

  /** The identity of a boxed `dyn Scene`. */
  type SceneId = nat

  /** The identity of an entity in a legion world. */
  type EntityId = nat

  /**
   * A legion `World`, seen as the set of its live entities. It is a class
   * because the source both clears a world in place (`world.clear()`) and
   * replaces the application's world by a fresh one (`World::default()`).
   */
  class World {
    var entities: set<EntityId>

    /** `World::default()`: a new world with no entities. */
    constructor ()
      ensures entities == {}
    {
      entities := {};
    }

    /** `world.clear()`: drops every entity of this world. */
    method Clear()
      modifies this
      ensures entities == {}
    {
      entities := {};
    }
  }

  /** A call of one of the `Scene` hooks, with the entities the hook was given. */
  datatype HookCall =
    | Update(scene: SceneId, seen: set<EntityId>)
    | Cleanup(scene: SceneId, seen: set<EntityId>)
    | Input(scene: SceneId, event: Event, seen: set<EntityId>)

  /** The two slots of the manager, the world it works on and the hook calls so far. */
  datatype ManagerState = ManagerState(
    current: Option<SceneId>,
    next: Option<SceneId>,
    world: set<EntityId>,
    trace: seq<HookCall>)

  /** The manager's operations; `after` is the world a hook leaves behind. */
  datatype Op =
    | SetScene(scene: SceneId)
    | UpdateScene(after: set<EntityId>)
    | ProcessInput(event: Event, after: set<EntityId>)
    | TryCleanupCurrentScene

  /** `SceneManager::default()`, working on a world with the given entities. */
  function Default(world: set<EntityId>): (r: ManagerState)
    ensures r.current.None? && !NextPending(r)
    ensures r.world == world && r.trace == []
  {
    ManagerState(None, None, world, [])
  }

  /** `has_next_scene` on a state of the pure model. */
  predicate NextPending(st: ManagerState) {
    st.next.Some?
  }

  /** The cleanup hook call that `try_cleanup_current_scene` makes, if any. */
  function CleanupCall(st: ManagerState): seq<HookCall> {
    if st.current.Some? then [Cleanup(st.current.value, st.world)] else []
  }

  /**
   * One operation of the manager. No operation writes the next slot; each
   * makes at most one hook call, and only to the current scene; an
   * operation on an empty current slot calls no hook.
   */
  function Step(st: ManagerState, op: Op): (r: ManagerState)
    ensures r.next == st.next
    ensures |st.trace| <= |r.trace| <= |st.trace| + 1 && r.trace[..|st.trace|] == st.trace
    ensures forall i :: |st.trace| <= i < |r.trace| ==> st.current.Some? && r.trace[i].scene == st.current.value
    ensures op.SetScene? ==> r.current == Some(op.scene) && r.world == st.world
    ensures op.TryCleanupCurrentScene? ==> r.current.None? && r.world == {}
    ensures (op.UpdateScene? || op.ProcessInput?) ==> r.current == st.current
  {
    match op
    case SetScene(s) =>
      st.(current := Some(s))
    case UpdateScene(after) =>
      if st.current.None? then st
      else st.(world := after, trace := st.trace + [Update(st.current.value, st.world)])
    case ProcessInput(e, after) =>
      if st.current.None? then st
      else st.(world := after, trace := st.trace + [Input(st.current.value, e, st.world)])
    case TryCleanupCurrentScene =>
      st.(current := None, world := {}, trace := st.trace + CleanupCall(st))
  }

  /** A sequence of operations, applied in order. */
  function Run(st: ManagerState, ops: seq<Op>): ManagerState
    decreases |ops|
  {
    if ops == [] then st else Run(Step(st, ops[0]), ops[1..])
  }

  /** The scenes that some `set_scene` in `ops` installs. */
  function InstalledBy(ops: seq<Op>): set<SceneId>
    decreases |ops|
  {
    if ops == [] then {}
    else (if ops[0].SetScene? then {ops[0].scene} else {}) + InstalledBy(ops[1..])
  }

  /** The scene in the current slot, as a set. */
  function CurrentScenes(st: ManagerState): set<SceneId> {
    if st.current.Some? then {st.current.value} else {}
  }

  /** No operation writes the next-scene slot, so no run changes it. */
  lemma {:induction false} RunKeepsNextScene(st: ManagerState, ops: seq<Op>)
    ensures Run(st, ops).next == st.next
    decreases |ops|
  {
    if ops != [] {
      RunKeepsNextScene(Step(st, ops[0]), ops[1..]);
    }
  }

  /** Every state reachable from a default manager has no next scene. */
  lemma NoNextSceneIsReachable(world: set<EntityId>, ops: seq<Op>)
    ensures !NextPending(Run(Default(world), ops))
  {
    RunKeepsNextScene(Default(world), ops);
  }

  /** A second cleanup makes no hook call and changes nothing. */
  lemma CleanupIsIdempotent(st: ManagerState)
    ensures Step(Step(st, TryCleanupCurrentScene), TryCleanupCurrentScene)
         == Step(st, TryCleanupCurrentScene)
  {
  }

  /**
   * Once the current slot is empty, no hook runs until a scene is set again:
   * a dropped scene never receives another update, input or cleanup.
   */
  lemma {:induction false} NoHooksWithoutScene(st: ManagerState, ops: seq<Op>)
    requires st.current.None?
    requires forall i :: 0 <= i < |ops| ==> !ops[i].SetScene?
    ensures Run(st, ops).current.None? && Run(st, ops).trace == st.trace
    decreases |ops|
  {
    if ops != [] {
      NoHooksWithoutScene(Step(st, ops[0]), ops[1..]);
    }
  }

  /**
   * A run only adds to the trace, and every hook it calls belongs to the
   * scene that was current at the start or to one installed by `set_scene`
   * during the run.
   */
  lemma {:induction false} HooksGoToInstalledScenes(st: ManagerState, ops: seq<Op>)
    ensures |st.trace| <= |Run(st, ops).trace|
    ensures Run(st, ops).trace[..|st.trace|] == st.trace
    ensures forall i :: |st.trace| <= i < |Run(st, ops).trace| ==>
              Run(st, ops).trace[i].scene in CurrentScenes(st) + InstalledBy(ops)
    decreases |ops|
  {
    if ops != [] {
      var st1 := Step(st, ops[0]);
      var r := Run(st, ops);
      HooksGoToInstalledScenes(st1, ops[1..]);
      assert r == Run(st1, ops[1..]);
      assert |st1.trace| <= |st.trace| + 1;
      assert st1.trace[..|st.trace|] == st.trace;
      assert CurrentScenes(st1) <= CurrentScenes(st) + InstalledBy(ops);
      assert InstalledBy(ops[1..]) <= InstalledBy(ops);
      assert r.trace[..|st1.trace|] == st1.trace;
      assert r.trace[..|st.trace|] == st1.trace[..|st.trace|];
      forall i | |st.trace| <= i < |r.trace|
        ensures r.trace[i].scene in CurrentScenes(st) + InstalledBy(ops)
      {
        if i < |st1.trace| {
          assert r.trace[i] == st1.trace[i];
          assert st1.trace[i].scene == st.current.value;
        }
      }
    }
  }

  /**
   * `SceneManager` with its two slots updated in place. The hook trace is
   * ghost: it records what the boxed scenes are asked to do.
   */
  class SceneManager {
    var current: Option<SceneId>
    var next: Option<SceneId>
    ghost var trace: seq<HookCall>

    /** The manager together with the given world, as a `ManagerState`. */
    ghost function State(world: set<EntityId>): ManagerState
      reads this
    {
      ManagerState(current, next, world, trace)
    }

    /** `has_next_scene`: agrees with the pure model, whatever the world. */
    predicate HasNextScene(): (r: bool)
      reads this
      ensures forall w :: r == NextPending(State(w))
    {
      next.Some?
    }

    /** `SceneManager::default()`: both slots empty, so no next scene. */
    constructor ()
      ensures current == None && next == None && trace == []
      ensures !HasNextScene()
      ensures forall w :: State(w) == Default(w)
    {
      current := None;
      next := None;
      trace := [];
    }

    /** Makes `scene` current; calls no hook, in particular no cleanup of the scene it replaces. */
    method SetScene(scene: SceneId)
      modifies this
      ensures current == Some(scene) && next == old(next) && trace == old(trace)
      ensures forall w :: State(w) == Step(old(State(w)), Op.SetScene(scene))
    {
      current := Some(scene);
    }

    /** Runs the current scene's update hook once; does nothing when there is no current scene. */
    method UpdateScene(world: World, after: set<EntityId>)
      modifies this, world
      ensures State(world.entities) == Step(old(State(world.entities)), Op.UpdateScene(after))
      ensures current == old(current) && next == old(next)
      ensures old(current).None? ==> world.entities == old(world.entities) && trace == old(trace)
      ensures old(current).Some? ==>
                world.entities == after
                && trace == old(trace) + [Update(old(current).value, old(world.entities))]
    {
      if current.None? {
        return;
      }
      trace := trace + [Update(current.value, world.entities)];
      world.entities := after;
    }

    /** Forwards `event` to the current scene once, if there is one. */
    method ProcessInput(world: World, event: Event, after: set<EntityId>)
      modifies this, world
      ensures State(world.entities) == Step(old(State(world.entities)), Op.ProcessInput(event, after))
      ensures current == old(current) && next == old(next)
      ensures old(current).None? ==> world.entities == old(world.entities) && trace == old(trace)
      ensures old(current).Some? ==>
                world.entities == after
                && trace == old(trace) + [Input(old(current).value, event, old(world.entities))]
    {
      match current {
        case Some(s) =>
          trace := trace + [Input(s, event, world.entities)];
          world.entities := after;
        case None =>
      }
    }

    /**
     * Runs the current scene's cleanup hook (on the world as it still is),
     * then clears the world in place and empties the current slot. The
     * next-scene slot is left as it was.
     */
    method TryCleanupCurrentScene(world: World)
      modifies this, world
      ensures State(world.entities) == Step(old(State(world.entities)), Op.TryCleanupCurrentScene)
      ensures current == None && next == old(next) && world.entities == {}
      ensures trace == old(trace) + CleanupCall(old(State(world.entities)))
    {
      if current.Some? {
        trace := trace + [Cleanup(current.value, world.entities)];
      }
      world.Clear();
      current := None;
    }
  }
}
