/**
 * What one call of `ApiaryApp::update` and one call of `do_process_input`
 * (apiary/src/app.rs) ask of the outside world, and in which order: the
 * log of external effects, the fixed list of resources handed to the
 * renderer, and the lemmas about their order. The methods of
 * `App.ApiaryApp` are proved to append exactly these effects.
 */
module AppFrame {
  import opened Wrappers
  import opened Winit
  import Scenes
  import AppArgs
  import AppInput

  /**
   * The resource types that apiary/src/app.rs names. `rendering_init` may
   * insert further resources into the legion `Resources`; those are not
   * visible here.
   */
  datatype ResourceKind =
    | VisibilityRegion | RafxSwapchainHelper | ViewportsResource | AssetManager
    | TimeState | RenderOptions | BasicPipelineRenderOptions | BasicPipelineTonemapDebugData
    | MeshBasicRenderOptions | RendererConfigResource | TileLayerResource | SkyboxResource
    | SpriteRenderObjectSet | MeshBasicRenderObjectSet | TileLayerRenderObjectSet
    | Debug3DResource | TextResource | WinitEguiManager
    | Renderer | AssetResource | InputResource | DebugUiState | EguiContextResource

  /**
   * Whether the renderer receives an exclusive borrow of `k` each frame:
   * every named kind except the renderer itself (borrowed shared meanwhile)
   * and the ones only the application uses; the overlay's manager only when
   * the overlay is built in.
   */
  predicate Extracted(k: ResourceKind, overlay: bool) {
    match k
    case Renderer => false
    case AssetResource => false
    case InputResource => false
    case DebugUiState => false
    case EguiContextResource => false
    case WinitEguiManager => overlay
    case _ => true
  }

  /**
   * The resources added to `ExtractResources`, in the order of the source.
   * Each is borrowed exclusively and the borrows are all live together, so
   * no kind may appear twice and the shared-borrowed renderer not at all.
   */
  function ExtractKinds(overlay: bool): (r: seq<ResourceKind>)
    ensures forall k :: k in r <==> Extracted(k, overlay)
    ensures forall i, j :: 0 <= i < j < |r| ==> r[i] != r[j]
    ensures |r| == if overlay then 18 else 17
  {
    [VisibilityRegion, RafxSwapchainHelper, ViewportsResource, AssetManager,
     TimeState, RenderOptions, BasicPipelineRenderOptions, BasicPipelineTonemapDebugData,
     MeshBasicRenderOptions, RendererConfigResource, TileLayerResource, SkyboxResource,
     SpriteRenderObjectSet, MeshBasicRenderObjectSet, TileLayerRenderObjectSet,
     Debug3DResource, TextResource]
    + (if overlay then [WinitEguiManager] else [])
  }

  /** What the renderer is handed: the resource borrows and the world's entities. */
  datatype ExtractSet = ExtractSet(kinds: seq<ResourceKind>, world: set<Scenes.EntityId>)

  /** One call from the application into a collaborator it does not own. */
  datatype Effect =
    // Initialisation
    | InitRendering(source: AppArgs.AssetSource, size: PhysicalSize)
    | LoadFont
    // One frame of `update`
    | UpdateTime
    | CheckFpsEvent
    | WriteViewport(size: PhysicalSize)
    | SceneCleanup
    | ResetWorld
    | ClearTemporaryWork
    | UpdateAssets
    | UpdateAssetLoaders
    | BeginOverlayFrame
    | AddHelpText
    | SceneUpdate
    | SyncOptions
    | EndOverlayFrame
    | StartRender(extract: ExtractSet)
    // One input event
    | OverlayHandleEvent(event: Event)
    | PrintAssetMetrics
    | SceneInput(event: Event)
    | TrackInput(event: Event)

  /** `[e]` when the overlay is built in, nothing otherwise. */
  function OverlayOnly(overlay: bool, e: Effect): seq<Effect> {
    if overlay then [e] else []
  }

  /** A frame up to the asset ticks: time, viewport, the transition if one is pending. */
  function FramePrefix(transition: bool, size: PhysicalSize): seq<Effect> {
    FrameHead(size)
    + TransitionSteps(transition)
    + [UpdateAssets, UpdateAssetLoaders]
  }

  /** The rest of a frame that gets past the overlay's frame start. */
  function FrameSuffix(overlay: bool, extract: ExtractSet): seq<Effect> {
    [AddHelpText, SceneUpdate, SyncOptions] + OverlayOnly(overlay, EndOverlayFrame) + [StartRender(extract)]
  }

  /** A whole frame that returns `Poll`. */
  function FrameSteps(overlay: bool, transition: bool, size: PhysicalSize, extract: ExtractSet): seq<Effect> {
    FramePrefix(transition, size) + OverlayOnly(overlay, BeginOverlayFrame) + FrameSuffix(overlay, extract)
  }

  /** The effects of one input event, given the overlay's verdict. */
  function InputEffects(overlay: bool, e: Event, ignored: bool): seq<Effect> {
    var r := AppInput.Route(e, ignored);
    OverlayOnly(overlay, OverlayHandleEvent(e))
    + (if r.printMetrics then [PrintAssetMetrics] else [])
    + (if r.forward then [SceneInput(e), TrackInput(e)] else [])
  }

  /** Both occur in `s`, and every occurrence of `a` comes before every occurrence of `b`. */
  ghost predicate Before<T>(s: seq<T>, a: T, b: T) {
    && a in s && b in s
    && forall i, j :: 0 <= i < |s| && 0 <= j < |s| && s[i] == a && s[j] == b ==> i < j
  }

  /** `a` before `b` when `a` is only in the first part and `b` only in the second. */
  lemma BeforeAcrossConcat<T>(p: seq<T>, q: seq<T>, a: T, b: T)
    requires a in p && a !in q && b in q && b !in p
    ensures Before(p + q, a, b)
  {
  }

  /** An order inside `p` survives appending `q`, when neither element occurs in `q`. */
  lemma BeforeExtendRight<T>(p: seq<T>, q: seq<T>, a: T, b: T)
    requires Before(p, a, b) && a !in q && b !in q
    ensures Before(p + q, a, b)
  {
  }

  /** An order inside `q` survives prepending `p`, when neither element occurs in `p`. */
  lemma BeforeExtendLeft<T>(p: seq<T>, q: seq<T>, a: T, b: T)
    requires Before(q, a, b) && a !in p && b !in p
    ensures Before(p + q, a, b)
  {
  }

  /** The pending-scene transition of a frame. */
  function TransitionSteps(transition: bool): seq<Effect> {
    if transition then [SceneCleanup, ResetWorld, ClearTemporaryWork] else []
  }

  /** The three transition effects are in the order cleanup, reset, clear. */
  lemma TransitionOrder()
    ensures Before(TransitionSteps(true), SceneCleanup, ResetWorld)
    ensures Before(TransitionSteps(true), ResetWorld, ClearTemporaryWork)
  {
  }

  /** The frame's first three effects. */
  function FrameHead(size: PhysicalSize): seq<Effect> {
    [UpdateTime, CheckFpsEvent, WriteViewport(size)]
  }

  /** Time is updated before the FPS check in the frame's first three effects. */
  lemma HeadOrder(size: PhysicalSize)
    ensures Before(FrameHead(size), UpdateTime, CheckFpsEvent)
  {
  }

  /** An order among the effects before the overlay's frame start holds in the whole frame. */
  lemma PrefixOrderHoldsInFrame(overlay: bool, transition: bool, size: PhysicalSize, extract: ExtractSet, a: Effect, b: Effect)
    requires Before(FramePrefix(transition, size), a, b)
    requires a != BeginOverlayFrame && b != BeginOverlayFrame
    requires a !in FrameSuffix(overlay, extract) && b !in FrameSuffix(overlay, extract)
    ensures Before(FrameSteps(overlay, transition, size, extract), a, b)
  {
    BeforeExtendRight(FramePrefix(transition, size), OverlayOnly(overlay, BeginOverlayFrame), a, b);
    BeforeExtendRight(FramePrefix(transition, size) + OverlayOnly(overlay, BeginOverlayFrame),
                      FrameSuffix(overlay, extract), a, b);
  }

  /** An effect before the overlay's frame start precedes every effect of the rest of the frame. */
  lemma PrefixPrecedesSuffix(overlay: bool, transition: bool, size: PhysicalSize, extract: ExtractSet, a: Effect, b: Effect)
    requires a in FramePrefix(transition, size) && a !in FrameSuffix(overlay, extract)
    requires b in FrameSuffix(overlay, extract) && b !in FramePrefix(transition, size) && b != BeginOverlayFrame
    ensures Before(FrameSteps(overlay, transition, size, extract), a, b)
  {
    BeforeAcrossConcat(FramePrefix(transition, size) + OverlayOnly(overlay, BeginOverlayFrame),
                       FrameSuffix(overlay, extract), a, b);
  }

  /** Time is updated first, before the FPS check, and the FPS check comes before the scene update. */
  lemma TimeIsUpdatedFirst(overlay: bool, transition: bool, size: PhysicalSize, extract: ExtractSet)
    ensures FrameSteps(overlay, transition, size, extract)[0] == UpdateTime
    ensures Before(FrameSteps(overlay, transition, size, extract), UpdateTime, CheckFpsEvent)
    ensures Before(FrameSteps(overlay, transition, size, extract), CheckFpsEvent, SceneUpdate)
  {
    var head := FrameHead(size);
    HeadOrder(size);
    BeforeExtendRight(head, TransitionSteps(transition), UpdateTime, CheckFpsEvent);
    BeforeExtendRight(head + TransitionSteps(transition), [UpdateAssets, UpdateAssetLoaders], UpdateTime, CheckFpsEvent);
    PrefixOrderHoldsInFrame(overlay, transition, size, extract, UpdateTime, CheckFpsEvent);
    PrefixPrecedesSuffix(overlay, transition, size, extract, CheckFpsEvent, SceneUpdate);
  }

  /** With a pending scene, the cleanup comes before the world reset, and the reset before the renderer's clear. */
  lemma TransitionStepsInOrder(overlay: bool, size: PhysicalSize, extract: ExtractSet)
    ensures Before(FrameSteps(overlay, true, size, extract), SceneCleanup, ResetWorld)
    ensures Before(FrameSteps(overlay, true, size, extract), ResetWorld, ClearTemporaryWork)
  {
    var head := FrameHead(size);
    var t := TransitionSteps(true);
    var assets := [UpdateAssets, UpdateAssetLoaders];
    TransitionOrder();
    BeforeExtendLeft(head, t, SceneCleanup, ResetWorld);
    BeforeExtendLeft(head, t, ResetWorld, ClearTemporaryWork);
    BeforeExtendRight(head + t, assets, SceneCleanup, ResetWorld);
    BeforeExtendRight(head + t, assets, ResetWorld, ClearTemporaryWork);
    PrefixOrderHoldsInFrame(overlay, true, size, extract, SceneCleanup, ResetWorld);
    PrefixOrderHoldsInFrame(overlay, true, size, extract, ResetWorld, ClearTemporaryWork);
  }

  /** With a pending scene, the whole transition comes before the asset ticks and the scene update. */
  lemma TransitionPrecedesSceneUpdate(overlay: bool, size: PhysicalSize, extract: ExtractSet)
    ensures Before(FrameSteps(overlay, true, size, extract), ClearTemporaryWork, UpdateAssets)
    ensures Before(FrameSteps(overlay, true, size, extract), ClearTemporaryWork, SceneUpdate)
  {
    var head := FrameHead(size);
    var t := TransitionSteps(true);
    BeforeAcrossConcat(head + t, [UpdateAssets, UpdateAssetLoaders], ClearTemporaryWork, UpdateAssets);
    PrefixOrderHoldsInFrame(overlay, true, size, extract, ClearTemporaryWork, UpdateAssets);
    PrefixPrecedesSuffix(overlay, true, size, extract, ClearTemporaryWork, SceneUpdate);
  }

  /** The asset services are ticked before the scene update. */
  lemma AssetsPrecedeSceneUpdate(overlay: bool, transition: bool, size: PhysicalSize, extract: ExtractSet)
    ensures Before(FrameSteps(overlay, transition, size, extract), UpdateAssets, SceneUpdate)
    ensures Before(FrameSteps(overlay, transition, size, extract), UpdateAssetLoaders, SceneUpdate)
  {
    PrefixPrecedesSuffix(overlay, transition, size, extract, UpdateAssets, SceneUpdate);
    PrefixPrecedesSuffix(overlay, transition, size, extract, UpdateAssetLoaders, SceneUpdate);
  }

  /** Without a pending scene, no cleanup, reset or clear happens. */
  lemma NoTransitionWithoutPendingScene(overlay: bool, size: PhysicalSize, extract: ExtractSet)
    ensures SceneCleanup !in FrameSteps(overlay, false, size, extract)
    ensures ResetWorld !in FrameSteps(overlay, false, size, extract)
    ensures ClearTemporaryWork !in FrameSteps(overlay, false, size, extract)
  {
  }

  /**
   * The options are synchronised after the scene update, and the extract is
   * handed over after both, as the last effect of the frame.
   */
  lemma ExtractFollowsSceneUpdate(overlay: bool, transition: bool, size: PhysicalSize, extract: ExtractSet)
    ensures Before(FrameSteps(overlay, transition, size, extract), SceneUpdate, SyncOptions)
    ensures Before(FrameSteps(overlay, transition, size, extract), SyncOptions, StartRender(extract))
    ensures FrameSteps(overlay, transition, size, extract)[|FrameSteps(overlay, transition, size, extract)| - 1]
         == StartRender(extract)
  {
    var front := FramePrefix(transition, size) + OverlayOnly(overlay, BeginOverlayFrame);
    var scene := [AddHelpText, SceneUpdate, SyncOptions];
    var end := OverlayOnly(overlay, EndOverlayFrame);
    var render := [StartRender(extract)];
    BeforeAcrossConcat([AddHelpText, SceneUpdate], [SyncOptions], SceneUpdate, SyncOptions);
    assert [AddHelpText, SceneUpdate] + [SyncOptions] == scene;
    BeforeExtendRight(scene, end, SceneUpdate, SyncOptions);
    BeforeExtendRight(scene + end, render, SceneUpdate, SyncOptions);
    BeforeExtendLeft(front, FrameSuffix(overlay, extract), SceneUpdate, SyncOptions);
    BeforeAcrossConcat(scene + end, render, SyncOptions, StartRender(extract));
    BeforeExtendLeft(front, FrameSuffix(overlay, extract), SyncOptions, StartRender(extract));
  }

  /** A forwarded event goes to the scene first and to the input tracker second. */
  lemma ForwardedInputReachesSceneThenTracker(overlay: bool, e: Event, ignored: bool)
    requires AppInput.Route(e, ignored).forward
    ensures Before(InputEffects(overlay, e, ignored), SceneInput(e), TrackInput(e))
  {
  }

  /** An event that is not forwarded reaches neither the scene nor the tracker. */
  lemma UnforwardedInputReachesNothing(overlay: bool, e: Event, ignored: bool)
    requires !AppInput.Route(e, ignored).forward
    ensures SceneInput(e) !in InputEffects(overlay, e, ignored)
    ensures TrackInput(e) !in InputEffects(overlay, e, ignored)
  {
  }

  /** The transition branch of a frame: the cleanup, only when a next scene is pending. */
  function SceneTransition(st: Scenes.ManagerState): (r: Scenes.ManagerState)
    ensures r.next == st.next
    ensures Scenes.NextPending(st) ==> r.current.None? && r.world == {} && r.trace == st.trace + Scenes.CleanupCall(st)
    ensures !Scenes.NextPending(st) ==> r == st
  {
    if Scenes.NextPending(st) then Scenes.Step(st, Scenes.TryCleanupCurrentScene) else st
  }

  /** The scene manager's part of a frame: the transition branch, then the update. */
  function FrameScene(st: Scenes.ManagerState, after: set<Scenes.EntityId>): (r: Scenes.ManagerState)
    ensures r.next == st.next
    ensures Scenes.NextPending(st) ==> r.current.None?
    ensures !Scenes.NextPending(st) ==> r.current == st.current
    ensures |st.trace| <= |r.trace| <= |st.trace| + 1 && r.trace[..|st.trace|] == st.trace
  {
    Scenes.Step(SceneTransition(st), Scenes.UpdateScene(after))
  }

  /**
   * With a pending scene the frame drops the current scene after its
   * cleanup, so the frame's own scene update finds no scene to run; the
   * pending scene stays pending.
   */
  lemma PendingSceneLeavesNothingToUpdate(st: Scenes.ManagerState, after: set<Scenes.EntityId>)
    requires Scenes.NextPending(st)
    ensures FrameScene(st, after).current.None? && FrameScene(st, after).next == st.next
    ensures FrameScene(st, after).world == {}
    ensures FrameScene(st, after).trace == st.trace + Scenes.CleanupCall(st)
  {
  }

  /** Without a pending scene a frame is exactly one `update_scene`. */
  lemma FrameWithoutPendingSceneIsUpdate(st: Scenes.ManagerState, after: set<Scenes.EntityId>)
    requires !Scenes.NextPending(st)
    ensures FrameScene(st, after) == Scenes.Step(st, Scenes.UpdateScene(after))
  {
  }
}
