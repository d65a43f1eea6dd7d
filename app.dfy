/**
 * The application object of apiary/src/app.rs: its start-up (`init`), one
 * frame (`update`) and the handling of one input event
 * (`do_process_input`).
 *
 * The legion resource map is replaced by `Resources`, a record with one
 * named field per resource the application itself reads or writes; the
 * resources it only hands on (renderer, asset services, overlay) are
 * collaborators whose calls are appended to the ghost log `effects`.
 * What the collaborators return is given as parameters.
 */
module App {
  import opened Wrappers
  import opened Winit
  import Scenes
  import opened AppArgs
  import AppOptions
  import opened AppInput
  import opened AppFrame

  /** `ApiaryError`: the three kinds of error `init` and `update` can report. */
  datatype ApiaryError =
    | StringError(message: string)
    | IoError(message: string)
    | RafxError(code: nat)

  /**
   * The outcomes of the backend calls `update` makes: the asset loaders'
   * tick and the render start are unwrapped (a failure panics), the
   * overlay's frame start is propagated.
   */
  datatype Backend = Backend(assetLoadersOk: bool, beginFrame: Option<ApiaryError>, startRenderOk: bool)

  /** The resources the application reads and writes itself. */
  class Resources {
    /** How many times `TimeState::update` has run. */
    var timeUpdates: nat
    /** `ViewportsResource::main_window_size`. */
    var viewport: PhysicalSize
    var renderOptions: AppOptions.RenderOptions
    var pipelineOptions: AppOptions.BasicPipelineRenderOptions
    var meshOptions: AppOptions.MeshBasicRenderOptions

    /**
     * The resources as `init` leaves them: a fresh time state, the 2D render
     * options, the library defaults for the pipeline and mesh options, and
     * the viewport of the window passed to `rendering_init`.
     */
    constructor (
      viewport: PhysicalSize,
      pipelineDefaults: AppOptions.BasicPipelineRenderOptions,
      meshDefaults: AppOptions.MeshBasicRenderOptions)
      ensures timeUpdates == 0 && this.viewport == viewport
      ensures renderOptions == AppOptions.Default2d()
      ensures pipelineOptions == pipelineDefaults && meshOptions == meshDefaults
    {
      timeUpdates := 0;
      this.viewport := viewport;
      renderOptions := AppOptions.Default2d();
      pipelineOptions := pipelineDefaults;
      meshOptions := meshDefaults;
    }

    /**
     * Copies the render options into the 13 pipeline fields and the 3 mesh
     * fields of the same names; the render options and every other resource
     * stay as they were.
     */
    method SyncOptions()
      modifies this
      ensures AppOptions.PipelineMatches(renderOptions, pipelineOptions)
      ensures AppOptions.MeshMatches(renderOptions, meshOptions)
      ensures renderOptions == old(renderOptions)
      ensures timeUpdates == old(timeUpdates) && viewport == old(viewport)
    {
      var ro := renderOptions;
      pipelineOptions := pipelineOptions.(
        enableMsaa := ro.enableMsaa,
        enableHdr := ro.enableHdr,
        enableBloom := ro.enableBloom,
        enableTextures := ro.enableTextures,
        showSurfaces := ro.showSurfaces,
        showWireframes := ro.showWireframes,
        showDebug3d := ro.showDebug3d,
        showText := ro.showText,
        showSkybox := ro.showSkybox,
        showFeatureToggles := ro.showFeatureToggles,
        blurPassCount := ro.blurPassCount,
        tonemapperType := ro.tonemapperType,
        enableVisibilityUpdate := ro.enableVisibilityUpdate);
      meshOptions := meshOptions.(
        showSurfaces := ro.showSurfaces,
        showShadows := ro.showShadows,
        enableLighting := ro.enableLighting);
    }
  }

  class ApiaryApp {
    /** Whether the overlay (the `egui` feature) is built in. */
    const overlay: bool
    const resources: Resources
    var world: Scenes.World
    const sceneManager: Scenes.SceneManager
    /** The calls made into collaborators, oldest first. */
    ghost var effects: seq<Effect>

    constructor (
      overlay: bool,
      resources: Resources,
      world: Scenes.World,
      sceneManager: Scenes.SceneManager,
      ghost effects: seq<Effect>)
      ensures this.overlay == overlay && this.resources == resources
      ensures this.world == world && this.sceneManager == sceneManager
      ensures this.effects == effects
    {
      this.overlay := overlay;
      this.resources := resources;
      this.world := world;
      this.sceneManager := sceneManager;
      this.effects := effects;
    }

    /**
     * `ApiaryApp::init`. Creating the graphics API and initialising
     * rendering may fail, and their errors are returned. Otherwise the
     * asset source chosen from the arguments goes to rendering, the font is
     * requested, and the scene created on a fresh world becomes the current
     * scene of a default manager: there is no next scene.
     * `initialScene` and `sceneEntities` stand for the scene `create_scene`
     * returns and the entities it adds to the world.
     */
    static method Init(
      args: ApiaryArgs,
      target: Target,
      overlay: bool,
      window: PhysicalSize,
      apiError: Option<ApiaryError>,
      renderingInitError: Option<ApiaryError>,
      pipelineDefaults: AppOptions.BasicPipelineRenderOptions,
      meshDefaults: AppOptions.MeshBasicRenderOptions,
      initialScene: Scenes.SceneId,
      sceneEntities: set<Scenes.EntityId>)
      returns (r: Result<ApiaryApp, ApiaryError>)
      ensures apiError.Some? ==> r == Failure(apiError.value)
      ensures apiError.None? && renderingInitError.Some? ==> r == Failure(renderingInitError.value)
      ensures apiError.None? && renderingInitError.None? ==>
                && r.Success? && fresh(r.value)
                && fresh(r.value.resources) && fresh(r.value.world) && fresh(r.value.sceneManager)
                && r.value.overlay == overlay
                && r.value.sceneManager.current == Some(initialScene)
                && !r.value.sceneManager.HasNextScene()
                && r.value.sceneManager.trace == []
                && r.value.world.entities == sceneEntities
                && r.value.resources.timeUpdates == 0
                && r.value.resources.viewport == window
                && r.value.resources.renderOptions == AppOptions.Default2d()
                && r.value.effects == [InitRendering(AssetSourceOf(args, target).value, window), LoadFont]
    {
      if apiError.Some? {
        return Failure(apiError.value);
      }
      var resources := new Resources(window, pipelineDefaults, meshDefaults);
      var sceneManager := new Scenes.SceneManager();
      var source := AssetSourceOf(args, target).value;
      if renderingInitError.Some? {
        return Failure(renderingInitError.value);
      }
      ghost var log := [InitRendering(source, window), LoadFont];
      var world := new Scenes.World();
      world.entities := sceneEntities;
      sceneManager.SetScene(initialScene);
      var app := new ApiaryApp(overlay, resources, world, sceneManager, log);
      return Success(app);
    }

    /**
     * `ApiaryApp::update`, one frame. Time is updated and the viewport takes
     * the window's size; if a next scene is pending, the current scene is
     * cleaned up, the world is replaced by a fresh empty one and the
     * renderer drops its temporary work (the next scene stays pending).
     * The assets are ticked, the overlay frame begins (its error ends the
     * frame), the scene is updated, the options are synchronised and the
     * extract, built from the world as the scene update left it, is handed
     * to the renderer. A completed frame returns `Poll`.
     * `sceneAfter` is the world the current scene's update hook leaves.
     */
    method Update(window: PhysicalSize, sceneAfter: set<Scenes.EntityId>, backend: Backend)
      returns (r: Result<ControlFlow, ApiaryError>)
      requires backend.assetLoadersOk && backend.startRenderOk
      modifies this, resources, sceneManager, world
      ensures resources.timeUpdates == old(resources.timeUpdates) + 1
      ensures resources.viewport == window
      ensures resources.renderOptions == old(resources.renderOptions)
      ensures sceneManager.next == old(sceneManager.next)
      ensures old(sceneManager.HasNextScene()) ==> fresh(world) && old(world).entities == {}
      ensures !old(sceneManager.HasNextScene()) ==> world == old(world)
      ensures r.Failure? <==> overlay && backend.beginFrame.Some?
      ensures r.Failure? ==>
                && r.error == backend.beginFrame.value
                && sceneManager.State(world.entities) == SceneTransition(old(sceneManager.State(world.entities)))
                && resources.pipelineOptions == old(resources.pipelineOptions)
                && resources.meshOptions == old(resources.meshOptions)
                && effects == old(effects) + FramePrefix(old(sceneManager.HasNextScene()), window) + [BeginOverlayFrame]
      ensures r.Success? ==>
                && r.value == Poll
                && sceneManager.State(world.entities) == FrameScene(old(sceneManager.State(world.entities)), sceneAfter)
                && AppOptions.PipelineMatches(resources.renderOptions, resources.pipelineOptions)
                && AppOptions.MeshMatches(resources.renderOptions, resources.meshOptions)
                && effects == old(effects) + FrameSteps(overlay, old(sceneManager.HasNextScene()), window,
                                                        ExtractSet(ExtractKinds(overlay), world.entities))
    {
      ghost var transition := sceneManager.HasNextScene();
      ghost var effects0 := effects;
      PrepareFrame(window);

      if overlay {
        effects := effects + [BeginOverlayFrame];
        if backend.beginFrame.Some? {
          return Failure(backend.beginFrame.value);
        }
      }
      ghost var started := effects;
      assert started == effects0 + FramePrefix(transition, window) + OverlayOnly(overlay, BeginOverlayFrame);

      RunScenesAndRender(sceneAfter);
      return Success(Poll);
    }

    /**
     * The part of `update` before the overlay's frame start: the time
     * update and the FPS check, the viewport write, the transition branch
     * and the two asset ticks.
     */
    method PrepareFrame(window: PhysicalSize)
      modifies this, resources, sceneManager, world
      ensures resources.timeUpdates == old(resources.timeUpdates) + 1
      ensures resources.viewport == window
      ensures resources.renderOptions == old(resources.renderOptions)
      ensures resources.pipelineOptions == old(resources.pipelineOptions)
      ensures resources.meshOptions == old(resources.meshOptions)
      ensures sceneManager.State(world.entities) == SceneTransition(old(sceneManager.State(world.entities)))
      ensures old(sceneManager.HasNextScene()) ==> fresh(world) && old(world).entities == {}
      ensures !old(sceneManager.HasNextScene()) ==> world == old(world)
      ensures effects == old(effects) + FramePrefix(old(sceneManager.HasNextScene()), window)
    {
      resources.timeUpdates := resources.timeUpdates + 1;
      effects := effects + [UpdateTime, CheckFpsEvent];

      resources.viewport := window;
      effects := effects + [WriteViewport(window)];

      TransitionIfPending();

      effects := effects + [UpdateAssets, UpdateAssetLoaders];
    }

    /**
     * The part of `update` after the overlay's frame start: the help text,
     * the scene update, the option sync, the overlay's frame end and the
     * hand-over to the renderer of the extract built from the updated world.
     */
    method RunScenesAndRender(sceneAfter: set<Scenes.EntityId>)
      modifies this, resources, sceneManager, world
      ensures world == old(world)
      ensures sceneManager.State(world.entities)
              == Scenes.Step(old(sceneManager.State(world.entities)), Scenes.UpdateScene(sceneAfter))
      ensures AppOptions.PipelineMatches(resources.renderOptions, resources.pipelineOptions)
      ensures AppOptions.MeshMatches(resources.renderOptions, resources.meshOptions)
      ensures resources.renderOptions == old(resources.renderOptions)
      ensures resources.timeUpdates == old(resources.timeUpdates) && resources.viewport == old(resources.viewport)
      ensures effects == old(effects) + FrameSuffix(overlay, ExtractSet(ExtractKinds(overlay), world.entities))
    {
      effects := effects + [AddHelpText];
      sceneManager.UpdateScene(world, sceneAfter);
      effects := effects + [SceneUpdate];

      resources.SyncOptions();
      effects := effects + [SyncOptions];

      if overlay {
        effects := effects + [EndOverlayFrame];
      }

      var extract := ExtractSet(ExtractKinds(overlay), world.entities);
      effects := effects + [StartRender(extract)];
    }

    /**
     * The transition branch of `update`: when a next scene is pending, the
     * current scene is cleaned up (which clears the old world in place), the
     * world is replaced by a fresh empty one and the renderer drops its
     * temporary work. The next scene is not consumed.
     */
    method TransitionIfPending()
      modifies this, sceneManager, world
      ensures sceneManager.State(world.entities) == SceneTransition(old(sceneManager.State(world.entities)))
      ensures old(sceneManager.HasNextScene()) ==> fresh(world) && old(world).entities == {}
      ensures !old(sceneManager.HasNextScene()) ==> world == old(world)
      ensures effects == old(effects) + TransitionSteps(old(sceneManager.HasNextScene()))
    {
      if sceneManager.HasNextScene() {
        sceneManager.TryCleanupCurrentScene(world);
        world := new Scenes.World();
        effects := effects + [SceneCleanup, ResetWorld, ClearTemporaryWork];
      }
    }

    /**
     * `do_process_input`. The overlay sees the event first and may claim
     * it (`overlayIgnores`; without the overlay nothing is claimed). An
     * unclaimed close request or pressed Escape stops the application; a
     * pressed M prints the asset metrics and goes no further; any other
     * unclaimed event goes to the scene manager and then to the input
     * tracker. `sceneAfter` is the world the scene's input hook leaves.
     */
    method DoProcessInput(event: Event, overlayIgnores: bool, sceneAfter: set<Scenes.EntityId>)
      returns (keepRunning: bool)
      modifies this, sceneManager, world
      ensures keepRunning == Route(event, overlay && overlayIgnores).keepRunning
      ensures effects == old(effects) + InputEffects(overlay, event, overlay && overlayIgnores)
      ensures world == old(world) && sceneManager.next == old(sceneManager.next)
      ensures Route(event, overlay && overlayIgnores).forward ==>
                sceneManager.State(world.entities)
                == Scenes.Step(old(sceneManager.State(world.entities)), Scenes.ProcessInput(event, sceneAfter))
      ensures !Route(event, overlay && overlayIgnores).forward ==>
                sceneManager.State(world.entities) == old(sceneManager.State(world.entities))
    {
      var ignoreEvent := false;
      if overlay {
        effects := effects + [OverlayHandleEvent(event)];
        ignoreEvent := overlayIgnores;
      }

      if !ignoreEvent {
        var wasHandled := false;
        match event {
          case CloseRequested =>
            return false;
          case KeyboardInput(Pressed, Some(key)) =>
            if key == Escape {
              return false;
            }
            if key == M {
              effects := effects + [PrintAssetMetrics];
              wasHandled := true;
            }
          case _ =>
        }

        if !wasHandled {
          sceneManager.ProcessInput(world, event, sceneAfter);
          effects := effects + [SceneInput(event), TrackInput(event)];
        }
      }
      return true;
    }
  }
}
