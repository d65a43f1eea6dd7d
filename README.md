# apiary-rs: scene lifecycle and application frame, in Dafny

This project models the decision logic of the `apiary` crate: the scene
manager (`apiary/src/scenes/mod.rs`) and the application object
(`apiary/src/app.rs`), with its start-up, one frame of `update` and the
routing of one input event. The renderer, the asset services, windowing
and the overlay come from libraries outside the crate. Rendering start-up
and teardown (`rendering_init`, `rendering_destroy`) and the input tracker
(`InputResource`, `handle_winit_event`) belong to the crate's own
`rendering` and `input` modules, which are not part of this model. All of
these are collaborators here: a call into one is appended to a ghost log of
effects, and what it returns is a parameter.

Modules, one file each:

- `Wrappers` (`wrappers.dfy`): `Option` and `Result`.
- `Winit` (`winit.dfy`): the window events, key codes, sizes and
  `ControlFlow` values that the application inspects.
- `Scenes` (`scenes.dfy`): the `SceneManager` class and the legion `World`
  (a set of entity ids). Each hook call goes into a ghost trace, together
  with the entities the hook was given. The same operations also form a
  pure state machine, `Step`/`Run` over `ManagerState`. Each method is
  proved to take exactly the step that `Step` describes, and the lemmas
  about runs are stated over `Run`.
- `AppArgs` (`app_args.dfy`): the command-line arguments, the choice of
  asset source, and the conversion to the asset daemon's options.
- `AppOptions` (`app_options.dfy`): `RenderOptions`, its 2D and 3D presets,
  and the correspondence with the pipeline and mesh options.
- `AppInput` (`app_input.dfy`): the routing decision of `do_process_input`
  as a pure function.
- `AppFrame` (`app_frame.dfy`): the effect log of a frame and of an input
  event, the list of resources handed to the renderer, and lemmas about
  the order of the effects.
- `App` (`app.dfy`): the `Resources` record and the `ApiaryApp` class.
  `Init`, `Update` and `DoProcessInput` are proved to append exactly the
  effects `AppFrame` describes and to move the scene manager as `Scenes`
  describes.

Two build options become inputs. The `egui` feature is the `overlay`
constant of an `ApiaryApp`. The `wasm32` target is the `Target` parameter of
`AssetSourceOf`.

Behaviour of the code that the model keeps as written:

- `try_cleanup_current_scene` clears the world and empties the current slot
  even when there is no current scene.
- The frame's transition branch never consumes the next scene. The consuming
  `go_next_scene` exists only as a comment.
- Nothing writes the next-scene slot, so the branch is unreachable from
  `init`. This is proved as `Scenes.NoNextSceneIsReachable`.
- The methods still handle a pending next scene, so that the branch itself
  is specified.

## Model

| member | source | states |
|---|---|---|
| Scenes.World.constructor | apiary/src/app.rs:291 | `World::default()` has no entities |
| Scenes.World.Clear | apiary/src/scenes/mod.rs:62 | `world.clear()` leaves the world with no entities |
| Scenes.Default | apiary/src/scenes/mod.rs:74-81 | the default manager, in the pure model, has no current scene and no next scene, an empty trace, and the given world |
| Scenes.Step | apiary/src/scenes/mod.rs:28-64 | one operation of the pure model: the next slot never changes; at most one hook call, always to the scene that was current and none on an empty slot; the trace is only appended to; `set_scene` installs its scene, cleanup empties the current slot and the world, update and input keep the current slot |
| Scenes.SceneManager.HasNextScene | apiary/src/scenes/mod.rs:53-55 | `has_next_scene` agrees with the pure model's `NextPending` for every world |
| Scenes.SceneManager.constructor | apiary/src/scenes/mod.rs:74-81 | both slots are empty, so `has_next_scene()` is false; the trace is empty; the state equals the pure `Default` |
| Scenes.SceneManager.SetScene | apiary/src/scenes/mod.rs:28-30 | the given scene becomes current; the next slot is untouched; no hook runs, so the replaced scene gets no cleanup; the state moves by `Step(SetScene)` |
| Scenes.SceneManager.UpdateScene | apiary/src/scenes/mod.rs:32-40 | with no current scene, nothing changes; otherwise the current scene's update hook runs exactly once, on the world as it was; the world becomes the hook's result; neither slot changes |
| Scenes.SceneManager.ProcessInput | apiary/src/scenes/mod.rs:42-51 | the event reaches the current scene's input hook exactly once if there is a current scene; otherwise nothing changes; the slots are kept |
| Scenes.SceneManager.TryCleanupCurrentScene | apiary/src/scenes/mod.rs:57-64 | the current scene's cleanup hook (if any) is called once and sees the world before it is cleared; afterwards the world is empty, the current slot is None and the next slot is unchanged |
| Scenes.RunKeepsNextScene | apiary/src/scenes/mod.rs:27-72 | no sequence of operations changes the next-scene slot |
| Scenes.NoNextSceneIsReachable | apiary/src/scenes/mod.rs:53-81 | `has_next_scene()` is false in every state reachable from `Default` |
| Scenes.CleanupIsIdempotent | apiary/src/scenes/mod.rs:57-64 | a second cleanup makes no hook call and leaves the state as the first left it |
| Scenes.NoHooksWithoutScene | apiary/src/scenes/mod.rs:32-64 | from an empty current slot, runs without `set_scene` call no hook and leave the slot empty |
| Scenes.HooksGoToInstalledScenes | apiary/src/scenes/mod.rs:28-64 | a run only appends to the trace, and every hook it calls belongs to the scene current at the start or to one installed by `set_scene` during the run |
| AppArgs.IntoDaemonOpt | apiary/src/app.rs:88-96 | the daemon options carry the database directory, address and asset directories unchanged |
| AppArgs.IntoDaemonOptIsInjective | apiary/src/app.rs:88-96 | the conversion loses nothing: equal options come from equal arguments |
| AppArgs.AssetSourceOf | apiary/src/app.rs:60-72 | never None; on a native target with a packfile, `Packfile` with that same path; otherwise `Daemon` with the `external_daemon` flag and the converted daemon arguments |
| AppArgs.AssetSourceIgnoresPackbuffer | apiary/src/app.rs:44-72 | the `packbuffer` field never influences the chosen source |
| AppOptions.Default2d | apiary/src/app.rs:123-141 | msaa, hdr, bloom and feature toggles off; 0 blur passes; no tonemapper |
| AppOptions.Default3d | apiary/src/app.rs:143-161 | msaa, bloom and feature toggles on, hdr off; 5 blur passes; the `AutoExposureOld` tonemapper |
| AppOptions.PresetsDifferOnlyInPostProcessing | apiary/src/app.rs:123-161 | the 3D preset is the 2D preset with msaa, bloom, feature toggles, blur pass count and tonemapper changed, and every other field the same |
| AppOptions.PipelineMatchIsUnique | apiary/src/app.rs:503-519 | after the sync the pipeline options are determined by the render options alone: two that both match are equal |
| AppOptions.MeshMatchIsUnique | apiary/src/app.rs:521-525 | after the sync the mesh options are determined by the render options alone: two that both match are equal |
| AppInput.Route | apiary/src/app.rs:704-765 | the application stops exactly for an unclaimed close request or pressed Escape; the metrics are printed exactly for an unclaimed pressed M; the event is forwarded exactly when it is unclaimed and is none of those three; a forwarded event never stops the application |
| AppInput.ReleasedEscapeIsForwarded | apiary/src/app.rs:728-744 | a released Escape does not match the key arm: it keeps the application running and is forwarded |
| AppFrame.ExtractKinds | apiary/src/app.rs:570-606 | of the resource types that apiary/src/app.rs names, the renderer receives exactly those other than the renderer, the asset resource, the input state, the debug UI state (`DebugUiState`) and the overlay's context (`EguiContextResource`), with the overlay's manager only when the overlay is built in; no resource appears twice; 17 or 18 entries |
| AppFrame.HeadOrder | apiary/src/app.rs:256-281 | time is updated before the FPS check |
| AppFrame.TransitionOrder | apiary/src/app.rs:284-297 | the transition runs the cleanup, then the world reset, then the renderer's clear |
| AppFrame.TimeIsUpdatedFirst | apiary/src/app.rs:256-347 | a frame starts with the time update; the FPS check follows it and precedes the scene update |
| AppFrame.TransitionStepsInOrder | apiary/src/app.rs:283-302 | with a pending scene the frame runs the cleanup before the world reset and the reset before the renderer's clear |
| AppFrame.TransitionPrecedesSceneUpdate | apiary/src/app.rs:283-347 | the renderer's clear comes before the asset ticks and before the scene update |
| AppFrame.AssetsPrecedeSceneUpdate | apiary/src/app.rs:307-347 | both asset ticks come before the scene update |
| AppFrame.NoTransitionWithoutPendingScene | apiary/src/app.rs:284 | without a pending scene no cleanup, reset or clear happens |
| AppFrame.ExtractFollowsSceneUpdate | apiary/src/app.rs:344-611 | the scene update precedes the option sync, which precedes the hand-over of the extract; the hand-over is the frame's last effect |
| AppFrame.ForwardedInputReachesSceneThenTracker | apiary/src/app.rs:755-762 | a forwarded event goes to the scene manager first and to the input tracker second |
| AppFrame.UnforwardedInputReachesNothing | apiary/src/app.rs:713-762 | an event that is claimed by the overlay, stops the application or is a pressed M reaches neither the scene nor the tracker |
| AppFrame.SceneTransition | apiary/src/app.rs:283-302 | the scene manager's part of the transition branch: with a pending scene, the current scene is cleaned up on the old world, which is emptied, and the slot is emptied; without one, nothing changes; the next scene is kept either way |
| AppFrame.FrameScene | apiary/src/app.rs:283-347 | the scene manager's part of a frame: the next scene is kept; with a pending scene no scene is current afterwards, otherwise the current scene stays; at most one hook call is appended to the trace |
| AppFrame.PendingSceneLeavesNothingToUpdate | apiary/src/app.rs:283-347 | with a pending scene, the frame's scene update finds no current scene: the cleanup was the only hook, the world is empty and the next scene is still pending |
| AppFrame.FrameWithoutPendingSceneIsUpdate | apiary/src/app.rs:283-347 | without a pending scene, the frame's scene part is exactly one `update_scene` |
| App.Resources.constructor | apiary/src/app.rs:628-648 | fresh time state, the 2D render options, library defaults for the pipeline and mesh options, the window's size as viewport |
| App.Resources.SyncOptions | apiary/src/app.rs:500-526 | the 13 pipeline fields and the 3 mesh fields equal the render options afterwards; the render options, time and viewport are unchanged |
| App.ApiaryApp.constructor | apiary/src/app.rs:661-668 | the application holds the given resources, world and scene manager |
| App.ApiaryApp.Init | apiary/src/app.rs:623-669 | API and rendering-initialisation errors are returned; otherwise the 2D options are installed, the chosen asset source goes to rendering, the font is requested, and a default manager holds the created scene with no next scene and no hook calls |
| App.ApiaryApp.Update | apiary/src/app.rs:243-621 | one frame: time counted once, viewport set to the window; the transition branch only with a pending scene, which replaces the world by a fresh one after the old one was cleared; `Err` exactly when the overlay's frame start fails, after the prefix only; otherwise `Poll`, the scene update, options in sync, and exactly the effects of `FrameSteps` with the extract built from the updated world; the next scene is never consumed |
| App.ApiaryApp.PrepareFrame | apiary/src/app.rs:256-321 | the time update, viewport write, transition branch and asset ticks, with exactly the effects of `FramePrefix`; options untouched |
| App.ApiaryApp.TransitionIfPending | apiary/src/app.rs:283-302 | with a pending scene: cleanup of the current scene, which empties the old world; a fresh world; the renderer's clear; the next scene kept. Otherwise nothing changes |
| App.ApiaryApp.RunScenesAndRender | apiary/src/app.rs:332-611 | one `update_scene` on the same world, options in sync, the overlay's frame end, and the extract handed over, built from the updated world; exactly the effects of `FrameSuffix` |
| App.ApiaryApp.DoProcessInput | apiary/src/app.rs:676-766 | returns the routing decision's verdict; appends exactly the routed effects; the scene manager moves by one `process_input` when the event is forwarded and not at all otherwise; the world object and the next scene are kept |

## Left out

- The overlay's UI (`RenderOptions::ui` and the debug windows at apiary/src/app.rs:166-228 and 349-498) is GUI code. The model does not capture that these windows can edit `RenderOptions` between the scene update and the option sync, or the renderer-configuration copy at 493-497.
- App.ApiaryApp.Update: the FPS printing depends on `PeriodicEvent` and on `TimeState`'s `current_instant` and `updates_per_second`. They come from a version of the crate's own `time` module that is not part of this model: apiary/src/time.rs in this version of the repository defines none of them. The frame therefore records only that the check is made. Time is a counter of `TimeState::update` calls. The millisecond timing logs use floating point and are not modelled.
- App.ApiaryApp.Update: the panics of the `unwrap` calls on the asset loaders' tick (apiary/src/app.rs:320) and on the render start (apiary/src/app.rs:610) are preconditions rather than modelled aborts.
- Calls into the renderer, the asset services, the overlay and the input tracker are effects in a ghost log. Their internals and what they do to their own state are not modelled.
- The scene hooks are opaque. Their effect on the world is a parameter (`after`), and their effect on `Resources` is not modelled.
- App.ApiaryApp.Update: the source lets the scene's update hook write `Resources`, since it receives them mutably (apiary/src/app.rs:345-346, apiary/src/scenes/mod.rs:16). The contracts do not allow for that. `Update` and `RunScenesAndRender` promise unchanged render options and a viewport equal to the window only because the modelled hooks cannot touch `Resources`. In the source, the hook may change both before the option sync, which copies whatever render options it finds.
- App.ApiaryApp.Init: `create_scene` receives the resources (apiary/src/app.rs:656) and could change them through legion's interior borrows. The promised `Default2d()` render options and the viewport hold only because the model's scene creation cannot touch `Resources`.
- `create_scene` and `UiScene` are not part of this model. The created scene is a parameter of `Init`.
- The light-drawing and light-spawning helpers (apiary/src/scenes/mod.rs:83-150) use floating-point vectors and world queries.
- `shutdown` (apiary/src/app.rs:671-674) is not modelled. It only destroys the graphics API, which belongs to a library.
- `Drop` (apiary/src/app.rs:769-773) is not modelled. It only calls `rendering_destroy` from the crate's `rendering` module, which is not part of this model.
- `parse_socket_addr` (apiary/src/app.rs:99-101) and the command-line defaults are not modelled. The function hands the string to the standard library's address parser, and the defaults are applied by the argument-parsing library. The model takes the parsed arguments as given.
- legion's run-time borrow checking of `Resources` is not modelled. Only the distinctness of the exclusively borrowed extract list is stated.
- The input-tracker state, the font handle and the text content are not modelled.
- App.Resources.constructor: `rendering_init` is assumed to set the viewport to the window's size. Its other effects on the resources are not modelled. The rafx defaults for the pipeline and mesh options are parameters.
- apiary/src/scene.rs, apiary/src/time.rs, apiary/src/error.rs, apiary/src/lib.rs and apiary-main/src/main.rs are not part of this model. They are an uncompiled duplicate, a clock reading, an error enum, a module list and the event loop.
