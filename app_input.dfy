/**
 * The decision `do_process_input` (apiary/src/app.rs) takes for one input
 * event: whether the application keeps running, whether the asset metrics
 * are printed, and whether the event goes on to the scene and the input
 * tracker. The method `App.ApiaryApp.DoProcessInput` carries it out.
 */
module AppInput {
  import opened Wrappers
  import opened Winit

  datatype Routing = Routing(keepRunning: bool, printMetrics: bool, forward: bool)

  /**
   * The routing of `e`, when `ignored` says whether the overlay claimed it.
   * Only a close request or a pressed Escape stop the application; a pressed
   * M is handled here; everything else the overlay lets through is forwarded.
   */
  function Route(e: Event, ignored: bool): (r: Routing)
    ensures !r.keepRunning <==> !ignored && (e.CloseRequested? || KeyPressed(e, Escape))
    ensures r.printMetrics <==> !ignored && KeyPressed(e, M)
    ensures r.forward <==> !ignored && !e.CloseRequested? && !KeyPressed(e, Escape) && !KeyPressed(e, M)
    ensures r.forward ==> r.keepRunning && !r.printMetrics
  {
    if ignored then Routing(true, false, false)
    else
      match e
      case CloseRequested => Routing(false, false, false)
      case KeyboardInput(Pressed, Some(key)) =>
        if key == Escape then Routing(false, false, false)
        else if key == M then Routing(true, true, false)
        else Routing(true, false, true)
      case _ => Routing(true, false, true)
  }

  /** Releasing Escape is not a request to stop: the release is forwarded. */
  lemma ReleasedEscapeIsForwarded(ignored: bool)
    requires !ignored
    ensures Route(KeyboardInput(Released, Some(Escape)), ignored) == Routing(true, false, true)
  {
  }
}
