/** The micro-application ("phase") contract of Engine/apps.py and its three concrete phases
    (Engine/apps.py and src/game.py), as a state machine over values.  Python dispatches the
    hooks `run_once`, `step`, `draw`, `atexit` and `on_iteration` on the subclass; here the
    subclass is the `kind` of the phase and every hook is a function that dispatches on it. */
module Phases {
  import opened Host
  import opened GameEvents

  /** Which `MicroApp` subclass a phase is.  `Base` covers `MicroApp` itself and `Init`, which
      overrides only its constructor; `Loading` covers both `LoadingScreen` classes, whose hooks
      agree (they differ in their constructors and in rendering). */
  datatype Kind = Base | Loading | MainGame

  /** The attributes of a phase.  `end_time` is the separate attribute that the
      `LoadingScreen` of src/game.py writes; `position`, `speed` and `playing` (background music)
      belong to loading screens, `view` and `fps` to the Game phase; `trace` records the calls
      the phase makes, in order. */
  datatype Phase = Phase(
    kind: Kind,
    lifetime: Duration,
    tasks: seq<Task>,
    alive: bool,
    starttime: Option<real>,
    endtime: Option<Instant>,
    end_time: Option<real>,
    position: real,
    speed: real,
    playing: bool,
    view: View,
    fps: nat,
    trace: seq<Call>)

  /** Speed of the loading-screen stripes, in units per second. */
  const StripeSpeed: real := 70.0
  /** Default lifetime of both loading screens, in seconds. */
  const LoadingLifetime: real := 6.0
  /** `sys.hexversion` of CPython 3.9.0 final. */
  const MinimumHexVersion: int := 0x030900F0

  // ---------------------------------------------------------------- constructors

  /** `MicroApp.__init__`: alive, no deadline yet, no tasks. */
  function NewMicroApp(lifetime: Duration): (p: Phase)
    ensures p.kind == Base && p.lifetime == lifetime && p.alive
    ensures p.starttime == None && p.endtime == None && p.tasks == [] && p.trace == []
  {
    Phase(Base, lifetime, [], true, None, None, None, 0.0, 0.0, false,
          View(Camera(Vec(0.0, 0.0), 0.0), false), 0, [])
  }

  /** `Init.start_tests`: raises SystemError below Python 3.9.0 final. */
  function StartTests(hexversion: int): (r: Option<Exception>)
    ensures r.Some? ==> r.value == SystemError
  {
    if hexversion < MinimumHexVersion then Some(SystemError) else None
  }

  /** `Init(screen, clock)`: a zero-lifetime base phase, built only if the version check passes. */
  function NewInit(hexversion: int): (r: Result<Phase>)
    ensures r.Err? <==> StartTests(hexversion).Some?
    ensures r.Ok? ==> r.value == NewMicroApp(Seconds(0.0))
  {
    match StartTests(hexversion)
    case Some(e) => Err(e)
    case None => Ok(NewMicroApp(Seconds(0.0)))
  }

  /** `LoadingScreen.__init__` of Engine/apps.py: the base is built with the default lifetime 0,
      then `endtime` is fixed at construction time plus `lifetime`. */
  function EngineLoadingScreen(now: real, lifetime: real := LoadingLifetime): (p: Phase)
    ensures p.kind == Loading && p.alive && p.endtime == Some(At(now + lifetime))
    ensures p.position == 0.0 && p.speed == StripeSpeed && !p.playing
  {
    NewMicroApp(Seconds(0.0)).(kind := Loading, endtime := Some(At(now + lifetime)),
                               position := 0.0, speed := StripeSpeed)
  }

  /** `LoadingScreen.__init__` of src/game.py as written: the deadline goes to `end_time`,
      and the base `endtime` stays None. */
  function GameLoadingScreen(now: real, lifetime: real := LoadingLifetime): (p: Phase)
    ensures p.kind == Loading && p.alive && p.endtime == None && p.end_time == Some(now + lifetime)
    ensures p.position == 0.0 && p.speed == StripeSpeed && !p.playing
  {
    NewMicroApp(Seconds(0.0)).(kind := Loading, end_time := Some(now + lifetime),
                               position := 0.0, speed := StripeSpeed)
  }

  /** `Game.__init__`: infinite lifetime, frame cap 0, camera at distance 16 (its position is
      whatever the camera starts with), `DEVMODE` from the settings. */
  function NewGame(position: Vec, devMode: bool): (p: Phase)
    ensures p.kind == MainGame && p.alive && p.lifetime == Unbounded && p.fps == 0
    ensures p.view == View(Camera(position, InitialDistance), devMode)
  {
    NewMicroApp(Unbounded).(kind := MainGame, view := View(Camera(position, InitialDistance), devMode))
  }

  // ---------------------------------------------------------------- hooks

  /** `run_once`: the base records the start time and fixes `endtime = starttime + lifetime`;
      the loading screens override it to start their music only. */
  function AfterRunOnce(p: Phase, now: real): (r: Phase)
    ensures r == p.(starttime := r.starttime, endtime := r.endtime, playing := r.playing, trace := r.trace)
    ensures |r.trace| > |p.trace| && r.trace[..|p.trace|] == p.trace && r.trace[|p.trace|] == RunOnceHook
    ensures p.kind == Loading ==> r.playing && r.starttime == p.starttime && r.endtime == p.endtime
    ensures p.kind != Loading ==> r.playing == p.playing && r.starttime == Some(now)
    ensures p.kind != Loading ==> r.endtime == Some(Plus(now, p.lifetime))
  {
    var p := p.(trace := p.trace + [RunOnceHook]);
    if p.kind == Loading then p.(playing := true, trace := p.trace + [MusicPlay])
    else p.(starttime := Some(now), endtime := Some(Plus(now, p.lifetime)))
  }

  /** The calls a `step(dt)` makes: Game's runs the keyboard handler, then the scene's step. */
  function StepCalls(kind: Kind, dt: real): seq<Call> {
    [StepHook(dt)] + if kind == MainGame then [KeyboardHandler, SceneStep(dt)] else []
  }

  /** `step(dt)`: a no-op in the base; the loading screens advance their stripes by speed * dt. */
  function AfterStep(p: Phase, dt: real): (r: Phase)
    ensures r == p.(position := r.position, trace := r.trace)
    ensures r.trace == p.trace + StepCalls(p.kind, dt)
    ensures p.kind == Loading ==> r.position - p.position == p.speed * dt
    ensures p.kind != Loading ==> r.position == p.position
  {
    var p := p.(trace := p.trace + StepCalls(p.kind, dt));
    if p.kind == Loading then p.(position := p.position + p.speed * dt) else p
  }

  /** `draw()`: rendering only; recorded in the trace. */
  function AfterDraw(p: Phase): (r: Phase)
    ensures r == p.(trace := r.trace) && r.trace == p.trace + [DrawHook]
  {
    p.(trace := p.trace + [DrawHook])
  }

  /** `atexit()`: a no-op in the base; the loading screens stop their music. */
  function AfterAtExit(p: Phase): (r: Phase)
    ensures r == p.(playing := r.playing, trace := r.trace)
    ensures |r.trace| > |p.trace| && r.trace[..|p.trace|] == p.trace && r.trace[|p.trace|] == AtExitHook
    ensures r.playing <==> p.playing && p.kind != Loading
  {
    var p := p.(trace := p.trace + [AtExitHook]);
    if p.kind == Loading then p.(playing := false, trace := p.trace + [MusicStop]) else p
  }

  /** No task of the list raises. */
  predicate Harmless(tasks: seq<Task>) {
    forall k :: 0 <= k < |tasks| ==> tasks[k].raises.None?
  }

  /** `run_tasks`: call the tasks in list order; the first one that raises ends the loop and
      its exception propagates. */
  function AfterTasks(trace: seq<Call>, tasks: seq<Task>): (r: (seq<Call>, Option<Exception>))
    ensures trace <= r.0 && |r.0| <= |trace| + |tasks|
    ensures r.1.None? <==> Harmless(tasks)
    ensures r.1.None? ==> |r.0| == |trace| + |tasks|
    ensures r.1.Some? ==> exists k :: 0 <= k < |tasks| && tasks[k].raises == r.1
    decreases |tasks|
  {
    if tasks == [] then (trace, None)
    else
      var t := trace + [TaskCall(tasks[0].id)];
      if tasks[0].raises.Some? then (t, tasks[0].raises) else AfterTasks(t, tasks[1..])
  }

  /** The part of an iteration after the events are drained: tasks, `step(ms / 1000)`,
      `draw()`, `clock.tick(framerate)` and the caption. */
  function FrameTail(p: Phase, ms: nat, framerate: nat): (r: (Phase, Outcome))
    ensures r.0 == p.(position := r.0.position, trace := r.0.trace) && p.trace <= r.0.trace
    ensures r.1 == Continue <==> Harmless(p.tasks)
    ensures r.1 != Exit
  {
    var (t, err) := AfterTasks(p.trace, p.tasks);
    var p := p.(trace := t);
    if err.Some? then (p, Fault(err.value))
    else
      var p := AfterDraw(AfterStep(p, ms as real / 1000.0));
      (p.(trace := p.trace + [ClockTick(framerate), CaptionUpdate]), Continue)
  }

  /** `on_iteration()`.  The base checks the deadline first (strictly), then drains the events,
      exiting on QUIT and ignoring the rest; Game's override has no deadline check and maps the
      events onto its view before the same tail. */
  function Iteration(p: Phase, f: Frame): (r: (Phase, Outcome))
    ensures r.0.kind == p.kind && r.0.lifetime == p.lifetime && r.0.tasks == p.tasks
    ensures r.0.starttime == p.starttime && r.0.endtime == p.endtime && r.0.playing == p.playing
    ensures r.0.alive ==> p.alive
    ensures r.1 == Exit ==> Quit in f.events
    ensures p.kind == MainGame ==> r.0.alive == p.alive
  {
    if p.kind == MainGame then
      var q := p.(trace := p.trace + [EventPoll]);
      var (v, quit) := Drain(q.view, f.events);
      var q := q.(view := v);
      if quit then (q, Exit) else FrameTail(q, f.elapsedMs, q.fps)
    else
      match Passed(f.now, p.endtime)
      case Err(e) => (p, Fault(e))
      case Ok(expired) =>
        if expired then (p.(alive := false), Continue)
        else
          var q := p.(trace := p.trace + [EventPoll]);
          if Quit in f.events then (q, Exit) else FrameTail(q, f.elapsedMs, 0)
  }

  /** `while self.alive: self.on_iteration()` followed by `atexit()`, over finitely many frames:
      `Pending` means the frames ran out while the phase was still alive. */
  function Loop<P>(p: Phase, frames: seq<Frame>): (r: (Phase, Ran<P>))
    ensures r.1.Returned? ==> r.1.next.None?
    decreases |frames|
  {
    if !p.alive then (AfterAtExit(p), Returned(None))
    else if frames == [] then (p, Pending)
    else
      match Iteration(p, frames[0])
      case (q, Continue) => Loop(q, frames[1..])
      case (q, Exit) => (q, Exited)
      case (q, Fault(e)) => (q, Raised(e))
  }

  /** `run()`: `run_once()` (reading the clock once), then the loop; it returns None. */
  function Lifecycle<P>(p: Phase, start: real, frames: seq<Frame>): (r: (Phase, Ran<P>))
    ensures r.1.Returned? ==> r.1.next.None?
  {
    Loop(AfterRunOnce(p, start), frames)
  }
}
