/** The phase objects and the scheduler of Engine/apps.py and src/game.py, as the source keeps
    them: objects whose methods update their attributes in place.  Each method is proved to
    move the object's abstract state (`State()`, a `Phases.Phase`) exactly as the function of
    module Phases that specifies it; what the contract promises is proved about those
    functions in PhaseLemmas, GameEvents and Scheduling. */
module Apps {
  import opened Host
  import opened GameEvents
  import opened Phases
  import opened Scheduling

  /** `for event in pygame.event.get(): if event.type == QUIT: ...` as the base `on_iteration`
      writes it: the other events are read and ignored. */
  method PollForQuit(events: seq<Event>) returns (quit: bool)
    ensures quit <==> Quit in events
  {
    var i := 0;
    while i < |events|
      invariant 0 <= i <= |events|
      invariant Quit !in events[..i]
    {
      if events[i] == Quit {
        return true;
      }
      i := i + 1;
    }
    assert events[..i] == events;
    return false;
  }

  /** A `MicroApp` object.  `kind` stands for its class (`MicroApp`/`Init`, either
      `LoadingScreen`, or `Game`); `camera` and `devMode` are the Game's `camera` attributes
      and `DEVMODE`; `trace` records the calls the object makes. */
  class MicroApp {
    const kind: Kind
    const lifetime: Duration
    var tasks: seq<Task>
    var alive: bool
    var starttime: Option<real>
    var endtime: Option<Instant>
    var end_time: Option<real>
    var position: real
    const speed: real
    var playing: bool
    var camera: Camera
    var devMode: bool
    const fps: nat
    var trace: seq<Call>

    /** The attributes as one value. */
    function State(): Phase
      reads this
    {
      Phase(kind, lifetime, tasks, alive, starttime, endtime, end_time, position, speed, playing,
            View(camera, devMode), fps, trace)
    }

    /** `MicroApp(screen, clock, lifetime)`, lifetime 0 by default. */
    constructor (lifetime: Duration := Seconds(0.0))
      ensures State() == NewMicroApp(lifetime)
    {
      kind := Base;
      this.lifetime := lifetime;
      tasks := [];
      alive := true;
      starttime := None;
      endtime := None;
      end_time := None;
      position := 0.0;
      speed := 0.0;
      playing := false;
      camera := Camera(Vec(0.0, 0.0), 0.0);
      devMode := false;
      fps := 0;
      trace := [];
    }

    /** `LoadingScreen(screen, clock, lifetime)` of Engine/apps.py, built at time `now`. */
    constructor EngineLoading(now: real, lifetime: real := LoadingLifetime)
      ensures State() == EngineLoadingScreen(now, lifetime)
    {
      kind := Loading;
      this.lifetime := Seconds(0.0);
      tasks := [];
      alive := true;
      starttime := None;
      endtime := Some(At(now + lifetime));
      end_time := None;
      position := 0.0;
      speed := StripeSpeed;
      playing := false;
      camera := Camera(Vec(0.0, 0.0), 0.0);
      devMode := false;
      fps := 0;
      trace := [];
    }

    /** `LoadingScreen(screen, clock, lifetime)` of src/game.py, built at time `now`. */
    constructor GameLoading(now: real, lifetime: real := LoadingLifetime)
      ensures State() == GameLoadingScreen(now, lifetime)
    {
      kind := Loading;
      this.lifetime := Seconds(0.0);
      tasks := [];
      alive := true;
      starttime := None;
      endtime := None;
      end_time := Some(now + lifetime);
      position := 0.0;
      speed := StripeSpeed;
      playing := false;
      camera := Camera(Vec(0.0, 0.0), 0.0);
      devMode := false;
      fps := 0;
      trace := [];
    }

    /** `Game(screen, clock)`: the camera starts at `position`, `DEVMODE` comes from the settings. */
    constructor Game(position: Vec, devMode: bool)
      ensures State() == NewGame(position, devMode)
    {
      kind := MainGame;
      lifetime := Unbounded;
      tasks := [];
      alive := true;
      starttime := None;
      endtime := None;
      end_time := None;
      this.position := 0.0;
      speed := 0.0;
      playing := false;
      camera := Camera(position, InitialDistance);
      this.devMode := devMode;
      fps := 0;
      trace := [];
    }

    /** `Init(screen, clock)`: the object, unless the version check raises. */
    static method Init(hexversion: int) returns (r: Result<MicroApp>)
      ensures r.Err? <==> hexversion < MinimumHexVersion
      ensures r.Err? ==> r.error == SystemError
      ensures r.Ok? ==> fresh(r.value) && r.value.State() == NewMicroApp(Seconds(0.0))
    {
      var app := new MicroApp(Seconds(0.0));
      var failure := StartTests(hexversion);
      if failure.Some? {
        return Err(failure.value);
      }
      return Ok(app);
    }

    /** `run_once()`, reading `perf_counter()` as `now`. */
    method RunOnce(now: real)
      modifies this
      ensures State() == AfterRunOnce(old(State()), now)
    {
      trace := trace + [RunOnceHook];
      if kind == Loading {
        playing := true;
        trace := trace + [MusicPlay];
      } else {
        starttime := Some(now);
        endtime := Some(Plus(now, lifetime));
      }
    }

    /** `step(dt)`. */
    method Step(dt: real)
      modifies this
      ensures State() == AfterStep(old(State()), dt)
    {
      trace := trace + [StepHook(dt)];
      if kind == MainGame {
        trace := trace + [KeyboardHandler];
        trace := trace + [SceneStep(dt)];
      } else if kind == Loading {
        position := position + speed * dt;
      }
    }

    /** `draw()`. */
    method Draw()
      modifies this
      ensures State() == AfterDraw(old(State()))
    {
      trace := trace + [DrawHook];
    }

    /** `atexit()`. */
    method AtExit()
      modifies this
      ensures State() == AfterAtExit(old(State()))
    {
      trace := trace + [AtExitHook];
      if kind == Loading {
        playing := false;
        trace := trace + [MusicStop];
      }
    }

    /** `run_tasks()`: the first task that raises ends the loop with its exception. */
    method RunTasks() returns (err: Option<Exception>)
      modifies this
      ensures (trace, err) == AfterTasks(old(trace), tasks)
      ensures State() == old(State()).(trace := trace)
    {
      var i := 0;
      while i < |tasks|
        invariant 0 <= i <= |tasks|
        invariant AfterTasks(old(trace), tasks) == AfterTasks(trace, tasks[i..])
        invariant State() == old(State()).(trace := trace)
      {
        trace := trace + [TaskCall(tasks[i].id)];
        if tasks[i].raises.Some? {
          return tasks[i].raises;
        }
        i := i + 1;
      }
      return None;
    }

    /** The event loop of `Game.on_iteration`: each event moves the camera or toggles
        `DEVMODE` through the handler's four checks; a QUIT stops the loop. */
    method DrainEvents(events: seq<Event>) returns (quit: bool)
      modifies this
      ensures (View(camera, devMode), quit) == Drain(old(View(camera, devMode)), events)
      ensures State() == old(State()).(view := View(camera, devMode))
    {
      var i := 0;
      while i < |events|
        invariant 0 <= i <= |events|
        invariant Drain(old(View(camera, devMode)), events) == Drain(View(camera, devMode), events[i..])
        invariant State() == old(State()).(view := View(camera, devMode))
      {
        var e := events[i];
        if e == Quit {
          return true;
        }
        if e.MouseMotion? && e.leftPressed {
          camera := camera.(position := Add(camera.position, e.shift));
        }
        if e.MouseWheel? {
          camera := camera.(distance := camera.distance - e.y as real);
        }
        if e.KeyDown? {
          if e.rHeld {
            camera := Camera(Vec(0.0, 0.0), ResetDistance);
          }
          if e.f3Held {
            devMode := !devMode;
          }
        }
        assert events[i..][1..] == events[i + 1..];
        i := i + 1;
      }
      return false;
    }

    /** Tasks, `step(ms / 1000)`, `draw()`, `clock.tick(framerate)` and the caption. */
    method FinishIteration(ms: nat, framerate: nat) returns (o: Outcome)
      modifies this
      ensures (State(), o) == FrameTail(old(State()), ms, framerate)
    {
      var err := RunTasks();
      if err.Some? {
        return Fault(err.value);
      }
      Step(ms as real / 1000.0);
      Draw();
      trace := trace + [ClockTick(framerate), CaptionUpdate];
      return Continue;
    }

    /** `on_iteration()`, with Game's override for the Game phase. */
    method OnIteration(f: Frame) returns (o: Outcome)
      modifies this
      ensures (State(), o) == Iteration(old(State()), f)
    {
      if kind == MainGame {
        trace := trace + [EventPoll];
        var quit := DrainEvents(f.events);
        if quit {
          return Exit;
        }
        o := FinishIteration(f.elapsedMs, fps);
      } else {
        var expired := Passed(f.now, endtime);
        if expired.Err? {
          return Fault(expired.error);
        }
        if expired.value {
          alive := false;
          return Continue;
        }
        trace := trace + [EventPoll];
        var quit := PollForQuit(f.events);
        if quit {
          return Exit;
        }
        o := FinishIteration(f.elapsedMs, 0);
      }
    }

    /** `run()`: `run_once()`, `on_iteration()` while alive, then `atexit()`.  The frames are the
        readings of the successive iterations; running out of them leaves the run `Pending`. */
    method Run(input: Input) returns (r: Ran<MicroApp>)
      modifies this
      ensures (State(), r) == Lifecycle<MicroApp>(old(State()), input.start, input.frames)
    {
      RunOnce(input.start);
      ghost var started := State();
      var frames := input.frames;
      var i := 0;
      while alive
        invariant 0 <= i <= |frames|
        invariant Loop<MicroApp>(started, frames) == Loop<MicroApp>(State(), frames[i..])
        decreases |frames| - i
      {
        if i == |frames| {
          return Pending;
        }
        var o := OnIteration(frames[i]);
        assert frames[i..][1..] == frames[i + 1..];
        match o
        case Exit => return Exited;
        case Fault(e) => return Raised(e);
        case Continue =>
        i := i + 1;
      }
      AtExit();
      return Returned(None);
    }
  }

  /** `App`: a deque of phases run front-first. */
  class App {
    var microapps: seq<MicroApp>

    /** `App(microapps)`: None stands for no phases. */
    constructor (microapps: Option<seq<MicroApp>>)
      ensures this.microapps == if microapps.Some? then microapps.value else []
    {
      this.microapps := if microapps.Some? then microapps.value else [];
    }

    /** `run()`.  `env` holds the inputs of the successive phase runs.  The phases run are
        `ran`, in order: run k went from state `before[k]` to `after[k]` and ended as
        `outcomes[k]`, and the stop reason and `ran` are those the scheduler specification
        gives for these outcomes.  The deque keeps the phases not run.  Each phase of the deque
        ends in the state the runs leave it in when replayed from the states on entry, and each
        run starts from the state the runs before it left.  The run is undecided only when the
        inputs ran out or the last run did. */
    method Run(env: seq<Input>) returns (stop: Stop, ghost ran: seq<MicroApp>, ghost outcomes: seq<Ran<MicroApp>>,
                                         ghost before: seq<Phase>, ghost after: seq<Phase>)
      modifies this, microapps
      ensures (stop, ran) == Schedule(old(microapps), None, outcomes)
      ensures RunsOf(outcomes, before, after, env) && NoSuccessors(outcomes)
      ensures ran + microapps == old(microapps) && |ran| == |outcomes|
      ensures stop.Unfinished? ==> |outcomes| == |env| || (outcomes != [] && outcomes[|outcomes| - 1].Pending?)
      ensures forall a :: a in old(microapps) ==> a.State() == Replayed(old(Snapshot(microapps)), ran, after)[a]
      ensures Befores(old(Snapshot(microapps)), ran, before, after)
    {
      ghost var queue := microapps;
      ghost var init := Snapshot(queue);
      ghost var st := init;
      var running := true;
      var nextapp: Option<MicroApp> := None;
      var i := 0;
      stop := Drained;
      ran, outcomes, before, after := [], [], [], [];
      while running
        invariant Looping(queue, init, env, running, stop, microapps, nextapp, i, st, ran, outcomes, before, after)
        decreases |env| - i, running
      {
        running, stop, nextapp, i, st, ran, outcomes, before, after := Step(nextapp, i, env, queue, init, st, ran, outcomes, before, after);
      }
      RunsOfNoSuccessors(outcomes, before, after, env);
      assert old(Snapshot(microapps)) == init;
      assert Mirrors(queue, Replayed(init, ran, after));
    }

    /** One pass of the body of the `while True` loop: stop when the deque is empty and no
        phase is pending (`popleft` raises IndexError) or when the inputs ran out; otherwise
        take one turn.  It keeps the loop invariant `Looping`. */
    method Step(nextapp: Option<MicroApp>, i: nat, env: seq<Input>, ghost queue: seq<MicroApp>, ghost init: map<MicroApp, Phase>,
                ghost st: map<MicroApp, Phase>, ghost ran: seq<MicroApp>,
                ghost outcomes: seq<Ran<MicroApp>>, ghost before: seq<Phase>, ghost after: seq<Phase>)
      returns (running: bool, stop: Stop, nextapp': Option<MicroApp>, i': nat, ghost st': map<MicroApp, Phase>, ghost ran': seq<MicroApp>,
               ghost outcomes': seq<Ran<MicroApp>>, ghost before': seq<Phase>, ghost after': seq<Phase>)
      modifies this, queue
      requires Looping(queue, init, env, true, Drained, microapps, nextapp, i, st, ran, outcomes, before, after)
      ensures Looping(queue, init, env, running, stop, microapps, nextapp', i', st', ran', outcomes', before', after')
      ensures i <= i' && (running ==> i' == i + 1)
    {
      RunsOfNoSuccessors(outcomes, before, after, env);
      AfterPlainRuns(queue, outcomes);
      StopAt(queue, outcomes);
      nextapp', i', st', ran', outcomes', before', after' := nextapp, i, st, ran, outcomes, before, after;
      if nextapp.None? && microapps == [] {
        // `popleft` on an empty deque raises IndexError
        running := false;
        stop := Drained;
      } else if i == |env| {
        // the inputs ran out before the next run
        running := false;
        stop := Unfinished;
      } else {
        PopLeft(ran, microapps, queue);
        running, stop, nextapp', st', ran', outcomes', before', after' := Turn(env[i], queue, init, st, env, ran, outcomes, before, after);
        i' := i + 1;
      }
    }

    /** One turn of the loop: `popleft` the next phase (no phase names a successor, so
        `nextapp` is None here), run it on `input`, and stop on an exception the way the
        `except` clauses do.  It extends the runs by one and keeps the deque a suffix of the
        queue; when it stops, the stop is the one the scheduler specification gives. */
    method Turn(input: Input, ghost queue: seq<MicroApp>, ghost init: map<MicroApp, Phase>,
                ghost st: map<MicroApp, Phase>, ghost env: seq<Input>, ghost ran: seq<MicroApp>,
                ghost outcomes: seq<Ran<MicroApp>>, ghost before: seq<Phase>, ghost after: seq<Phase>)
      returns (running: bool, stop: Stop, nextapp: Option<MicroApp>, ghost st': map<MicroApp, Phase>, ghost ran': seq<MicroApp>,
               ghost outcomes': seq<Ran<MicroApp>>, ghost before': seq<Phase>, ghost after': seq<Phase>)
      requires microapps != []
      modifies this, microapps[0]
      requires After(queue, outcomes) == Some(Config(microapps, None, ran))
      requires ran + microapps == queue && Tracking(queue, init, st, ran, before, after)
      requires RunsOf(outcomes, before, after, env) && |outcomes| < |env| && input == env[|outcomes|]
      ensures |outcomes'| == |ran'| == |outcomes| + 1
      ensures RunsOf(outcomes', before', after', env)
      ensures running ==> After(queue, outcomes') == Some(Config(microapps, nextapp, ran'))
      ensures !running ==> (stop, ran') == Schedule(queue, None, outcomes') && ran' + microapps == queue
      ensures !running && stop.Unfinished? ==> outcomes'[|outcomes|].Pending?
      ensures Tracking(queue, init, st', ran', before', after')
    {
      PopLeft(ran, microapps, queue);
      var app := microapps[0];
      microapps := microapps[1..];
      ghost var s, post;
      var result;
      result, st', s, post := RunTurn(app, input, queue, init, st, env, ran, outcomes, before, after);
      AfterRun(queue, outcomes, result);
      ran', outcomes', before', after' := ran + [app], outcomes + [result], before + [s], after + [post];
      running, stop, nextapp := true, Drained, None;
      if result.Returned? {
        nextapp := result.next;
      } else if result.Raised? {
        // an IndexError ends the loop; `raise e` re-raises every other exception
        running := false;
        stop := if result.error == IndexError then Drained else Escaped(result.error);
      } else if result.Exited? {
        // SystemExit is not an `Exception`: it passes through untouched
        running := false;
        stop := SysExit;
      } else {
        running := false;
        stop := Unfinished;
      }
    }
  }

  /** The invariant of `App.run`'s loop, over the deque `queue` it started with and the
      phase states `init` on entry: `i` runs so far, each run as `Lifecycle` says; while
      running, the scheduler is between runs with the deque `microapps`; the snapshot `st`
      follows the phase states; once stopped, `Stopped` holds. */
  ghost predicate Looping(queue: seq<MicroApp>, init: map<MicroApp, Phase>, env: seq<Input>, running: bool, stop: Stop,
                          microapps: seq<MicroApp>, nextapp: Option<MicroApp>, i: nat, st: map<MicroApp, Phase>,
                          ran: seq<MicroApp>, outcomes: seq<Ran<MicroApp>>, before: seq<Phase>, after: seq<Phase>)
    reads set a | a in queue
  {
    && i == |outcomes| <= |env| && RunsOf(outcomes, before, after, env)
    && (running ==> After(queue, outcomes) == Some(Config(microapps, nextapp, ran)))
    && Tracking(queue, init, st, ran, before, after)
    && (!running ==> Stopped(queue, env, stop, ran, outcomes, microapps))
  }

  /** How the loop of `App.run` ends: stop reason and phases run as the scheduler
      specification gives them, the deque holding the phases not run, and an undecided stop
      only when the inputs ran out or the last run did. */
  ghost predicate Stopped(queue: seq<MicroApp>, env: seq<Input>, stop: Stop, ran: seq<MicroApp>, outcomes: seq<Ran<MicroApp>>,
                          microapps: seq<MicroApp>)
  {
    && (stop, ran) == Schedule(queue, None, outcomes)
    && ran + microapps == queue && |ran| == |outcomes|
    && (stop.Unfinished? ==> |outcomes| == |env| || (outcomes != [] && outcomes[|outcomes| - 1].Pending?))
  }

  /** `st` holds the current state of every phase of `queue`. */
  ghost predicate Mirrors(queue: seq<MicroApp>, st: map<MicroApp, Phase>)
    reads set a | a in queue
  {
    forall a :: a in queue ==> a in st && a.State() == st[a]
  }

  /** The current states of the phases of `queue`. */
  ghost function Snapshot(queue: seq<MicroApp>): (r: map<MicroApp, Phase>)
    reads set a | a in queue
    ensures Mirrors(queue, r)
  {
    map a: MicroApp | a in queue :: a.State()
  }

  /** The snapshot `st` holds the current states of the phases of `queue`, which are those
      the runs so far leave them in from the states `init`; each run started from the state
      the runs before it left. */
  ghost predicate Tracking(queue: seq<MicroApp>, init: map<MicroApp, Phase>, st: map<MicroApp, Phase>,
                           ran: seq<MicroApp>, before: seq<Phase>, after: seq<Phase>)
    reads set a | a in queue
  {
    Mirrors(queue, st) && Befores(init, ran, before, after) && st == Replayed(init, ran, after)
  }

  /** One turn of the scheduler loop: `app.run()` on the next input, from state `s` to state
      `post`.  The snapshot of the deque's phase states follows along. */
  method RunTurn(app: MicroApp, input: Input, ghost queue: seq<MicroApp>, ghost init: map<MicroApp, Phase>,
                 ghost st: map<MicroApp, Phase>, ghost env: seq<Input>, ghost ran: seq<MicroApp>,
                 ghost outcomes: seq<Ran<MicroApp>>, ghost before: seq<Phase>, ghost after: seq<Phase>)
    returns (result: Ran<MicroApp>, ghost st': map<MicroApp, Phase>, ghost s: Phase, ghost post: Phase)
    modifies app
    requires app in queue && Tracking(queue, init, st, ran, before, after)
    requires RunsOf(outcomes, before, after, env) && |outcomes| < |env| && input == env[|outcomes|]
    ensures RunsOf(outcomes + [result], before + [s], after + [post], env)
    ensures result.Returned? ==> result == Returned(None)
    ensures Tracking(queue, init, st', ran + [app], before + [s], after + [post])
  {
    s := app.State();
    ReplayedSnoc(init, ran, before, after, app, s);
    result := app.Run(input);
    post := app.State();
    st' := st[app := post];
    ReplayedSnoc(init, ran, before, after, app, post);
    RunsOfExtend(outcomes, before, after, env, result, s, post);
  }

  /** `popleft` on a deque that holds what has not run yet: the phase it takes is the next
      one of the queue, and the phases run with it are still a prefix of the queue. */
  lemma PopLeft(ran: seq<MicroApp>, rest: seq<MicroApp>, queue: seq<MicroApp>)
    requires ran + rest == queue && rest != []
    ensures rest[0] == queue[|ran|] && ran + [rest[0]] + rest[1..] == queue
  {
    assert queue[|ran|] == (ran + rest)[|ran|];
    assert ran + [rest[0]] + rest[1..] == ran + ([rest[0]] + rest[1..]);
  }

  /** The states of the phases after a scheduler ran `ran` in turn from the states `init`,
      run k leaving its phase in state `after[k]`.  Phases that are not keys of `init` are not
      tracked. */
  ghost function Replayed(init: map<MicroApp, Phase>, ran: seq<MicroApp>, after: seq<Phase>): (r: map<MicroApp, Phase>)
    requires |ran| == |after|
    ensures r.Keys == init.Keys
    ensures forall a :: a in init && a !in ran ==> r[a] == init[a]
    decreases |ran|
  {
    if ran == [] then init
    else
      var n := |ran| - 1;
      var prev := Replayed(init, ran[..n], after[..n]);
      if ran[n] in prev then prev[ran[n] := after[n]] else prev
  }

  /** Each run started from the state `Replayed` gives its phase after the runs before it. */
  ghost predicate Befores(init: map<MicroApp, Phase>, ran: seq<MicroApp>, before: seq<Phase>, after: seq<Phase>)
    decreases |ran|
  {
    |ran| == |before| == |after|
    && (ran != [] ==>
          var n := |ran| - 1;
          Befores(init, ran[..n], before[..n], after[..n])
          && (ran[n] in init ==> before[n] == Replayed(init, ran[..n], after[..n])[ran[n]]))
  }

  /** One more run, from the phase's replayed state to `post`, extends both `Replayed` and
      `Befores`. */
  lemma {:induction false} ReplayedSnoc(init: map<MicroApp, Phase>, ran: seq<MicroApp>, before: seq<Phase>,
                                        after: seq<Phase>, app: MicroApp, post: Phase)
    requires Befores(init, ran, before, after) && app in init
    ensures Replayed(init, ran + [app], after + [post]) == Replayed(init, ran, after)[app := post]
    ensures Befores(init, ran + [app], before + [Replayed(init, ran, after)[app]], after + [post])
  {
    var before' := before + [Replayed(init, ran, after)[app]];
    assert (ran + [app])[..|ran|] == ran && (after + [post])[..|ran|] == after && before'[..|ran|] == before;
  }

  /** `Befores` run by run: run k started from the state the runs before it left. */
  lemma {:induction false} BeforesEach(init: map<MicroApp, Phase>, ran: seq<MicroApp>, before: seq<Phase>,
                                       after: seq<Phase>, k: nat)
    requires Befores(init, ran, before, after) && k < |ran| && ran[k] in init
    ensures before[k] == Replayed(init, ran[..k], after[..k])[ran[k]]
    decreases |ran|
  {
    var n := |ran| - 1;
    if k < n {
      BeforesEach(init, ran[..n], before[..n], after[..n], k);
      assert ran[..n][..k] == ran[..k] && after[..n][..k] == after[..k];
    }
  }

  /** A phase's first run starts from the state it had when the scheduler started. */
  lemma {:induction false} FirstRunFromEntry(init: map<MicroApp, Phase>, ran: seq<MicroApp>, before: seq<Phase>,
                                             after: seq<Phase>, k: nat)
    requires Befores(init, ran, before, after) && k < |ran| && ran[k] in init && ran[k] !in ran[..k]
    ensures before[k] == init[ran[k]]
  {
    BeforesEach(init, ran, before, after, k);
  }

  /** A phase that does not run again keeps the state its last run left. */
  lemma {:induction false} LastRunStays(init: map<MicroApp, Phase>, ran: seq<MicroApp>, after: seq<Phase>, k: nat)
    requires |ran| == |after| && k < |ran| && ran[k] in init && ran[k] !in ran[k + 1..]
    ensures Replayed(init, ran, after)[ran[k]] == after[k]
    decreases |ran|
  {
    var n := |ran| - 1;
    if k < n {
      assert ran[n] != ran[k] by { assert ran[n] == ran[k + 1..][n - k - 1]; }
      assert ran[k] !in ran[..n][k + 1..] by { assert ran[..n][k + 1..] == ran[k + 1..n]; }
      LastRunStays(init, ran[..n], after[..n], k);
    }
  }

  /** Run k of a scheduler went from `before[k]` to `after[k]` and ended as `outcomes[k]`: a
      `Lifecycle` over the k-th input, from `before[k]`. */
  ghost predicate RunsOf(outcomes: seq<Ran<MicroApp>>, before: seq<Phase>, after: seq<Phase>, env: seq<Input>) {
    |outcomes| == |before| == |after| <= |env|
    && forall k {:trigger Lifecycle<MicroApp>(before[k], env[k].start, env[k].frames)} :: 0 <= k < |outcomes| ==>
         (after[k], outcomes[k]) == Lifecycle<MicroApp>(before[k], env[k].start, env[k].frames)
  }

  /** One more run keeps `RunsOf`. */
  lemma {:induction false} RunsOfExtend(outcomes: seq<Ran<MicroApp>>, before: seq<Phase>, after: seq<Phase>,
                                        env: seq<Input>, result: Ran<MicroApp>, s: Phase, post: Phase)
    requires RunsOf(outcomes, before, after, env) && |outcomes| < |env|
    requires (post, result) == Lifecycle<MicroApp>(s, env[|outcomes|].start, env[|outcomes|].frames)
    ensures RunsOf(outcomes + [result], before + [s], after + [post], env)
  {
    var outcomes', before', after' := outcomes + [result], before + [s], after + [post];
    forall k | 0 <= k < |outcomes'|
      ensures (after'[k], outcomes'[k]) == Lifecycle<MicroApp>(before'[k], env[k].start, env[k].frames)
    {
      if k < |outcomes| {
        assert before'[k] == before[k] && after'[k] == after[k] && outcomes'[k] == outcomes[k];
        assert (after[k], outcomes[k]) == Lifecycle<MicroApp>(before[k], env[k].start, env[k].frames);
      }
    }
  }

  /** No phase run by the scheduler names a successor: `run()` returns None. */
  lemma RunsOfNoSuccessors(outcomes: seq<Ran<MicroApp>>, before: seq<Phase>, after: seq<Phase>, env: seq<Input>)
    requires RunsOf(outcomes, before, after, env)
    ensures NoSuccessors(outcomes)
  {
    forall k | 0 <= k < |outcomes| && outcomes[k].Returned? ensures outcomes[k].next.None? {
      assert (after[k], outcomes[k]) == Lifecycle<MicroApp>(before[k], env[k].start, env[k].frames);
    }
  }
}
