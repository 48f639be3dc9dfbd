# NeedForOtl10 phase runner, modelled in Dafny

The game's runtime is a chain of *phases* (`MicroApp` objects). A phase runs with
`run()`: `run_once()` first, then `on_iteration()` while `alive`, then `atexit()`.
A FIFO scheduler (`App`) pops phases off a deque and runs them one after another.
If a phase's `run()` returns a phase, that one runs next.
This project models:

- the base lifecycle of Engine/apps.py;
- the scheduler;
- the `Init` version check;
- the two loading screens, one in Engine/apps.py and one in src/game.py;
- the `Game` phase of src/game.py, whose `on_iteration` maps mouse and keyboard events onto
  its camera and its developer overlay flag `DEVMODE`.

Layout:

- `host.dfy` (module `Host`): what the phases read from their host, and the values they
  return or raise. One `Frame` per iteration holds `perf_counter()` at the deadline check,
  `clock.get_time()` and the drained events. One `Input` per run holds the `run_once` reading
  and the frames. `Passed` is Python's `now > endtime`, including the TypeError when
  `endtime` is None.
- `game_events.dfy` (module `GameEvents`): Game's event handler on its view (camera
  position and distance, `DEVMODE`), and the event drain that stops at QUIT.
- `phases.dfy` (module `Phases`): the phase contract as a state machine over values. A
  `Phase` holds the object's attributes plus a trace of the calls it made. Every hook is a
  function that dispatches on the phase's `Kind`, which stands for the subclass.
- `phase_lemmas.dfy` (module `PhaseLemmas`): what that contract guarantees. It covers the
  order inside one iteration, the strict deadline, `run_once`/`atexit` exactly once, the
  loading screens' music and stripes, Game never returning, and the defect below.
- `scheduling.dfy` (module `Scheduling`): `App.run` as a function of how each phase run
  ended, with its stop rules. The `After`/`ResumeAfter` lemmas let the imperative loop be
  proved against it.
- `apps.dfy` (module `Apps`): the objects as the source keeps them. `MicroApp` is a class
  whose methods update its fields in place; each method is proved to move `State()` exactly
  as the `Phases` function for that hook. `App` is a class whose `Run` pops its deque in a
  `while running` loop; it is proved to produce the stop reason and run order that
  `Scheduling.Schedule` gives. It is also proved to leave every phase of the deque in the state
  its runs lead to from the state it had on entry.

The hooks a phase runs, and the calls it makes that matter for ordering, are recorded in the
trace, in order, as `Call` values: `run_once`, the event poll, each task, `step` (Game's also
`keyboard_handler` and `scene.step`), `draw`, `clock.tick`, the caption, `atexit` and the
loading screens' music. That is what lets ordering and exactly-once properties be stated.
Calls made inside `draw` (the camera's `view`, `devview` and `show`, `pygame.display.update`)
and `camera.start()` in Game's constructor are not recorded.

## Model

| member | source | states |
|---|---|---|
| Host.Plus | Engine/apps.py:43 | `starttime + lifetime` is +inf exactly for `float('inf')`; otherwise it lies `lifetime` seconds after the start |
| Host.Passed | Engine/apps.py:57 | the deadline test raises TypeError exactly when `endtime` is None; it is true exactly when `now` is strictly later than a finite `endtime` |
| GameEvents.HandleEvent | src/game.py:158-167 | mouse motion with the left button up and other events change nothing; only KEYDOWN touches `DEVMODE`, negating it exactly when F3 is held |
| GameEvents.Drain | src/game.py:153-156 | the event loop reports a QUIT exactly when one is among the events |
| GameEvents.WheelOnlyZooms | src/game.py:160-161 | MOUSEWHEEL lowers the camera distance by `event.y` and changes nothing else |
| GameEvents.KeyRResets | src/game.py:162-165 | KEYDOWN with R held puts the camera at (0, 0) and distance 14, whatever it was |
| GameEvents.F3TwiceRestores | src/game.py:166-167 | two KEYDOWNs with F3 held restore `DEVMODE` |
| GameEvents.DrainDevModeParity | src/game.py:153-167 | over a drain without QUIT, `DEVMODE` ends negated exactly when an odd number of events held F3 |
| GameEvents.DrainZoom | src/game.py:153-167 | with no R reset, a drain lowers the distance by the sum of the wheel deltas |
| GameEvents.DrainStopsAtQuit | src/game.py:154-156 | events after the first QUIT are never handled; the view is the one the earlier events reached |
| GameEvents.UnpressedMotionIgnored | src/game.py:158-159 | removing a mouse motion with the left button up from any event list changes nothing |
| Phases.NewMicroApp | Engine/apps.py:14-21 | a new phase is alive, has no tasks, no start time and no deadline |
| Phases.StartTests | Engine/apps.py:110-112 | the version check can only raise SystemError |
| Phases.NewInit | Engine/apps.py:104-107 | `Init` fails exactly when the version check raises; otherwise it is a base phase of lifetime 0 |
| Phases.EngineLoadingScreen | Engine/apps.py:116-118 | this loading screen is alive, with `endtime` = construction time + lifetime, stripes at 0 with speed 70, music off |
| Phases.GameLoadingScreen | src/game.py:24-26 | this loading screen sets `end_time` only, and the base `endtime` stays None |
| Phases.NewGame | src/game.py:129-137 | Game has infinite lifetime, frame cap 0, camera distance 16 and `DEVMODE` from the settings |
| Phases.AfterRunOnce | Engine/apps.py:37-43 | `run_once` records its call first; the base sets `starttime` to the reading and `endtime` to start + lifetime; the loading screens (Engine/apps.py:168-169) only start the music and keep their deadline; nothing else changes |
| PhaseLemmas.StepOrder | src/game.py:148-150 | `step` is recorded first; only Game's goes on, to the keyboard handler and then to `scene.step(dt)` |
| Phases.AfterStep | Engine/apps.py:191-192 | `step(dt)` moves only the stripes, by `speed * dt`, and only on a loading screen; the base `step` (Engine/apps.py:23-28) and Game's change nothing but the trace |
| Phases.AfterDraw | Engine/apps.py:30-35 | `draw` changes nothing but the trace, which gains its one call |
| Phases.AfterAtExit | Engine/apps.py:53-54 | `atexit` is recorded first; the music plays afterwards exactly when it played before and the phase is not a loading screen (Engine/apps.py:188-189); nothing else changes |
| Phases.AfterTasks | Engine/apps.py:50-51 | `run_tasks` only extends the trace, by at most one call per task; it raises exactly when some task raises, with the exception of a task that raises; with none raising it adds one call per task |
| Phases.FrameTail | Engine/apps.py:64-68 | the tail of an iteration changes nothing but the trace and the stripes; it never exits; it goes on exactly when no task raises |
| Phases.Iteration | Engine/apps.py:56-68 | an iteration keeps the class, lifetime, tasks, start time, deadline and music; it never revives a phase; it exits only on a QUIT among the events; Game's (src/game.py:152-173) never clears `alive` |
| Phases.Loop | Engine/apps.py:76-78 | the loop returns only None |
| Phases.Lifecycle | Engine/apps.py:75-78 | `run` returns only None, so a plain phase never names a successor |
| PhaseLemmas.TasksRunInOrder | Engine/apps.py:50-51 | `run_tasks` calls every task once, in list order, up to and including the first one that raises; that exception is the result |
| PhaseLemmas.TaskCallsOnly | Engine/apps.py:50-51 | `run_tasks` only appends task calls to the trace |
| PhaseLemmas.FrameTailShape | Engine/apps.py:64-68 | the tail of an iteration keeps the setup attributes, `alive`, the music and the view, and only appends iteration calls |
| PhaseLemmas.FrameTailKeeps | Engine/apps.py:64-68 | tasks, step, draw, tick and caption write no attribute but the trace and the stripe offset |
| PhaseLemmas.FrameTailAppends | Engine/apps.py:64-68 | tasks, step, draw, tick and caption only append iteration calls |
| PhaseLemmas.FrameTailCalls | Engine/apps.py:64-68 | with no raising task, the tail calls every task, then `step(ms/1000)`, `draw`, `tick(framerate)` and the caption, in that order |
| PhaseLemmas.IterationShape | Engine/apps.py:56-68 | an iteration keeps the setup attributes and only appends iteration calls; it never revives a phase; only the deadline check clears `alive`, and then it changes nothing else |
| PhaseLemmas.IterationOrder | Engine/apps.py:60-68 | a non-expired iteration without QUIT or raising task runs the drain, every task, step, draw, tick and caption in this order (Game: keyboard handler before `scene.step`, `tick(FPS)`) |
| PhaseLemmas.DeadlineIsStrict | Engine/apps.py:57-59 | with `now > endtime` the iteration only clears `alive`; with `now <= endtime` it keeps `alive` and starts with the event drain |
| PhaseLemmas.QuitSkipsTheRest | Engine/apps.py:60-63 | a QUIT in the base iteration exits right after the drain: no task, step, draw or tick |
| PhaseLemmas.GameQuitSkipsTheRest | src/game.py:153-156 | a QUIT in Game's iteration exits after applying the events before it; the rest never runs |
| PhaseLemmas.StepForward | src/game.py:108-114 | the loading screen's `step` adds `70*dt` to `position`; `dt = 0` changes nothing but the trace; `position` never decreases for `dt >= 0` |
| PhaseLemmas.LoopShape | Engine/apps.py:76-78 | the loop keeps the setup attributes; it returns exactly when `alive` is false, after `atexit`'s calls as the last ones; every other call belongs to an iteration |
| PhaseLemmas.RunCallsSetupAndTeardownOnce | Engine/apps.py:75-78 | `run` calls `run_once` once, first. It calls `atexit` once, last, only when it returns, and then `alive` is false. An exit, a fault or running out of frames leaves `alive` as it was |
| PhaseLemmas.DeadlineFixedByRunOnce | Engine/apps.py:42-43 | after a run, `starttime` is the start reading and `endtime` is start + lifetime (a loading screen keeps its constructor's deadline), so nothing after `run_once` changes them |
| PhaseLemmas.OnePollPerIteration | Engine/apps.py:60 | a complete iteration drains the events exactly once |
| PhaseLemmas.InTimeFrame | Engine/apps.py:57-68 | a frame read at or before the deadline runs one complete iteration and the loop goes on |
| PhaseLemmas.LateFrame | Engine/apps.py:57-59 | a frame read after the deadline ends the loop with `atexit` and nothing else |
| PhaseLemmas.LoopStopsAtFirstLateFrame | Engine/apps.py:76-78 | without QUIT or raising task, the loop runs one iteration per frame up to the first late frame; then it returns None with `alive` false; if no frame is late it is still running |
| PhaseLemmas.GameNeverReturns | src/game.py:152-173 | Game's loop never returns and never calls `atexit`; without QUIT or fault it is still running when the frames run out |
| PhaseLemmas.StripesNeverMoveBack | src/game.py:114 | over any run of the loop, the loading screen's `position` never decreases |
| PhaseLemmas.LoadingMusic | src/game.py:73-106 | after a loading screen's run the music plays exactly when `run` did not return |
| PhaseLemmas.EngineLoadingScreenEndsAtDeadline | Engine/apps.py:116-118 | Engine/apps.py's loading screen returns after the first frame later than construction time + lifetime, whatever the start reading, with the music stopped |
| PhaseLemmas.GameLoadingScreenRaises | src/game.py:26 | src/game.py's loading screen raises TypeError at its first deadline check, with its music left playing and no frame drawn |
| PhaseLemmas.InitLivesOneInstant | Engine/apps.py:104-107 | `Init` (lifetime 0) ends with no iteration on a later first frame; a frame at the same instant still runs one full iteration |
| Scheduling.Schedule | Engine/apps.py:88-101 | the scheduler runs no more phases than there are runs |
| Scheduling.StopAfter | Engine/apps.py:97-101 | a run that did not return stops the scheduler: an IndexError silently, any other exception re-raised unchanged, an exit passing through |
| Scheduling.ScheduleStops | Engine/apps.py:91-101 | every run but the last returned. An escaping exception or exit is the last run's own. A drained deque follows a None return or an IndexError |
| Scheduling.EmptyAppReturns | Engine/apps.py:83-86 | an `App` built with no phases returns at once, running nothing |
| Scheduling.SuccessorRunsNext | Engine/apps.py:93-95 | a non-None return value runs next, without popping the deque |
| Scheduling.PlainPhasesRunInOrder | Engine/apps.py:93-95 | when no run names a successor, the phases that ran are a prefix of the deque, in deque order, each at most once |
| Scheduling.AllReturnDrains | Engine/apps.py:91-98 | when every phase returns None, every phase runs once, in order, and the scheduler returns once the deque is empty |
| Scheduling.FaultStopsTheScheduler | Engine/apps.py:97-101 | an exception from the i-th phase ends the scheduler after exactly the first i+1 phases: IndexError silently, any other re-raised |
| Scheduling.Dispatch | Engine/apps.py:93-94 | `popleft` happens only when `nextapp` is None and fails exactly on an empty deque; it takes the front phase |
| Scheduling.After | Engine/apps.py:91-95 | the configuration after k returning runs has run k phases |
| Scheduling.ResumeAfter | Engine/apps.py:91-95 | the schedule over more runs is the schedule so far followed by the reached configuration's schedule |
| Scheduling.AfterPlainRuns | Engine/apps.py:93-95 | after runs that named no successor, `nextapp` is None and the phases run so far followed by the rest of the deque are the deque |
| Scheduling.AfterRun | Engine/apps.py:93-101 | a returning run reaches the configuration its return value names; any other run ends the schedule |
| Scheduling.StopAt | Engine/apps.py:93-98 | runs that led to a configuration leave the scheduler drained when the deque is empty and undecided otherwise |
| Apps.PollForQuit | Engine/apps.py:60-63 | the base event loop finds a QUIT exactly when one was among the events |
| Apps.MicroApp.constructor | Engine/apps.py:14-21 | the new object's state is `NewMicroApp(lifetime)` |
| Apps.MicroApp.EngineLoading | Engine/apps.py:116-118 | the new object's state is `EngineLoadingScreen(now, lifetime)`, lifetime 6 by default |
| Apps.MicroApp.GameLoading | src/game.py:24-26 | the new object's state is `GameLoadingScreen(now, lifetime)`, lifetime 6 by default |
| Apps.MicroApp.Game | src/game.py:129-137 | the new object's state is `NewGame(position, devMode)` |
| Apps.MicroApp.Init | Engine/apps.py:104-112 | `Init` raises SystemError exactly below hexversion 0x030900F0; otherwise it yields a fresh base phase of lifetime 0 |
| Apps.MicroApp.RunOnce | Engine/apps.py:42-43 | the object moves as `AfterRunOnce`: the base fixes start and deadline, loading screens start the music |
| Apps.MicroApp.Step | Engine/apps.py:191-192 | the object moves as `AfterStep`: stripes advance by `speed*dt`, Game calls the keyboard handler and then `scene.step` |
| Apps.MicroApp.Draw | Engine/apps.py:30-35 | the object moves as `AfterDraw` |
| Apps.MicroApp.AtExit | Engine/apps.py:53-54 | the object moves as `AfterAtExit`: loading screens stop the music |
| Apps.MicroApp.RunTasks | Engine/apps.py:50-51 | the `for` loop produces `AfterTasks` of the task list and changes nothing but the trace |
| Apps.MicroApp.DrainEvents | src/game.py:153-167 | the event loop moves camera and `DEVMODE` exactly as `Drain` and reports QUIT as it does |
| Apps.MicroApp.FinishIteration | Engine/apps.py:64-68 | tasks, step, draw, tick and caption move the object as `FrameTail` |
| Apps.MicroApp.OnIteration | Engine/apps.py:56-68 | one `on_iteration` (Game's override for Game) moves the object as `Iteration` |
| Apps.MicroApp.Run | Engine/apps.py:75-78 | the `while self.alive` loop moves the object and returns as `Lifecycle` over the run's input |
| Apps.App.constructor | Engine/apps.py:82-86 | None stands for an empty deque |
| Apps.App.Run | Engine/apps.py:88-101 | the `while running` loop stops, and runs its phases, as `Schedule` says for the runs' outcomes. Run k is a `Lifecycle` over the k-th input from `before[k]`, and `before[k]` is the state the earlier runs left that phase in (`Befores`). No run names a successor. The deque keeps exactly the phases not run. Every phase of the deque ends in the state its runs replayed from the entry states give. The loop is undecided only when the inputs ran out or the last run did |
| Apps.App.Step | Engine/apps.py:91-98 | one pass of the loop body keeps the loop invariant `Looping` (runs as `Lifecycle` says, states tracked, and once stopped the stop `Schedule` gives), and uses up one input when the loop goes on |
| Apps.App.Turn | Engine/apps.py:93-101 | one `popleft` and `run()`: the runs grow by one, the deque loses its front phase, and a run that did not return stops the loop with the reason `Schedule` gives |
| Apps.RunTurn | Engine/apps.py:95 | `nextapp.run()` changes only that phase: its run is a `Lifecycle` from the state the earlier runs left, it returns None, and the snapshot of the deque's states follows |
| Apps.Replayed | Engine/apps.py:91-95 | replaying runs keeps the tracked phases and leaves a phase that never ran in its entry state |
| Apps.BeforesEach | Engine/apps.py:91-95 | run k starts from the state the runs before it left its phase in |
| Apps.FirstRunFromEntry | Engine/apps.py:91-95 | a phase's first run starts from the state it had when `App.run` started |
| Apps.LastRunStays | Engine/apps.py:91-95 | a phase that does not run again keeps the state its last run left |
| Apps.RunsOfNoSuccessors | Engine/apps.py:75-78 | every run the scheduler observed returned None, so no run names a successor |

## Left out

- Rendering: `draw` bodies, `prepare_text`, surfaces, fonts and `pygame.display.update`. A draw is recorded only as a `DrawHook` call.
- Audio and asset loading, including the `.mp3`/`.ogg` fallback. Music is the `playing` flag plus `MusicPlay`/`MusicStop` calls.
- `perf_counter`, the pygame clock and `pygame.event.get` are inputs (`Frame`, `Input`), not calls.
- The mouse-button and key state read while an event is handled is carried on the event (`MouseMotion.leftPressed`, `KeyDown.rHeld`/`f3Held`).
- The numpy pan vector `rel * [-1, 1] / scale_factor` is abstracted to the event's `shift`.
- `pygame.quit()` and `sys.exit()` are the outcome `Exit`/`Exited`, not a real process exit. At the scheduler it becomes `SysExit`, because `SystemExit` is not caught by `except Exception`.
- `Camera`, `TestLevel`, `scene.step` and `player.keyboard_handler` are opaque. Only `keyboard_handler` and `scene.step` appear in the trace, as `KeyboardHandler` and `SceneStep`. `camera.start()` and the camera calls inside Game's `draw` are folded into `DrawHook` or omitted.
- Phases.FrameTail: only tasks can fault. An exception raised inside `step`, `draw`, `clock.tick` or the caption update (in any subclass) is not modelled, so an iteration with no raising task always goes on.
- Floats are modelled as reals: no rounding, NaN or overflow. `float('inf')` is `Unbounded`/`Infinity`.
- The FPS caption's formatting and the `dev_message` print.
- `sys.hexversion` is an integer input compared against one threshold.
- The unused `currentapp` argument of `App` (stored as `currenapp`).
- A task is an id plus the exception it raises, if any. What a task does besides raising is out of scope.
- Apps.MicroApp.Run: `run` is an unbounded loop; the model runs it over finitely many frames and reports `Pending` when they run out while the phase is alive.
- Apps.App.Run: it is proved over finitely many phase runs; running out of inputs reports `Unfinished`. Its run order, outcomes and the states before and after each run are ghost results. The same object queued twice is allowed; its states are tracked through `Replayed` run by run.
- `LoadingScreen.__init__`'s stripe geometry (`heightpolos`, `numpolos`, `lenpolos`) only feeds drawing.

## Findings

| source | as written | input that shows it | evidently intended | confidence | as-written member | corrected member |
|---|---|---|---|---|---|---|
| src/game.py:26 | the loading screen stores its deadline in `end_time`, and its `run_once` override does not call the base, so the base `endtime` stays None and `perf_counter() > self.endtime` raises TypeError | any run of this `LoadingScreen` that reaches one iteration | `self.endtime = perf_counter() + lifetime`, as Engine/apps.py:118 writes it, so the screen returns after its lifetime with the music stopped | high, not executed | PhaseLemmas.GameLoadingScreenRaises | PhaseLemmas.EngineLoadingScreenEndsAtDeadline |

The corrected loading screen is `Phases.EngineLoadingScreen` (object: `Apps.MicroApp.EngineLoading`).
It is the constructor Engine/apps.py already has, and the lemmas about the deadline and the music
hold for it. The as-written one is kept as `Phases.GameLoadingScreen` / `Apps.MicroApp.GameLoading`.
