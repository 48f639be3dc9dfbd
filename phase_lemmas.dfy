/** What the phase contract guarantees: the order of one iteration, the strict deadline, the
    exactly-once setup and teardown of `run`, and what the concrete phases do with it. */
module PhaseLemmas {
  import opened Host
  import opened GameEvents
  import opened Phases

  // ---------------------------------------------------------------- vocabulary

  /** Index of the first task that raises, or the number of tasks if none does. */
  function FirstRaising(tasks: seq<Task>): (n: nat)
    ensures n <= |tasks|
    ensures forall i :: 0 <= i < n ==> tasks[i].raises.None?
    ensures n < |tasks| ==> tasks[n].raises.Some?
  {
    if tasks == [] then 0
    else if tasks[0].raises.Some? then 0
    else 1 + FirstRaising(tasks[1..])
  }

  /** One call per task, in list order. */
  function TaskCalls(tasks: seq<Task>): (calls: seq<Call>)
    ensures |calls| == |tasks|
  {
    seq(|tasks|, i requires 0 <= i < |tasks| => TaskCall(tasks[i].id))
  }

  /** The calls `atexit()` records. */
  function AtExitCalls(kind: Kind): seq<Call> {
    [AtExitHook] + if kind == Loading then [MusicStop] else []
  }

  /** The calls a complete iteration makes, in order. */
  function FullIteration(p: Phase, f: Frame): seq<Call> {
    [EventPoll] + TaskCalls(p.tasks) + StepCalls(p.kind, f.elapsedMs as real / 1000.0)
    + [DrawHook, ClockTick(if p.kind == MainGame then p.fps else 0), CaptionUpdate]
  }

  /** A call made inside an iteration (never a setup, teardown or music call). */
  predicate IterationCall(c: Call) {
    c.EventPoll? || c.TaskCall? || c.StepHook? || c.KeyboardHandler? || c.SceneStep?
    || c.DrawHook? || c.ClockTick? || c.CaptionUpdate?
  }

  /** The attributes that only the constructors and `run_once` write. */
  predicate SameSetup(p: Phase, q: Phase) {
    q.kind == p.kind && q.lifetime == p.lifetime && q.tasks == p.tasks
    && q.starttime == p.starttime && q.endtime == p.endtime && q.end_time == p.end_time
    && q.speed == p.speed && q.fps == p.fps
  }

  /** Python's `LoadingScreen` runs no tasks unless someone registers them. */
  predicate NoRaisingTask(p: Phase) {
    forall i :: 0 <= i < |p.tasks| ==> p.tasks[i].raises.None?
  }

  // ---------------------------------------------------------------- run_tasks

  /** `run_tasks` calls the tasks in list order, each once, up to and including the first one
      that raises; that exception is the result. */
  lemma {:induction false} TasksRunInOrder(trace: seq<Call>, tasks: seq<Task>)
    ensures var n := FirstRaising(tasks);
            AfterTasks(trace, tasks)
            == if n == |tasks| then (trace + TaskCalls(tasks), None)
               else (trace + TaskCalls(tasks[..n + 1]), tasks[n].raises)
    decreases |tasks|
  {
    if tasks != [] && tasks[0].raises.None? {
      var t := trace + [TaskCall(tasks[0].id)];
      TasksRunInOrder(t, tasks[1..]);
      var n := FirstRaising(tasks);
      assert FirstRaising(tasks[1..]) == n - 1;
      assert AfterTasks(trace, tasks) == AfterTasks(t, tasks[1..]);
      if n == |tasks| {
        assert [TaskCall(tasks[0].id)] + TaskCalls(tasks[1..]) == TaskCalls(tasks);
        assert t + TaskCalls(tasks[1..]) == trace + TaskCalls(tasks);
      } else {
        assert tasks[1..][..n] == tasks[1..n + 1];
        assert [TaskCall(tasks[0].id)] + TaskCalls(tasks[1..n + 1]) == TaskCalls(tasks[..n + 1]);
        assert t + TaskCalls(tasks[1..n + 1]) == trace + TaskCalls(tasks[..n + 1]);
      }
    } else if tasks != [] {
      assert FirstRaising(tasks) == 0;
      assert TaskCalls(tasks[..1]) == [TaskCall(tasks[0].id)];
      assert AfterTasks(trace, tasks) == (trace + [TaskCall(tasks[0].id)], tasks[0].raises);
    } else {
      assert FirstRaising(tasks) == 0 && TaskCalls(tasks) == [];
      assert AfterTasks(trace, tasks) == (trace, None);
      assert trace + [] == trace;
    }
  }

  // ---------------------------------------------------------------- one iteration

  /** The tail of an iteration keeps every attribute but the trace and the stripe offset, and
      only appends iteration calls. */
  lemma {:induction false} FrameTailShape(p: Phase, ms: nat, framerate: nat)
    ensures var (q, o) := FrameTail(p, ms, framerate);
            SameSetup(p, q) && q.playing == p.playing && q.alive == p.alive && q.view == p.view
            && p.trace <= q.trace
            && (forall i :: |p.trace| <= i < |q.trace| ==> IterationCall(q.trace[i]))
  {
    FrameTailKeeps(p, ms, framerate);
    FrameTailAppends(p, ms, framerate);
  }

  /** The tail of an iteration writes no attribute but the trace and the stripe offset. */
  lemma FrameTailKeeps(p: Phase, ms: nat, framerate: nat)
    ensures var q := FrameTail(p, ms, framerate).0;
            SameSetup(p, q) && q.playing == p.playing && q.alive == p.alive && q.view == p.view
  {
  }

  /** The tail of an iteration only appends iteration calls to the trace. */
  lemma {:induction false} FrameTailAppends(p: Phase, ms: nat, framerate: nat)
    ensures var q := FrameTail(p, ms, framerate).0;
            p.trace <= q.trace && forall i :: |p.trace| <= i < |q.trace| ==> IterationCall(q.trace[i])
  {
    var (t, err) := AfterTasks(p.trace, p.tasks);
    TaskCallsOnly(p.trace, p.tasks);
    var added := t[|p.trace|..];
    if err.Some? {
      AppendedIterationCalls(p.trace, added);
    } else {
      var tail := StepCalls(p.kind, ms as real / 1000.0) + [DrawHook, ClockTick(framerate), CaptionUpdate];
      assert forall c | c in tail :: IterationCall(c);
      assert FrameTail(p, ms, framerate).0.trace == p.trace + (added + tail);
      AppendedIterationCalls(p.trace, added + tail);
    }
  }

  /** `run_tasks` only appends task calls. */
  lemma {:induction false} TaskCallsOnly(trace: seq<Call>, tasks: seq<Task>)
    ensures var t := AfterTasks(trace, tasks).0;
            trace <= t && t == trace + t[|trace|..] && forall c | c in t[|trace|..] :: c.TaskCall?
    decreases |tasks|
  {
    if tasks != [] {
      var t1 := trace + [TaskCall(tasks[0].id)];
      if tasks[0].raises.None? {
        TaskCallsOnly(t1, tasks[1..]);
        var t := AfterTasks(t1, tasks[1..]).0;
        assert t[|trace|..] == [TaskCall(tasks[0].id)] + t[|t1|..];
      } else {
        assert t1[|trace|..] == [TaskCall(tasks[0].id)];
      }
    } else {
      assert trace[|trace|..] == [];
    }
  }

  /** Calls appended to a trace, all made inside an iteration. */
  lemma AppendedIterationCalls(a: seq<Call>, x: seq<Call>)
    requires forall c | c in x :: IterationCall(c)
    ensures forall i :: |a| <= i < |a + x| ==> IterationCall((a + x)[i])
  {
    forall i | |a| <= i < |a + x| ensures IterationCall((a + x)[i]) {
      assert (a + x)[i] == x[i - |a|];
    }
  }

  /** Every iteration keeps the setup attributes, only appends iteration calls to the trace,
      never revives the phase, and only clears `alive` by the deadline check, which then changes
      nothing else. */
  lemma {:induction false} IterationShape(p: Phase, f: Frame)
    ensures var (q, o) := Iteration(p, f);
            SameSetup(p, q) && q.playing == p.playing
            && p.trace <= q.trace
            && (forall i :: |p.trace| <= i < |q.trace| ==> IterationCall(q.trace[i]))
            && (q.alive ==> p.alive)
            && (!q.alive && p.alive ==> p.kind != MainGame && q == p.(alive := false) && o == Continue)
  {
    if p.kind == MainGame {
      var pre := p.(trace := p.trace + [EventPoll]).(view := Drain(p.view, f.events).0);
      FrameTailShape(pre, f.elapsedMs, pre.fps);
    } else if Passed(f.now, p.endtime) == Ok(false) {
      var pre := p.(trace := p.trace + [EventPoll]);
      FrameTailShape(pre, f.elapsedMs, 0);
    }
  }

  /** A non-expired iteration without QUIT and without a raising task runs, in this order:
      the event drain, every task once in list order, `step` (Game's: the keyboard handler, then
      the scene), `draw`, `tick` and the caption.  Equality with the deadline still runs it. */
  lemma {:induction false} IterationOrder(p: Phase, f: Frame)
    requires p.kind == MainGame || Passed(f.now, p.endtime) == Ok(false)
    requires Quit !in f.events
    requires NoRaisingTask(p)
    ensures Iteration(p, f).1 == Continue
    ensures Iteration(p, f).0.trace == p.trace + FullIteration(p, f)
    ensures Iteration(p, f).0.alive == p.alive
  {
    var pre := p.(trace := p.trace + [EventPoll]);
    if p.kind == MainGame {
      var v := Drain(pre.view, f.events).0;
      assert Iteration(p, f) == FrameTail(pre.(view := v), f.elapsedMs, p.fps);
      FrameTailCalls(pre.(view := v), f.elapsedMs, p.fps);
      Regroup(p.trace, [EventPoll], TaskCalls(p.tasks), StepCalls(p.kind, f.elapsedMs as real / 1000.0),
              [DrawHook, ClockTick(p.fps), CaptionUpdate]);
    } else {
      assert Iteration(p, f) == FrameTail(pre, f.elapsedMs, 0);
      FrameTailCalls(pre, f.elapsedMs, 0);
      Regroup(p.trace, [EventPoll], TaskCalls(p.tasks), StepCalls(p.kind, f.elapsedMs as real / 1000.0),
              [DrawHook, ClockTick(0), CaptionUpdate]);
    }
  }

  /** `step(dt)` makes its own call first; only Game's goes on, to the keyboard handler and
      then to `scene.step(dt)`. */
  lemma StepOrder(kind: Kind, dt: real)
    ensures StepCalls(kind, dt)[0] == StepHook(dt)
    ensures kind == MainGame <==> KeyboardHandler in StepCalls(kind, dt)
    ensures kind == MainGame ==> StepCalls(kind, dt)[1..] == [KeyboardHandler, SceneStep(dt)]
    ensures kind != MainGame ==> |StepCalls(kind, dt)| == 1
  {
  }

  /** Concatenation regrouped after its first operand. */
  lemma Regroup<T>(a: seq<T>, b: seq<T>, c: seq<T>, d: seq<T>, e: seq<T>)
    ensures a + b + c + d + e == a + (b + c + d + e)
  {
  }

  /** Without a raising task the tail of an iteration runs every task, then `step`, `draw`,
      `tick` and the caption. */
  lemma {:induction false} FrameTailCalls(p: Phase, ms: nat, framerate: nat)
    requires NoRaisingTask(p)
    ensures FrameTail(p, ms, framerate).1 == Continue
    ensures FrameTail(p, ms, framerate).0.alive == p.alive
    ensures FrameTail(p, ms, framerate).0.trace
            == p.trace + TaskCalls(p.tasks) + StepCalls(p.kind, ms as real / 1000.0)
               + [DrawHook, ClockTick(framerate), CaptionUpdate]
  {
    TasksRunInOrder(p.trace, p.tasks);
    assert FirstRaising(p.tasks) == |p.tasks|;
  }

  /** The deadline test is strict: an iteration with `now > endtime` only clears `alive`; with
      `now <= endtime` it leaves `alive` set and starts by draining the events. */
  lemma {:induction false} DeadlineIsStrict(p: Phase, f: Frame, d: real)
    requires p.kind != MainGame && p.endtime == Some(At(d))
    ensures f.now > d ==> Iteration(p, f) == (p.(alive := false), Continue)
    ensures f.now <= d ==> Iteration(p, f).0.alive == p.alive
    ensures f.now <= d ==> p.trace + [EventPoll] <= Iteration(p, f).0.trace
  {
    if f.now <= d && Quit !in f.events {
      var q := p.(trace := p.trace + [EventPoll]);
      TasksRunInOrder(q.trace, q.tasks);
    }
  }

  /** In the base iteration a QUIT makes the process exit right after the drain: no task,
      step, draw or tick runs. */
  lemma {:induction false} QuitSkipsTheRest(p: Phase, f: Frame)
    requires p.kind != MainGame && Passed(f.now, p.endtime) == Ok(false)
    requires Quit in f.events
    ensures Iteration(p, f) == (p.(trace := p.trace + [EventPoll]), Exit)
  {
  }

  /** In Game's iteration a QUIT exits after the events before it were applied; the events
      after it and the rest of the iteration never run. */
  lemma {:induction false} GameQuitSkipsTheRest(p: Phase, f: Frame, before: seq<Event>, after: seq<Event>)
    requires p.kind == MainGame
    requires f.events == before + [Quit] + after && Quit !in before
    ensures Iteration(p, f) == (p.(trace := p.trace + [EventPoll], view := Drain(p.view, before).0), Exit)
  {
    DrainStopsAtQuit(p.view, before, after);
  }

  /** `step(0)` changes nothing but the trace, and a loading screen's stripes never move back. */
  lemma {:induction false} StepForward(p: Phase, dt: real)
    requires p.kind == Loading && p.speed == StripeSpeed && dt >= 0.0
    ensures AfterStep(p, dt).position == p.position + StripeSpeed * dt >= p.position
    ensures dt == 0.0 ==> AfterStep(p, dt) == p.(trace := p.trace + [StepHook(0.0)])
  {
  }

  // ---------------------------------------------------------------- the run loop

  /** The loop keeps the setup attributes; it returns exactly when `alive` is false, and then
      `atexit` ran once, as the last thing; every other call it adds belongs to an iteration.
      The music is stopped by that `atexit` and by nothing else. */
  lemma {:induction false} LoopShape<P>(p: Phase, frames: seq<Frame>)
    ensures var (q, r) := Loop<P>(p, frames);
            var m := |q.trace| - if r.Returned? then |AtExitCalls(p.kind)| else 0;
            SameSetup(p, q)
            && (r.Returned? <==> !q.alive)
            && (!p.alive ==> r.Returned?)
            && q.playing == (p.playing && !(r.Returned? && p.kind == Loading))
            && |p.trace| <= m && p.trace <= q.trace
            && (forall i :: |p.trace| <= i < m ==> IterationCall(q.trace[i]))
            && (r.Returned? ==> q.trace[m..] == AtExitCalls(p.kind))
    decreases |frames|
  {
    if p.alive && frames != [] {
      IterationShape(p, frames[0]);
      var (q1, o) := Iteration(p, frames[0]);
      if o == Continue {
        LoopShape<P>(q1, frames[1..]);
      }
    }
  }

  /** `run` calls `run_once` exactly once, first; `atexit` exactly once, last, and only when it
      returns (that is, once `alive` is false); an exit, a fault or running out of frames skips
      `atexit` and leaves the phase alive.  `alive` never returns to true. */
  lemma {:induction false} RunCallsSetupAndTeardownOnce<P>(p: Phase, start: real, frames: seq<Frame>)
    ensures var (q, r) := Lifecycle<P>(p, start, frames);
            |p.trace| < |q.trace| && q.trace[|p.trace|] == RunOnceHook
            && (forall i :: |p.trace| < i < |q.trace| ==> q.trace[i] != RunOnceHook)
            && (r.Returned? ==> |p.trace| < |q.trace| - |AtExitCalls(p.kind)|)
            && (r.Returned? ==> !q.alive && q.trace[|q.trace| - |AtExitCalls(p.kind)|] == AtExitHook)
            && (forall i :: |p.trace| <= i < |q.trace| && q.trace[i] == AtExitHook
                  ==> r.Returned? && i == |q.trace| - |AtExitCalls(p.kind)|)
            && (!r.Returned? ==> q.alive == p.alive)
  {
    var s := AfterRunOnce(p, start);
    LoopShape<P>(s, frames);
    var (q, r) := Loop<P>(s, frames);
    RunTrace(p, start, q, r.Returned?);
  }

  /** The trace facts of `RunCallsSetupAndTeardownOnce`, for a final state `q` that the loop
      reached from the state after `run_once`, returning or not as `returned` says. */
  lemma RunTrace(p: Phase, start: real, q: Phase, returned: bool)
    requires var s := AfterRunOnce(p, start);
             var m := |q.trace| - if returned then |AtExitCalls(s.kind)| else 0;
             && (returned <==> !q.alive) && (!s.alive ==> returned)
             && |s.trace| <= m && s.trace <= q.trace
             && (forall i :: |s.trace| <= i < m ==> IterationCall(q.trace[i]))
             && (returned ==> q.trace[m..] == AtExitCalls(s.kind))
    ensures |p.trace| < |q.trace| && q.trace[|p.trace|] == RunOnceHook
    ensures forall i :: |p.trace| < i < |q.trace| ==> q.trace[i] != RunOnceHook
    ensures returned ==> |p.trace| < |q.trace| - |AtExitCalls(p.kind)|
    ensures returned ==> !q.alive && q.trace[|q.trace| - |AtExitCalls(p.kind)|] == AtExitHook
    ensures forall i :: |p.trace| <= i < |q.trace| && q.trace[i] == AtExitHook
              ==> returned && i == |q.trace| - |AtExitCalls(p.kind)|
    ensures !returned ==> q.alive == p.alive
  {
    var s := AfterRunOnce(p, start);
    assert q.trace[|p.trace|] == s.trace[|p.trace|] == RunOnceHook;
    var m := |q.trace| - if returned then |AtExitCalls(p.kind)| else 0;
    assert s.trace == p.trace + [RunOnceHook] + if p.kind == Loading then [MusicPlay] else [];
    SetupAndTeardownCalls(p.trace, s.trace, q.trace, m, AtExitCalls(p.kind), returned);
  }

  /** A trace made of the calls before `run`, `run_once` and possibly the music, then iteration
      calls, then (only if `run` returned) the calls of `atexit`: after the first of them, no call
      is `run_once`, and `atexit`'s is the first of its own calls. */
  lemma SetupAndTeardownCalls(before: seq<Call>, setup: seq<Call>, t: seq<Call>, m: nat,
                              teardown: seq<Call>, returned: bool)
    requires setup == before + [RunOnceHook] || setup == before + [RunOnceHook, MusicPlay]
    requires setup <= t && |setup| <= m <= |t|
    requires forall i :: |setup| <= i < m ==> IterationCall(t[i])
    requires returned ==> t[m..] == teardown
    requires !returned ==> m == |t|
    requires teardown == [AtExitHook] || teardown == [AtExitHook, MusicStop]
    ensures forall i :: |before| < i < |t| ==> t[i] != RunOnceHook
    ensures forall i :: |before| < i < |t| && t[i] == AtExitHook ==> returned && i == m
  {
    forall i | |before| < i < |t|
      ensures t[i] != RunOnceHook
      ensures t[i] == AtExitHook ==> returned && i == m
    {
      if i < |setup| {
        assert t[i] == setup[i];
      } else if i < m {
        assert IterationCall(t[i]);
      } else {
        assert t[i] == t[m..][i - m];
      }
    }
    if returned {
      assert t[m] == t[m..][0];
    }
  }

  /** The base `run_once` records the start time and fixes `endtime = start + lifetime`, and
      nothing after it changes either; a loading screen keeps the deadline of its constructor. */
  lemma {:induction false} DeadlineFixedByRunOnce<P>(p: Phase, start: real, frames: seq<Frame>)
    ensures var q := Lifecycle<P>(p, start, frames).0;
            if p.kind == Loading then q.starttime == p.starttime && q.endtime == p.endtime
            else q.starttime == Some(start) && q.endtime == Some(Plus(start, p.lifetime))
  {
    LoopShape<P>(AfterRunOnce(p, start), frames);
  }

  /** Index of the first frame read after the deadline `d`, or the number of frames. */
  function FirstAfter(frames: seq<Frame>, d: real): (k: nat)
    ensures k <= |frames|
    ensures forall j :: 0 <= j < k ==> frames[j].now <= d
    ensures k < |frames| ==> frames[k].now > d
  {
    if frames == [] then 0
    else if frames[0].now > d then 0
    else 1 + FirstAfter(frames[1..], d)
  }

  /** A complete iteration drains the events exactly once. */
  lemma {:induction false} OnePollPerIteration(p: Phase, f: Frame)
    ensures multiset(FullIteration(p, f))[EventPoll] == 1
  {
    var tc := TaskCalls(p.tasks);
    assert forall i :: 0 <= i < |tc| ==> tc[i] != EventPoll;
    assert EventPoll !in tc;
    assert EventPoll !in StepCalls(p.kind, f.elapsedMs as real / 1000.0);
  }

  /** The calls added over a run, split at an intermediate trace. */
  lemma {:induction false} AddedCalls(a: seq<Call>, b: seq<Call>, c: seq<Call>)
    requires a <= b <= c
    ensures c[|a|..] == b[|a|..] + c[|b|..]
  {
  }

  /** A trace that continues past one complete iteration holds one more poll after the start of
      that iteration than after its end. */
  lemma {:induction false} PollsAdded(p: Phase, f: Frame, t1: seq<Call>, t: seq<Call>)
    requires t1 == p.trace + FullIteration(p, f) && t1 <= t
    ensures p.trace <= t
    ensures multiset(t[|p.trace|..])[EventPoll] == 1 + multiset(t[|t1|..])[EventPoll]
  {
    AddedCalls(p.trace, t1, t);
    assert t1[|p.trace|..] == FullIteration(p, f);
    OnePollPerIteration(p, f);
  }

  /** A frame read in time runs one complete iteration and the loop goes on with the rest. */
  lemma {:induction false} InTimeFrame<P>(p: Phase, frames: seq<Frame>, d: real)
    requires p.kind != MainGame && p.alive && p.endtime == Some(At(d)) && NoRaisingTask(p)
    requires frames != [] && frames[0].now <= d && Quit !in frames[0].events
    ensures var q1 := Iteration(p, frames[0]).0;
            Loop<P>(p, frames) == Loop<P>(q1, frames[1..])
            && q1.alive && q1.kind == p.kind && q1.endtime == p.endtime && q1.tasks == p.tasks
            && q1.trace == p.trace + FullIteration(p, frames[0])
  {
    DeadlineIsStrict(p, frames[0], d);
    IterationOrder(p, frames[0]);
    IterationShape(p, frames[0]);
  }

  /** A frame read after the deadline ends the loop with `atexit` and nothing else. */
  lemma {:induction false} LateFrame<P>(p: Phase, frames: seq<Frame>, d: real)
    requires p.kind != MainGame && p.alive && p.endtime == Some(At(d))
    requires frames != [] && frames[0].now > d
    ensures Loop<P>(p, frames) == (AfterAtExit(p.(alive := false)), Returned(None))
  {
    DeadlineIsStrict(p, frames[0], d);
    assert Loop<P>(p, frames) == Loop<P>(p.(alive := false), frames[1..]);
  }

  /** With a finite deadline `d`, no QUIT and no raising task, the loop runs one complete
      iteration per frame read at or before `d`; the first frame read after `d` clears `alive`
      and `run` returns after `atexit`.  If no frame is late, the phase is still running. */
  lemma {:induction false} LoopStopsAtFirstLateFrame<P>(p: Phase, frames: seq<Frame>, d: real)
    requires p.kind != MainGame && p.alive && p.endtime == Some(At(d)) && NoRaisingTask(p)
    requires forall j :: 0 <= j < |frames| ==> Quit !in frames[j].events
    ensures var (q, r) := Loop<P>(p, frames);
            var k := FirstAfter(frames, d);
            (r == if k < |frames| then Returned(None) else Pending)
            && q.alive == (k == |frames|)
            && p.trace <= q.trace
            && multiset(q.trace[|p.trace|..])[EventPoll] == k
    decreases |frames|
  {
    if frames != [] {
      if frames[0].now > d {
        LateFrame<P>(p, frames, d);
        var q := Loop<P>(p, frames).0;
        assert q.trace[|p.trace|..] == AtExitCalls(p.kind);
      } else {
        InTimeFrame<P>(p, frames, d);
        var q1 := Iteration(p, frames[0]).0;
        forall j | 0 <= j < |frames[1..]| ensures Quit !in frames[1..][j].events {
          assert frames[1..][j] == frames[j + 1];
        }
        LoopStopsAtFirstLateFrame<P>(q1, frames[1..], d);
        var q := Loop<P>(q1, frames[1..]).0;
        PollsAdded(p, frames[0], q1.trace, q.trace);
      }
    }
  }

  /** Game's iteration has no deadline check, so nothing clears `alive`: `run` never returns
      and `atexit` never runs; it ends only by an exit, a fault, or the frames running out. */
  lemma {:induction false} GameNeverReturns<P>(p: Phase, frames: seq<Frame>)
    requires p.kind == MainGame && p.alive
    ensures var (q, r) := Loop<P>(p, frames);
            !r.Returned? && q.alive && p.trace <= q.trace && AtExitHook !in q.trace[|p.trace|..]
    ensures (forall j :: 0 <= j < |frames| ==> Quit !in frames[j].events) && NoRaisingTask(p)
            ==> Loop<P>(p, frames).1 == Pending
    decreases |frames|
  {
    LoopShape<P>(p, frames);
    if frames != [] {
      IterationShape(p, frames[0]);
      var (q1, o) := Iteration(p, frames[0]);
      if o == Continue {
        forall j | 0 <= j < |frames[1..]| ensures frames[1..][j] == frames[j + 1] { }
        GameNeverReturns<P>(q1, frames[1..]);
      }
      if (forall j :: 0 <= j < |frames| ==> Quit !in frames[j].events) && NoRaisingTask(p) {
        assert Quit !in frames[0].events;
        IterationOrder(p, frames[0]);
      }
    }
    var (q, r) := Loop<P>(p, frames);
    forall i | |p.trace| <= i < |q.trace| ensures q.trace[i] != AtExitHook {
      assert IterationCall(q.trace[i]);
    }
  }

  /** A loading screen's stripe offset never decreases over a run: every step adds 70 * dt
      with dt = get_time() / 1000 >= 0. */
  lemma {:induction false} StripesNeverMoveBack<P>(p: Phase, frames: seq<Frame>)
    requires p.kind == Loading && p.speed == StripeSpeed
    ensures Loop<P>(p, frames).0.position >= p.position
    decreases |frames|
  {
    if p.alive && frames != [] {
      var f := frames[0];
      var (q1, o) := Iteration(p, f);
      IterationShape(p, f);
      assert q1.position >= p.position by {
        if Passed(f.now, p.endtime) == Ok(false) && Quit !in f.events {
          var pre := p.(trace := p.trace + [EventPoll]);
          TasksRunInOrder(pre.trace, pre.tasks);
          StepForward(pre.(trace := AfterTasks(pre.trace, pre.tasks).0), f.elapsedMs as real / 1000.0);
        }
      }
      if o == Continue {
        StripesNeverMoveBack<P>(q1, frames[1..]);
      }
    }
  }

  // ---------------------------------------------------------------- concrete phases

  /** The loading screens start their music in `run_once` and stop it in `atexit`: after a run
      the music plays exactly when `run` did not return (an exit skips the teardown). */
  lemma {:induction false} LoadingMusic<P>(p: Phase, start: real, frames: seq<Frame>)
    requires p.kind == Loading
    ensures var (q, r) := Lifecycle<P>(p, start, frames);
            q.playing <==> !r.Returned?
  {
    LoopShape<P>(AfterRunOnce(p, start), frames);
  }

  /** The loading screen of Engine/apps.py counts its deadline from construction, not from
      `run`: whatever the start reading, it returns after the first frame read later than
      construction time plus lifetime, with its music stopped, if no QUIT comes first. */
  lemma {:induction false} EngineLoadingScreenEndsAtDeadline<P>(built: real, lifetime: real, start: real, frames: seq<Frame>)
    requires forall j :: 0 <= j < |frames| ==> Quit !in frames[j].events
    requires FirstAfter(frames, built + lifetime) < |frames|
    ensures var (q, r) := Lifecycle<P>(EngineLoadingScreen(built, lifetime), start, frames);
            r == Returned(None) && !q.alive && !q.playing && q.endtime == Some(At(built + lifetime))
  {
    var s := AfterRunOnce(EngineLoadingScreen(built, lifetime), start);
    LoopStopsAtFirstLateFrame<P>(s, frames, built + lifetime);
    LoopShape<P>(s, frames);
  }

  /** The loading screen of src/game.py as written never sets the base `endtime`, so the first
      deadline check compares a float with None and raises TypeError: no frame is drawn, and
      the music started by `run_once` is never stopped. */
  lemma {:induction false} GameLoadingScreenRaises<P>(built: real, lifetime: real, start: real, frames: seq<Frame>)
    requires frames != []
    ensures var (q, r) := Lifecycle<P>(GameLoadingScreen(built, lifetime), start, frames);
            r == Raised(TypeError) && q.trace == [RunOnceHook, MusicPlay] && q.playing && q.alive
  {
  }

  /** Init has lifetime 0: a first frame read after `run_once` ends it with no iteration, one
      read at the same instant still runs a complete iteration. */
  lemma {:induction false} InitLivesOneInstant<P>(hexversion: int, start: real, f: Frame)
    requires hexversion >= MinimumHexVersion && Quit !in f.events
    ensures NewInit(hexversion).Ok?
    ensures var p := NewInit(hexversion).value;
            (f.now > start ==> Lifecycle<P>(p, start, [f]) == (AfterAtExit(AfterRunOnce(p, start).(alive := false)), Returned(None)))
            && (f.now == start ==> Lifecycle<P>(p, start, [f]).0.trace == [RunOnceHook] + FullIteration(p, f))
  {
    var p := NewInit(hexversion).value;
    var s := AfterRunOnce(p, start);
    assert s.endtime == Some(At(start)) && s.trace == [RunOnceHook];
    DeadlineIsStrict(s, f, start);
    assert Lifecycle<P>(p, start, [f]) == Loop<P>(s, [f]);
    assert [f][1..] == [];
    if f.now > start {
      assert Loop<P>(s, [f]) == Loop<P>(s.(alive := false), []);
    }
    if f.now == start {
      IterationOrder(s, f);
      assert FullIteration(s, f) == FullIteration(p, f);
      var q := Iteration(s, f).0;
      assert q.alive;
      assert Loop<P>(s, [f]) == Loop<P>(q, []);
    }
  }
}
