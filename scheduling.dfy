/** The FIFO phase scheduler of Engine/apps.py (`App.run`) as a function of what each phase run
    produced.  The k-th entry of `results` is how the k-th phase run ended; the scheduler decides
    which phase that run belonged to and whether another run follows. */
module Scheduling {
  import opened Host

  /** How `App.run` ends: it returns (the deque ran dry, or an IndexError ended the loop), the
      process exits, an exception other than IndexError propagates, or the runs observed so far
      do not decide it yet. */
  datatype Stop = Drained | SysExit | Escaped(error: Exception) | Unfinished

  /** The phases a scheduler runs, in order, and how it stops.  `next` is the `nextapp` variable:
      when it is None the front of the deque is popped (an empty deque raises IndexError, which
      stops the loop); otherwise that phase runs and its result becomes the new `nextapp`. */
  function Schedule<P>(queue: seq<P>, next: Option<P>, results: seq<Ran<P>>): (r: (Stop, seq<P>))
    ensures |r.1| <= |results|
    decreases |results|, |queue|
  {
    match next
    case None =>
      if queue == [] then (Drained, [])
      else Schedule(queue[1..], Some(queue[0]), results)
    case Some(app) =>
      if results == [] then (Unfinished, [])
      else
        var rest :=
          if results[0].Returned? then Schedule(queue, results[0].next, results[1..])
          else (StopAfter(results[0]), []);
        (rest.0, [app] + rest.1)
  }

  /** How the scheduler stops after a run that did not return: an IndexError stops it
      silently, another exception propagates, an exit passes through. */
  function StopAfter<P>(result: Ran<P>): (s: Stop)
    requires !result.Returned?
    ensures s == Drained <==> result == Raised(IndexError)
    ensures s.Escaped? <==> result.Raised? && result.error != IndexError
    ensures s.Escaped? ==> s.error == result.error
    ensures s == SysExit <==> result == Exited
  {
    match result
    case Raised(e) => if e == IndexError then Drained else Escaped(e)
    case Exited => SysExit
    case Pending => Unfinished
  }

  /** Why a schedule stops: every run but the last returned; an exception other than
      IndexError, or an exit, is the last run's own; a drained deque follows a run that returned
      None or raised IndexError (or no run at all); an undecided one has used up the observed
      runs or ends on a run that has not finished. */
  lemma {:induction false} ScheduleStops<P>(queue: seq<P>, next: Option<P>, results: seq<Ran<P>>)
    ensures var (s, ran) := Schedule(queue, next, results);
            && (forall k :: 0 <= k < |ran| - 1 ==> results[k].Returned?)
            && (s.Escaped? ==> 0 < |ran| && results[|ran| - 1] == Raised(s.error) && s.error != IndexError)
            && (s.SysExit? ==> 0 < |ran| && results[|ran| - 1] == Exited)
            && (s.Unfinished? ==> |ran| == |results| || (0 < |ran| && results[|ran| - 1] == Pending))
            && (s.Drained? ==> ran == [] || results[|ran| - 1] in {Ran.Raised(IndexError), Returned(None)})
    decreases |results|, |queue|
  {
    match next
    case None =>
      if queue != [] {
        ScheduleStops(queue[1..], Some(queue[0]), results);
      }
    case Some(app) =>
      if results != [] && results[0].Returned? {
        ScheduleStops(queue, results[0].next, results[1..]);
        var (s, ran) := Schedule(queue, results[0].next, results[1..]);
        assert Schedule(queue, next, results) == (s, [app] + ran);
        forall k | 0 < k < |ran| + 1 ensures ([app] + ran)[k] == ran[k - 1] && results[k] == results[1..][k - 1] {
        }
      }
  }

  /** No run returned a successor. */
  predicate NoSuccessors<P>(results: seq<Ran<P>>) {
    forall k :: 0 <= k < |results| && results[k].Returned? ==> results[k].next.None?
  }

  /** An `App` built with no phases returns at once, running nothing. */
  lemma EmptyAppReturns<P>(results: seq<Ran<P>>)
    ensures Schedule<P>([], None, results) == (Drained, [])
  {
  }

  /** A non-None return value is run next, without popping the deque. */
  lemma {:induction false} SuccessorRunsNext<P>(queue: seq<P>, n: P, results: seq<Ran<P>>)
    requires queue != []
    ensures var r := Schedule(queue[1..], Some(n), results);
            Schedule(queue, None, [Returned(Some(n))] + results) == (r.0, [queue[0]] + r.1)
  {
    assert ([Returned(Some(n))] + results)[1..] == results;
  }

  /** When no phase names a successor, the phases run front-first in deque order, each at most
      once: the phases that ran are a prefix of the deque. */
  lemma {:induction false} PlainPhasesRunInOrder<P>(queue: seq<P>, results: seq<Ran<P>>)
    requires NoSuccessors(results)
    ensures var (_, ran) := Schedule(queue, None, results);
            |ran| <= |queue| && ran == queue[..|ran|]
    decreases |queue|
  {
    if queue != [] && results != [] {
      assert results[0] in results;
      var rest := results[1..];
      assert NoSuccessors(rest) by {
        forall k | 0 <= k < |rest| && rest[k].Returned? ensures rest[k].next.None? {
          assert rest[k] == results[k + 1];
        }
      }
      if results[0].Returned? {
        assert Schedule(queue, None, results) == Schedule(queue[1..], Some(queue[0]), results);
        PlainPhasesRunInOrder(queue[1..], rest);
      }
    }
  }

  /** When every phase run returns None and there are enough of them, every phase of the deque
      runs once, in order, and the scheduler returns once the deque is empty. */
  lemma {:induction false} AllReturnDrains<P>(queue: seq<P>, results: seq<Ran<P>>)
    requires |queue| <= |results|
    requires forall k :: 0 <= k < |queue| ==> results[k] == Returned(None)
    ensures Schedule(queue, None, results) == (Drained, queue)
    decreases |queue|
  {
    if queue != [] {
      var rest := results[1..];
      forall k | 0 <= k < |queue[1..]| ensures rest[k] == Returned(None) {
        assert rest[k] == results[k + 1];
      }
      AllReturnDrains(queue[1..], rest);
      assert queue == [queue[0]] + queue[1..];
    }
  }

  /** The run of the i-th phase ends the scheduler exactly as its exception says: an IndexError
      stops it silently, any other exception propagates unchanged, and the later phases never
      run. */
  lemma {:induction false} FaultStopsTheScheduler<P>(queue: seq<P>, results: seq<Ran<P>>, i: nat, e: Exception)
    requires i < |queue| && i < |results|
    requires forall k :: 0 <= k < i ==> results[k] == Returned(None)
    requires results[i] == Ran.Raised(e)
    ensures Schedule(queue, None, results) == (if e == IndexError then Drained else Escaped(e), queue[..i + 1])
    decreases i
  {
    var rest := results[1..];
    assert Schedule(queue, None, results) == Schedule(queue[1..], Some(queue[0]), results);
    if i == 0 {
      assert queue[..1] == [queue[0]] == [queue[0]] + [];
    } else {
      forall k | 0 <= k < i - 1 ensures rest[k] == Returned(None) {
        assert rest[k] == results[k + 1];
      }
      FaultStopsTheScheduler(queue[1..], rest, i - 1, e);
      assert queue[..i + 1] == [queue[0]] + queue[1..][..i];
    }
  }

  // ---------------------------------------------------------------- resuming a schedule

  /** The scheduler between two runs: the rest of the deque, `nextapp`, and the phases run so
      far. */
  datatype Config<P> = Config(rest: seq<P>, next: Option<P>, ran: seq<P>)

  /** `if nextapp is None: nextapp = self.microapps.popleft()`: the phase that runs next and the
      deque after it, or None when `popleft` raises IndexError. */
  function Dispatch<P>(c: Config<P>): (d: Option<(P, seq<P>)>)
    ensures d.None? <==> c.next.None? && c.rest == []
    ensures d.Some? && c.next.Some? ==> d.value == (c.next.value, c.rest)
    ensures d.Some? && c.next.None? ==> [d.value.0] + d.value.1 == c.rest
  {
    match c.next
    case Some(app) => Some((app, c.rest))
    case None => if c.rest == [] then None else Some((c.rest[0], c.rest[1..]))
  }

  /** Where the scheduler is after runs that all returned, or None if it stopped before the
      last of them: each run belongs to the dispatched phase, and its return value becomes
      `nextapp`. */
  function After<P>(queue: seq<P>, outcomes: seq<Ran<P>>): (c: Option<Config<P>>)
    ensures c.Some? ==> |c.value.ran| == |outcomes|
    decreases |outcomes|
  {
    if outcomes == [] then Some(Config(queue, None, []))
    else
      var last := outcomes[|outcomes| - 1];
      match After(queue, outcomes[..|outcomes| - 1])
      case None => None
      case Some(c) =>
        match Dispatch(c)
        case None => None
        case Some((app, rest)) =>
          if last.Returned? then Some(Config(rest, last.next, c.ran + [app])) else None
  }

  /** The runs `ran` followed by what a schedule does next. */
  function Join<P>(ran: seq<P>, r: (Stop, seq<P>)): (Stop, seq<P>) {
    (r.0, ran + r.1)
  }

  /** One step of a schedule from a configuration: no observed run leaves it undecided; a run
      that returns goes on from the new configuration; any other run ends it. */
  lemma {:induction false} ScheduleFrom<P>(c: Config<P>, rs: seq<Ran<P>>)
    requires Dispatch(c).Some?
    ensures var (app, rest) := Dispatch(c).value;
            Schedule(c.rest, c.next, rs)
            == if rs == [] then (Unfinished, [])
               else if rs[0].Returned? then Join([app], Schedule(rest, rs[0].next, rs[1..]))
               else (StopAfter(rs[0]), [app])
  {
    var (app, rest) := Dispatch(c).value;
    assert Schedule(c.rest, c.next, rs) == Schedule(rest, Some(app), rs);
    if rs != [] && !rs[0].Returned? {
      assert [app] + [] == [app];
    }
  }

  /** The schedule over outcomes that continue those that led to a configuration is that
      configuration's schedule over the continuation, after the runs already made. */
  lemma {:induction false} ResumeAfter<P>(queue: seq<P>, outcomes: seq<Ran<P>>, rs: seq<Ran<P>>)
    requires After(queue, outcomes).Some?
    ensures var c := After(queue, outcomes).value;
            Schedule(queue, None, outcomes + rs) == Join(c.ran, Schedule(c.rest, c.next, rs))
    decreases |outcomes|
  {
    var c := After(queue, outcomes).value;
    if outcomes == [] {
      assert outcomes + rs == rs;
      assert c.ran + Schedule(c.rest, c.next, rs).1 == Schedule(c.rest, c.next, rs).1;
    } else {
      var init := outcomes[..|outcomes| - 1];
      var last := outcomes[|outcomes| - 1];
      var c0 := After(queue, init).value;
      var (app, rest) := Dispatch(c0).value;
      assert c == Config(rest, last.next, c0.ran + [app]);
      ResumeAfter(queue, init, [last] + rs);
      assert init + ([last] + rs) == outcomes + rs;
      ScheduleFrom(c0, [last] + rs);
      assert ([last] + rs)[1..] == rs;
      assert c0.ran + ([app] + Schedule(rest, last.next, rs).1) == c.ran + Schedule(rest, last.next, rs).1;
    }
  }

  /** After runs that named no successor, `nextapp` is None and the phases run so far followed
      by the rest of the deque make up the whole deque. */
  lemma {:induction false} AfterPlainRuns<P>(queue: seq<P>, outcomes: seq<Ran<P>>)
    requires NoSuccessors(outcomes) && After(queue, outcomes).Some?
    ensures var c := After(queue, outcomes).value;
            c.next == None && c.ran + c.rest == queue
    decreases |outcomes|
  {
    if outcomes != [] {
      var n := |outcomes| - 1;
      AfterLast(queue, outcomes);
      NoSuccessorsPrefix(outcomes, n);
      AfterPlainRuns(queue, outcomes[..n]);
      var c0 := After(queue, outcomes[..n]).value;
      var d := Dispatch(c0).value;
      assert (c0.ran + [d.0]) + d.1 == c0.ran + ([d.0] + d.1);
    }
  }

  /** The configuration after a last run that returned: the one its predecessors led to, with
      the dispatched phase run and the run's return value as `nextapp`. */
  lemma AfterLast<P>(queue: seq<P>, outcomes: seq<Ran<P>>)
    requires outcomes != [] && After(queue, outcomes).Some?
    ensures var n := |outcomes| - 1;
            var c0 := After(queue, outcomes[..n]);
            && c0.Some? && Dispatch(c0.value).Some? && outcomes[n].Returned?
            && After(queue, outcomes).value
               == Config(Dispatch(c0.value).value.1, outcomes[n].next, c0.value.ran + [Dispatch(c0.value).value.0])
  {
  }

  /** A prefix of runs that named no successor names none either, and the last run names none. */
  lemma NoSuccessorsPrefix<P>(results: seq<Ran<P>>, n: nat)
    requires NoSuccessors(results) && n < |results|
    ensures NoSuccessors(results[..n])
    ensures results[n].Returned? ==> results[n].next.None?
  {
    forall k | 0 <= k < n && results[..n][k].Returned? ensures results[..n][k].next.None? {
      assert results[..n][k] == results[k];
    }
  }

  /** A run from a configuration that can dispatch: if it returns, the scheduler reaches the
      configuration its return value names; otherwise the schedule ends with that run. */
  lemma {:induction false} AfterRun<P>(queue: seq<P>, outcomes: seq<Ran<P>>, result: Ran<P>)
    requires After(queue, outcomes).Some? && Dispatch(After(queue, outcomes).value).Some?
    ensures var c := After(queue, outcomes).value;
            var (app, rest) := Dispatch(c).value;
            if result.Returned? then After(queue, outcomes + [result]) == Some(Config(rest, result.next, c.ran + [app]))
            else Schedule(queue, None, outcomes + [result]) == (StopAfter(result), c.ran + [app])
  {
    var c := After(queue, outcomes).value;
    assert (outcomes + [result])[..|outcomes|] == outcomes;
    if !result.Returned? {
      ResumeAfter(queue, outcomes, [result]);
      ScheduleFrom(c, [result]);
    }
  }

  /** A schedule over the runs that led to a configuration ends there: drained if nothing is
      left to dispatch, undecided otherwise. */
  lemma {:induction false} StopAt<P>(queue: seq<P>, outcomes: seq<Ran<P>>)
    requires After(queue, outcomes).Some?
    ensures var c := After(queue, outcomes).value;
            Schedule(queue, None, outcomes) == (if Dispatch(c).None? then Drained else Unfinished, c.ran)
  {
    var c := After(queue, outcomes).value;
    ResumeAfter(queue, outcomes, []);
    assert outcomes + [] == outcomes && c.ran + [] == c.ran;
    if Dispatch(c).Some? {
      ScheduleFrom(c, []);
    }
  }
}
