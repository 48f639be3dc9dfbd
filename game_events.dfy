/** The event-to-state bridge of the Game phase (src/game.py, `Game.on_iteration`):
    how drained pygame events move the camera and toggle the developer overlay. */
module GameEvents {
  import opened Host

  /** The two camera attributes the Game phase writes. */
  datatype Camera = Camera(position: Vec, distance: real)

  /** The Game phase's event-driven state: its camera and its `DEVMODE` flag. */
  datatype View = View(camera: Camera, devMode: bool)

  /** Camera distance of `Camera(screen, distance=16)`. */
  const InitialDistance: real := 16.0
  /** Camera distance after the R-key reset. */
  const ResetDistance: real := 14.0

  /** The effect of one event other than QUIT, checked by the handler's four independent `if`s. */
  function HandleEvent(v: View, e: Event): (w: View)
    ensures e.MouseMotion? && !e.leftPressed ==> w == v
    ensures e.OtherEvent? || e.Quit? ==> w == v
    ensures !e.KeyDown? ==> w.devMode == v.devMode
    ensures e.KeyDown? ==> w.devMode == (v.devMode != e.f3Held)
  {
    match e
    case MouseMotion(shift, left) =>
      if left then v.(camera := v.camera.(position := Add(v.camera.position, shift))) else v
    case MouseWheel(y) =>
      v.(camera := v.camera.(distance := v.camera.distance - y as real))
    case KeyDown(r, f3) =>
      var c := if r then Camera(Vec(0.0, 0.0), ResetDistance) else v.camera;
      View(c, if f3 then !v.devMode else v.devMode)
    case _ => v
  }

  /** The event loop: handle events in order; a QUIT ends it at once (then the process exits).
      The boolean says whether a QUIT was met. */
  function Drain(v: View, events: seq<Event>): (r: (View, bool))
    ensures r.1 <==> Quit in events
    decreases |events|
  {
    if events == [] then (v, false)
    else if events[0] == Quit then (v, true)
    else Drain(HandleEvent(v, events[0]), events[1..])
  }

  /** Number of events among `events` that toggle the overlay. */
  function F3Presses(events: seq<Event>): nat {
    if events == [] then 0
    else (if events[0].KeyDown? && events[0].f3Held then 1 else 0) + F3Presses(events[1..])
  }

  /** Sum of the wheel deltas among `events`. */
  function WheelTotal(events: seq<Event>): int {
    if events == [] then 0
    else (if events[0].MouseWheel? then events[0].y else 0) + WheelTotal(events[1..])
  }

  /** A MOUSEWHEEL event lowers the camera distance by its `y` and changes nothing else. */
  lemma WheelOnlyZooms(v: View, y: int)
    ensures HandleEvent(v, MouseWheel(y)) == View(Camera(v.camera.position, v.camera.distance - y as real), v.devMode)
  {
  }

  /** A KEYDOWN while R is held puts the camera at the origin and distance 14, whatever it was. */
  lemma KeyRResets(v: View, f3: bool)
    ensures HandleEvent(v, KeyDown(true, f3)).camera == Camera(Vec(0.0, 0.0), ResetDistance)
  {
  }

  /** Two overlay-toggling key presses restore the flag. */
  lemma F3TwiceRestores(v: View, r1: bool, r2: bool)
    ensures HandleEvent(HandleEvent(v, KeyDown(r1, true)), KeyDown(r2, true)).devMode == v.devMode
  {
  }

  /** Over a whole drain without QUIT, `DEVMODE` ends negated exactly when an odd number of
      events held F3: the toggles cancel in pairs and nothing else touches the flag. */
  lemma {:induction false} DrainDevModeParity(v: View, events: seq<Event>)
    requires Quit !in events
    ensures Drain(v, events).0.devMode == (v.devMode != (F3Presses(events) % 2 == 1))
    decreases |events|
  {
    if events != [] {
      assert events[0] in events;
      assert Quit !in events[1..] by {
        forall i | 0 <= i < |events[1..]| ensures events[1..][i] != Quit {
          assert events[1..][i] == events[i + 1];
        }
      }
      DrainDevModeParity(HandleEvent(v, events[0]), events[1..]);
    }
  }

  /** With no R reset among them, a drain without QUIT lowers the distance by the total of the
      wheel deltas: motion, other events and overlay toggles leave it alone. */
  lemma {:induction false} DrainZoom(v: View, events: seq<Event>)
    requires Quit !in events
    requires forall i :: 0 <= i < |events| && events[i].KeyDown? ==> !events[i].rHeld
    ensures Drain(v, events).0.camera.distance == v.camera.distance - WheelTotal(events) as real
    decreases |events|
  {
    if events != [] {
      assert events[0] in events;
      assert Quit !in events[1..] by {
        forall i | 0 <= i < |events[1..]| ensures events[1..][i] != Quit {
          assert events[1..][i] == events[i + 1];
        }
      }
      forall i | 0 <= i < |events[1..]| && events[1..][i].KeyDown?
        ensures !events[1..][i].rHeld
      {
        assert events[1..][i] == events[i + 1];
      }
      DrainZoom(HandleEvent(v, events[0]), events[1..]);
    }
  }

  /** Events after the first QUIT are never handled: the view is the one reached by the events
      before it, and the loop reports the QUIT. */
  lemma {:induction false} DrainStopsAtQuit(v: View, before: seq<Event>, after: seq<Event>)
    requires Quit !in before
    ensures Drain(v, before + [Quit] + after) == (Drain(v, before).0, true)
    decreases |before|
  {
    if before == [] {
      assert before + [Quit] + after == [Quit] + after;
    } else {
      assert before[0] in before;
      assert (before + [Quit] + after)[1..] == before[1..] + [Quit] + after;
      assert Quit !in before[1..] by {
        forall i | 0 <= i < |before[1..]| ensures before[1..][i] != Quit {
          assert before[1..][i] == before[i + 1];
        }
      }
      DrainStopsAtQuit(HandleEvent(v, before[0]), before[1..], after);
    }
  }

  /** Mouse motion with the left button up is invisible to the drain: removing such an event
      changes nothing. */
  lemma {:induction false} UnpressedMotionIgnored(v: View, before: seq<Event>, shift: Vec, after: seq<Event>)
    ensures Drain(v, before + [MouseMotion(shift, false)] + after) == Drain(v, before + after)
    decreases |before|
  {
    if before == [] {
      assert before + [MouseMotion(shift, false)] + after == [MouseMotion(shift, false)] + after;
      assert ([MouseMotion(shift, false)] + after)[1..] == after;
      assert before + after == after;
      assert HandleEvent(v, MouseMotion(shift, false)) == v;
    } else {
      assert (before + [MouseMotion(shift, false)] + after)[0] == before[0];
      assert (before + after)[0] == before[0];
      assert (before + [MouseMotion(shift, false)] + after)[1..] == before[1..] + [MouseMotion(shift, false)] + after;
      assert (before + after)[1..] == before[1..] + after;
      if before[0] != Quit {
        UnpressedMotionIgnored(HandleEvent(v, before[0]), before[1..], shift, after);
      }
    }
  }
}
