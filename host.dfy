/** What the phase runner receives from its host (the Python runtime, pygame's clock and event
    queue, perf_counter) and the records it leaves behind.  Time, the clock and the event queue
    are inputs here: one `Frame` per iteration, one `Input` per phase run. */
module Host {

  datatype Option<T> = None | Some(value: T)

  /** The Python exceptions the core raises or tells apart. */
  datatype Exception =
    | IndexError              // `popleft` on an empty deque, or raised inside a phase
    | TypeError               // a float ordered against None
    | SystemError             // the interpreter-version check of Init
    | OtherError(name: string)

  datatype Result<T> = Ok(value: T) | Err(error: Exception)

  /** A phase lifetime in seconds; `Unbounded` is float('inf'). */
  datatype Duration = Seconds(s: real) | Unbounded

  /** A point on the perf_counter time line, or +inf. */
  datatype Instant = At(t: real) | Infinity

  /** `start + lifetime` with float('inf') absorbing. */
  function Plus(start: real, lifetime: Duration): (r: Instant)
    ensures r.Infinity? <==> lifetime.Unbounded?
    ensures r.At? ==> r.t - start == lifetime.s
  {
    match lifetime
    case Seconds(s) => At(start + s)
    case Unbounded => Infinity
  }

  /** Python's `now > endtime`: a float cannot be ordered against None. */
  function Passed(now: real, endtime: Option<Instant>): (r: Result<bool>)
    ensures r.Err? <==> endtime.None?
    ensures r.Err? ==> r.error == TypeError
    ensures r == Ok(true) <==> endtime.Some? && endtime.value.At? && now > endtime.value.t
  {
    match endtime
    case None => Err(TypeError)
    case Some(Infinity) => Ok(false)
    case Some(At(t)) => Ok(now > t)
  }

  datatype Vec = Vec(x: real, y: real)

  function Add(a: Vec, b: Vec): Vec {
    Vec(a.x + b.x, a.y + b.y)
  }

  /** A pygame event, with the device state the handler reads while processing it:
      `leftPressed` is `mouse.get_pressed(3)[0]`, `rHeld`/`f3Held` are `key.get_pressed()`
      at K_r/K_F3, and `shift` is the camera displacement computed from `event.rel`. */
  datatype Event =
    | Quit
    | MouseMotion(shift: Vec, leftPressed: bool)
    | MouseWheel(y: int)
    | KeyDown(rHeld: bool, f3Held: bool)
    | OtherEvent

  /** What one iteration reads from its host: `perf_counter()` at the deadline check,
      `clock.get_time()` in milliseconds, and the result of `pygame.event.get()`. */
  datatype Frame = Frame(now: real, elapsedMs: nat, events: seq<Event>)

  /** What one `run` reads: `perf_counter()` in `run_once`, then one frame per iteration. */
  datatype Input = Input(start: real, frames: seq<Frame>)

  /** A registered per-iteration hook; `raises` is the exception the call raises, if any. */
  datatype Task = Task(id: nat, raises: Option<Exception>)

  /** One entry of the call trace a phase records. */
  datatype Call =
    | RunOnceHook
    | EventPoll
    | TaskCall(id: nat)
    | StepHook(dt: real)
    | KeyboardHandler
    | SceneStep(dt: real)
    | DrawHook
    | ClockTick(framerate: nat)
    | CaptionUpdate
    | AtExitHook
    | MusicPlay
    | MusicStop

  /** How one call of `on_iteration` ends: normally, by `sys.exit()` after a QUIT event,
      or by raising. */
  datatype Outcome = Continue | Exit | Fault(error: Exception)

  /** How one call of a phase's `run` ends: it returns the next phase or None, the process
      exits, it raises, or the inputs ran out while the phase was still alive. */
  datatype Ran<P> = Returned(next: Option<P>) | Exited | Raised(error: Exception) | Pending
}
