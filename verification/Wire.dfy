/**
 The connection around the translator: emission into a controller that may be gone, the pull-driven step,
 the beat loop, cancellation and the overflow escape. One `Action` is one synchronous run of the event loop,
 so a list of actions is one interleaving.
 */
module Wire {
  import opened Text
  import opened Responses
  import T = Translator

  /** What was enqueued: a frame of the translator, the failure frame of an overflow, `[DONE]`, a heartbeat. */
  datatype WireFrame = Sent(f: Frame) | OverflowFailure | DoneMarker | Beat

  /** How one `emit` goes; on overflow, whether the two frames of the escape can still be enqueued. */
  datatype Fate = Ok | Throws | Overflows(failureSent: bool, doneSent: bool)

  /** How the awaited `it.next()` settles. */
  datatype Pulled = Got(e: Event) | Ended | Rejected(message: string) | RejectedByBudget(failureSent: bool, doneSent: bool)

  /**
   An exception in the middle of a synchronous run. `Trip`: of the budget, by the handler of an event after its
   first `after` frames; `step` catches it and takes the escape. `Fault`: any other, by a handler that had come to
   the state `mid`; `step` catches it and ends the turn from there, and the closings of that end may throw `again`.
   `Slip`: by the closings of an abnormal end, where nobody catches it and the state stays as it was `left`.
   */
  datatype Trip =
    | NoTrip
    | Trip(after: nat, failureSent: bool, doneSent: bool)
    | Fault(mid: T.State, message: string, again: Option<T.State>)
    | Slip(left: T.State)

  datatype Action =
    | Pull
    | Resume(pulled: Pulled, fates: seq<Fate>, trip: Trip)
    | Tick(fates: seq<Fate>, trip: Trip)
    | Cancel

  /** The translator as the connection uses it, and the stall budget in ticks. */
  datatype Params = Params(
    step: (T.State, Event) -> T.State,
    onEof: T.State -> T.State,
    onStall: T.State -> T.State,
    onThrow: (T.State, string) -> T.State,
    maxStallTicks: nat)

  function TranslatorParams(cfg: Config, maxStallTicks: nat): Params {
    Params((s, e) => T.Step(cfg, s, e), s => T.OnEof(cfg, s), s => T.OnStall(cfg, s),
           (s, message) => T.OnThrow(cfg, s, message), maxStallTicks)
  }

  datatype Conn = Conn(
    tr: T.State,
    wire: seq<WireFrame>,
    closed: bool,
    clientCancelled: bool,
    terminated: bool,
    enqueueFailed: bool,          // some enqueue threw
    reports: seq<Status>,         // calls of onTerminal
    errored: bool,                // step was rejected, which errors an open controller
    slipped: bool,                // some handler or closings threw half-way
    beatArmed: bool,
    stepping: bool,
    gated: bool,
    awaiting: bool,               // step is suspended at `await it.next()`
    emittedFrames: nat,
    emittedAtStart: nat,
    upstreamActivity: bool,
    wireActivity: bool,
    stallTicks: nat)

  function FirstFate(fates: seq<Fate>): Fate {
    if fates == [] then Ok else fates[0]
  }

  function RestFates(fates: seq<Fate>): seq<Fate> {
    if fates == [] then [] else fates[1..]
  }

  function Report(c: Conn, status: Status): Conn {
    c.(reports := if c.reports != [] || c.clientCancelled || c.closed then c.reports else c.reports + [status])
  }

  /** Nothing can be enqueued into an errored controller. */
  function Actual(c: Conn, fate: Fate): Fate {
    if !c.errored then fate else if fate.Overflows? then Overflows(false, false) else Throws
  }

  /** What the escape manages to enqueue. */
  function EscapeFrames(failureSent: bool, doneSent: bool): seq<WireFrame> {
    if !failureSent then [] else if doneSent then [OverflowFailure, DoneMarker] else [OverflowFailure]
  }

  /** `terminateForTranslatorOverflow`. */
  function Overflow(c: Conn, failureSent: bool, doneSent: bool): (d: Conn)
    ensures d.errored == c.errored && d.slipped == c.slipped && d.awaiting == c.awaiting && d.tr == c.tr
    ensures !d.closed ==> !c.closed && d.stepping == c.stepping && d.gated == c.gated
  {
    if c.terminated || c.clientCancelled || c.closed then c
    else
      c.(wire := c.wire + EscapeFrames(failureSent, doneSent),
         enqueueFailed := c.enqueueFailed || !failureSent || !doneSent,
         emittedFrames := if failureSent && doneSent then c.emittedFrames + 2 else c.emittedFrames,
         reports := if c.reports != [] then c.reports else c.reports + [Failed],
         terminated := true, beatArmed := false, closed := true, gated := true, stepping := false)
  }

  function Emit(c: Conn, f: Frame, fate: Fate): (d: Conn)
    ensures d.errored == c.errored && d.slipped == c.slipped && d.awaiting == c.awaiting && d.tr == c.tr
    ensures !d.closed ==> !c.closed && d.stepping == c.stepping && d.gated == c.gated
  {
    if c.closed then c
    else
      var c1 := c.(wireActivity := true);
      match Actual(c, fate)
      case Ok => c1.(wire := c1.wire + [Sent(f)], emittedFrames := c1.emittedFrames + 1)
      case Throws => c1.(closed := true, enqueueFailed := true)
      case Overflows(failureSent, doneSent) => Overflow(c1, failureSent, doneSent)
  }

  function EmitAll(c: Conn, frames: seq<Frame>, fates: seq<Fate>): (d: Conn)
    ensures d.errored == c.errored && d.slipped == c.slipped && d.awaiting == c.awaiting && d.tr == c.tr
    ensures !d.closed ==> !c.closed && d.stepping == c.stepping && d.gated == c.gated
    decreases frames
  {
    if frames == [] then c
    else EmitAll(Emit(c, frames[0], FirstFate(fates)), frames[1..], RestFates(fates))
  }

  /** `terminated` is set before `[DONE]` goes out, so an overflow here is ignored. */
  function EmitDone(c: Conn, fate: Fate): (d: Conn)
    requires c.terminated
    ensures d.errored == c.errored && d.slipped == c.slipped && d.tr == c.tr && c.wire <= d.wire
  {
    if c.closed || fate.Overflows? then c
    else if c.errored || fate.Throws? then c.(closed := true, enqueueFailed := true)
    else c.(wire := c.wire + [DoneMarker], emittedFrames := c.emittedFrames + 1)
  }

  function NewFrames(s: T.State, t: T.State): seq<Frame> {
    if |s.frames| <= |t.frames| then t.frames[|s.frames|..] else []
  }

  function DropFates(fates: seq<Fate>, n: nat): seq<Fate> {
    if n <= |fates| then fates[n..] else []
  }

  /** The frames of a handler go out and the translator moves on. */
  function Forward(c: Conn, t: T.State, fates: seq<Fate>): Conn {
    EmitAll(c, NewFrames(c.tr, t), fates).(tr := t)
  }

  /** After a terminal frame: report, mark the turn as terminated. */
  function Terminate(c: Conn, status: Status): Conn {
    Report(c, status).(terminated := true)
  }

  /** The tail of `step`: `[DONE]` and the close of the controller. */
  function Shut(c: Conn, fate: Fate): Conn
    requires c.terminated
  {
    EmitDone(c.(beatArmed := false), fate).(closed := true, gated := true, stepping := false)
  }

  function LastFate(s: T.State, t: T.State, fates: seq<Fate>): Fate {
    FirstFate(DropFates(fates, |NewFrames(s, t)|))
  }

  /** A terminal event, a rejected iterator or the end of the input, from the event to the close. */
  function EndTurn(c: Conn, t: T.State, status: Status, fates: seq<Fate>): (d: Conn)
    ensures d.errored == c.errored && d.slipped == c.slipped && d.tr == t
  {
    Shut(Terminate(Forward(c, t, fates), status), LastFate(c.tr, t, fates))
  }

  /** The closings that would have turned `s` into `t` throw before the terminal frame. */
  predicate Slips(trip: Trip, s: T.State, t: T.State) {
    trip.Slip? && trip.left.outcome.None? && s.frames <= trip.left.frames && trip.left.frames < t.frames
  }

  /** What such closings have done when they throw. */
  function SlipOff(c: Conn, left: T.State, fates: seq<Fate>): Conn {
    Forward(c, left, fates).(slipped := true)
  }

  /** The exception leaves `step`: its promise is rejected, and `stepping` stays set. */
  function Reject(c: Conn): Conn {
    c.(errored := c.errored || !c.closed, awaiting := false)
  }

  /** The closings of an abnormal end throw, and the frames they still send leave the connection open. */
  predicate Uncaught(c: Conn, t: T.State, fates: seq<Fate>, trip: Trip) {
    Slips(trip, c.tr, t) && !EmitAll(c, NewFrames(c.tr, trip.left), fates).closed
  }

  /** The rest of `step` after the closings of an abnormal end. */
  function Finalize(c: Conn, t: T.State, status: Status, fates: seq<Fate>, trip: Trip): (d: Conn)
    ensures d.errored <==> c.errored || Uncaught(c, t, fates, trip)
    ensures d.slipped <==> c.slipped || Slips(trip, c.tr, t)
  {
    if Slips(trip, c.tr, t) then Reject(SlipOff(c, trip.left, fates))
    else EndTurn(c, t, status, fates).(awaiting := false)
  }

  predicate Trips(trip: Trip, frames: seq<Frame>, ends: bool) {
    trip.Trip? && (trip.after < |frames| || (trip.after == |frames| && !ends))
  }

  /** The loop condition after a non-terminal event. */
  function AfterEvent(c: Conn): (d: Conn)
    ensures d.errored == c.errored && d.slipped == c.slipped && d.tr == c.tr
  {
    if c.closed then c.(awaiting := false, gated := true, stepping := false, beatArmed := c.beatArmed && !c.terminated)
    else if c.emittedFrames == c.emittedAtStart then c
    else c.(awaiting := false, gated := true, stepping := false)
  }

  /** The event switch has moved the translator from `c.tr` to `t`. */
  function Deliver(c: Conn, t: T.State, fates: seq<Fate>, trip: Trip): (d: Conn)
    ensures d.errored == c.errored && d.slipped == c.slipped && d.tr == t
  {
    var frames := NewFrames(c.tr, t);
    if Trips(trip, frames, t.outcome.Some?) then
      Overflow(EmitAll(c, frames[..trip.after], fates), trip.failureSent, trip.doneSent).(awaiting := false, tr := t)
    else if t.outcome.Some? then EndTurn(c, t, t.outcome.value.status, fates).(awaiting := false)
    else AfterEvent(Forward(c, t, fates))
  }

  /** The catch of `step`: unless an overflow has ended the turn already, it ends now, as failed. */
  function OnRejected(p: Params, c: Conn, message: string, fates: seq<Fate>, trip: Trip): (d: Conn)
    ensures d.errored <==> c.errored || (!c.terminated && Uncaught(c, p.onThrow(c.tr, message), fates, trip))
    ensures d.slipped <==> c.slipped || (!c.terminated && Slips(trip, c.tr, p.onThrow(c.tr, message)))
  {
    if c.terminated then Shut(c, Ok).(awaiting := false)
    else Finalize(c, p.onThrow(c.tr, message), Failed, fates, trip)
  }

  /** The handler that would have turned `s` into `t` throws before a terminal frame. */
  predicate Faults(trip: Trip, s: T.State, t: T.State) {
    && trip.Fault? && trip.mid.outcome.None? && s.frames <= trip.mid.frames && trip.mid.frames <= t.frames
    && (t.outcome.Some? ==> trip.mid.frames < t.frames)
  }

  function Again(trip: Trip): Trip {
    if trip.Fault? && trip.again.Some? then Slip(trip.again.value) else NoTrip
  }

  /** What is left of the fates for the closings of the catch. */
  function LaterFates(c: Conn, mid: T.State, fates: seq<Fate>): seq<Fate> {
    DropFates(fates, |NewFrames(c.tr, mid)|)
  }

  function OnFault(p: Params, c: Conn, fates: seq<Fate>, trip: Trip): Conn
    requires trip.Fault?
  {
    OnRejected(p, SlipOff(c, trip.mid, fates), trip.message, LaterFates(c, trip.mid, fates), Again(trip))
  }

  function Active(c: Conn): Conn {
    c.(upstreamActivity := true, stallTicks := 0)
  }

  function OnEvent(p: Params, c: Conn, e: Event, fates: seq<Fate>, trip: Trip): (d: Conn)
    ensures d.slipped <==> c.slipped || (!IsLimitError(e) && Faults(trip, c.tr, p.step(c.tr, e)))
  {
    if IsLimitError(e)
    then Overflow(Active(c), !FirstFate(fates).Throws?, !FirstFate(RestFates(fates)).Throws?).(awaiting := false)
    else if Faults(trip, c.tr, p.step(c.tr, e)) then OnFault(p, Active(c), fates, trip)
    else Deliver(Active(c), p.step(c.tr, e), fates, trip)
  }

  function Ignore(c: Conn): (d: Conn)
    ensures d.errored == c.errored && d.slipped == c.slipped && d.tr == c.tr
  {
    c.(gated := true, stepping := false, awaiting := false)
  }

  function OnEnded(p: Params, c: Conn, fates: seq<Fate>, trip: Trip): (d: Conn)
    ensures d.errored
       <==> c.errored || (!c.closed && !c.clientCancelled && Uncaught(c.(beatArmed := false), p.onEof(c.tr), fates, trip))
    ensures d.slipped <==> c.slipped || (!c.closed && !c.clientCancelled && Slips(trip, c.tr, p.onEof(c.tr)))
  {
    if c.closed || c.clientCancelled then Ignore(c)
    else Finalize(c.(beatArmed := false), p.onEof(c.tr), Incompleted, fates, trip)
  }

  function OnResume(p: Params, c: Conn, pulled: Pulled, fates: seq<Fate>, trip: Trip): Conn {
    match pulled
    case Got(e) => if c.closed || c.clientCancelled then Ignore(c) else OnEvent(p, c, e, fates, trip)
    case Ended => OnEnded(p, c, fates, trip)
    case Rejected(message) => OnRejected(p, c, message, fates, trip)
    case RejectedByBudget(failureSent, doneSent) => Overflow(c, failureSent, doneSent).(awaiting := false)
  }

  function Stall(c: Conn, t: T.State, fates: seq<Fate>): (d: Conn)
    ensures d.errored == c.errored && d.slipped == c.slipped && d.tr == t
  {
    var c1 := EmitDone(Terminate(Forward(c, t, fates), Incompleted), LastFate(c.tr, t, fates));
    c1.(beatArmed := false, closed := true)
  }

  /** A tick counts when the connection is open and a step is waiting for the adapter. */
  predicate Counts(c: Conn) {
    c.beatArmed && !c.closed && !c.gated
  }

  predicate StallsNow(p: Params, c: Conn) {
    !c.upstreamActivity && c.stallTicks + 1 >= p.maxStallTicks
  }

  function KeepAlive(c: Conn, fate: Fate): (d: Conn)
    ensures d.errored == c.errored && d.slipped == c.slipped && d.awaiting == c.awaiting && d.tr == c.tr
    ensures d.stepping == c.stepping && d.gated == c.gated && (d.closed ==> c.closed || d.enqueueFailed)
  {
    if c.wireActivity then c.(wireActivity := false)
    else if c.errored || fate.Throws? then c.(closed := true, enqueueFailed := true)
    else c.(wire := c.wire + [Beat], emittedFrames := c.emittedFrames + 1)
  }

  /** Adapter activity since the last tick resets the stall count; silence advances it. */
  function Ticked(c: Conn): (d: Conn)
    ensures d.errored == c.errored && d.slipped == c.slipped && d.awaiting == c.awaiting && d.tr == c.tr
    ensures d.stepping == c.stepping && d.gated == c.gated
  {
    c.(upstreamActivity := false, stallTicks := if c.upstreamActivity then 0 else c.stallTicks + 1)
  }

  /** An exception of the stall's closings escapes from the timer, which goes on ticking. */
  function OnTick(p: Params, c: Conn, fates: seq<Fate>, trip: Trip): (d: Conn)
    ensures d.errored == c.errored
    ensures d.slipped <==> c.slipped || (Counts(c) && StallsNow(p, c) && Slips(trip, c.tr, p.onStall(c.tr)))
  {
    if !Counts(c) then c
    else if StallsNow(p, c) then
      if Slips(trip, c.tr, p.onStall(c.tr)) then SlipOff(Ticked(c), trip.left, fates)
      else Stall(Ticked(c), p.onStall(c.tr), fates)
    else KeepAlive(Ticked(c), FirstFate(fates))
  }

  /** An errored stream pulls no more. */
  function OnPull(c: Conn): Conn {
    if c.stepping || c.closed || c.errored then c
    else c.(stepping := true, gated := false, emittedAtStart := c.emittedFrames, awaiting := true)
  }

  /** An errored stream no longer hands a cancellation on. */
  function OnCancel(c: Conn): Conn {
    if c.errored then c else c.(clientCancelled := true, closed := true, beatArmed := false)
  }

  function Act(p: Params, c: Conn, a: Action): Conn {
    match a
    case Pull => OnPull(c)
    case Resume(pulled, fates, trip) => if c.awaiting then OnResume(p, c, pulled, fates, trip) else c
    case Tick(fates, trip) => OnTick(p, c, fates, trip)
    case Cancel => OnCancel(c)
  }

  const IDLE :=
    Conn(T.START, [], false, false, false, false, [], false, false, false, false, false, false, 0, 0, false, false, 0)

  /** `startStream`: the created frame, then the beat timer. */
  function Start(fate: Fate): Conn {
    Emit(IDLE, Created, fate).(gated := true, beatArmed := true)
  }

  /** One interleaving. */
  function Play(p: Params, fate: Fate, actions: seq<Action>): Conn {
    if actions == [] then Start(fate)
    else Act(p, Play(p, fate, actions[..|actions| - 1]), actions[|actions| - 1])
  }
}
