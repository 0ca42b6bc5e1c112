/** The beat loop: when a silent upstream is given up, and why the wire is never silent for two counted ticks. */
module KeepAlive {
  import opened Text
  import opened Responses
  import opened Wire
  import T = Translator

  // ---- The stall budget ----

  function Ceil(x: real): int {
    -((-x).Floor)
  }

  const DEFAULT_STALL_SECONDS := 300

  function ResolveStallSeconds(configured: Option<real>): (sec: int)
    ensures configured.None? ==> sec == 300
    // Otherwise the least integer that is at least one and not below the configured value.
    ensures configured.Some? ==> sec >= 1 && sec as real >= configured.value
    ensures configured.Some? ==> sec == 1 || (sec - 1) as real < configured.value
  {
    match configured
    case None => DEFAULT_STALL_SECONDS
    case Some(x) => if Ceil(x) > 1 then Ceil(x) else 1
  }

  function MaxStallTicks(sec: int, heartbeatMs: int): (n: nat)
    requires sec >= 1 && heartbeatMs >= 1
  {
    (sec * 1000 + heartbeatMs - 1) / heartbeatMs
  }

  /** The least number of ticks that spans the stall seconds. */
  lemma TicksSpanTheBudget(sec: int, heartbeatMs: int)
    requires sec >= 1 && heartbeatMs >= 1
    ensures
      var n := MaxStallTicks(sec, heartbeatMs);
      n >= 1 && (n - 1) * heartbeatMs < sec * 1000 <= n * heartbeatMs
  {
    var total := sec * 1000 + heartbeatMs - 1;
    var n := total / heartbeatMs;
    assert total == n * heartbeatMs + total % heartbeatMs;
    assert (n - 1) * heartbeatMs == n * heartbeatMs - heartbeatMs;
  }

  // ---- Silence, read off the run alone ----

  predicate Handles(c: Conn, a: Action) {
    a.Resume? && a.pulled.Got? && c.awaiting && !c.closed && !c.clientCancelled
  }

  /** Some adapter event was handled. */
  predicate Heard(p: Params, fate: Fate, actions: seq<Action>) {
    actions != [] &&
      var front := actions[..|actions| - 1];
      Heard(p, fate, front) || Handles(Play(p, fate, front), actions[|actions| - 1])
  }

  /** Counted ticks since the last adapter event; gated ticks are not counted. */
  function SilentTicks(p: Params, fate: Fate, actions: seq<Action>): nat {
    if actions == [] then 0
    else
      var (front, a) := (actions[..|actions| - 1], actions[|actions| - 1]);
      var c := Play(p, fate, front);
      if Handles(c, a) then 0
      else if a.Tick? && Counts(c) then SilentTicks(p, fate, front) + 1
      else SilentTicks(p, fate, front)
  }

  /** How much had been enqueued when the previous counted tick that did not give up had ended. */
  function Mark(p: Params, fate: Fate, actions: seq<Action>): nat {
    if actions == [] then 0
    else
      var (front, a) := (actions[..|actions| - 1], actions[|actions| - 1]);
      var c := Play(p, fate, front);
      if a.Tick? && Counts(c) && !StallsNow(p, c) then |Play(p, fate, actions).wire| else Mark(p, fate, front)
  }

  // ---- The connection's own counters agree ----

  predicate Live(c: Conn) {
    c.terminated || c.clientCancelled ==> c.closed
  }

  ghost predicate Tracks(p: Params, c: Conn, heard: bool, silent: nat, mark: nat) {
    Live(c) && (!c.closed ==>
      && (if c.upstreamActivity then heard && silent == 0 && c.stallTicks == 0
          else silent == c.stallTicks + (if heard then 1 else 0))
      && mark <= |c.wire| && (c.wireActivity <==> mark < |c.wire|))
  }

  lemma EmitFrame(c: Conn, f: Frame, fate: Fate)
    requires Live(c)
    ensures Live(Emit(c, f, fate))
    ensures !Emit(c, f, fate).closed ==>
      !c.closed && Emit(c, f, fate)
        == c.(wire := c.wire + [Sent(f)], wireActivity := true, emittedFrames := c.emittedFrames + 1)
  {
    if !c.closed {
      match Actual(c, fate)
      case Ok =>
      case Throws => EmitThrows(c, f, fate);
      case Overflows(_, _) => EmitOverflows(c, f, fate);
    }
  }

  lemma EmitThrows(c: Conn, f: Frame, fate: Fate)
    requires Live(c) && !c.closed && Actual(c, fate).Throws?
    ensures Live(Emit(c, f, fate)) && Emit(c, f, fate).closed
  {
  }

  lemma EmitOverflows(c: Conn, f: Frame, fate: Fate)
    requires Live(c) && !c.closed && Actual(c, fate).Overflows?
    ensures Live(Emit(c, f, fate)) && Emit(c, f, fate).closed
  {
    OverflowCloses(c.(wireActivity := true), Actual(c, fate).failureSent, Actual(c, fate).doneSent);
  }

  lemma {:induction false} EmitAllFrame(c: Conn, frames: seq<Frame>, fates: seq<Fate>)
    requires Live(c)
    ensures Live(EmitAll(c, frames, fates))
    ensures
      var d := EmitAll(c, frames, fates);
      !d.closed ==>
        && !c.closed && d.upstreamActivity == c.upstreamActivity && d.stallTicks == c.stallTicks
        && d.beatArmed == c.beatArmed
        && |d.wire| == |c.wire| + |frames| && (d.wireActivity <==> c.wireActivity || frames != [])
    decreases frames
  {
    if frames != [] {
      EmitFrame(c, frames[0], FirstFate(fates));
      EmitAllFrame(Emit(c, frames[0], FirstFate(fates)), frames[1..], RestFates(fates));
    }
  }

  lemma DeliverTracks(p: Params, c: Conn, t: T.State, fates: seq<Fate>, trip: Trip, mark: nat)
    requires !c.closed && Live(c) && c.upstreamActivity && c.stallTicks == 0
    requires mark <= |c.wire| && (c.wireActivity <==> mark < |c.wire|)
    ensures Tracks(p, Deliver(c, t, fates, trip), true, 0, mark)
  {
    var frames := NewFrames(c.tr, t);
    if Trips(trip, frames, t.outcome.Some?) {
      EmitAllFrame(c, frames[..trip.after], fates);
      OverflowCloses(EmitAll(c, frames[..trip.after], fates), trip.failureSent, trip.doneSent);
    } else if t.outcome.None? {
      EmitAllFrame(c, frames, fates);
    }
  }

  lemma OverflowCloses(c: Conn, failureSent: bool, doneSent: bool)
    requires Live(c)
    ensures Overflow(c, failureSent, doneSent).closed
  {
  }

  lemma LimitTracks(p: Params, c: Conn, e: Event, fates: seq<Fate>, trip: Trip, mark: nat)
    requires Live(c) && IsLimitError(e)
    ensures Tracks(p, OnEvent(p, c, e, fates, trip), true, 0, mark)
  {
    OverflowCloses(Active(c), !FirstFate(fates).Throws?, !FirstFate(RestFates(fates)).Throws?);
  }

  lemma HandledTracks(p: Params, c: Conn, e: Event, fates: seq<Fate>, trip: Trip, mark: nat)
    requires !c.closed && Live(c) && mark <= |c.wire| && (c.wireActivity <==> mark < |c.wire|)
    requires !IsLimitError(e) && !Faults(trip, c.tr, p.step(c.tr, e))
    ensures Tracks(p, OnEvent(p, c, e, fates, trip), true, 0, mark)
  {
    DeliverTracks(p, Active(c), p.step(c.tr, e), fates, trip, mark);
  }

  lemma FaultyTracks(p: Params, c: Conn, e: Event, fates: seq<Fate>, trip: Trip, mark: nat)
    requires !c.closed && Live(c) && mark <= |c.wire| && (c.wireActivity <==> mark < |c.wire|)
    requires !IsLimitError(e) && Faults(trip, c.tr, p.step(c.tr, e))
    ensures Tracks(p, OnEvent(p, c, e, fates, trip), true, 0, mark)
  {
    FaultTracks(p, Active(c), fates, trip, mark);
  }

  lemma GotTracks(p: Params, c: Conn, e: Event, fates: seq<Fate>, trip: Trip, mark: nat)
    requires !c.closed && Live(c) && mark <= |c.wire| && (c.wireActivity <==> mark < |c.wire|)
    ensures Tracks(p, OnEvent(p, c, e, fates, trip), true, 0, mark)
  {
    if IsLimitError(e) {
      LimitTracks(p, c, e, fates, trip, mark);
    } else if Faults(trip, c.tr, p.step(c.tr, e)) {
      FaultyTracks(p, c, e, fates, trip, mark);
    } else {
      HandledTracks(p, c, e, fates, trip, mark);
    }
  }

  lemma FaultTracks(p: Params, c: Conn, fates: seq<Fate>, trip: Trip, mark: nat)
    requires Tracks(p, c, true, 0, mark) && !c.closed && trip.Fault?
    ensures Tracks(p, OnFault(p, c, fates, trip), true, 0, mark)
  {
    SlipTracks(p, c, trip.mid, fates, true, 0, mark);
    var d := SlipOff(c, trip.mid, fates);
    RejectedTracks(p, d, trip.message, LaterFates(c, trip.mid, fates), Again(trip), true, 0, mark);
  }

  /** Half-done closings leave the counters alone, and what they sent is on the wire. */
  lemma SlipTracks(p: Params, c: Conn, left: T.State, fates: seq<Fate>, heard: bool, silent: nat, mark: nat)
    requires Tracks(p, c, heard, silent, mark) && !c.closed
    ensures Tracks(p, SlipOff(c, left, fates), heard, silent, mark)
    ensures Tracks(p, Reject(SlipOff(c, left, fates)), heard, silent, mark)
  {
    EmitAllFrame(c, NewFrames(c.tr, left), fates);
  }

  lemma FinalizeTracks(
      p: Params, c: Conn, t: T.State, status: Status, fates: seq<Fate>, trip: Trip, heard: bool, silent: nat, mark: nat)
    requires Tracks(p, c, heard, silent, mark)
    ensures Tracks(p, Finalize(c, t, status, fates, trip), heard, silent, mark)
  {
    if Slips(trip, c.tr, t) {
      EmitAllFrame(c, NewFrames(c.tr, trip.left), fates);
    }
  }

  lemma EndedTracks(p: Params, c: Conn, fates: seq<Fate>, trip: Trip, heard: bool, silent: nat, mark: nat)
    requires Tracks(p, c, heard, silent, mark)
    ensures Tracks(p, OnEnded(p, c, fates, trip), heard, silent, mark)
  {
    if !c.closed && !c.clientCancelled {
      FinalizeTracks(p, c.(beatArmed := false), p.onEof(c.tr), Incompleted, fates, trip, heard, silent, mark);
    }
  }

  lemma RejectedTracks(
      p: Params, c: Conn, message: string, fates: seq<Fate>, trip: Trip, heard: bool, silent: nat, mark: nat)
    requires Tracks(p, c, heard, silent, mark)
    ensures Tracks(p, OnRejected(p, c, message, fates, trip), heard, silent, mark)
  {
    if !c.terminated {
      FinalizeTracks(p, c, p.onThrow(c.tr, message), Failed, fates, trip, heard, silent, mark);
    }
  }

  lemma OtherResumeTracks(p: Params, c: Conn, pulled: Pulled, fates: seq<Fate>, trip: Trip, heard: bool, silent: nat, mark: nat)
    requires Tracks(p, c, heard, silent, mark)
    requires pulled.Got? ==> c.closed || c.clientCancelled
    ensures Tracks(p, OnResume(p, c, pulled, fates, trip), heard, silent, mark)
  {
    match pulled
    case Got(_) =>
    case Ended => EndedTracks(p, c, fates, trip, heard, silent, mark);
    case Rejected(message) => RejectedTracks(p, c, message, fates, trip, heard, silent, mark);
    case RejectedByBudget(failureSent, doneSent) => OverflowCloses(c, failureSent, doneSent);
  }

  /** Something went out since `mark`, or a heartbeat does now, or it cannot and the connection is closed. */
  predicate BeatsIfSilent(c: Conn, d: Conn, mark: nat, fate: Fate) {
    if mark < |c.wire| then d.wire == c.wire && !d.closed
    else if c.errored || fate.Throws? then d.wire == c.wire && d.closed
    else d.wire == c.wire + [Beat] && !d.closed
  }

  lemma TickTracks(p: Params, c: Conn, fates: seq<Fate>, trip: Trip, heard: bool, silent: nat, mark: nat)
    requires p.maxStallTicks >= 1 && Tracks(p, c, heard, silent, mark) && Counts(c)
    ensures var d := OnTick(p, c, fates, trip);
            Tracks(p, d, heard, silent + 1, if StallsNow(p, c) then mark else |d.wire|)
    // The turn is given up exactly when the silence spans the budget; the tick after an event is free.
    ensures StallsNow(p, c) <==> silent + 1 >= p.maxStallTicks + (if heard then 1 else 0)
    // Otherwise a heartbeat goes out exactly if nothing did since the previous counted tick.
    ensures !StallsNow(p, c) ==> BeatsIfSilent(c, OnTick(p, c, fates, trip), mark, FirstFate(fates))
  {
    if StallsNow(p, c) && Slips(trip, c.tr, p.onStall(c.tr)) {
      SlipTracks(p, Ticked(c), trip.left, fates, heard, silent + 1, mark);
    }
  }

  lemma ActTracks(p: Params, c: Conn, a: Action, heard: bool, silent: nat, mark: nat)
    requires p.maxStallTicks >= 1 && Tracks(p, c, heard, silent, mark)
    ensures
      var d := Act(p, c, a);
      if Handles(c, a) then Tracks(p, d, true, 0, mark)
      else if a.Tick? && Counts(c) then Tracks(p, d, heard, silent + 1, if StallsNow(p, c) then mark else |d.wire|)
      else Tracks(p, d, heard, silent, mark)
  {
    match a
    case Pull =>
    case Cancel =>
    case Resume(pulled, fates, trip) =>
      if Handles(c, a) {
        GotTracks(p, c, pulled.e, fates, trip, mark);
      } else if c.awaiting {
        OtherResumeTracks(p, c, pulled, fates, trip, heard, silent, mark);
      }
    case Tick(fates, trip) =>
      if Counts(c) { TickTracks(p, c, fates, trip, heard, silent, mark); }
  }

  lemma {:induction false} PlayTracks(p: Params, fate: Fate, actions: seq<Action>)
    requires p.maxStallTicks >= 1
    ensures Tracks(p, Play(p, fate, actions), Heard(p, fate, actions), SilentTicks(p, fate, actions), Mark(p, fate, actions))
  {
    if actions != [] {
      var front, a := actions[..|actions| - 1], actions[|actions| - 1];
      PlayTracks(p, fate, front);
      ActTracks(p, Play(p, fate, front), a, Heard(p, fate, front), SilentTicks(p, fate, front), Mark(p, fate, front));
    }
  }

  lemma OneMoreTick(p: Params, fate: Fate, actions: seq<Action>, tick: Action)
    requires Counts(Play(p, fate, actions)) && tick.Tick?
    ensures SilentTicks(p, fate, actions + [tick]) == SilentTicks(p, fate, actions) + 1
  {
    assert (actions + [tick])[..|actions|] == actions;
  }

  /**
   Stall and keep-alive over every interleaving. At a counted tick the turn is given up exactly when the
   counted ticks since the last adapter event reach the budget (one more after an event, whose own tick is
   free); and a counted tick that does not give up sends a heartbeat exactly if nothing went out since the previous
   such tick, and closes the connection if it cannot.
   */
  lemma StallAndKeepAlive(p: Params, fate: Fate, actions: seq<Action>, fates: seq<Fate>, trip: Trip)
    requires p.maxStallTicks >= 1 && Counts(Play(p, fate, actions))
    ensures
      var c := Play(p, fate, actions);
      && (StallsNow(p, c) <==>
           SilentTicks(p, fate, actions + [Tick(fates, trip)]) >= p.maxStallTicks + (if Heard(p, fate, actions) then 1 else 0))
      && (!StallsNow(p, c) ==>
           BeatsIfSilent(c, OnTick(p, c, fates, trip), Mark(p, fate, actions), FirstFate(fates)))
  {
    PlayTracks(p, fate, actions);
    OneMoreTick(p, fate, actions, Tick(fates, trip));
    TickTracks(p, Play(p, fate, actions), fates, trip,
               Heard(p, fate, actions), SilentTicks(p, fate, actions), Mark(p, fate, actions));
  }

  /** A turn is given up only after the resolved stall seconds, counted in heartbeats of silence. */
  lemma StallTakesItsTime(
      p: Params, configured: Option<real>, heartbeatMs: int,
      fate: Fate, actions: seq<Action>, fates: seq<Fate>, trip: Trip)
    requires heartbeatMs >= 1
    requires p.maxStallTicks == MaxStallTicks(ResolveStallSeconds(configured), heartbeatMs)
    requires Counts(Play(p, fate, actions)) && StallsNow(p, Play(p, fate, actions))
    ensures SilentTicks(p, fate, actions + [Tick(fates, trip)]) * heartbeatMs >= ResolveStallSeconds(configured) * 1000
  {
    TicksSpanTheBudget(ResolveStallSeconds(configured), heartbeatMs);
    StallAndKeepAlive(p, fate, actions, fates, trip);
    Scale(p.maxStallTicks, SilentTicks(p, fate, actions + [Tick(fates, trip)]), heartbeatMs);
  }

  lemma Scale(a: int, b: int, k: int)
    requires a <= b && 0 <= k
    ensures a * k <= b * k
  {
  }
}
