/**
 How much of the adapter's input one pull takes in: a step goes on, event by event, until something is on the wire
 that was not there when it began, a heartbeat included.
 */
module WireSteps {
  import opened Text
  import opened Responses
  import opened Wire
  import K = KeepAlive
  import T = Translator

  /** How much had been enqueued when the last step began. */
  function Began(p: Params, fate: Fate, actions: seq<Action>): nat {
    if actions == [] then 0
    else
      var (front, a) := (actions[..|actions| - 1], actions[|actions| - 1]);
      var c := Play(p, fate, front);
      if a.Pull? && !c.stepping && !c.closed && !c.errored then |c.wire| else Began(p, fate, front)
  }

  /** The connection counts what it enqueues, and a waiting step knows the count it began with. */
  predicate Counted(c: Conn, began: nat) {
    K.Live(c) && (!c.closed ==> c.emittedFrames == |c.wire| && (c.awaiting ==> c.emittedAtStart == began))
  }

  lemma {:induction false} EmitAllCounts(c: Conn, frames: seq<Frame>, fates: seq<Fate>, began: nat)
    requires Counted(c, began)
    ensures Counted(EmitAll(c, frames, fates), began)
    ensures !EmitAll(c, frames, fates).closed ==> EmitAll(c, frames, fates).emittedAtStart == c.emittedAtStart
    decreases frames
  {
    if frames != [] {
      K.EmitFrame(c, frames[0], FirstFate(fates));
      EmitAllCounts(Emit(c, frames[0], FirstFate(fates)), frames[1..], RestFates(fates), began);
    }
  }

  lemma FinalizeCounts(c: Conn, t: T.State, status: Status, fates: seq<Fate>, trip: Trip, began: nat)
    requires Counted(c, began)
    ensures Counted(Finalize(c, t, status, fates, trip), began)
    ensures !Finalize(c, t, status, fates, trip).awaiting
  {
    if Slips(trip, c.tr, t) { EmitAllCounts(c, NewFrames(c.tr, trip.left), fates, began); }
  }

  lemma RejectedCounts(p: Params, c: Conn, message: string, fates: seq<Fate>, trip: Trip, began: nat)
    requires Counted(c, began)
    ensures Counted(OnRejected(p, c, message, fates, trip), began) && !OnRejected(p, c, message, fates, trip).awaiting
    ensures var d := OnRejected(p, c, message, fates, trip); d.closed || d.errored
  {
    if !c.terminated { FinalizeCounts(c, p.onThrow(c.tr, message), Failed, fates, trip, began); }
  }

  lemma FaultCounts(p: Params, c: Conn, fates: seq<Fate>, trip: Trip, began: nat)
    requires Counted(c, began) && trip.Fault?
    ensures Counted(OnFault(p, c, fates, trip), began)
    ensures OnFault(p, c, fates, trip).closed || OnFault(p, c, fates, trip).errored
  {
    EmitAllCounts(c, NewFrames(c.tr, trip.mid), fates, began);
    RejectedCounts(p, SlipOff(c, trip.mid, fates), trip.message, LaterFates(c, trip.mid, fates), Again(trip), began);
  }

  /** The step is waiting for another event exactly if nothing has gone out since it began. */
  predicate GoesOn(d: Conn, began: nat) {
    !d.closed && !d.errored ==> (d.awaiting <==> |d.wire| == began)
  }

  lemma DeliverCounts(c: Conn, t: T.State, fates: seq<Fate>, trip: Trip, began: nat)
    requires Counted(c, began) && !c.closed && c.awaiting
    ensures Counted(Deliver(c, t, fates, trip), began) && GoesOn(Deliver(c, t, fates, trip), began)
  {
    var frames := NewFrames(c.tr, t);
    if Trips(trip, frames, t.outcome.Some?) {
      EmitAllCounts(c, frames[..trip.after], fates, began);
      K.OverflowCloses(EmitAll(c, frames[..trip.after], fates), trip.failureSent, trip.doneSent);
    } else if t.outcome.None? {
      EmitAllCounts(c, frames, fates, began);
    }
  }

  lemma LimitCounts(p: Params, c: Conn, e: Event, fates: seq<Fate>, trip: Trip, began: nat)
    requires Counted(c, began) && IsLimitError(e)
    ensures Counted(OnEvent(p, c, e, fates, trip), began) && OnEvent(p, c, e, fates, trip).closed
  {
    K.OverflowCloses(Active(c), !FirstFate(fates).Throws?, !FirstFate(RestFates(fates)).Throws?);
  }

  lemma FaultyCounts(p: Params, c: Conn, e: Event, fates: seq<Fate>, trip: Trip, began: nat)
    requires Counted(c, began) && !IsLimitError(e) && Faults(trip, c.tr, p.step(c.tr, e))
    ensures Counted(OnEvent(p, c, e, fates, trip), began) && GoesOn(OnEvent(p, c, e, fates, trip), began)
  {
    FaultCounts(p, Active(c), fates, trip, began);
  }

  lemma EventCounts(p: Params, c: Conn, e: Event, fates: seq<Fate>, trip: Trip, began: nat)
    requires Counted(c, began) && !c.closed && c.awaiting
    ensures Counted(OnEvent(p, c, e, fates, trip), began) && GoesOn(OnEvent(p, c, e, fates, trip), began)
  {
    if IsLimitError(e) {
      LimitCounts(p, c, e, fates, trip, began);
    } else if Faults(trip, c.tr, p.step(c.tr, e)) {
      FaultyCounts(p, c, e, fates, trip, began);
    } else {
      DeliverCounts(Active(c), p.step(c.tr, e), fates, trip, began);
    }
  }

  lemma GotCounts(p: Params, c: Conn, e: Event, fates: seq<Fate>, trip: Trip, began: nat)
    requires Counted(c, began) && c.awaiting
    ensures Counted(OnResume(p, c, Got(e), fates, trip), began)
  {
    if !c.closed && !c.clientCancelled { EventCounts(p, c, e, fates, trip, began); }
  }

  lemma EndedCounts(p: Params, c: Conn, fates: seq<Fate>, trip: Trip, began: nat)
    requires Counted(c, began) && c.awaiting
    ensures Counted(OnEnded(p, c, fates, trip), began)
  {
    if !c.closed { FinalizeCounts(c.(beatArmed := false), p.onEof(c.tr), Incompleted, fates, trip, began); }
  }

  lemma ResumeCounts(p: Params, c: Conn, pulled: Pulled, fates: seq<Fate>, trip: Trip, began: nat)
    requires Counted(c, began) && c.awaiting
    ensures Counted(OnResume(p, c, pulled, fates, trip), began)
  {
    match pulled
    case Got(e) => GotCounts(p, c, e, fates, trip, began);
    case Ended => EndedCounts(p, c, fates, trip, began);
    case Rejected(message) => RejectedCounts(p, c, message, fates, trip, began);
    case RejectedByBudget(failureSent, doneSent) => K.OverflowCloses(c, failureSent, doneSent);
  }

  lemma StallCounts(p: Params, c: Conn, fates: seq<Fate>, trip: Trip, began: nat)
    requires Counted(c, began) && Counts(c) && StallsNow(p, c)
    ensures Counted(OnTick(p, c, fates, trip), began)
  {
    if Slips(trip, c.tr, p.onStall(c.tr)) { EmitAllCounts(Ticked(c), NewFrames(c.tr, trip.left), fates, began); }
  }

  lemma TickCounts(p: Params, c: Conn, fates: seq<Fate>, trip: Trip, began: nat)
    requires Counted(c, began)
    ensures Counted(OnTick(p, c, fates, trip), began)
  {
    if Counts(c) {
      if StallsNow(p, c) { StallCounts(p, c, fates, trip, began); } else { BeatCounts(Ticked(c), FirstFate(fates), began); }
    }
  }

  lemma BeatCounts(c: Conn, fate: Fate, began: nat)
    requires Counted(c, began) && !c.closed
    ensures Counted(KeepAlive(c, fate), began)
  {
    if !c.wireActivity && !c.errored && !fate.Throws? { BeatCounted(c, began); }
  }

  lemma BeatCounted(c: Conn, began: nat)
    requires Counted(c, began) && !c.closed
    ensures Counted(c.(wire := c.wire + [Beat], emittedFrames := c.emittedFrames + 1), began)
  {
  }

  lemma {:induction false} PlayCounts(p: Params, fate: Fate, actions: seq<Action>)
    ensures Counted(Play(p, fate, actions), Began(p, fate, actions))
  {
    if actions == [] {
      K.EmitFrame(IDLE, Created, fate);
    } else {
      var (front, a) := (actions[..|actions| - 1], actions[|actions| - 1]);
      PlayCounts(p, fate, front);
      var c := Play(p, fate, front);
      match a
      case Pull =>
      case Cancel =>
      case Tick(fates, trip) => TickCounts(p, c, fates, trip, Began(p, fate, front));
      case Resume(pulled, fates, trip) => if c.awaiting { ResumeCounts(p, c, pulled, fates, trip, Began(p, fate, front)); }
    }
  }

  /**
   Over every interleaving: an event that is handled leaves the step waiting for the next one exactly if nothing has
   gone out since the step began. So a pull that is answered is answered by at least one frame, and takes in no event
   more than it needs for it.
   */
  lemma StepTakesUntilAFrame(p: Params, fate: Fate, actions: seq<Action>, a: Action)
    requires K.Handles(Play(p, fate, actions), a)
    ensures
      var d := Act(p, Play(p, fate, actions), a);
      !d.closed && !d.errored ==> (d.awaiting <==> |d.wire| == Began(p, fate, actions))
  {
    PlayCounts(p, fate, actions);
    EventCounts(p, Play(p, fate, actions), a.pulled.e, a.fates, a.trip, Began(p, fate, actions));
  }
}
