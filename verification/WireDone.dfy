/** A turn that is over ends with its terminal frame and `[DONE]`, unless the client left or could not be reached. */
module WireDone {
  import opened Text
  import opened Responses
  import opened Wire
  import opened WireProtocol
  import T = Translator

  predicate EndsDone(wire: seq<WireFrame>) {
    wire != [] && wire[|wire| - 1].DoneMarker?
  }

  /** Closed by a cancel, by an enqueue that failed, or behind `[DONE]`. */
  predicate Rounded(c: Conn) {
    c.closed ==> c.clientCancelled || c.enqueueFailed || EndsDone(c.wire)
  }

  /** No emission goes over the budget by itself; handlers, reads and closings still may. */
  predicate Fits(fates: seq<Fate>) {
    forall f :: f in fates ==> !f.Overflows?
  }

  lemma FitsOn(fates: seq<Fate>, n: nat)
    requires Fits(fates)
    ensures !FirstFate(fates).Overflows? && Fits(RestFates(fates)) && Fits(DropFates(fates, n))
  {
  }

  lemma EmitRounds(c: Conn, f: Frame, fate: Fate)
    requires Rounded(c) && !fate.Overflows?
    ensures Rounded(Emit(c, f, fate))
  {
  }

  lemma {:induction false} EmitAllRounds(c: Conn, frames: seq<Frame>, fates: seq<Fate>)
    requires Rounded(c) && Fits(fates)
    ensures Rounded(EmitAll(c, frames, fates))
    decreases frames
  {
    if frames != [] {
      FitsOn(fates, 0);
      EmitRounds(c, frames[0], FirstFate(fates));
      EmitAllRounds(Emit(c, frames[0], FirstFate(fates)), frames[1..], RestFates(fates));
    }
  }

  lemma OverflowRounds(c: Conn, failureSent: bool, doneSent: bool)
    requires Rounded(c)
    ensures Rounded(Overflow(c, failureSent, doneSent))
  {
    if failureSent && doneSent { assert (c.wire + [OverflowFailure, DoneMarker])[|c.wire| + 1].DoneMarker?; }
  }

  lemma DoneSentRounds(c: Conn)
    ensures Rounded(c.(wire := c.wire + [DoneMarker], emittedFrames := c.emittedFrames + 1, closed := true))
  {
    assert EndsDone(c.wire + [DoneMarker]);
  }

  lemma DoneLostRounds(c: Conn, fate: Fate)
    requires c.terminated && Rounded(c) && !fate.Overflows? && (c.closed || c.errored || fate.Throws?)
    ensures Rounded(EmitDone(c, fate).(closed := true))
  {
  }

  lemma DoneRounds(c: Conn, fate: Fate)
    requires c.terminated && Rounded(c) && !fate.Overflows?
    ensures Rounded(EmitDone(c, fate).(closed := true))
  {
    if c.closed || c.errored || fate.Throws? { DoneLostRounds(c, fate); } else { DoneSentRounds(c); }
  }

  lemma EndTurnRounds(c: Conn, t: T.State, status: Status, fates: seq<Fate>)
    requires Rounded(c) && Fits(fates)
    ensures Rounded(EndTurn(c, t, status, fates))
  {
    EmitAllRounds(c, NewFrames(c.tr, t), fates);
    FitsOn(fates, |NewFrames(c.tr, t)|);
    FitsOn(DropFates(fates, |NewFrames(c.tr, t)|), 0);
    var d := Terminate(Forward(c, t, fates), status).(beatArmed := false);
    DoneRounds(d, LastFate(c.tr, t, fates));
    ShutRounds(Terminate(Forward(c, t, fates), status), LastFate(c.tr, t, fates));
  }

  lemma ShutRounds(c: Conn, fate: Fate)
    requires c.terminated && Rounded(c) && !fate.Overflows?
    ensures Rounded(Shut(c, fate))
  {
    DoneRounds(c.(beatArmed := false), fate);
  }

  lemma StallRounds(c: Conn, t: T.State, fates: seq<Fate>)
    requires Rounded(c) && Fits(fates)
    ensures Rounded(Stall(c, t, fates))
  {
    EmitAllRounds(c, NewFrames(c.tr, t), fates);
    FitsOn(fates, |NewFrames(c.tr, t)|);
    FitsOn(DropFates(fates, |NewFrames(c.tr, t)|), 0);
    DoneRounds(Terminate(Forward(c, t, fates), Incompleted), LastFate(c.tr, t, fates));
  }

  lemma FinalizeRounds(c: Conn, t: T.State, status: Status, fates: seq<Fate>, trip: Trip)
    requires Rounded(c) && Fits(fates)
    ensures Rounded(Finalize(c, t, status, fates, trip))
  {
    if Slips(trip, c.tr, t) { EmitAllRounds(c, NewFrames(c.tr, trip.left), fates); } else { EndTurnRounds(c, t, status, fates); }
  }

  lemma RejectedRounds(p: Params, c: Conn, message: string, fates: seq<Fate>, trip: Trip)
    requires Rounded(c) && Fits(fates)
    ensures Rounded(OnRejected(p, c, message, fates, trip))
  {
    if c.terminated { ShutRounds(c, Ok); } else { FinalizeRounds(c, p.onThrow(c.tr, message), Failed, fates, trip); }
  }

  lemma FaultRounds(p: Params, c: Conn, fates: seq<Fate>, trip: Trip)
    requires Rounded(c) && Fits(fates) && trip.Fault?
    ensures Rounded(OnFault(p, c, fates, trip))
  {
    EmitAllRounds(c, NewFrames(c.tr, trip.mid), fates);
    FitsOn(fates, |NewFrames(c.tr, trip.mid)|);
    RejectedRounds(p, SlipOff(c, trip.mid, fates), trip.message, LaterFates(c, trip.mid, fates), Again(trip));
  }

  lemma DeliverRounds(c: Conn, t: T.State, fates: seq<Fate>, trip: Trip)
    requires Rounded(c) && Fits(fates)
    ensures Rounded(Deliver(c, t, fates, trip))
  {
    var frames := NewFrames(c.tr, t);
    if Trips(trip, frames, t.outcome.Some?) {
      EmitAllRounds(c, frames[..trip.after], fates);
      OverflowRounds(EmitAll(c, frames[..trip.after], fates), trip.failureSent, trip.doneSent);
    } else if t.outcome.Some? {
      EndTurnRounds(c, t, t.outcome.value.status, fates);
    } else {
      EmitAllRounds(c, frames, fates);
    }
  }

  lemma LimitRounds(p: Params, c: Conn, e: Event, fates: seq<Fate>, trip: Trip)
    requires Rounded(c) && IsLimitError(e)
    ensures Rounded(OnEvent(p, c, e, fates, trip))
  {
    OverflowRounds(Active(c), !FirstFate(fates).Throws?, !FirstFate(RestFates(fates)).Throws?);
  }

  lemma FaultyRounds(p: Params, c: Conn, e: Event, fates: seq<Fate>, trip: Trip)
    requires Rounded(c) && Fits(fates) && !IsLimitError(e) && Faults(trip, c.tr, p.step(c.tr, e))
    ensures Rounded(OnEvent(p, c, e, fates, trip))
  {
    FaultRounds(p, Active(c), fates, trip);
  }

  lemma EventRounds(p: Params, c: Conn, e: Event, fates: seq<Fate>, trip: Trip)
    requires Rounded(c) && Fits(fates)
    ensures Rounded(OnEvent(p, c, e, fates, trip))
  {
    if IsLimitError(e) {
      LimitRounds(p, c, e, fates, trip);
    } else if Faults(trip, c.tr, p.step(c.tr, e)) {
      FaultyRounds(p, c, e, fates, trip);
    } else {
      DeliverRounds(Active(c), p.step(c.tr, e), fates, trip);
    }
  }

  lemma EndedRounds(p: Params, c: Conn, fates: seq<Fate>, trip: Trip)
    requires Rounded(c) && Fits(fates)
    ensures Rounded(OnEnded(p, c, fates, trip))
  {
    if !c.closed { FinalizeRounds(c.(beatArmed := false), p.onEof(c.tr), Incompleted, fates, trip); }
  }

  lemma ResumeRounds(p: Params, c: Conn, pulled: Pulled, fates: seq<Fate>, trip: Trip)
    requires Rounded(c) && Fits(fates)
    ensures Rounded(OnResume(p, c, pulled, fates, trip))
  {
    match pulled
    case Got(e) => if !c.closed && !c.clientCancelled { EventRounds(p, c, e, fates, trip); }
    case Ended => EndedRounds(p, c, fates, trip);
    case Rejected(message) => RejectedRounds(p, c, message, fates, trip);
    case RejectedByBudget(failureSent, doneSent) => OverflowRounds(c, failureSent, doneSent);
  }

  lemma StallTickRounds(p: Params, c: Conn, fates: seq<Fate>, trip: Trip)
    requires Rounded(c) && Fits(fates) && Counts(c) && StallsNow(p, c)
    ensures Rounded(OnTick(p, c, fates, trip))
  {
    if Slips(trip, c.tr, p.onStall(c.tr)) {
      EmitAllRounds(Ticked(c), NewFrames(c.tr, trip.left), fates);
    } else {
      StallRounds(Ticked(c), p.onStall(c.tr), fates);
    }
  }

  lemma BeatRounds(c: Conn, fate: Fate)
    requires !c.closed
    ensures Rounded(KeepAlive(c, fate))
  {
  }

  lemma TickRounds(p: Params, c: Conn, fates: seq<Fate>, trip: Trip)
    requires Rounded(c) && Fits(fates)
    ensures Rounded(OnTick(p, c, fates, trip))
  {
    if Counts(c) {
      if StallsNow(p, c) { StallTickRounds(p, c, fates, trip); } else { BeatRounds(Ticked(c), FirstFate(fates)); }
    }
  }

  predicate ActFits(a: Action) {
    a.Resume? || a.Tick? ==> Fits(a.fates)
  }

  lemma {:induction false} PlayRounds(p: Params, fate: Fate, actions: seq<Action>)
    requires !fate.Overflows? && forall a :: a in actions ==> ActFits(a)
    ensures Rounded(Play(p, fate, actions))
  {
    if actions == [] {
      EmitRounds(IDLE, Created, fate);
    } else {
      var (front, a) := (actions[..|actions| - 1], actions[|actions| - 1]);
      PlayRounds(p, fate, front);
      assert ActFits(a);
      var c := Play(p, fate, front);
      match a
      case Pull =>
      case Cancel =>
      case Tick(fates, trip) => TickRounds(p, c, fates, trip);
      case Resume(pulled, fates, trip) => if c.awaiting { ResumeRounds(p, c, pulled, fates, trip); }
    }
  }

  /**
   Over every interleaving in which no emission overflows by itself: a connection that is over without a cancel and
   without a failed enqueue ends with a terminal frame and `[DONE]` behind it. An overflow in emitting `[DONE]` is
   the one thing that loses it silently: the turn is terminated by then, and the escape does nothing.
   */
  lemma DoneFollows(cfg: Config, maxStallTicks: nat, fate: Fate, actions: seq<Action>)
    requires !fate.Overflows? && forall a :: a in actions ==> ActFits(a)
    ensures
      var c := Play(TranslatorParams(cfg, maxStallTicks), fate, actions);
      c.closed && !c.clientCancelled && !c.enqueueFailed ==>
        |c.wire| >= 2 && c.wire[|c.wire| - 1].DoneMarker? && IsTerminalFrame(c.wire[|c.wire| - 2])
  {
    PlayRounds(TranslatorParams(cfg, maxStallTicks), fate, actions);
    TerminalProtocol(cfg, maxStallTicks, fate, actions);
  }
}
