/** Safety of the connection over every interleaving: one terminal, then at most `[DONE]`, then nothing. */
module WireProtocol {
  import opened Text
  import opened Responses
  import opened Wire
  import T = Translator
  import P = Progress

  // ---- What a client has seen ----

  predicate IsTerminalFrame(w: WireFrame) {
    w.OverflowFailure? || (w.Sent? && w.f.Terminal?)
  }

  function StatusOf(w: WireFrame): Status
    requires IsTerminalFrame(w)
  {
    if w.OverflowFailure? then Failed else w.f.outcome.status
  }

  datatype Seen = Open | Closing(status: Status) | Finished(status: Status) | Violated

  function SeenNext(p: Seen, w: WireFrame): Seen {
    if p.Open? then (if IsTerminalFrame(w) then Closing(StatusOf(w)) else if w.DoneMarker? then Violated else Open)
    else if p.Closing? && w.DoneMarker? then Finished(p.status)
    else Violated
  }

  function SeenUpTo(wire: seq<WireFrame>, n: nat): Seen
    requires n <= |wire|
  {
    if n == 0 then Open else SeenNext(SeenUpTo(wire, n - 1), wire[n - 1])
  }

  function SeenOf(wire: seq<WireFrame>): Seen {
    SeenUpTo(wire, |wire|)
  }

  lemma {:induction false} SeenPrefix(wire: seq<WireFrame>, longer: seq<WireFrame>, n: nat)
    requires n <= |wire| && wire <= longer
    ensures SeenUpTo(longer, n) == SeenUpTo(wire, n)
  {
    if n > 0 {
      SeenPrefix(wire, longer, n - 1);
    }
  }

  lemma SeenAppend(wire: seq<WireFrame>, w: WireFrame)
    ensures SeenOf(wire + [w]) == SeenNext(SeenOf(wire), w)
  {
    SeenPrefix(wire, wire + [w], |wire|);
  }

  /** In positions: a terminal frame is the last frame, or the last but one with `[DONE]` behind it. */
  ghost predicate WellEnded(wire: seq<WireFrame>) {
    && (forall i :: 0 <= i < |wire| && IsTerminalFrame(wire[i]) ==>
         i == |wire| - 1 || (i == |wire| - 2 && wire[|wire| - 1].DoneMarker?))
    && (forall i :: 0 <= i < |wire| && wire[i].DoneMarker? ==>
         i == |wire| - 1 && i > 0 && IsTerminalFrame(wire[|wire| - 2]))
  }

  lemma {:induction false} SeenMeaning(wire: seq<WireFrame>)
    requires !SeenOf(wire).Violated?
    ensures WellEnded(wire)
    ensures SeenOf(wire).Open? <==> forall i :: 0 <= i < |wire| ==> !IsTerminalFrame(wire[i])
    ensures SeenOf(wire).Open? ==> forall i :: 0 <= i < |wire| ==> !wire[i].DoneMarker?
    ensures SeenOf(wire).Closing? ==>
      |wire| >= 1 && IsTerminalFrame(wire[|wire| - 1]) && StatusOf(wire[|wire| - 1]) == SeenOf(wire).status
    ensures SeenOf(wire).Finished? ==>
      |wire| >= 2 && IsTerminalFrame(wire[|wire| - 2]) && StatusOf(wire[|wire| - 2]) == SeenOf(wire).status
      && wire[|wire| - 1].DoneMarker?
  {
    if wire != [] {
      var n := |wire| - 1;
      var front := wire[..n];
      assert front + [wire[n]] == wire;
      SeenAppend(front, wire[n]);
      SeenMeaning(front);
      assert forall i :: 0 <= i < n ==> front[i] == wire[i];
      match SeenOf(front)
      case Open =>
      case Closing(_) => assert front[n - 1] == wire[n - 1];
      case _ =>
    }
  }

  // ---- What the connection needs of its translator ----

  /** A handler only appends frames; a terminal frame comes last and carries the outcome. */
  ghost predicate Moves(s: T.State, t: T.State) {
    if t.outcome.None? then P.Extends(s, t) else P.Concludes(s, t)
  }

  ghost predicate EndsAs(s: T.State, t: T.State, status: Status) {
    P.Concludes(s, t) && t.outcome.value.status == status
  }

  ghost predicate Lawful(p: Params) {
    && (forall s: T.State, e :: s.outcome.None? ==> Moves(s, p.step(s, e)))
    && (forall s :: EndsAs(s, p.onEof(s), Incompleted))
    && (forall s :: EndsAs(s, p.onStall(s), Incompleted))
    && (forall s, m :: EndsAs(s, p.onThrow(s, m), Failed))
  }

  lemma TranslatorIsLawful(cfg: Config, maxStallTicks: nat)
    ensures Lawful(TranslatorParams(cfg, maxStallTicks))
  {
    var p := TranslatorParams(cfg, maxStallTicks);
    forall s: T.State, e | s.outcome.None? ensures Moves(s, p.step(s, e)) {
      P.StepMoves(cfg, s, e);
    }
    forall s ensures EndsAs(s, p.onEof(s), Incompleted) && EndsAs(s, p.onStall(s), Incompleted) {
      P.AbnormalEndsConclude(cfg, s, ADAPTER_EOF);
      P.AbnormalEndsConclude(cfg, s, STALLED);
    }
    forall s, m ensures EndsAs(s, p.onThrow(s, m), Failed) {
      P.AbnormalEndsConclude(cfg, s, FailedWith(Proxy(m), None));
    }
  }

  // ---- The invariant ----

  ghost predicate Proto(c: Conn) {
    var seen := SeenOf(c.wire);
    && !seen.Violated?
    && |c.reports| <= 1
    && (seen.Closing? || seen.Finished? ==> c.closed && c.reports == [seen.status])
    && (c.reports != [] ==> c.closed && (!seen.Open? || c.enqueueFailed))
    && (c.closed && seen.Open? ==> c.clientCancelled || c.enqueueFailed)
    && (c.terminated || c.clientCancelled || c.tr.outcome.Some? ==> c.closed)
    && (c.errored ==> seen.Open? && !c.awaiting)
  }

  lemma OverflowKeepsProto(c: Conn, failureSent: bool, doneSent: bool)
    requires Proto(c) && (c.errored ==> !failureSent)
    ensures Proto(Overflow(c, failureSent, doneSent)) && Overflow(c, failureSent, doneSent).closed
    ensures c.closed ==> Overflow(c, failureSent, doneSent) == c
  {
    if !c.closed {
      SeenAppend(c.wire, OverflowFailure);
      SeenAppend(c.wire + [OverflowFailure], DoneMarker);
      assert c.wire + [OverflowFailure, DoneMarker] == c.wire + [OverflowFailure] + [DoneMarker];
      assert c.wire + [] == c.wire;
    }
  }

  lemma EmitSent(c: Conn, f: Frame)
    requires Proto(c) && !f.Terminal? && !c.closed && !c.errored
    ensures Proto(Emit(c, f, Ok))
  {
    SeenAppend(c.wire, Sent(f));
  }

  lemma EmitLost(c: Conn, f: Frame, fate: Fate)
    requires Proto(c) && (c.closed || !Actual(c, fate).Ok?)
    ensures Proto(Emit(c, f, fate))
  {
    if !c.closed && fate.Overflows? {
      OverflowKeepsProto(c.(wireActivity := true), Actual(c, fate).failureSent, Actual(c, fate).doneSent);
    }
  }

  lemma EmitKeepsProto(c: Conn, f: Frame, fate: Fate)
    requires Proto(c) && !f.Terminal?
    ensures Proto(Emit(c, f, fate)) && Emit(c, f, fate).tr == c.tr
  {
    if !c.closed && Actual(c, fate).Ok? { EmitSent(c, f); } else { EmitLost(c, f, fate); }
  }

  lemma {:induction false} EmitAllKeepsProto(c: Conn, frames: seq<Frame>, fates: seq<Fate>)
    requires Proto(c) && forall i :: 0 <= i < |frames| ==> !frames[i].Terminal?
    ensures Proto(EmitAll(c, frames, fates)) && EmitAll(c, frames, fates).tr == c.tr
    decreases frames
  {
    if frames != [] {
      EmitKeepsProto(c, frames[0], FirstFate(fates));
      EmitAllKeepsProto(Emit(c, frames[0], FirstFate(fates)), frames[1..], RestFates(fates));
    }
  }

  lemma {:induction false} EmitAllSnoc(c: Conn, frames: seq<Frame>, last: Frame, fates: seq<Fate>)
    ensures EmitAll(c, frames + [last], fates)
         == Emit(EmitAll(c, frames, fates), last, FirstFate(DropFates(fates, |frames|)))
    decreases frames
  {
    if frames == [] {
      assert [] + [last] == [last];
      assert [last][1..] == [];
    } else {
      assert (frames + [last])[1..] == frames[1..] + [last];
      EmitAllSnoc(Emit(c, frames[0], FirstFate(fates)), frames[1..], last, RestFates(fates));
      assert DropFates(RestFates(fates), |frames| - 1) == DropFates(fates, |frames|);
    }
  }

  /** Between the terminal frame and the close. */
  ghost predicate Ending(c: Conn, status: Status) {
    c.terminated &&
    if c.closed then Proto(c)
    else SeenOf(c.wire) == Closing(status) && c.reports == [status] && !c.clientCancelled && !c.errored
  }

  lemma TerminalSent(c: Conn, f: Frame, t: T.State)
    requires Proto(c) && f.Terminal? && !c.closed && !c.errored
    ensures Ending(Terminate(Emit(c, f, Ok).(tr := t), f.outcome.status), f.outcome.status)
  {
    SeenAppend(c.wire, Sent(f));
  }

  lemma TerminalLost(c: Conn, f: Frame, fate: Fate, t: T.State)
    requires Proto(c) && f.Terminal? && (c.closed || !Actual(c, fate).Ok?)
    ensures Ending(Terminate(Emit(c, f, fate).(tr := t), f.outcome.status), f.outcome.status)
  {
    if !c.closed && fate.Overflows? {
      OverflowKeepsProto(c.(wireActivity := true), Actual(c, fate).failureSent, Actual(c, fate).doneSent);
    }
  }

  lemma TerminalEnds(c: Conn, f: Frame, fate: Fate, t: T.State)
    requires Proto(c) && f.Terminal?
    ensures Ending(Terminate(Emit(c, f, fate).(tr := t), f.outcome.status), f.outcome.status)
  {
    if !c.closed && Actual(c, fate).Ok? { TerminalSent(c, f, t); } else { TerminalLost(c, f, fate, t); }
  }

  lemma DoneSent(c: Conn, status: Status)
    requires Ending(c, status) && !c.closed
    ensures Proto(Shut(c, Ok)) && Proto(EmitDone(c, Ok).(beatArmed := false, closed := true))
  {
    SeenAppend(c.wire, DoneMarker);
    var wire := c.wire + [DoneMarker];
    assert Shut(c, Ok).wire == wire && EmitDone(c, Ok).wire == wire;
  }

  lemma DoneLost(c: Conn, status: Status, fate: Fate)
    requires Ending(c, status) && (c.closed || !fate.Ok?)
    ensures Proto(Shut(c, fate)) && Proto(EmitDone(c, fate).(beatArmed := false, closed := true))
  {
  }

  lemma EndingShuts(c: Conn, status: Status, fate: Fate)
    requires Ending(c, status)
    ensures Proto(Shut(c, fate)) && Proto(EmitDone(c, fate).(beatArmed := false, closed := true))
  {
    if !c.closed && fate.Ok? { DoneSent(c, status); } else { DoneLost(c, status, fate); }
  }

  lemma SplitConcluded(s: T.State, t: T.State)
    requires P.Concludes(s, t)
    ensures
      var frames := NewFrames(s, t);
      && frames != []
      && frames == frames[..|frames| - 1] + [frames[|frames| - 1]]
      && (forall i :: 0 <= i < |frames| - 1 ==> !frames[i].Terminal?)
      && frames[|frames| - 1].Terminal? && frames[|frames| - 1].outcome == t.outcome.value
  {
  }

  lemma EndTurnKeepsProto(c: Conn, t: T.State, status: Status, fates: seq<Fate>)
    requires Proto(c) && P.Concludes(c.tr, t) && t.outcome.value.status == status
    ensures Proto(EndTurn(c, t, status, fates)) && EndTurn(c, t, status, fates).closed
  {
    SplitConcluded(c.tr, t);
    var frames := NewFrames(c.tr, t);
    var front, last := frames[..|frames| - 1], frames[|frames| - 1];
    EmitAllKeepsProto(c, front, fates);
    EmitAllSnoc(c, front, last, fates);
    TerminalEnds(EmitAll(c, front, fates), last, FirstFate(DropFates(fates, |front|)), t);
    EndingShuts(Terminate(Forward(c, t, fates), t.outcome.value.status), t.outcome.value.status, LastFate(c.tr, t, fates));
  }

  lemma StallKeepsProto(c: Conn, t: T.State, fates: seq<Fate>)
    requires Proto(c) && P.Concludes(c.tr, t) && t.outcome.value.status == Incompleted
    ensures Proto(Stall(c, t, fates)) && Stall(c, t, fates).closed
  {
    SplitConcluded(c.tr, t);
    var frames := NewFrames(c.tr, t);
    var front, last := frames[..|frames| - 1], frames[|frames| - 1];
    EmitAllKeepsProto(c, front, fates);
    EmitAllSnoc(c, front, last, fates);
    TerminalEnds(EmitAll(c, front, fates), last, FirstFate(DropFates(fates, |front|)), t);
    EndingShuts(Terminate(Forward(c, t, fates), Incompleted), Incompleted, LastFate(c.tr, t, fates));
  }

  /** Closings that throw half-way leave the protocol where it was: no terminal was sent. */
  lemma SlipKeepsProto(c: Conn, t: T.State, left: T.State, fates: seq<Fate>)
    requires Proto(c) && P.Concludes(c.tr, t) && Slips(Slip(left), c.tr, t)
    ensures Proto(SlipOff(c, left, fates)) && Proto(Reject(SlipOff(c, left, fates)))
    ensures SlipOff(c, left, fates).errored == c.errored
  {
    var frames := NewFrames(c.tr, left);
    forall i | 0 <= i < |frames| ensures !frames[i].Terminal? {
      assert frames[i] == left.frames[|c.tr.frames| + i] == t.frames[|c.tr.frames| + i];
    }
    EmitAllKeepsProto(c, frames, fates);
  }

  lemma FinalizeKeepsProto(c: Conn, t: T.State, status: Status, fates: seq<Fate>, trip: Trip)
    requires Proto(c) && P.Concludes(c.tr, t) && t.outcome.value.status == status
    ensures Proto(Finalize(c, t, status, fates, trip))
  {
    if Slips(trip, c.tr, t) {
      SlipKeepsProto(c, t, trip.left, fates);
    } else {
      EndTurnKeepsProto(c, t, status, fates);
      var d := EndTurn(c, t, status, fates);
      assert Proto(d.(awaiting := false));
    }
  }

  lemma DeliverKeepsProto(c: Conn, t: T.State, fates: seq<Fate>, trip: Trip)
    requires Proto(c) && !c.closed && !c.errored
    requires if t.outcome.None? then P.Extends(c.tr, t) else P.Concludes(c.tr, t)
    ensures Proto(Deliver(c, t, fates, trip))
  {
    var frames := NewFrames(c.tr, t);
    if Trips(trip, frames, t.outcome.Some?) {
      if t.outcome.Some? { SplitConcluded(c.tr, t); }
      EmitAllKeepsProto(c, frames[..trip.after], fates);
      OverflowKeepsProto(EmitAll(c, frames[..trip.after], fates), trip.failureSent, trip.doneSent);
    } else if t.outcome.Some? {
      EndTurnKeepsProto(c, t, t.outcome.value.status, fates);
    } else {
      EmitAllKeepsProto(c, frames, fates);
    }
  }

  lemma ClosedShuts(c: Conn, fate: Fate)
    requires c.closed && c.terminated
    ensures Shut(c, fate) == c.(beatArmed := false, gated := true, stepping := false)
  {
  }

  lemma RejectionKeepsProto(p: Params, c: Conn, message: string, fates: seq<Fate>, trip: Trip)
    requires Lawful(p)
    requires Proto(c)
    ensures Proto(OnRejected(p, c, message, fates, trip))
  {
    if c.terminated {
      ClosedShuts(c, Ok);
      assert Proto(c.(beatArmed := false, gated := true, stepping := false, awaiting := false));
    } else {
      FinalizeKeepsProto(c, p.onThrow(c.tr, message), Failed, fates, trip);
    }
  }

  lemma EventKeepsProto(p: Params, c: Conn, e: Event, fates: seq<Fate>, trip: Trip)
    requires Lawful(p)
    requires Proto(c) && !c.closed && !c.errored
    ensures Proto(OnEvent(p, c, e, fates, trip))
  {
    assert Proto(Active(c));
    if IsLimitError(e) {
      OverflowKeepsProto(Active(c), !FirstFate(fates).Throws?, !FirstFate(RestFates(fates)).Throws?);
    } else {
      assert Moves(c.tr, p.step(c.tr, e));
      if Faults(trip, c.tr, p.step(c.tr, e)) {
        FaultKeepsProto(p, Active(c), p.step(c.tr, e), fates, trip);
      } else {
        DeliverKeepsProto(Active(c), p.step(c.tr, e), fates, trip);
      }
    }
  }

  lemma FaultKeepsProto(p: Params, c: Conn, t: T.State, fates: seq<Fate>, trip: Trip)
    requires Lawful(p) && Proto(c) && Moves(c.tr, t) && Faults(trip, c.tr, t)
    ensures Proto(OnFault(p, c, fates, trip))
  {
    var frames := NewFrames(c.tr, trip.mid);
    forall i | 0 <= i < |frames| ensures !frames[i].Terminal? {
      assert frames[i] == trip.mid.frames[|c.tr.frames| + i] == t.frames[|c.tr.frames| + i];
    }
    EmitAllKeepsProto(c, frames, fates);
    assert Proto(SlipOff(c, trip.mid, fates));
    RejectionKeepsProto(p, SlipOff(c, trip.mid, fates), trip.message, LaterFates(c, trip.mid, fates), Again(trip));
  }

  lemma EndedKeepsProto(p: Params, c: Conn, fates: seq<Fate>, trip: Trip)
    requires Lawful(p)
    requires Proto(c)
    ensures Proto(OnResume(p, c, Pulled.Ended, fates, trip))
  {
    if !c.closed {
      FinalizeKeepsProto(c.(beatArmed := false), p.onEof(c.tr), Incompleted, fates, trip);
    }
  }

  lemma GotKeepsProto(p: Params, c: Conn, e: Event, fates: seq<Fate>, trip: Trip)
    requires Lawful(p)
    requires Proto(c) && c.awaiting
    ensures Proto(OnResume(p, c, Got(e), fates, trip))
  {
    if c.closed {
      assert OnResume(p, c, Got(e), fates, trip) == Ignore(c);
    } else {
      EventKeepsProto(p, c, e, fates, trip);
    }
  }

  lemma BudgetKeepsProto(p: Params, c: Conn, failureSent: bool, doneSent: bool, fates: seq<Fate>, trip: Trip)
    requires Proto(c) && c.awaiting
    ensures Proto(OnResume(p, c, RejectedByBudget(failureSent, doneSent), fates, trip))
  {
    OverflowKeepsProto(c, failureSent, doneSent);
    var c1 := Overflow(c, failureSent, doneSent);
    assert Proto(c1.(awaiting := false));
  }

  lemma ResumeKeepsProto(p: Params, c: Conn, pulled: Pulled, fates: seq<Fate>, trip: Trip)
    requires Lawful(p)
    requires Proto(c) && c.awaiting
    ensures Proto(OnResume(p, c, pulled, fates, trip))
  {
    match pulled
    case Got(e) => GotKeepsProto(p, c, e, fates, trip);
    case Ended => EndedKeepsProto(p, c, fates, trip);
    case Rejected(message) => RejectionKeepsProto(p, c, message, fates, trip);
    case RejectedByBudget(failureSent, doneSent) => BudgetKeepsProto(p, c, failureSent, doneSent, fates, trip);
  }

  lemma KeepAliveKeepsProto(c: Conn, fate: Fate)
    requires Proto(c) && !c.closed
    ensures Proto(KeepAlive(c, fate))
  {
    if !c.wireActivity && !c.errored && !fate.Throws? {
      BeatKeepsProto(c);
    }
  }

  lemma BeatKeepsProto(c: Conn)
    requires Proto(c) && !c.closed && !c.errored
    ensures Proto(c.(wire := c.wire + [Beat], emittedFrames := c.emittedFrames + 1))
  {
    SeenAppend(c.wire, Beat);
  }

  lemma TickedKeepsProto(c: Conn)
    requires Proto(c)
    ensures Proto(Ticked(c)) && Ticked(c).tr == c.tr && Ticked(c).closed == c.closed
  {
  }

  lemma TickKeepsProto(p: Params, c: Conn, fates: seq<Fate>, trip: Trip)
    requires Lawful(p) && Proto(c)
    ensures Proto(OnTick(p, c, fates, trip))
  {
    TickedKeepsProto(c);
    if Counts(c) {
      if StallsNow(p, c) {
        assert EndsAs(c.tr, p.onStall(c.tr), Incompleted);
        if Slips(trip, c.tr, p.onStall(c.tr)) {
          SlipKeepsProto(Ticked(c), p.onStall(c.tr), trip.left, fates);
        } else {
          StallKeepsProto(Ticked(c), p.onStall(c.tr), fates);
        }
      } else {
        KeepAliveKeepsProto(Ticked(c), FirstFate(fates));
      }
    }
  }

  /** Once closed, nothing is enqueued and nothing is reported any more. */
  lemma ClosedIsSilent(p: Params, c: Conn, a: Action)
    requires c.closed
    ensures Act(p, c, a).closed && Act(p, c, a).wire == c.wire && Act(p, c, a).reports == c.reports
  {
    match a
    case Pull =>
    case Tick(fates, trip) => assert OnTick(p, c, fates, trip) == c;
    case Cancel =>
    case Resume(pulled, fates, trip) => ClosedResumesSilently(p, c, pulled, fates, trip);
  }

  ghost predicate Silent(c: Conn, d: Conn) {
    d.closed && d.wire == c.wire && d.reports == c.reports
  }

  lemma ClosedIgnores(p: Params, c: Conn, pulled: Pulled, fates: seq<Fate>, trip: Trip)
    requires c.closed && (pulled.Got? || pulled.Ended?)
    ensures Silent(c, OnResume(p, c, pulled, fates, trip))
  {
    assert OnResume(p, c, pulled, fates, trip) == Ignore(c);
  }

  lemma ClosedOverflows(c: Conn, failureSent: bool, doneSent: bool)
    requires c.closed
    ensures Overflow(c, failureSent, doneSent) == c
  {
  }

  lemma ClosedRejects(p: Params, c: Conn, message: string, fates: seq<Fate>, trip: Trip)
    requires c.closed
    ensures Silent(c, OnRejected(p, c, message, fates, trip))
  {
    if c.terminated {
      ClosedShuts(c, Ok);
    } else {
      ClosedEndsSilently(c, p.onThrow(c.tr, message), Failed, fates, trip);
    }
  }

  lemma ClosedResumesSilently(p: Params, c: Conn, pulled: Pulled, fates: seq<Fate>, trip: Trip)
    requires c.closed
    ensures Silent(c, OnResume(p, c, pulled, fates, trip))
  {
    match pulled
    case Got(e) => ClosedIgnores(p, c, pulled, fates, trip);
    case Ended => ClosedIgnores(p, c, pulled, fates, trip);
    case Rejected(message) => ClosedRejects(p, c, message, fates, trip);
    case RejectedByBudget(failureSent, doneSent) => ClosedOverflows(c, failureSent, doneSent);
  }

  lemma ClosedEndsSilently(c: Conn, t: T.State, status: Status, fates: seq<Fate>, trip: Trip)
    requires c.closed
    ensures Silent(c, Finalize(c, t, status, fates, trip))
  {
    if Slips(trip, c.tr, t) {
      ClosedSwallows(c, NewFrames(c.tr, trip.left), fates);
    } else {
      ClosedSwallows(c, NewFrames(c.tr, t), fates);
    }
  }

  lemma {:induction false} ClosedSwallows(c: Conn, frames: seq<Frame>, fates: seq<Fate>)
    requires c.closed
    ensures EmitAll(c, frames, fates) == c
    decreases frames
  {
    if frames != [] {
      ClosedSwallows(c, frames[1..], RestFates(fates));
    }
  }

  lemma ActKeepsProto(p: Params, c: Conn, a: Action)
    requires Lawful(p)
    requires Proto(c)
    ensures Proto(Act(p, c, a))
  {
    match a
    case Pull =>
    case Resume(pulled, fates, trip) => if c.awaiting { ResumeKeepsProto(p, c, pulled, fates, trip); }
    case Tick(fates, trip) => TickKeepsProto(p, c, fates, trip);
    case Cancel =>
  }

  lemma {:induction false} PlayKeepsProto(p: Params, fate: Fate, actions: seq<Action>)
    requires Lawful(p)
    ensures Proto(Play(p, fate, actions))
  {
    if actions == [] {
      EmitKeepsProto(IDLE, Created, fate);
    } else {
      PlayKeepsProto(p, fate, actions[..|actions| - 1]);
      ActKeepsProto(p, Play(p, fate, actions[..|actions| - 1]), actions[|actions| - 1]);
    }
  }

  // ---- The one way to lose the terminal ----

  /** The catch of `step` is left by an exception, and the frames sent before it leave the connection open. */
  predicate CatchLoses(p: Params, c: Conn, message: string, fates: seq<Fate>, trip: Trip) {
    !c.terminated && Uncaught(c, p.onThrow(c.tr, message), fates, trip)
  }

  predicate FaultLoses(p: Params, c: Conn, fates: seq<Fate>, trip: Trip)
    requires trip.Fault?
  {
    CatchLoses(p, SlipOff(c, trip.mid, fates), trip.message, LaterFates(c, trip.mid, fates), Again(trip))
  }

  /** A handled event runs into an exception that is not the budget's. */
  predicate FaultsNow(p: Params, c: Conn, e: Event, trip: Trip) {
    !c.closed && !c.clientCancelled && !IsLimitError(e) && Faults(trip, c.tr, p.step(c.tr, e))
  }

  /**
   The adapter ends, or it or a handler fails, the closings throw, and the frames they still send leave the
   connection open.
   */
  predicate Loses(p: Params, c: Conn, a: Action) {
    && a.Resume? && c.awaiting
    && match a.pulled
       case Ended => !c.closed && !c.clientCancelled && Uncaught(c.(beatArmed := false), p.onEof(c.tr), a.fates, a.trip)
       case Rejected(message) => CatchLoses(p, c, message, a.fates, a.trip)
       case Got(e) => FaultsNow(p, c, e, a.trip) && FaultLoses(p, Active(c), a.fates, a.trip)
       case _ => false
  }

  predicate LosesAt(p: Params, fate: Fate, actions: seq<Action>, k: nat)
    requires k < |actions|
  {
    Loses(p, Play(p, fate, actions[..k]), actions[k])
  }

  ghost predicate LosesTerminal(p: Params, fate: Fate, actions: seq<Action>) {
    exists k: nat :: k < |actions| && LosesAt(p, fate, actions, k)
  }

  /** One action errors the stream exactly by an exception that nobody catches. */
  lemma ActErrors(p: Params, c: Conn, a: Action)
    ensures Act(p, c, a).errored <==> c.errored || Loses(p, c, a)
  {
    match a
    case Pull =>
    case Cancel =>
    case Tick(fates, trip) =>
    case Resume(pulled, fates, trip) => if c.awaiting { ResumeErrors(p, c, pulled, fates, trip); }
  }

  lemma ResumeErrors(p: Params, c: Conn, pulled: Pulled, fates: seq<Fate>, trip: Trip)
    requires c.awaiting
    ensures OnResume(p, c, pulled, fates, trip).errored <==> c.errored || Loses(p, c, Resume(pulled, fates, trip))
  {
    match pulled
    case Got(e) => if !c.closed && !c.clientCancelled { EventErrors(p, c, e, fates, trip); }
    case Ended =>
    case Rejected(message) =>
    case RejectedByBudget(failureSent, doneSent) =>
  }

  lemma EventErrors(p: Params, c: Conn, e: Event, fates: seq<Fate>, trip: Trip)
    requires !c.closed && !c.clientCancelled
    ensures OnEvent(p, c, e, fates, trip).errored
       <==> c.errored || (FaultsNow(p, c, e, trip) && FaultLoses(p, Active(c), fates, trip))
  {
    if FaultsNow(p, c, e, trip) { FaultErrors(p, Active(c), fates, trip); }
  }

  lemma FaultErrors(p: Params, c: Conn, fates: seq<Fate>, trip: Trip)
    requires trip.Fault?
    ensures OnFault(p, c, fates, trip).errored <==> c.errored || FaultLoses(p, c, fates, trip)
  {
  }

  /** Over a run: the stream is errored exactly if some action was such an exception. */
  lemma {:induction false} PlayErrors(p: Params, fate: Fate, actions: seq<Action>)
    ensures Play(p, fate, actions).errored <==> LosesTerminal(p, fate, actions)
  {
    if actions != [] {
      var n := |actions| - 1;
      PlayErrors(p, fate, actions[..n]);
      ActErrors(p, Play(p, fate, actions[..n]), actions[n]);
      LosesSnoc(p, fate, actions);
    }
  }

  lemma LosesSnoc(p: Params, fate: Fate, actions: seq<Action>)
    requires actions != []
    ensures LosesTerminal(p, fate, actions)
       <==> LosesTerminal(p, fate, actions[..|actions| - 1]) || LosesAt(p, fate, actions, |actions| - 1)
  {
    var n := |actions| - 1;
    forall k: nat | k < n ensures LosesAt(p, fate, actions[..n], k) == LosesAt(p, fate, actions, k) {
      assert actions[..n][..k] == actions[..k];
    }
  }

  ghost predicate HasTerminal(wire: seq<WireFrame>) {
    exists i :: 0 <= i < |wire| && IsTerminalFrame(wire[i])
  }

  /**
   The terminal protocol, for every interleaving of pulls, adapter results, beat ticks and cancellation, with
   any emission failing or overflowing, any handler throwing a budget exception or another one half-way, and any
   closings throwing: at most one terminal frame, nothing but one `[DONE]` behind it, at most one report, agreeing
   with the frame sent. A connection that is over without a cancel and without a failed enqueue has sent its
   terminal, except exactly if the closings of `step` itself, at the end of the input or in its catch, threw.
   */
  lemma TerminalProtocol(cfg: Config, maxStallTicks: nat, fate: Fate, actions: seq<Action>)
    ensures
      var c := Play(TranslatorParams(cfg, maxStallTicks), fate, actions);
      && WellEnded(c.wire)
      && |c.reports| <= 1
      && (forall i :: 0 <= i < |c.wire| && IsTerminalFrame(c.wire[i]) ==> c.reports == [StatusOf(c.wire[i])])
      && (c.closed && !c.clientCancelled && !c.enqueueFailed ==> HasTerminal(c.wire))
      && (c.errored ==> !HasTerminal(c.wire))
      && (c.errored <==> LosesTerminal(TranslatorParams(cfg, maxStallTicks), fate, actions))
  {
    var p := TranslatorParams(cfg, maxStallTicks);
    TranslatorIsLawful(cfg, maxStallTicks);
    PlayKeepsProto(p, fate, actions);
    ProtoMeaning(Play(p, fate, actions));
    PlayErrors(p, fate, actions);
  }

  lemma ProtoMeaning(c: Conn)
    requires Proto(c)
    ensures WellEnded(c.wire) && |c.reports| <= 1
    ensures forall i :: 0 <= i < |c.wire| && IsTerminalFrame(c.wire[i]) ==> c.reports == [StatusOf(c.wire[i])]
    ensures c.closed && !c.clientCancelled && !c.enqueueFailed ==> HasTerminal(c.wire)
    ensures c.errored ==> !HasTerminal(c.wire)
  {
    SeenMeaning(c.wire);
    forall i | 0 <= i < |c.wire| && IsTerminalFrame(c.wire[i]) ensures c.reports == [StatusOf(c.wire[i])] {
      LastTerminal(c.wire, i);
    }
  }

  lemma LastTerminal(wire: seq<WireFrame>, i: nat)
    requires !SeenOf(wire).Violated? && i < |wire| && IsTerminalFrame(wire[i])
    ensures SeenOf(wire) == Closing(StatusOf(wire[i])) || SeenOf(wire) == Finished(StatusOf(wire[i]))
  {
    SeenMeaning(wire);
    assert WellEnded(wire);
    assert i == |wire| - 1 || i == |wire| - 2;
  }

  lemma PlaySnoc(p: Params, fate: Fate, actions: seq<Action>, last: Action)
    ensures Play(p, fate, actions + [last]) == Act(p, Play(p, fate, actions), last)
  {
    assert (actions + [last])[..|actions|] == actions;
  }

  /** Nothing leaves after the close, however the run goes on. */
  lemma {:induction false} SilentAfterClose(p: Params, fate: Fate, actions: seq<Action>, more: seq<Action>)
    requires Lawful(p)
    requires Play(p, fate, actions).closed
    ensures Play(p, fate, actions + more).closed
    ensures Play(p, fate, actions + more).wire == Play(p, fate, actions).wire
    ensures Play(p, fate, actions + more).reports == Play(p, fate, actions).reports
    decreases |more|
  {
    if more == [] {
      assert actions + more == actions;
    } else {
      var front := more[..|more| - 1];
      SilentAfterClose(p, fate, actions, front);
      assert actions + more == (actions + front) + [more[|more| - 1]];
      PlaySnoc(p, fate, actions + front, more[|more| - 1]);
      ClosedIsSilent(p, Play(p, fate, actions + front), more[|more| - 1]);
    }
  }

  // ---- After an error ----

  lemma EmitsNothing(c: Conn, f: Frame, fate: Fate)
    requires c.errored
    ensures Emit(c, f, fate).wire == c.wire
  {
    assert c.wire + EscapeFrames(false, false) == c.wire;
  }

  lemma {:induction false} ErroredSwallows(c: Conn, frames: seq<Frame>, fates: seq<Fate>)
    requires c.errored
    ensures EmitAll(c, frames, fates).wire == c.wire
    decreases frames
  {
    if frames != [] {
      EmitsNothing(c, frames[0], FirstFate(fates));
      ErroredSwallows(Emit(c, frames[0], FirstFate(fates)), frames[1..], RestFates(fates));
    }
  }

  lemma DoneIsLost(c: Conn, fate: Fate)
    requires c.errored && c.terminated
    ensures EmitDone(c, fate).wire == c.wire
  {
  }

  lemma ErroredStallIsSilent(c: Conn, t: T.State, fates: seq<Fate>, left: T.State)
    requires c.errored
    ensures Stall(c, t, fates).wire == c.wire && SlipOff(c, left, fates).wire == c.wire
  {
    ErroredSwallows(c, NewFrames(c.tr, left), fates);
    ErroredSwallows(c, NewFrames(c.tr, t), fates);
    DoneIsLost(Terminate(Forward(c, t, fates), Incompleted), LastFate(c.tr, t, fates));
  }

  lemma TickedKeepsWire(c: Conn)
    ensures Ticked(c).wire == c.wire
  {
  }

  lemma BeatIsLost(c: Conn, fate: Fate)
    requires c.errored
    ensures KeepAlive(c, fate).wire == c.wire
  {
  }

  lemma ErroredTickIsSilent(p: Params, c: Conn, fates: seq<Fate>, trip: Trip)
    requires c.errored
    ensures OnTick(p, c, fates, trip).wire == c.wire
  {
    if Counts(c) {
      TickedKeepsWire(c);
      if StallsNow(p, c) {
        ErroredStallIsSilent(Ticked(c), p.onStall(c.tr), fates, if trip.Slip? then trip.left else c.tr);
      } else {
        BeatIsLost(Ticked(c), FirstFate(fates));
      }
    }
  }

  /** Nothing can be sent once the stream is errored, however the run goes on. */
  lemma {:induction false} SilentAfterError(p: Params, fate: Fate, actions: seq<Action>, more: seq<Action>)
    requires Lawful(p) && Play(p, fate, actions).errored
    ensures Play(p, fate, actions + more).errored
    ensures Play(p, fate, actions + more).wire == Play(p, fate, actions).wire
    decreases |more|
  {
    if more == [] {
      assert actions + more == actions;
    } else {
      var front, a := more[..|more| - 1], more[|more| - 1];
      SilentAfterError(p, fate, actions, front);
      assert actions + more == (actions + front) + [a];
      PlaySnoc(p, fate, actions + front, a);
      var c := Play(p, fate, actions + front);
      PlayKeepsProto(p, fate, actions + front);
      ActErrors(p, c, a);
      if a.Tick? {
        ErroredTickIsSilent(p, c, a.fates, a.trip);
      }
    }
  }

  // ---- It happens ----

  predicate Healthy(c: Conn) {
    !c.closed && !c.errored && !c.clientCancelled && !c.enqueueFailed && c.reports == []
  }

  lemma EmitStaysHealthy(c: Conn, f: Frame)
    requires Healthy(c)
    ensures Healthy(Emit(c, f, Ok)) && Emit(c, f, Ok).tr == c.tr
    ensures Emit(c, f, Ok).awaiting == c.awaiting && Emit(c, f, Ok).stepping == c.stepping
  {
  }

  lemma {:induction false} EmitAllStaysHealthy(c: Conn, frames: seq<Frame>)
    requires Healthy(c)
    ensures var d := EmitAll(c, frames, []);
      Healthy(d) && d.awaiting == c.awaiting && d.stepping == c.stepping
    decreases frames
  {
    if frames != [] {
      EmitStaysHealthy(c, frames[0]);
      EmitAllStaysHealthy(Emit(c, frames[0], Ok), frames[1..]);
    }
  }

  /** A pull, an event that does not end the turn, and another pull: the step waits for more. */
  lemma EventThenPull(p: Params, c: Conn, e: Event)
    requires Healthy(c) && c.awaiting && c.stepping && !IsLimitError(e) && p.step(c.tr, e).outcome.None?
    ensures var d := OnPull(OnResume(p, c, Got(e), [], NoTrip));
      Healthy(d) && d.awaiting && d.tr == p.step(c.tr, e)
  {
    var c1 := c.(upstreamActivity := true, stallTicks := 0);
    var t := p.step(c.tr, e);
    EmitAllStaysHealthy(c1, NewFrames(c1.tr, t));
    var d := Forward(c1, t, []);
    assert OnResume(p, c, Got(e), [], NoTrip) == AfterEvent(d);
    ResumesPulling(d);
  }

  lemma ResumesPulling(c: Conn)
    requires Healthy(c) && c.awaiting && c.stepping
    ensures Healthy(OnPull(AfterEvent(c))) && OnPull(AfterEvent(c)).awaiting && OnPull(AfterEvent(c)).tr == c.tr
  {
  }

  lemma OneMessageOpen(cfg: Config, text: Text)
    requires !cfg.hideThinking && !cfg.compaction
    ensures var s := T.Step(cfg, T.START, TextDelta(text, None));
      && s.outcome.None? && s.frames <= T.CloseMessage(s, None).frames
      && T.OnEof(cfg, s) == T.EndWith(T.CloseMessage(s, None), ADAPTER_EOF)
  {
    var s := T.Step(cfg, T.START, TextDelta(text, None));
    P.MessageExtends(s, None);
  }

  lemma TwoMore(p: Params, actions: seq<Action>, a: Action, b: Action)
    ensures Play(p, Ok, actions + [a, b]) == Act(p, Act(p, Play(p, Ok, actions), a), b)
  {
    PlaySnoc(p, Ok, actions, a);
    PlaySnoc(p, Ok, actions + [a], b);
    assert actions + [a, b] == actions + [a] + [b];
  }

  lemma FourActions(p: Params, a: Action, b: Action, c: Action, d: Action)
    ensures Play(p, Ok, [a, b, c, d]) == Act(p, Act(p, Act(p, Act(p, Start(Ok), a), b), c), d)
  {
    TwoMore(p, [], a, b);
    TwoMore(p, [a, b], c, d);
    assert [] + [a, b] == [a, b] && [a, b] + [c, d] == [a, b, c, d];
  }

  lemma StartsWaiting()
    ensures var c := OnPull(Start(Ok)); Healthy(c) && c.awaiting && c.stepping && c.tr == T.START
  {
  }

  /** A message is open, and its finished item does not fit the budget any more at the end of the input. */
  lemma TerminalIsLost(cfg: Config, maxStallTicks: nat, text: Text)
    requires !cfg.hideThinking && !cfg.compaction
    ensures
      var e := TextDelta(text, None);
      var s := T.Step(cfg, T.START, e);
      var left := s.(frames := T.CloseMessage(s, None).frames);
      var actions := [Pull, Resume(Got(e), [], NoTrip), Pull, Resume(Pulled.Ended, [], Slip(left))];
      var c := Play(TranslatorParams(cfg, maxStallTicks), Ok, actions);
      c.errored && !c.clientCancelled && !c.enqueueFailed && c.reports == [] && !HasTerminal(c.wire)
  {
    var p, e := TranslatorParams(cfg, maxStallTicks), TextDelta(text, None);
    var s := T.Step(cfg, T.START, e);
    var left := s.(frames := T.CloseMessage(s, None).frames);
    var pull, got, ended := Pull, Resume(Got(e), [], NoTrip), Resume(Pulled.Ended, [], Slip(left));
    OneMessageOpen(cfg, text);
    FourActions(p, pull, got, pull, ended);
    StartsWaiting();
    EventThenPull(p, OnPull(Start(Ok)), e);
    EndIsLost(p, OnPull(Act(p, OnPull(Start(Ok)), got)), left);
    TerminalProtocol(cfg, maxStallTicks, Ok, [pull, got, pull, ended]);
  }

  lemma EndIsLost(p: Params, c: Conn, left: T.State)
    requires Healthy(c) && c.awaiting && Slips(Slip(left), c.tr, p.onEof(c.tr))
    ensures var d := Act(p, c, Resume(Pulled.Ended, [], Slip(left)));
      d.errored && !d.clientCancelled && !d.enqueueFailed && d.reports == []
  {
    EmitAllStaysHealthy(c.(beatArmed := false), NewFrames(c.tr, left));
    var d := Reject(SlipOff(c.(beatArmed := false), left, []));
    assert Act(p, c, Resume(Pulled.Ended, [], Slip(left))) == d;
  }
}
