/**
 Two statements over the whole connection: it never hangs, and a turn that ends well hands the client what the batch
 translator would have answered.
 */
module WireEnds {
  import opened Text
  import opened Responses
  import opened Wire
  import opened WireProtocol
  import opened WireRun
  import K = KeepAlive
  import T = Translator
  import B = BatchTranslator
  import R = Refinement

  // ---- It never hangs ----

  /** An open connection waits for the adapter, or has finished its step and can be pulled; its beat is on. */
  predicate Poised(c: Conn) {
    K.Live(c) &&
    (!c.closed && !c.errored ==> c.beatArmed && if c.awaiting then c.stepping && !c.gated else !c.stepping && c.gated)
  }

  lemma {:induction false} EmitAllLives(c: Conn, frames: seq<Frame>, fates: seq<Fate>)
    requires K.Live(c)
    ensures K.Live(EmitAll(c, frames, fates))
    ensures !EmitAll(c, frames, fates).closed ==> EmitAll(c, frames, fates).beatArmed == c.beatArmed
  {
    K.EmitAllFrame(c, frames, fates);
  }

  lemma FinalizePoised(c: Conn, t: T.State, status: Status, fates: seq<Fate>, trip: Trip)
    requires K.Live(c)
    ensures Poised(Finalize(c, t, status, fates, trip))
  {
    if Slips(trip, c.tr, t) {
      EmitAllLives(c, NewFrames(c.tr, trip.left), fates);
    }
  }

  lemma RejectedPoised(p: Params, c: Conn, message: string, fates: seq<Fate>, trip: Trip)
    requires K.Live(c)
    ensures Poised(OnRejected(p, c, message, fates, trip))
  {
    if !c.terminated { FinalizePoised(c, p.onThrow(c.tr, message), Failed, fates, trip); }
  }

  lemma FaultPoised(p: Params, c: Conn, fates: seq<Fate>, trip: Trip)
    requires K.Live(c) && trip.Fault?
    ensures Poised(OnFault(p, c, fates, trip))
  {
    EmitAllLives(c, NewFrames(c.tr, trip.mid), fates);
    RejectedPoised(p, SlipOff(c, trip.mid, fates), trip.message, LaterFates(c, trip.mid, fates), Again(trip));
  }

  lemma DeliverPoised(c: Conn, t: T.State, fates: seq<Fate>, trip: Trip)
    requires Poised(c) && !c.closed && !c.errored && c.awaiting
    ensures Poised(Deliver(c, t, fates, trip))
  {
    var frames := NewFrames(c.tr, t);
    if Trips(trip, frames, t.outcome.Some?) {
      EmitAllLives(c, frames[..trip.after], fates);
      K.OverflowCloses(EmitAll(c, frames[..trip.after], fates), trip.failureSent, trip.doneSent);
    } else if t.outcome.None? {
      EmitAllLives(c, frames, fates);
      AfterEventPoised(Forward(c, t, fates));
    }
  }

  lemma AfterEventPoised(c: Conn)
    requires K.Live(c) && (!c.closed ==> c.beatArmed && c.awaiting && c.stepping && !c.gated)
    ensures Poised(AfterEvent(c))
  {
  }

  lemma EventPoised(p: Params, c: Conn, e: Event, fates: seq<Fate>, trip: Trip)
    requires Poised(c) && !c.closed && !c.errored && c.awaiting
    ensures Poised(OnEvent(p, c, e, fates, trip))
  {
    if IsLimitError(e) {
      K.OverflowCloses(Active(c), !FirstFate(fates).Throws?, !FirstFate(RestFates(fates)).Throws?);
    } else if Faults(trip, c.tr, p.step(c.tr, e)) {
      FaultPoised(p, Active(c), fates, trip);
    } else {
      DeliverPoised(Active(c), p.step(c.tr, e), fates, trip);
    }
  }

  lemma ResumePoised(p: Params, c: Conn, pulled: Pulled, fates: seq<Fate>, trip: Trip)
    requires Poised(c) && Proto(c) && c.awaiting
    ensures Poised(OnResume(p, c, pulled, fates, trip))
  {
    match pulled
    case Got(e) => if !c.closed { EventPoised(p, c, e, fates, trip); }
    case Ended => if !c.closed { FinalizePoised(c.(beatArmed := false), p.onEof(c.tr), Incompleted, fates, trip); }
    case Rejected(message) => RejectedPoised(p, c, message, fates, trip);
    case RejectedByBudget(failureSent, doneSent) => K.OverflowCloses(c, failureSent, doneSent);
  }

  lemma TickPoised(p: Params, c: Conn, fates: seq<Fate>, trip: Trip)
    requires Poised(c)
    ensures Poised(OnTick(p, c, fates, trip))
  {
    if Counts(c) {
      if StallsNow(p, c) {
        if Slips(trip, c.tr, p.onStall(c.tr)) { EmitAllLives(Ticked(c), NewFrames(c.tr, trip.left), fates); }
      } else {
        BeatPoised(c, FirstFate(fates));
      }
    }
  }

  lemma BeatPoised(c: Conn, fate: Fate)
    requires Poised(c) && !c.closed
    ensures Poised(KeepAlive(Ticked(c), fate))
  {
  }

  lemma ActPoised(p: Params, c: Conn, a: Action)
    requires Poised(c) && Proto(c)
    ensures Poised(Act(p, c, a))
  {
    match a
    case Pull =>
    case Cancel =>
    case Tick(fates, trip) => TickPoised(p, c, fates, trip);
    case Resume(pulled, fates, trip) => if c.awaiting { ResumePoised(p, c, pulled, fates, trip); }
  }

  /**
   Over every interleaving: a connection that is neither closed nor errored waits for the adapter, or the next pull
   makes it wait for the adapter.
   */
  lemma {:induction false} NeverHangs(p: Params, fate: Fate, actions: seq<Action>)
    requires Lawful(p)
    ensures
      var c := Play(p, fate, actions);
      Poised(c) && (!c.closed && !c.errored ==> OnPull(c).awaiting)
  {
    if actions == [] {
      K.EmitFrame(IDLE, Created, fate);
    } else {
      var n := |actions| - 1;
      NeverHangs(p, fate, actions[..n]);
      PlayKeepsProto(p, fate, actions[..n]);
      ActPoised(p, Play(p, fate, actions[..n]), actions[n]);
    }
  }

  /**
   Over every interleaving a tick counts exactly while an open step waits for the adapter: between the steps, when
   the client is the one to act, ticks do nothing.
   */
  lemma TicksCountWhileWaiting(p: Params, fate: Fate, actions: seq<Action>, fates: seq<Fate>, trip: Trip)
    requires Lawful(p) && !Play(p, fate, actions).errored
    ensures
      var c := Play(p, fate, actions);
      && (Counts(c) <==> c.awaiting && !c.closed)
      && (!(c.awaiting && !c.closed) ==> OnTick(p, c, fates, trip) == c)
  {
    NeverHangs(p, fate, actions);
  }

  lemma CancelIs(p: Params, fate: Fate, actions: seq<Action>)
    ensures
      var c, d := Play(p, fate, actions), Play(p, fate, actions + [Cancel]);
      d.wire == c.wire && d.reports == c.reports && d.errored == c.errored && (!c.errored ==> d.closed)
  {
    PlaySnoc(p, fate, actions, Cancel);
  }

  /** A client that cancels gets nothing more, and no end of the turn is reported any more, however the run goes on. */
  lemma CancelSilences(p: Params, fate: Fate, actions: seq<Action>, more: seq<Action>)
    requires Lawful(p)
    ensures
      var c, d := Play(p, fate, actions), Play(p, fate, (actions + [Cancel]) + more);
      && d.wire == c.wire
      && (!c.errored ==> d.closed && d.reports == c.reports)
  {
    CancelIs(p, fate, actions);
    if Play(p, fate, actions + [Cancel]).errored {
      SilentAfterError(p, fate, actions + [Cancel], more);
    } else {
      SilentAfterClose(p, fate, actions + [Cancel], more);
    }
  }

  // ---- What each end hands to the translator ----

  /** Where the translator goes when nothing throws half-way: each event is its step, and each end has its own reason. */
  function Moved(p: Params, c: Conn, a: Action): T.State {
    match a
    case Pull => c.tr
    case Cancel => c.tr
    case Tick(_, _) => if Counts(c) && StallsNow(p, c) then p.onStall(c.tr) else c.tr
    case Resume(pulled, _, _) =>
      if !c.awaiting then c.tr
      else
        var gone := c.closed || c.clientCancelled;
        match pulled
        case Got(e) => if gone || IsLimitError(e) then c.tr else p.step(c.tr, e)
        case Ended => if gone then c.tr else p.onEof(c.tr)
        case Rejected(message) => if c.terminated then c.tr else p.onThrow(c.tr, message)
        case RejectedByBudget(_, _) => c.tr
  }

  lemma FinalMoves(c: Conn, t: T.State, status: Status, fates: seq<Fate>)
    ensures Finalize(c, t, status, fates, NoTrip).tr == t
  {
  }

  lemma GotMoves(p: Params, c: Conn, e: Event, fates: seq<Fate>)
    ensures OnEvent(p, c, e, fates, NoTrip).tr == if IsLimitError(e) then c.tr else p.step(c.tr, e)
  {
  }

  lemma RejectedMoves(p: Params, c: Conn, message: string, fates: seq<Fate>)
    ensures OnRejected(p, c, message, fates, NoTrip).tr == if c.terminated then c.tr else p.onThrow(c.tr, message)
  {
    if c.terminated { ShutKeeps(c, Ok); } else { FinalMoves(c, p.onThrow(c.tr, message), Failed, fates); }
  }

  lemma ShutKeeps(c: Conn, fate: Fate)
    requires c.terminated
    ensures Shut(c, fate).tr == c.tr
  {
  }

  lemma EndedMoves(p: Params, c: Conn, fates: seq<Fate>)
    ensures OnEnded(p, c, fates, NoTrip).tr == if c.closed || c.clientCancelled then c.tr else p.onEof(c.tr)
  {
    FinalMoves(c.(beatArmed := false), p.onEof(c.tr), Incompleted, fates);
  }

  lemma ResumeMoves(p: Params, c: Conn, pulled: Pulled, fates: seq<Fate>)
    requires c.awaiting
    ensures OnResume(p, c, pulled, fates, NoTrip).tr == Moved(p, c, Resume(pulled, fates, NoTrip))
  {
    match pulled
    case Got(e) => GotMoves(p, c, e, fates);
    case Ended => EndedMoves(p, c, fates);
    case Rejected(message) => RejectedMoves(p, c, message, fates);
    case RejectedByBudget(_, _) =>
  }

  /** An adapter event, the end of the input, an exception and a stall each move the translator as they should. */
  lemma EachEndHasItsReason(p: Params, c: Conn, a: Action)
    requires a.Resume? || a.Tick? ==> a.trip == NoTrip
    ensures Act(p, c, a).tr == Moved(p, c, a)
  {
    match a
    case Pull =>
    case Cancel =>
    case Tick(_, _) =>
    case Resume(pulled, fates, _) => if c.awaiting { ResumeMoves(p, c, pulled, fates); }
  }

  // ---- From the adapter's events to the client's answer ----

  /** The terminal frame lists the finished items. */
  predicate ListsItems(s: T.State) {
    s.outcome.Some? ==> s.frames != [] && s.frames[|s.frames| - 1] == Terminal(s.outcome.value, s.finished)
  }

  lemma EndLists(s: T.State, o: Outcome)
    ensures ListsItems(T.EndWith(s, o))
  {
  }

  lemma ToolLists(cfg: Config, s: T.State, e: Event)
    requires s.outcome.None? && T.IsToolEvent(e)
    ensures ListsItems(T.StepTool(cfg, s, e))
  {
    if e.ToolCallEnd? && T.CallIsMalformed(cfg, s) {
      EndLists(T.FailCall(cfg, s), MALFORMED);
    }
  }

  lemma TerminalLists(cfg: Config, s: T.State, e: Event)
    requires T.IsTerminal(e)
    ensures ListsItems(T.StepTerminal(cfg, s, e))
  {
  }

  lemma ContentLists(cfg: Config, s: T.State, e: Event)
    requires s.outcome.None? && !T.IsTerminal(e) && !T.IsToolEvent(e)
    ensures ListsItems(T.StepContent(cfg, s, e))
  {
  }

  lemma StepLists(cfg: Config, s: T.State, e: Event)
    requires s.outcome.None?
    ensures ListsItems(T.Step(cfg, s, e))
  {
    if T.IsTerminal(e) {
      TerminalLists(cfg, s, e);
    } else if cfg.compaction {
    } else if T.IsToolEvent(e) {
      ToolLists(cfg, s, e);
    } else {
      ContentLists(cfg, s, e);
    }
  }

  lemma {:induction false} StepsList(cfg: Config, s: T.State, events: seq<Event>)
    requires ListsItems(s)
    ensures ListsItems(T.Steps(cfg, s, events))
    decreases |events|
  {
    if s.outcome.None? && events != [] {
      StepLists(cfg, s, events[0]);
      StepsList(cfg, T.Step(cfg, s, events[0]), events[1..]);
    }
  }

  lemma RunLists(cfg: Config, events: seq<Event>)
    ensures var s := T.Run(cfg, events);
      s.outcome.Some? && s.frames != [] && s.frames[|s.frames| - 1] == Terminal(s.outcome.value, s.finished)
  {
    StepsList(cfg, T.START, events);
  }

  lemma {:induction false} SentIsOnWire(wire: seq<WireFrame>, f: Frame)
    requires f in SentFrames(wire)
    ensures Sent(f) in wire
  {
    var n := |wire| - 1;
    if f in SentFrames(wire[..n]) {
      SentIsOnWire(wire[..n], f);
    }
  }

  /** The answer that was sent is the batch translator's: its items, its status, hint, failure and reason. */
  ghost predicate Answers(wire: seq<WireFrame>, r: B.Response) {
    exists s: T.State ::
      s.outcome.Some? && R.SameResult(s, r) && Sent(Terminal(s.outcome.value, s.finished)) in wire
  }

  /**
   Whatever pulls and ticks came between them: if the adapter's events are admissible and the turn ends by a terminal
   event or the end of the input, without a fault, then the terminal frame the client is sent lists the items that
   the batch translator puts out for the events the turn consumed, with the batch translator's status.
   */
  lemma ClientGetsBatchAnswer(cfg: Config, maxStallTicks: nat, fate: Fate, actions: seq<Action>)
    requires
      var events := Handled(TranslatorParams(cfg, maxStallTicks), fate, actions);
      R.Comparable(cfg) && R.Paired(events) && forall e :: e in events ==> R.Admissible(e)
    ensures
      var c := Play(TranslatorParams(cfg, maxStallTicks), fate, actions);
      var events := Handled(TranslatorParams(cfg, maxStallTicks), fate, actions);
      var s := T.Steps(cfg, T.START, events);
      Faultless(c) && ((c.tr == s && s.outcome.Some?) || (c.tr == T.OnEof(cfg, s) && s.outcome.None?)) ==>
        Answers(c.wire, B.Build(cfg, events[..R.Consumed(cfg, T.START, events)]))
  {
    var c := Play(TranslatorParams(cfg, maxStallTicks), fate, actions);
    var events := Handled(TranslatorParams(cfg, maxStallTicks), fate, actions);
    CleanEndDeliversRun(cfg, maxStallTicks, fate, actions);
    R.StreamRefinesBatch(cfg, events);
    RunLists(cfg, events);
    var s := T.Run(cfg, events);
    if SentFrames(c.wire) == s.frames {
      SentIsOnWire(c.wire, Terminal(s.outcome.value, s.finished));
    }
  }
}
