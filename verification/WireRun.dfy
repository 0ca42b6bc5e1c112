/**
 What is enqueued for the client: whatever pulls, ticks, failures and cancellations are interleaved, the frames on
 the wire are those of the translator, in order and from the first on, and all of them unless something broke. What
 an errored stream had enqueued and the client had not read yet is lost to it all the same.
 */
module WireRun {
  import opened Text
  import opened Responses
  import opened Wire
  import opened WireProtocol
  import T = Translator
  import P = Progress

  /** The translator's frames among what was enqueued. */
  function SentFrames(wire: seq<WireFrame>): seq<Frame> {
    if wire == [] then []
    else SentFrames(wire[..|wire| - 1]) + (if wire[|wire| - 1].Sent? then [wire[|wire| - 1].f] else [])
  }

  lemma SentSnoc(wire: seq<WireFrame>, w: WireFrame)
    ensures SentFrames(wire + [w]) == SentFrames(wire) + (if w.Sent? then [w.f] else [])
  {
    assert (wire + [w])[..|wire|] == wire;
  }

  lemma SentEscape(wire: seq<WireFrame>, failureSent: bool, doneSent: bool)
    ensures SentFrames(wire + EscapeFrames(failureSent, doneSent)) == SentFrames(wire)
  {
    if failureSent {
      SentSnoc(wire, OverflowFailure);
      SentSnoc(wire + [OverflowFailure], DoneMarker);
      assert wire + [OverflowFailure, DoneMarker] == (wire + [OverflowFailure]) + [DoneMarker];
    } else {
      assert wire + [] == wire;
    }
  }

  /** No cancellation, no failed enqueue, no overflow. */
  predicate Faultless(c: Conn) {
    !c.clientCancelled && !c.enqueueFailed && OverflowFailure !in c.wire
  }

  /** The wire carries the first frames of `frames`, and all of them while nothing broke. */
  predicate Carries(c: Conn, frames: seq<Frame>) {
    && SentFrames(c.wire) <= frames
    && (Faultless(c) ==> SentFrames(c.wire) == frames)
    && (!c.closed ==> Faultless(c) && !c.terminated)
  }

  /** A connection that still sends, or is broken: closed for a reason other than the end of the turn. */
  predicate SendingOrBroken(c: Conn) {
    c.closed ==> !Faultless(c)
  }

  lemma OverflowCarries(c: Conn, failureSent: bool, doneSent: bool, frames: seq<Frame>)
    requires Carries(c, frames)
    ensures Carries(Overflow(c, failureSent, doneSent), frames)
    ensures SendingOrBroken(c) ==> !Faultless(Overflow(c, failureSent, doneSent)) && Overflow(c, failureSent, doneSent).closed
  {
    SentEscape(c.wire, failureSent, doneSent);
    var d := Overflow(c, failureSent, doneSent);
    if !c.closed && failureSent {
      assert d.wire[|c.wire|] == OverflowFailure;
    }
  }

  lemma EmitCarries(c: Conn, f: Frame, fate: Fate, frames: seq<Frame>)
    requires Carries(c, frames) && SendingOrBroken(c)
    ensures Carries(Emit(c, f, fate), frames + [f]) && SendingOrBroken(Emit(c, f, fate))
  {
    SentSnoc(c.wire, Sent(f));
    if !c.closed && fate.Overflows? {
      OverflowCarries(c.(wireActivity := true), Actual(c, fate).failureSent, Actual(c, fate).doneSent, frames);
    }
  }

  lemma {:induction false} EmitAllCarries(c: Conn, more: seq<Frame>, fates: seq<Fate>, frames: seq<Frame>)
    requires Carries(c, frames) && SendingOrBroken(c)
    ensures Carries(EmitAll(c, more, fates), frames + more) && SendingOrBroken(EmitAll(c, more, fates))
    decreases more
  {
    if more == [] {
      assert frames + more == frames;
    } else {
      EmitCarries(c, more[0], FirstFate(fates), frames);
      EmitAllCarries(Emit(c, more[0], FirstFate(fates)), more[1..], RestFates(fates), frames + [more[0]]);
      assert (frames + [more[0]]) + more[1..] == frames + more;
    }
  }

  lemma DoneGoesOut(c: Conn)
    ensures var wire := c.wire + [DoneMarker];
      SentFrames(wire) == SentFrames(c.wire) && (OverflowFailure !in wire ==> OverflowFailure !in c.wire)
  {
    SentSnoc(c.wire, DoneMarker);
    assert forall w :: w in c.wire ==> w in c.wire + [DoneMarker];
  }

  lemma DoneIsSent(c: Conn, fate: Fate)
    requires c.terminated && !c.closed && !c.errored && fate.Ok?
    ensures SentFrames(EmitDone(c, fate).wire) == SentFrames(c.wire)
    ensures Faultless(EmitDone(c, fate)) ==> Faultless(c)
    ensures EmitDone(c, fate).tr == c.tr && EmitDone(c, fate).terminated
  {
    DoneGoesOut(c);
    assert EmitDone(c, fate) == c.(wire := c.wire + [DoneMarker], emittedFrames := c.emittedFrames + 1);
  }

  lemma DoneIsNotSent(c: Conn, fate: Fate)
    requires c.terminated && (c.closed || c.errored || !fate.Ok?)
    ensures SentFrames(EmitDone(c, fate).wire) == SentFrames(c.wire)
    ensures Faultless(EmitDone(c, fate)) ==> Faultless(c)
    ensures EmitDone(c, fate).tr == c.tr && EmitDone(c, fate).terminated
  {
    if c.closed || fate.Overflows? {
      assert EmitDone(c, fate) == c;
    } else {
      assert EmitDone(c, fate) == c.(closed := true, enqueueFailed := true);
    }
  }

  lemma EmitDoneSends(c: Conn, fate: Fate)
    requires c.terminated
    ensures SentFrames(EmitDone(c, fate).wire) == SentFrames(c.wire)
    ensures Faultless(EmitDone(c, fate)) ==> Faultless(c)
    ensures EmitDone(c, fate).tr == c.tr && EmitDone(c, fate).terminated
  {
    if !c.closed && !c.errored && fate.Ok? { DoneIsSent(c, fate); } else { DoneIsNotSent(c, fate); }
  }

  // ---- The invariant ----

  /** What the wire carries of the translator; a turn that ended without a fault is marked as terminated. */
  predicate Faithful(c: Conn) {
    Carries(c, c.tr.frames) && (c.closed && Faultless(c) ==> c.terminated)
  }

  lemma ForwardCarries(c: Conn, t: T.State, fates: seq<Fate>)
    requires Carries(c, c.tr.frames) && SendingOrBroken(c) && c.tr.frames <= t.frames
    ensures Carries(Forward(c, t, fates), t.frames) && SendingOrBroken(Forward(c, t, fates))
    ensures Forward(c, t, fates).tr == t
  {
    EmitAllCarries(c, NewFrames(c.tr, t), fates, c.tr.frames);
    assert c.tr.frames + NewFrames(c.tr, t) == t.frames;
  }

  lemma EndTurnCarries(c: Conn, t: T.State, status: Status, fates: seq<Fate>)
    requires Carries(c, c.tr.frames) && SendingOrBroken(c) && c.tr.frames <= t.frames
    ensures Faithful(EndTurn(c, t, status, fates)) && EndTurn(c, t, status, fates).tr == t
    ensures EndTurn(c, t, status, fates).closed && EndTurn(c, t, status, fates).terminated
  {
    ForwardCarries(c, t, fates);
    var ended := Terminate(Forward(c, t, fates), status).(beatArmed := false);
    EmitDoneSends(ended, LastFate(c.tr, t, fates));
  }

  lemma StallCarries(c: Conn, t: T.State, fates: seq<Fate>)
    requires Carries(c, c.tr.frames) && SendingOrBroken(c) && c.tr.frames <= t.frames
    ensures Faithful(Stall(c, t, fates)) && Stall(c, t, fates).tr == t
    ensures Stall(c, t, fates).closed && Stall(c, t, fates).terminated
  {
    ForwardCarries(c, t, fates);
    EmitDoneSends(Terminate(Forward(c, t, fates), Incompleted), LastFate(c.tr, t, fates));
  }

  /** Closings that throw leave what they sent on the wire, and the state that sent it. */
  lemma SlipCarries(c: Conn, left: T.State, fates: seq<Fate>)
    requires Faithful(c) && SendingOrBroken(c) && c.tr.frames <= left.frames
    ensures Faithful(SlipOff(c, left, fates)) && SlipOff(c, left, fates).tr == left && SlipOff(c, left, fates).slipped
    ensures Faithful(Reject(SlipOff(c, left, fates)))
  {
    ForwardCarries(c, left, fates);
  }

  lemma TripCarries(c: Conn, t: T.State, fates: seq<Fate>, trip: Trip)
    requires Carries(c, c.tr.frames) && SendingOrBroken(c) && c.tr.frames <= t.frames
    requires trip.Trip? && trip.after <= |NewFrames(c.tr, t)|
    ensures var d := Overflow(EmitAll(c, NewFrames(c.tr, t)[..trip.after], fates), trip.failureSent, trip.doneSent);
            SentFrames(d.wire) <= t.frames && !Faultless(d) && d.closed
  {
    var some := NewFrames(c.tr, t)[..trip.after];
    EmitAllCarries(c, some, fates, c.tr.frames);
    OverflowCarries(EmitAll(c, some, fates), trip.failureSent, trip.doneSent, c.tr.frames + some);
    assert c.tr.frames + some <= t.frames;
  }

  lemma DeliverCarries(c: Conn, t: T.State, fates: seq<Fate>, trip: Trip)
    requires Faithful(c) && !c.closed && c.tr.frames <= t.frames
    ensures Faithful(Deliver(c, t, fates, trip)) && Deliver(c, t, fates, trip).tr == t
  {
    if Trips(trip, NewFrames(c.tr, t), t.outcome.Some?) {
      TripCarries(c, t, fates, trip);
    } else if t.outcome.Some? {
      EndTurnCarries(c, t, t.outcome.value.status, fates);
    } else {
      ForwardCarries(c, t, fates);
    }
  }

  lemma BeatCarries(c: Conn, fate: Fate)
    requires Faithful(c) && !c.closed
    ensures Faithful(KeepAlive(c, fate)) && KeepAlive(c, fate).tr == c.tr
  {
    if !c.wireActivity && !c.errored && !fate.Throws? { BeatIsCarried(c); }
  }

  lemma BeatIsCarried(c: Conn)
    requires Faithful(c) && !c.closed
    ensures Faithful(c.(wire := c.wire + [Beat], emittedFrames := c.emittedFrames + 1))
  {
    SentSnoc(c.wire, Beat);
  }

  // ---- Where the translator's state comes from ----

  /** The events a run hands to the translator, in order. */
  function Handled(p: Params, fate: Fate, actions: seq<Action>): seq<Event> {
    if actions == [] then []
    else
      var front, a := actions[..|actions| - 1], actions[|actions| - 1];
      var c := Play(p, fate, front);
      Handled(p, fate, front) + Taken(c, a)
  }

  /** The event an action hands to the translator, if it does. */
  function Taken(c: Conn, a: Action): seq<Event> {
    if a.Resume? && a.pulled.Got? && c.awaiting && !c.closed && !c.clientCancelled && !IsLimitError(a.pulled.e)
    then [a.pulled.e] else []
  }

  /** The translator after these events; it stops at the one that ends the turn. */
  function After(p: Params, events: seq<Event>): T.State {
    if events == [] then T.START
    else
      var s := After(p, events[..|events| - 1]);
      if s.outcome.Some? then s else p.step(s, events[|events| - 1])
  }

  /** The translator's own doing, or one abnormal end on top of it. */
  ghost predicate Came(p: Params, t: T.State, s: T.State) {
    t == s || t == p.onEof(s) || t == p.onStall(s) || exists message :: t == p.onThrow(s, message)
  }

  lemma ConcludesExtends(s: T.State, t: T.State)
    requires P.Concludes(s, t)
    ensures s.frames <= t.frames
  {
    assert t.frames[..|t.frames| - 1] <= t.frames;
  }

  /**
   `s` is the translator after the events handled so far; once closings have thrown half-way the state is theirs,
   and only the wire follows it.
   */
  ghost predicate Follows(p: Params, c: Conn, s: T.State) {
    && Faithful(c)
    && (!c.closed ==> c.tr.outcome.None?)
    && (!c.slipped ==>
         && Came(p, c.tr, s)
         && (!c.closed ==> c.tr == s)
         && (c.awaiting && !c.terminated ==> c.tr == s))
  }

  lemma EventFollows(p: Params, c: Conn, e: Event, fates: seq<Fate>, trip: Trip, s: T.State)
    requires Lawful(p) && Follows(p, c, s) && !c.closed && !IsLimitError(e)
    ensures Follows(p, OnEvent(p, c, e, fates, trip), p.step(s, e))
  {
    StepExtends(p, c.tr, e);
    assert Faithful(Active(c));
    if Faults(trip, c.tr, p.step(c.tr, e)) {
      FaultFollows(p, Active(c), fates, trip, p.step(s, e));
    } else {
      DeliverFollows(p, Active(c), p.step(c.tr, e), fates, trip, p.step(s, e));
    }
  }

  lemma FaultFollows(p: Params, c: Conn, fates: seq<Fate>, trip: Trip, s: T.State)
    requires Lawful(p) && Faithful(c) && !c.closed
    requires trip.Fault? && trip.mid.outcome.None? && c.tr.frames <= trip.mid.frames
    ensures Follows(p, OnFault(p, c, fates, trip), s)
  {
    SlipCarries(c, trip.mid, fates);
    ForwardCarries(c, trip.mid, fates);
    RejectedFollows(p, SlipOff(c, trip.mid, fates), trip.message, LaterFates(c, trip.mid, fates), Again(trip), s);
  }

  lemma StepExtends(p: Params, s: T.State, e: Event)
    requires Lawful(p) && s.outcome.None?
    ensures s.frames <= p.step(s, e).frames
  {
    assert Moves(s, p.step(s, e));
    if p.step(s, e).outcome.Some? {
      ConcludesExtends(s, p.step(s, e));
    }
  }

  lemma DeliverFollows(p: Params, c: Conn, t: T.State, fates: seq<Fate>, trip: Trip, s: T.State)
    requires Faithful(c) && !c.closed && c.tr.frames <= t.frames && (!c.slipped ==> t == s)
    ensures Follows(p, Deliver(c, t, fates, trip), s)
  {
    DeliverCarries(c, t, fates, trip);
    DeliverEnds(c, t, fates, trip);
  }

  /** A delivered event leaves the connection open only if the turn goes on, and awaiting only if it is open. */
  lemma DeliverEnds(c: Conn, t: T.State, fates: seq<Fate>, trip: Trip)
    requires !c.closed && Faithful(c) && c.tr.frames <= t.frames
    ensures var d := Deliver(c, t, fates, trip);
            (!d.closed ==> t.outcome.None?) && (d.awaiting ==> !d.closed)
  {
    if Trips(trip, NewFrames(c.tr, t), t.outcome.Some?) {
      TripCarries(c, t, fates, trip);
    }
  }

  lemma LimitFollows(p: Params, c: Conn, failureSent: bool, doneSent: bool, s: T.State)
    requires Follows(p, c, s)
    ensures Follows(p, Overflow(c, failureSent, doneSent).(awaiting := false), s)
  {
    OverflowCarries(c, failureSent, doneSent, c.tr.frames);
  }

  lemma EndFollows(p: Params, c: Conn, t: T.State, status: Status, fates: seq<Fate>, trip: Trip, s: T.State)
    requires Lawful(p) && Follows(p, c, s) && SendingOrBroken(c) && (!c.slipped ==> c.tr == s)
    requires t == p.onEof(c.tr) || exists message :: t == p.onThrow(c.tr, message)
    ensures Follows(p, Finalize(c, t, status, fates, trip), s)
  {
    assert P.Concludes(c.tr, t);
    ConcludesExtends(c.tr, t);
    if Slips(trip, c.tr, t) {
      SlipCarries(c, trip.left, fates);
    } else {
      EndTurnCarries(c, t, status, fates);
    }
  }

  lemma RejectedFollows(p: Params, c: Conn, message: string, fates: seq<Fate>, trip: Trip, s: T.State)
    requires Lawful(p) && Follows(p, c, s) && (c.awaiting || c.slipped)
    requires c.slipped ==> SendingOrBroken(c) || c.terminated
    ensures Follows(p, OnRejected(p, c, message, fates, trip), s)
  {
    if c.terminated {
      ClosedShuts(c, Ok);
      assert Follows(p, c.(beatArmed := false, gated := true, stepping := false, awaiting := false), s);
    } else {
      EndFollows(p, c, p.onThrow(c.tr, message), Failed, fates, trip, s);
    }
  }

  lemma EndedFollows(p: Params, c: Conn, fates: seq<Fate>, trip: Trip, s: T.State)
    requires Lawful(p) && Follows(p, c, s) && c.awaiting
    ensures Follows(p, OnEnded(p, c, fates, trip), s)
  {
    if c.closed || c.clientCancelled {
      assert Follows(p, Ignore(c), s);
    } else {
      EndFollows(p, c.(beatArmed := false), p.onEof(c.tr), Incompleted, fates, trip, s);
    }
  }

  lemma ResumeFollows(p: Params, c: Conn, pulled: Pulled, fates: seq<Fate>, trip: Trip, s: T.State)
    requires Lawful(p) && Follows(p, c, s) && c.awaiting
    requires pulled.Got? ==> c.closed || c.clientCancelled || IsLimitError(pulled.e)
    ensures Follows(p, OnResume(p, c, pulled, fates, trip), s)
  {
    match pulled
    case Got(e) => UntakenFollows(p, c, e, fates, trip, s);
    case Ended => EndedFollows(p, c, fates, trip, s);
    case Rejected(message) => RejectedFollows(p, c, message, fates, trip, s);
    case RejectedByBudget(failureSent, doneSent) => LimitFollows(p, c, failureSent, doneSent, s);
  }

  lemma UntakenFollows(p: Params, c: Conn, e: Event, fates: seq<Fate>, trip: Trip, s: T.State)
    requires Follows(p, c, s) && (c.closed || c.clientCancelled || IsLimitError(e))
    ensures Follows(p, OnResume(p, c, Got(e), fates, trip), s)
  {
    if c.closed || c.clientCancelled {
      assert Follows(p, Ignore(c), s);
    } else {
      LimitFollows(p, Active(c), !FirstFate(fates).Throws?, !FirstFate(RestFates(fates)).Throws?, s);
    }
  }

  lemma StallFollows(p: Params, c: Conn, fates: seq<Fate>, trip: Trip, s: T.State)
    requires Lawful(p) && Follows(p, c, s) && !c.closed
    ensures var t := p.onStall(c.tr);
      Follows(p, if Slips(trip, c.tr, t) then SlipOff(c, trip.left, fates) else Stall(c, t, fates), s)
  {
    var t := p.onStall(c.tr);
    assert P.Concludes(c.tr, t);
    ConcludesExtends(c.tr, t);
    if Slips(trip, c.tr, t) {
      SlipCarries(c, trip.left, fates);
    } else {
      StallCarries(c, t, fates);
    }
  }

  lemma TickedFollows(p: Params, c: Conn, s: T.State)
    requires Follows(p, c, s)
    ensures Follows(p, Ticked(c), s) && Ticked(c).tr == c.tr && Ticked(c).closed == c.closed
  {
  }

  lemma TickFollows(p: Params, c: Conn, fates: seq<Fate>, trip: Trip, s: T.State)
    requires Lawful(p) && Follows(p, c, s)
    ensures Follows(p, OnTick(p, c, fates, trip), s)
  {
    if Counts(c) {
      TickedFollows(p, c, s);
      if StallsNow(p, c) {
        StallFollows(p, Ticked(c), fates, trip, s);
      } else {
        BeatCarries(Ticked(c), FirstFate(fates));
      }
    }
  }

  lemma PullFollows(p: Params, c: Conn, s: T.State)
    requires Follows(p, c, s)
    ensures Follows(p, OnPull(c), s)
  {
  }

  lemma CancelFollows(p: Params, c: Conn, s: T.State)
    requires Follows(p, c, s)
    ensures Follows(p, OnCancel(c), s)
  {
  }

  lemma ActFollows(p: Params, c: Conn, a: Action, s: T.State)
    requires Lawful(p) && Follows(p, c, s)
    ensures Follows(p, Act(p, c, a), if Taken(c, a) == [] then s else p.step(s, Taken(c, a)[0]))
  {
    match a
    case Pull => PullFollows(p, c, s);
    case Cancel => CancelFollows(p, c, s);
    case Tick(fates, trip) => TickFollows(p, c, fates, trip, s);
    case Resume(pulled, fates, trip) =>
      if Taken(c, a) != [] {
        EventFollows(p, c, pulled.e, fates, trip, s);
      } else if c.awaiting {
        ResumeFollows(p, c, pulled, fates, trip, s);
      }
  }

  lemma {:induction false} PlayFollows(p: Params, fate: Fate, actions: seq<Action>)
    requires Lawful(p)
    ensures Follows(p, Play(p, fate, actions), After(p, Handled(p, fate, actions)))
  {
    if actions == [] {
      StartFollows(p, fate);
    } else {
      var front, a := actions[..|actions| - 1], actions[|actions| - 1];
      PlayFollows(p, fate, front);
      var c, es := Play(p, fate, front), Handled(p, fate, front);
      ActFollows(p, c, a, After(p, es));
      AfterSnoc(p, es, Taken(c, a));
    }
  }

  lemma AfterSnoc(p: Params, events: seq<Event>, more: seq<Event>)
    requires |more| <= 1
    ensures After(p, events + more)
         == if more == [] || After(p, events).outcome.Some? then After(p, events) else p.step(After(p, events), more[0])
  {
    if more == [] {
      assert events + more == events;
    } else {
      assert (events + more)[..|events|] == events;
    }
  }

  lemma StartFollows(p: Params, fate: Fate)
    ensures Follows(p, Start(fate), T.START)
  {
    EmitCarries(IDLE, Created, fate, []);
    EmitKeepsProto(IDLE, Created, fate);
    assert [] + [Created] == [Created];
    assert Faithful(Start(fate));
  }

  // ---- The theorem ----

  lemma {:induction false} StepsSnoc(cfg: Config, s: T.State, events: seq<Event>, last: Event)
    ensures T.Steps(cfg, s, events + [last])
         == if T.Steps(cfg, s, events).outcome.Some? then T.Steps(cfg, s, events)
            else T.Step(cfg, T.Steps(cfg, s, events), last)
    decreases |events|
  {
    if s.outcome.None? {
      if events == [] {
        assert [] + [last] == [last] && [last][1..] == [];
      } else {
        assert (events + [last])[0] == events[0] && (events + [last])[1..] == events[1..] + [last];
        StepsSnoc(cfg, T.Step(cfg, s, events[0]), events[1..], last);
      }
    }
  }

  ghost predicate StepsAs(p: Params, cfg: Config) {
    forall s, e :: p.step(s, e) == T.Step(cfg, s, e)
  }

  /** `steps` runs the translator event by event, up to the one that ends the turn. */
  ghost predicate Iterates(p: Params, steps: seq<Event> -> T.State) {
    && steps([]) == T.START
    && forall front, last ::
         steps(front + [last]) == if steps(front).outcome.Some? then steps(front) else p.step(steps(front), last)
  }

  lemma {:induction false} AfterIterates(p: Params, steps: seq<Event> -> T.State, events: seq<Event>)
    requires Iterates(p, steps)
    ensures After(p, events) == steps(events)
    decreases |events|
  {
    if events != [] {
      var front, last := events[..|events| - 1], events[|events| - 1];
      AfterIterates(p, steps, front);
      assert front + [last] == events;
    }
  }

  function StepsOf(cfg: Config): seq<Event> -> T.State {
    (events: seq<Event>) => T.Steps(cfg, T.START, events)
  }

  lemma StepsIterate(cfg: Config, p: Params)
    requires StepsAs(p, cfg)
    ensures Iterates(p, StepsOf(cfg))
  {
    forall front, last
      ensures StepsOf(cfg)(front + [last])
           == if StepsOf(cfg)(front).outcome.Some? then StepsOf(cfg)(front) else p.step(StepsOf(cfg)(front), last)
    {
      StepsSnoc(cfg, T.START, front, last);
      assert p.step(T.Steps(cfg, T.START, front), last) == T.Step(cfg, T.Steps(cfg, T.START, front), last);
    }
  }

  lemma AfterIsSteps(cfg: Config, p: Params, events: seq<Event>)
    requires StepsAs(p, cfg)
    ensures After(p, events) == T.Steps(cfg, T.START, events)
  {
    StepsIterate(cfg, p);
    AfterIterates(p, StepsOf(cfg), events);
  }

  /**
   The turn goes onto the wire: over every interleaving the frames enqueued are the first frames of the
   translator's state, and all of them unless the connection was cancelled, an enqueue failed or the budget
   overflowed; and that state is the run on the events handled, possibly ended by end of input, stall or
   exception, unless closings threw half-way.
   */
  lemma WireCarriesTheTurn(cfg: Config, maxStallTicks: nat, fate: Fate, actions: seq<Action>)
    ensures
      var p := TranslatorParams(cfg, maxStallTicks);
      var c := Play(p, fate, actions);
      var s := T.Steps(cfg, T.START, Handled(p, fate, actions));
      && SentFrames(c.wire) <= c.tr.frames
      && (Faultless(c) ==> SentFrames(c.wire) == c.tr.frames)
      && (!c.slipped ==>
           c.tr == s || c.tr == T.OnEof(cfg, s) || c.tr == T.OnStall(cfg, s)
           || exists message :: c.tr == T.OnThrow(cfg, s, message))
      && (!c.slipped && !c.closed ==> c.tr == s)
  {
    var p := TranslatorParams(cfg, maxStallTicks);
    TranslatorIsLawful(cfg, maxStallTicks);
    PlayFollows(p, fate, actions);
    AfterIsSteps(cfg, p, Handled(p, fate, actions));
  }

  /** A turn that ends by itself and without a fault delivers exactly the frames of `Translator.Run`. */
  lemma CleanEndDeliversRun(cfg: Config, maxStallTicks: nat, fate: Fate, actions: seq<Action>)
    ensures
      var p := TranslatorParams(cfg, maxStallTicks);
      var c := Play(p, fate, actions);
      var events := Handled(p, fate, actions);
      var s := T.Steps(cfg, T.START, events);
      Faultless(c) && ((c.tr == s && s.outcome.Some?) || (c.tr == T.OnEof(cfg, s) && s.outcome.None?)) ==>
        SentFrames(c.wire) == T.Run(cfg, events).frames
  {
    WireCarriesTheTurn(cfg, maxStallTicks, fate, actions);
  }
}
