/**
 Closings and handlers that throw half-way: exactly when, and what a stall whose closings threw does next. Nothing
 but the timer stops, so the item that was being closed is closed once more.
 */
module WireSlips {
  import opened Text
  import opened Responses
  import opened Wire
  import opened WireProtocol
  import T = Translator
  import P = Progress

  // ---- Exactly when ----

  /** A handler, or the closings of an end or of a stall, throw an exception that the budget's escape does not take. */
  predicate SlipsNow(p: Params, c: Conn, a: Action) {
    match a
    case Resume(pulled, fates, trip) =>
      && c.awaiting
      && (match pulled
          case Got(e) => FaultsNow(p, c, e, trip)
          case Ended => !c.closed && !c.clientCancelled && Slips(trip, c.tr, p.onEof(c.tr))
          case Rejected(message) => !c.terminated && Slips(trip, c.tr, p.onThrow(c.tr, message))
          case RejectedByBudget(_, _) => false)
    case Tick(fates, trip) => Counts(c) && StallsNow(p, c) && Slips(trip, c.tr, p.onStall(c.tr))
    case _ => false
  }

  lemma ResumeSlips(p: Params, c: Conn, pulled: Pulled, fates: seq<Fate>, trip: Trip)
    requires c.awaiting
    ensures OnResume(p, c, pulled, fates, trip).slipped <==> c.slipped || SlipsNow(p, c, Resume(pulled, fates, trip))
  {
    match pulled
    case Got(e) =>
    case Ended =>
    case Rejected(message) =>
    case RejectedByBudget(_, _) =>
  }

  lemma ActSlips(p: Params, c: Conn, a: Action)
    ensures Act(p, c, a).slipped <==> c.slipped || SlipsNow(p, c, a)
  {
    match a
    case Pull =>
    case Cancel =>
    case Tick(fates, trip) =>
    case Resume(pulled, fates, trip) => if c.awaiting { ResumeSlips(p, c, pulled, fates, trip); }
  }

  predicate SlipsAt(p: Params, fate: Fate, actions: seq<Action>, k: nat)
    requires k < |actions|
  {
    SlipsNow(p, Play(p, fate, actions[..k]), actions[k])
  }

  ghost predicate EverSlips(p: Params, fate: Fate, actions: seq<Action>) {
    exists k: nat :: k < |actions| && SlipsAt(p, fate, actions, k)
  }

  lemma SlipsSnoc(p: Params, fate: Fate, actions: seq<Action>)
    requires actions != []
    ensures EverSlips(p, fate, actions)
       <==> EverSlips(p, fate, actions[..|actions| - 1]) || SlipsAt(p, fate, actions, |actions| - 1)
  {
    var n := |actions| - 1;
    forall k: nat | k < n ensures SlipsAt(p, fate, actions[..n], k) == SlipsAt(p, fate, actions, k) {
      assert actions[..n][..k] == actions[..k];
    }
  }

  /** Over a run: the state is no longer the translator's own exactly if some action was such an exception. */
  lemma {:induction false} PlaySlips(p: Params, fate: Fate, actions: seq<Action>)
    ensures Play(p, fate, actions).slipped <==> EverSlips(p, fate, actions)
  {
    if actions != [] {
      var n := |actions| - 1;
      PlaySlips(p, fate, actions[..n]);
      ActSlips(p, Play(p, fate, actions[..n]), actions[n]);
      SlipsSnoc(p, fate, actions);
    }
  }

  // ---- What a stall does after its closings threw ----

  function Sends(frames: seq<Frame>): seq<WireFrame> {
    seq(|frames|, i requires 0 <= i < |frames| => Sent(frames[i]))
  }

  lemma EmitSends(c: Conn, f: Frame)
    requires Healthy(c)
    ensures Emit(c, f, Ok).wire == c.wire + [Sent(f)]
  {
  }

  lemma {:induction false} EmitAllSends(c: Conn, frames: seq<Frame>)
    requires Healthy(c)
    ensures EmitAll(c, frames, []).wire == c.wire + Sends(frames)
    decreases frames
  {
    if frames == [] {
      assert c.wire + Sends([]) == c.wire;
    } else {
      EmitStaysHealthy(c, frames[0]);
      EmitSends(c, frames[0]);
      EmitAllSends(Emit(c, frames[0], Ok), frames[1..]);
      assert c.wire + [Sent(frames[0])] + Sends(frames[1..]) == c.wire + Sends(frames);
    }
  }

  /** The message of the state is finished, and cannot be retained: its frames are out and it is still open. */
  function HalfClosed(s: T.State): T.State {
    s.(frames := T.CloseMessage(s, None).frames)
  }

  lemma StallClosesMessageFirst(cfg: Config, s: T.State)
    requires s.msg.Some? && s.outcome.None?
    ensures
      var closed := T.CloseMessage(s, None);
      && |closed.frames| == |s.frames| + 3 && s.frames <= closed.frames
      && closed.frames[|s.frames| + 2] == ItemDone(s.msg.value.index, closed.finished[|s.finished|])
      && closed.finished[|s.finished|].id == s.msg.value.id
      && closed.frames <= T.OnStall(cfg, s).frames && |closed.frames| < |T.OnStall(cfg, s).frames|
  {
    var closed := T.CloseMessage(s, None);
    RestOfStall(cfg, closed);
    assert T.OnStall(cfg, s) == T.OnStall(cfg, closed);
    assert closed.frames <= T.OnStall(cfg, closed).frames[..|T.OnStall(cfg, closed).frames| - 1];
  }

  lemma RestOfStall(cfg: Config, s: T.State)
    requires s.msg.None?
    ensures P.Concludes(s, T.OnStall(cfg, s)) && T.CloseMessage(s, None) == s
  {
    P.AbnormalEndsConclude(cfg, s, STALLED);
  }

  predicate DoneAt(wire: seq<WireFrame>, i: nat, id: nat) {
    i < |wire| && wire[i].Sent? && wire[i].f.ItemDone? && wire[i].f.item.id == id
  }

  /** A silent connection with an open message, at the tick that gives it up. */
  predicate GivesUp(p: Params, c: Conn) {
    Healthy(c) && Counts(c) && StallsNow(p, c) && c.tr.msg.Some? && c.tr.outcome.None?
  }

  lemma FirstTick(cfg: Config, n: nat, c: Conn)
    requires GivesUp(TranslatorParams(cfg, n), c)
    ensures
      var p := TranslatorParams(cfg, n);
      var d := OnTick(p, c, [], Slip(HalfClosed(c.tr)));
      && GivesUp(p, d) && d.tr == HalfClosed(c.tr) && |d.wire| == |c.wire| + 3 && c.wire <= d.wire
      && DoneAt(d.wire, |c.wire| + 2, c.tr.msg.value.id)
  {
    var p, left := TranslatorParams(cfg, n), HalfClosed(c.tr);
    StallClosesMessageFirst(cfg, c.tr);
    assert Slips(Slip(left), c.tr, p.onStall(c.tr));
    var frames := NewFrames(c.tr, left);
    EmitAllStaysHealthy(Ticked(c), frames);
    EmitAllSends(Ticked(c), frames);
    EmitAllCounts(Ticked(c), frames);
    var d := SlipOff(Ticked(c), left, []);
    assert OnTick(p, c, [], Slip(left)) == d;
    assert d.wire[|c.wire| + 2] == Sent(frames[2]);
  }

  lemma EmitCounts(c: Conn, f: Frame)
    requires Healthy(c)
    ensures
      var d := Emit(c, f, Ok);
      && d.beatArmed == c.beatArmed && d.gated == c.gated
      && d.upstreamActivity == c.upstreamActivity && d.stallTicks == c.stallTicks
  {
  }

  lemma {:induction false} EmitAllCounts(c: Conn, frames: seq<Frame>)
    requires Healthy(c)
    ensures
      var d := EmitAll(c, frames, []);
      && d.beatArmed == c.beatArmed && d.gated == c.gated
      && d.upstreamActivity == c.upstreamActivity && d.stallTicks == c.stallTicks
    decreases frames
  {
    if frames != [] {
      EmitStaysHealthy(c, frames[0]);
      EmitCounts(c, frames[0]);
      EmitAllCounts(Emit(c, frames[0], Ok), frames[1..]);
    }
  }

  lemma SecondTick(cfg: Config, n: nat, c: Conn)
    requires GivesUp(TranslatorParams(cfg, n), c)
    ensures
      var d := OnTick(TranslatorParams(cfg, n), c, [], NoTrip);
      c.wire <= d.wire && DoneAt(d.wire, |c.wire| + 2, c.tr.msg.value.id)
  {
    var p := TranslatorParams(cfg, n);
    var t := p.onStall(c.tr);
    StallClosesMessageFirst(cfg, c.tr);
    var frames := NewFrames(c.tr, t);
    EmitAllSends(Ticked(c), frames);
    var closed := T.CloseMessage(c.tr, None);
    assert frames[2] == t.frames[|c.tr.frames| + 2] == closed.frames[|c.tr.frames| + 2];
    var sent := Forward(Ticked(c), t, []);
    assert sent.wire == c.wire + Sends(frames);
    StallOnlyAppends(Ticked(c), t);
  }

  lemma StallOnlyAppends(c: Conn, t: T.State)
    ensures Forward(c, t, []).wire <= Stall(c, t, []).wire
  {
    assert Terminate(Forward(c, t, []), Incompleted).wire == Forward(c, t, []).wire;
  }

  /**
   When the closings of a stall throw after an open message was announced as done, the next counted tick gives up
   again and announces it as done again: whatever came before, the wire carries two `done` frames of one item.
   */
  lemma SlippedStallRepeatsItem(cfg: Config, n: nat, fate: Fate, actions: seq<Action>)
    requires GivesUp(TranslatorParams(cfg, n), Play(TranslatorParams(cfg, n), fate, actions))
    ensures
      var p := TranslatorParams(cfg, n);
      var s := Play(p, fate, actions).tr;
      var c := Play(p, fate, actions + [Tick([], Slip(HalfClosed(s))), Tick([], NoTrip)]);
      exists i: nat, j: nat :: i < j && DoneAt(c.wire, i, s.msg.value.id) && DoneAt(c.wire, j, s.msg.value.id)
  {
    var p := TranslatorParams(cfg, n);
    var c0 := Play(p, fate, actions);
    var first, second := Tick([], Slip(HalfClosed(c0.tr))), Tick([], NoTrip);
    PlaySnoc(p, fate, actions, first);
    PlaySnoc(p, fate, actions + [first], second);
    assert actions + [first, second] == (actions + [first]) + [second];
    FirstTick(cfg, n, c0);
    var c1 := OnTick(p, c0, [], first.trip);
    SecondTick(cfg, n, c1);
    var c2 := OnTick(p, c1, [], NoTrip);
    var id := c0.tr.msg.value.id;
    assert c2.wire[|c0.wire| + 2] == c1.wire[|c0.wire| + 2];
    assert DoneAt(c2.wire, |c0.wire| + 2, id) && DoneAt(c2.wire, |c1.wire| + 2, id);
  }

  // ---- Such a connection is reached ----

  lemma EventCounts(p: Params, c: Conn, e: Event)
    requires Healthy(c) && c.awaiting && c.stepping && !c.gated && !IsLimitError(e) && p.step(c.tr, e).outcome.None?
    ensures
      var d := OnPull(OnResume(p, c, Got(e), [], NoTrip));
      !d.gated && d.beatArmed == c.beatArmed && d.upstreamActivity
  {
    var t := p.step(c.tr, e);
    EmitAllStaysHealthy(Active(c), NewFrames(c.tr, t));
    EmitAllCounts(Active(c), NewFrames(c.tr, t));
    assert OnResume(p, c, Got(e), [], NoTrip) == AfterEvent(Forward(Active(c), t, []));
    PullCounts(Forward(Active(c), t, []));
  }

  lemma PullCounts(c: Conn)
    requires Healthy(c) && c.awaiting && c.stepping && !c.gated
    ensures
      var d := OnPull(AfterEvent(c));
      !d.gated && d.beatArmed == c.beatArmed && d.upstreamActivity == c.upstreamActivity
  {
  }

  lemma FreeTick(p: Params, c: Conn)
    requires Healthy(c) && !c.gated && c.beatArmed && c.upstreamActivity && p.maxStallTicks == 1
    ensures
      var d := OnTick(p, c, [], NoTrip);
      Healthy(d) && Counts(d) && StallsNow(p, d) && d.tr == c.tr
  {
  }

  /** A message, then silence: with a budget of one tick the second tick gives up, as above. */
  lemma SilentMessageGivesUp(cfg: Config, text: Text)
    requires !cfg.hideThinking && !cfg.compaction
    ensures
      var p := TranslatorParams(cfg, 1);
      GivesUp(p, Play(p, Ok, [Pull, Resume(Got(TextDelta(text, None)), [], NoTrip), Pull, Tick([], NoTrip)]))
  {
    var p, e := TranslatorParams(cfg, 1), TextDelta(text, None);
    OneMessageOpen(cfg, text);
    assert T.Step(cfg, T.START, e).msg.Some?;
    FourActions(p, Pull, Resume(Got(e), [], NoTrip), Pull, Tick([], NoTrip));
    StartsWaiting();
    var c := OnPull(Start(Ok));
    EventThenPull(p, c, e);
    EventCounts(p, c, e);
    FreeTick(p, OnPull(OnResume(p, c, Got(e), [], NoTrip)));
  }
}
