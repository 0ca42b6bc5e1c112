/**
 The relay in front of the budget: request handlers run concurrently, each claims the current generation before
 it reads its body, and forwards at most once. One step is one synchronous stretch of one handler or one call
 of the controlling script.
 */
module PilotRelay {
  import opened Text
  import opened PilotBudget

  /** `reading` and `sending` count the handlers by the generation they claimed. */
  datatype Relay = Relay(
    budget: State, generation: Option<Generation>, claimed: bool,
    reading: multiset<Generation>, sending: multiset<Generation>)

  datatype Event =
    | Start(arm: Arm, now: int, same: bool)
    | Finish
    | Request(acceptable: bool)
    | Forward(g: Generation, acceptable: bool, now: int, same: bool)
    | Back(g: Generation, sent: Sent, now: int, same: bool)
    | Cutoff

  /** What the event asks of the budget. */
  function Asks(r: Relay, e: Event): Op {
    match e
    case Start(arm, now, same) => Begin(arm, now, same)
    case Finish => if r.generation.Some? then End(r.generation.value) else Close
    case Forward(g, acceptable, now, same) => if acceptable then Admit(g, Initial, now, same) else Close
    case Back(_, sent, now, same) => Settle(sent, now, same)
    case _ => Close
  }

  /** Nothing to do: no generation to end, no handler at that point. */
  predicate Idles(r: Relay, e: Event) {
    || (e.Finish? && r.generation.None?)
    || (e.Forward? && r.reading[e.g] == 0)
    || (e.Back? && r.sending[e.g] == 0)
  }

  predicate Claimable(r: Relay, e: Event) {
    e.Request? && e.acceptable && r.generation.Some? && !r.claimed
  }

  /** The relay once the budget has answered; a handler that fails anywhere closes the budget. */
  function After(r: Relay, e: Event, b: State, ok: bool): Relay {
    match e
    case Start(_, _, _) => if ok then r.(budget := b, generation := b.active, claimed := false) else r.(budget := b)
    case Finish => if ok then r.(budget := b, generation := None) else r.(budget := b)
    case Forward(g, acceptable, _, _) =>
      var read := r.(budget := if ok then b else Stopped(b, Closed), reading := r.reading - multiset{g});
      if acceptable && ok then read.(sending := r.sending + multiset{g}) else read
    case Back(g, _, _, _) => r.(budget := if ok then b else Stopped(b, Closed), sending := r.sending - multiset{g})
    case _ => r.(budget := b)
  }

  function Act(m: Manifest, deadline: int, r: Relay, e: Event): Relay {
    if Idles(r, e) then r
    else if Claimable(r, e) then r.(claimed := true, reading := r.reading + multiset{r.generation.value})
    else
      var (b, ok) := Step(m, deadline, r.budget, Asks(r, e));
      After(r, e, b, ok)
  }

  function Idle(): Relay {
    Relay(Fresh(), None, false, multiset{}, multiset{})
  }

  function Play(m: Manifest, deadline: int, r: Relay, events: seq<Event>): Relay
    decreases |events|
  {
    if events == [] then r else Play(m, deadline, Act(m, deadline, r, events[0]), events[1..])
  }

  /** Physical sends on behalf of a generation. */
  function Sends(journal: seq<Mark>, g: Generation): nat
    decreases |journal|
  {
    if journal == [] then 0
    else Sends(journal[..|journal| - 1], g) + (if journal[|journal| - 1] == Out(g) then 1 else 0)
  }

  lemma SendsSnoc(journal: seq<Mark>, mark: Mark, g: Generation)
    ensures Sends(journal + [mark], g) == Sends(journal, g) + (if mark == Out(g) then 1 else 0)
  {
    assert (journal + [mark])[..|journal|] == journal;
  }

  /** Sends already made for a generation, and those its handlers may still make. */
  function Claims(r: Relay, g: Generation): nat {
    Sends(r.budget.journal, g) + r.reading[g]
  }

  predicate Known(r: Relay, g: Generation) {
    g.ordinal <= Starts(r.budget, g.arm)
  }

  predicate OnePerGeneration(r: Relay, g: Generation) {
    && Claims(r, g) <= 1
    && (Claims(r, g) > 0 ==> Known(r, g))
    && (r.generation == Some(g) ==> Known(r, g) && (!r.claimed ==> Claims(r, g) == 0))
  }

  predicate OneBack(a: seq<Mark>, b: seq<Mark>) {
    |b| == |a| + 1 && b[..|a|] == a && b[|a|].In?
  }

  /** How an operation of the budget changes its starts and its journal. */
  predicate Moves(s: State, op: Op, t: State, ok: bool) {
    && Starts(s, Direct) <= Starts(t, Direct) && Starts(s, Commander) <= Starts(t, Commander)
    && (if op.Admit? && ok then t.journal == s.journal + [Out(op.generation)]
        else if op.Settle? then t.journal == s.journal || OneBack(s.journal, t.journal)
        else t.journal == s.journal)
    && (op.Begin? && ok ==>
          && t.active.Some?
          && Starts(s, t.active.value.arm) < t.active.value.ordinal <= Starts(t, t.active.value.arm))
  }

  lemma StepMoves(m: Manifest, deadline: int, s: State, op: Op)
    ensures Moves(s, op, Step(m, deadline, s, op).0, Step(m, deadline, s, op).1)
  {
  }

  lemma MovesSends(s: State, op: Op, t: State, ok: bool, g: Generation)
    requires Moves(s, op, t, ok)
    ensures Sends(t.journal, g) == Sends(s.journal, g) + (if op.Admit? && ok && op.generation == g then 1 else 0)
  {
    if t.journal != s.journal {
      assert t.journal == s.journal + [t.journal[|s.journal|]];
      SendsSnoc(s.journal, t.journal[|s.journal|], g);
    }
  }

  lemma StartKeepsOne(r: Relay, e: Event, b: State, ok: bool, g: Generation)
    requires e.Start? && OnePerGeneration(r, g) && Moves(r.budget, Asks(r, e), b, ok)
    ensures OnePerGeneration(After(r, e, b, ok), g)
  {
    MovesSends(r.budget, Asks(r, e), b, ok, g);
  }

  lemma ForwardKeepsOne(r: Relay, e: Event, b: State, ok: bool, g: Generation)
    requires e.Forward? && r.reading[e.g] > 0 && OnePerGeneration(r, g) && Moves(r.budget, Asks(r, e), b, ok)
    ensures OnePerGeneration(After(r, e, b, ok), g)
  {
    MovesSends(r.budget, Asks(r, e), b, ok, g);
    var t := After(r, e, b, ok);
    assert t.reading[g] == r.reading[g] - (if e.g == g then 1 else 0);
    assert t.budget.journal == b.journal;
  }

  lemma AfterKeepsOne(r: Relay, e: Event, b: State, ok: bool, g: Generation)
    requires OnePerGeneration(r, g) && !Idles(r, e) && !Claimable(r, e) && Moves(r.budget, Asks(r, e), b, ok)
    ensures OnePerGeneration(After(r, e, b, ok), g)
  {
    if e.Start? {
      StartKeepsOne(r, e, b, ok, g);
    } else if e.Forward? {
      ForwardKeepsOne(r, e, b, ok, g);
    } else {
      MovesSends(r.budget, Asks(r, e), b, ok, g);
      var t := After(r, e, b, ok);
      assert t.reading == r.reading && t.budget.journal == b.journal;
    }
  }

  lemma ActKeepsOne(m: Manifest, deadline: int, r: Relay, e: Event, g: Generation)
    requires OnePerGeneration(r, g)
    ensures OnePerGeneration(Act(m, deadline, r, e), g)
  {
    if !Idles(r, e) && !Claimable(r, e) {
      var (b, ok) := Step(m, deadline, r.budget, Asks(r, e));
      StepMoves(m, deadline, r.budget, Asks(r, e));
      AfterKeepsOne(r, e, b, ok, g);
    }
  }

  lemma {:induction false} PlayKeepsOne(m: Manifest, deadline: int, r: Relay, events: seq<Event>, g: Generation)
    requires OnePerGeneration(r, g)
    ensures OnePerGeneration(Play(m, deadline, r, events), g)
    decreases |events|
  {
    if events != [] {
      ActKeepsOne(m, deadline, r, events[0], g);
      PlayKeepsOne(m, deadline, Act(m, deadline, r, events[0]), events[1..], g);
    }
  }

  lemma ActKeepsBudget(m: Manifest, now: int, deadline: int, r: Relay, e: Event)
    requires Qualified(m, now) && Inv(m, Reserve(m), r.budget)
    ensures Inv(m, Reserve(m), Act(m, deadline, r, e).budget)
  {
    var op := Asks(r, e);
    StepKeepsInv(m, now, deadline, r.budget, op);
    StepKeepsInv(m, now, deadline, Step(m, deadline, r.budget, op).0, Close);
  }

  lemma {:induction false} PlayKeepsBudget(m: Manifest, now: int, deadline: int, r: Relay, events: seq<Event>)
    requires Qualified(m, now) && Inv(m, Reserve(m), r.budget)
    ensures Inv(m, Reserve(m), Play(m, deadline, r, events).budget)
    decreases |events|
  {
    if events != [] {
      ActKeepsBudget(m, now, deadline, r, events[0]);
      PlayKeepsBudget(m, now, deadline, Act(m, deadline, r, events[0]), events[1..]);
    }
  }

  /**
   Over any interleaving of handlers and control calls, a generation is sent for at most once, and the budget
   keeps its bounds.
   */
  lemma RelayIsSafe(m: Manifest, now: int, deadline: int, events: seq<Event>, g: Generation)
    requires Qualified(m, now)
    ensures var b := Play(m, deadline, Idle(), events).budget;
            && Sends(b.journal, g) <= 1
            && 0 <= InFlight(b.journal) <= 1
            && b.sends <= m.dispatches && b.direct <= 3 && b.commander <= 3
            && !Exceeds(b.reserved, m.estimate) && Paid(b.journal) <= b.reserved
  {
    PlayKeepsOne(m, deadline, Idle(), events, g);
    PlayKeepsBudget(m, now, deadline, Idle(), events);
    DispatchesWithinEstimate(m, now);
    Totals(m, Reserve(m), Play(m, deadline, Idle(), events).budget);
  }

  // ---- What the relay does let through ----

  /** What a handler that has claimed sends on. */
  predicate SentOn(m: Manifest, deadline: int, r: Relay, g: Generation, acceptable: bool, at: int, same: bool) {
    && r.reading[g] > 0 && acceptable && r.budget.stop.None? && InOrder(m, deadline, at, same)
    && r.budget.active == Some(g) && !r.budget.pending && r.budget.sends < m.dispatches
  }

  lemma AdmitsSentOn(m: Manifest, deadline: int, s: State, g: Generation, at: int, same: bool)
    requires s.sends < m.dispatches ==> !Exceeds(s.reserved + Reserve(m), m.estimate)
    ensures
      var (t, ok) := AdmitOp(m, deadline, s, g, Initial, at, same);
      && (ok <==> s.stop.None? && InOrder(m, deadline, at, same) && s.active == Some(g) && !s.pending && s.sends < m.dispatches)
      && t.journal == (if ok then s.journal + [Out(g)] else s.journal) && (t.stop.None? <==> ok)
  {
  }

  lemma ForwardIff(m: Manifest, deadline: int, r: Relay, g: Generation, acceptable: bool, at: int, same: bool)
    requires r.budget.sends < m.dispatches ==> !Exceeds(r.budget.reserved + Reserve(m), m.estimate)
    ensures
      var t := Act(m, deadline, r, Forward(g, acceptable, at, same));
      var sent := SentOn(m, deadline, r, g, acceptable, at, same);
      && t.budget.journal == (if sent then r.budget.journal + [Out(g)] else r.budget.journal)
      && t.sending == (if sent then r.sending + multiset{g} else r.sending)
      && t.reading == r.reading - multiset{g}
      && (t.budget.stop.None? <==> r.budget.stop.None? && (sent || r.reading[g] == 0))
  {
    if r.reading[g] == 0 {
      assert r.reading - multiset{g} == r.reading;
    } else if acceptable {
      AdmitsSentOn(m, deadline, r.budget, g, at, same);
    }
  }

  /** A request is sent on exactly for a handler that claimed, while the budget admits it; any other end stops it. */
  lemma ForwardedExactly(
      m: Manifest, now: int, deadline: int, events: seq<Event>, g: Generation, acceptable: bool, at: int, same: bool)
    requires Qualified(m, now)
    ensures
      var r := Play(m, deadline, Idle(), events);
      var t := Act(m, deadline, r, Forward(g, acceptable, at, same));
      var sent := SentOn(m, deadline, r, g, acceptable, at, same);
      && t.budget.journal == (if sent then r.budget.journal + [Out(g)] else r.budget.journal)
      && t.sending == (if sent then r.sending + multiset{g} else r.sending)
      && t.reading == r.reading - multiset{g}
      && (t.budget.stop.None? <==> r.budget.stop.None? && (sent || r.reading[g] == 0))
  {
    var r := Play(m, deadline, Idle(), events);
    CreditsLeft(m, now, deadline, events);
    ForwardIff(m, deadline, r, g, acceptable, at, same);
  }

  lemma CreditsLeft(m: Manifest, now: int, deadline: int, events: seq<Event>)
    requires Qualified(m, now)
    ensures
      var b := Play(m, deadline, Idle(), events).budget;
      b.sends < m.dispatches ==> !Exceeds(b.reserved + Reserve(m), m.estimate)
  {
    PlayKeepsBudget(m, now, deadline, Idle(), events);
    DispatchesWithinEstimate(m, now);
    Totals(m, Reserve(m), Play(m, deadline, Idle(), events).budget);
  }

  /** A handler claims exactly the generation that nobody claimed yet; any other request stops the budget. */
  lemma ClaimedExactly(m: Manifest, deadline: int, r: Relay, acceptable: bool)
    ensures
      var t := Act(m, deadline, r, Request(acceptable));
      if acceptable && r.generation.Some? && !r.claimed
      then t == r.(claimed := true, reading := r.reading + multiset{r.generation.value})
      else t.budget.stop.Some? && t.reading == r.reading && t.budget.journal == r.budget.journal
  {
  }

  /** A round trip: start, one request, its send and its answer, finish. */
  function RoundTrip(arm: Arm, g: Generation, sent: Sent, at: seq<int>): seq<Event>
    requires |at| == 3
  {
    [Start(arm, at[0], true), Request(true), Forward(g, true, at[1], true), Back(g, sent, at[2], true), Finish]
  }

  lemma PlayCons(m: Manifest, deadline: int, r: Relay, e: Event, rest: seq<Event>)
    ensures Play(m, deadline, r, [e] + rest) == Play(m, deadline, Act(m, deadline, r, e), rest)
  {
    assert ([e] + rest)[1..] == rest;
  }

  lemma PlayThree(m: Manifest, deadline: int, r: Relay, a: Event, b: Event, c: Event, rest: seq<Event>)
    ensures Play(m, deadline, r, [a, b, c] + rest)
         == Play(m, deadline, Act(m, deadline, Act(m, deadline, Act(m, deadline, r, a), b), c), rest)
  {
    var r1 := Act(m, deadline, r, a);
    assert [a, b, c] + rest == [a] + ([b] + ([c] + rest));
    PlayCons(m, deadline, r, a, [b] + ([c] + rest));
    PlayCons(m, deadline, r1, b, [c] + rest);
    PlayCons(m, deadline, Act(m, deadline, r1, b), c, rest);
  }

  lemma PlayTwo(m: Manifest, deadline: int, r: Relay, a: Event, b: Event)
    ensures Play(m, deadline, r, [a, b]) == Act(m, deadline, Act(m, deadline, r, a), b)
  {
    assert [a, b] == [a] + ([b] + []);
    PlayCons(m, deadline, r, a, [b] + []);
    PlayCons(m, deadline, Act(m, deadline, r, a), b, []);
  }

  predicate AtRest(r: Relay) {
    r.generation.None? && r.budget.stop.None? && r.budget.active.None? && !r.budget.pending
  }

  /** From one rest to the next, with one send more, paid for, and one start. */
  ghost predicate CameThrough(r: Relay, t: Relay, arm: Arm, paid: real) {
    var g := Generation(arm, Starts(r.budget, arm) + 1);
    && AtRest(t) && t.reading == r.reading && t.sending == r.sending
    && t.budget.journal == r.budget.journal + [Out(g)] + [In(g, paid)]
    && t.budget.sends == r.budget.sends + 1
    && forall a :: Starts(t.budget, a) == Starts(r.budget, a) + if a == arm then 1 else 0
  }

  /** With sends and starts left, a round trip in time comes through. */
  lemma RoundTripComesThrough(m: Manifest, now: int, deadline: int, r: Relay, arm: Arm, sent: Sent, at: seq<int>)
    requires Qualified(m, now) && Inv(m, Reserve(m), r.budget) && AtRest(r)
    requires Starts(r.budget, arm) < 3 && r.budget.sends < m.dispatches && InTokens(m, sent)
    requires |at| == 3 && forall t :: t in at ==> InOrder(m, deadline, t, true)
    ensures CameThrough(r, Play(m, deadline, r, RoundTrip(arm, Generation(arm, Starts(r.budget, arm) + 1), sent, at)),
                        arm, Cost(m, sent.input, sent.output))
  {
    TripFits(m, now, r, arm);
    Trip(m, deadline, r, arm, sent, at, Cost(m, sent.input, sent.output));
  }

  lemma Trip(m: Manifest, deadline: int, r: Relay, arm: Arm, sent: Sent, at: seq<int>, paid: real)
    requires AtRest(r) && Starts(r.budget, arm) < 3 && r.budget.direct + r.budget.commander < m.generationStarts
    requires r.budget.sends < m.dispatches && !Exceeds(r.budget.reserved + Reserve(m), m.estimate) && InTokens(m, sent)
    requires m.inputTokens <= MAX_SAFE && m.outputTokens <= MAX_SAFE && paid == Cost(m, sent.input, sent.output)
    requires |at| == 3 && forall t :: t in at ==> InOrder(m, deadline, t, true)
    ensures CameThrough(r, Play(m, deadline, r, RoundTrip(arm, Generation(arm, Starts(r.budget, arm) + 1), sent, at)),
                        arm, paid)
  {
    var g := Generation(arm, Starts(r.budget, arm) + 1);
    var back := [Back(g, sent, at[2], true), Finish];
    assert RoundTrip(arm, g, sent, at)
        == [Start(arm, at[0], true), Request(true), Forward(g, true, at[1], true)] + back;
    var r3 := GoesOut(m, deadline, r, arm, at[0], at[1], back);
    ComesBack(m, deadline, r3, g, sent, at[2], paid);
    Returned(r, r3, Play(m, deadline, r3, back), arm, paid);
  }

  lemma Returned(r: Relay, r3: Relay, t: Relay, arm: Arm, paid: real)
    requires
      var g := Generation(arm, Starts(r.budget, arm) + 1);
      && r3.sending == r.sending + multiset{g} && r3.reading == r.reading + multiset{g} - multiset{g}
      && r3.budget.journal == r.budget.journal + [Out(g)] && r3.budget.sends == r.budget.sends + 1
      && (forall a :: Starts(r3.budget, a) == Starts(r.budget, a) + if a == arm then 1 else 0)
      && AtRest(t) && t.reading == r3.reading && t.sending == r3.sending - multiset{g}
      && t.budget == r3.budget.(pending := false, active := None, journal := r3.budget.journal + [In(g, paid)])
    ensures CameThrough(r, t, arm, paid)
  {
  }

  lemma GoesOut(m: Manifest, deadline: int, r: Relay, arm: Arm, first: int, second: int, rest: seq<Event>)
    returns (r3: Relay)
    requires AtRest(r) && Starts(r.budget, arm) < 3 && r.budget.direct + r.budget.commander < m.generationStarts
    requires r.budget.sends < m.dispatches && !Exceeds(r.budget.reserved + Reserve(m), m.estimate)
    requires InOrder(m, deadline, first, true) && InOrder(m, deadline, second, true)
    ensures
      var g := Generation(arm, Starts(r.budget, arm) + 1);
      && Play(m, deadline, r, [Start(arm, first, true), Request(true), Forward(g, true, second, true)] + rest)
         == Play(m, deadline, r3, rest)
      && r3.generation == Some(g) && r3.sending == r.sending + multiset{g}
      && r3.reading == r.reading + multiset{g} - multiset{g}
      && r3.budget.stop.None? && r3.budget.active == Some(g) && r3.budget.pending && r3.budget.activeSends > 0
      && r3.budget.journal == r.budget.journal + [Out(g)] && r3.budget.sends == r.budget.sends + 1
      && forall a :: Starts(r3.budget, a) == Starts(r.budget, a) + if a == arm then 1 else 0
  {
    var g := Generation(arm, Starts(r.budget, arm) + 1);
    StartsTrip(m, deadline, r, arm, first);
    var r1 := Act(m, deadline, r, Start(arm, first, true));
    ClaimedExactly(m, deadline, r1, true);
    var r2 := r1.(claimed := true, reading := r1.reading + multiset{g});
    ForwardsTrip(m, deadline, r2, g, second);
    r3 := Act(m, deadline, r2, Forward(g, true, second, true));
    PlayThree(m, deadline, r, Start(arm, first, true), Request(true), Forward(g, true, second, true), rest);
  }

  lemma ComesBack(m: Manifest, deadline: int, r: Relay, g: Generation, sent: Sent, at: int, paid: real)
    requires r.generation == Some(g) && r.sending[g] > 0
    requires r.budget.stop.None? && r.budget.active == Some(g) && r.budget.pending && r.budget.activeSends > 0
    requires InOrder(m, deadline, at, true) && InTokens(m, sent) && paid == Cost(m, sent.input, sent.output)
    requires m.inputTokens <= MAX_SAFE && m.outputTokens <= MAX_SAFE
    ensures
      var r5 := Play(m, deadline, r, [Back(g, sent, at, true), Finish]);
      && AtRest(r5) && r5.reading == r.reading && r5.sending == r.sending - multiset{g}
      && r5.budget == r.budget.(pending := false, active := None, journal := r.budget.journal + [In(g, paid)])
  {
    BringsBack(m, deadline, r, g, sent, at, paid);
    EndsTrip(m, deadline, Act(m, deadline, r, Back(g, sent, at, true)), g);
    PlayTwo(m, deadline, r, Back(g, sent, at, true), Finish);
  }

  lemma TripFits(m: Manifest, now: int, r: Relay, arm: Arm)
    requires Qualified(m, now) && Inv(m, Reserve(m), r.budget) && Starts(r.budget, arm) < 3
    requires r.budget.sends < m.dispatches
    ensures r.budget.direct + r.budget.commander < m.generationStarts
    ensures m.inputTokens <= MAX_SAFE && m.outputTokens <= MAX_SAFE
    ensures !Exceeds(r.budget.reserved + Reserve(m), m.estimate)
  {
    DispatchesWithinEstimate(m, now);
    Totals(m, Reserve(m), r.budget);
  }

  lemma EndsTrip(m: Manifest, deadline: int, r: Relay, g: Generation)
    requires r.generation == Some(g) && r.budget.stop.None? && r.budget.active == Some(g)
    requires !r.budget.pending && r.budget.activeSends > 0
    ensures Act(m, deadline, r, Finish) == r.(generation := None, budget := r.budget.(active := None))
  {
  }

  lemma StartsTrip(m: Manifest, deadline: int, r: Relay, arm: Arm, at: int)
    requires AtRest(r) && Starts(r.budget, arm) < 3 && r.budget.direct + r.budget.commander < m.generationStarts
    requires InOrder(m, deadline, at, true)
    ensures
      var g := Generation(arm, Starts(r.budget, arm) + 1);
      var t := Act(m, deadline, r, Start(arm, at, true));
      && t == r.(budget := t.budget, generation := Some(g), claimed := false)
      && t.budget == r.budget.(direct := t.budget.direct, commander := t.budget.commander, active := Some(g), activeSends := 0)
      && forall a :: Starts(t.budget, a) == Starts(r.budget, a) + if a == arm then 1 else 0
  {
  }

  lemma ForwardsTrip(m: Manifest, deadline: int, r: Relay, g: Generation, at: int)
    requires r.reading[g] > 0 && r.budget.stop.None? && InOrder(m, deadline, at, true) && r.budget.active == Some(g)
    requires !r.budget.pending && r.budget.sends < m.dispatches && !Exceeds(r.budget.reserved + Reserve(m), m.estimate)
    ensures
      var t := Act(m, deadline, r, Forward(g, true, at, true));
      && t == r.(budget := t.budget, reading := r.reading - multiset{g}, sending := r.sending + multiset{g})
      && t.budget == r.budget.(sends := r.budget.sends + 1, activeSends := r.budget.activeSends + 1, pending := true,
                               reserved := t.budget.reserved, journal := r.budget.journal + [Out(g)])
  {
  }

  lemma BringsBack(m: Manifest, deadline: int, r: Relay, g: Generation, sent: Sent, at: int, paid: real)
    requires r.sending[g] > 0 && r.budget.pending && r.budget.active == Some(g) && r.budget.stop.None?
    requires InOrder(m, deadline, at, true) && InTokens(m, sent) && paid == Cost(m, sent.input, sent.output)
    requires m.inputTokens <= MAX_SAFE && m.outputTokens <= MAX_SAFE
    ensures Act(m, deadline, r, Back(g, sent, at, true))
         == r.(sending := r.sending - multiset{g},
               budget := r.budget.(pending := false, journal := r.budget.journal + [In(g, paid)]))
  {
  }
}
