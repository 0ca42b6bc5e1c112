/**
 The budget of a pilot: admission of generations, reservation of credits for every physical send, and a stop
 nothing comes back from. Credits are exact reals; an operation that throws answers `Refused`. A `dispatch` is
 two steps, `Admit` before the send and `Settle` after it, with anything in between.
 */
module PilotBudget {
  import opened Text

  datatype Arm = Direct | Commander

  datatype Kind = Initial | Continuation | Compaction | Sidecar | Retry

  datatype Stop =
    | Deadline | RateBasisExpired | IdentityChanged | GenerationBound | ConcurrencyBound | UnexpectedRetry
    | ReserveExhausted | NotCompleted | UsageUnknown | UsageBound | SendFailed | GenerationIncomplete | Closed

  datatype Generation = Generation(arm: Arm, ordinal: nat)

  datatype Manifest = Manifest(
    generationStarts: int, dispatches: int, wallTimeMs: int, inputTokens: int, outputTokens: int, estimate: real,
    inputRate: real, outputRate: real, verifiedAt: int)

  /** What a send came to. */
  datatype Sent = Failure | Usage(status: int, completed: bool, complete: bool, input: int, output: int)

  datatype Mark = Out(generation: Generation) | In(generation: Generation, paid: real)

  /** `journal` records the sends, and what each that succeeded really cost. */
  datatype State = State(
    stop: Option<Stop>, active: Option<Generation>, pending: bool, activeSends: nat,
    direct: nat, commander: nat, sends: nat, reserved: real, journal: seq<Mark>)

  datatype Op =
    | Begin(arm: Arm, now: int, same: bool)
    | Admit(generation: Generation, kind: Kind, now: int, same: bool)
    | Settle(sent: Sent, now: int, same: bool)
    | End(generation: Generation)
    | Timer
    | Close

  const MAX_SAFE: int := 9007199254740991
  const DAY_MS: int := 86400000
  const TOLERANCE: real := 0.000000000001

  // ---- Admission of a manifest ----

  predicate Positive(x: real) {
    0.0 < x <= MAX_SAFE as real
  }

  predicate IsCount(n: int) {
    0 < n <= MAX_SAFE
  }

  function Max(a: real, b: real): real {
    if a < b then b else a
  }

  function Abs(a: real): real {
    if a < 0.0 then -a else a
  }

  predicate Exceeds(n: real, limit: real) {
    n - limit > Max(1.0, Abs(limit)) * TOLERANCE
  }

  function Cost(m: Manifest, input: int, output: int): real {
    (input as real * m.inputRate + output as real * m.outputRate) / 1000000.0
  }

  function Reserve(m: Manifest): real {
    Cost(m, m.inputTokens, m.outputTokens)
  }

  /** The arithmetic of `validateManifest`. */
  predicate Qualified(m: Manifest, now: int) {
    && m.generationStarts == 6
    && IsCount(m.dispatches) && m.dispatches <= 6
    && IsCount(m.wallTimeMs) && m.wallTimeMs <= 600000
    && IsCount(m.inputTokens) && IsCount(m.outputTokens) && Positive(m.estimate)
    && Positive(m.inputRate) && Positive(m.outputRate)
    && m.verifiedAt <= now && now - m.verifiedAt <= DAY_MS
    && Positive(Reserve(m)) && Positive(Reserve(m) * m.dispatches as real)
    && !Exceeds(Reserve(m) * m.dispatches as real, m.estimate)
  }

  // ---- The operations ----

  function Fresh(): State {
    State(None, None, false, 0, 0, 0, 0, 0.0, [])
  }

  function Stopped(s: State, why: Stop): State {
    if s.stop.Some? then s else s.(stop := Some(why))
  }

  function Starts(s: State, arm: Arm): nat {
    if arm.Direct? then s.direct else s.commander
  }

  /** `check`: the reason to stop now, if there is one. */
  function Trouble(m: Manifest, deadline: int, now: int, same: bool): Option<Stop> {
    if now >= deadline then Some(Deadline)
    else if now < m.verifiedAt || now - m.verifiedAt > DAY_MS then Some(RateBasisExpired)
    else if !same then Some(IdentityChanged)
    else None
  }

  function BeginOp(m: Manifest, deadline: int, s: State, arm: Arm, now: int, same: bool): (State, bool) {
    var trouble := Trouble(m, deadline, now, same);
    if s.stop.Some? then (s, false)
    else if trouble.Some? then (Stopped(s, trouble.value), false)
    else if s.active.Some? || Starts(s, arm) >= 3 || s.direct + s.commander >= m.generationStarts
    then (Stopped(s, GenerationBound), false)
    else
      var started := if arm.Direct? then s.(direct := s.direct + 1) else s.(commander := s.commander + 1);
      (started.(active := Some(Generation(arm, Starts(started, arm))), activeSends := 0), true)
  }

  function AdmitOp(m: Manifest, deadline: int, s: State, g: Generation, kind: Kind, now: int, same: bool): (State, bool) {
    var trouble := Trouble(m, deadline, now, same);
    if s.stop.Some? then (s, false)
    else if trouble.Some? then (Stopped(s, trouble.value), false)
    else if s.active != Some(g) || s.pending then (Stopped(s, ConcurrencyBound), false)
    else if kind.Retry? then (Stopped(s, UnexpectedRetry), false)
    else if s.sends >= m.dispatches || Exceeds(s.reserved + Reserve(m), m.estimate)
    then (Stopped(s, ReserveExhausted), false)
    else (s.(sends := s.sends + 1, activeSends := s.activeSends + 1, reserved := s.reserved + Reserve(m),
             pending := true, journal := s.journal + [Out(g)]), true)
  }

  /** The verdict on a send that came back before any stop. */
  function Verdict(m: Manifest, deadline: int, sent: Sent, now: int, same: bool): Option<Stop> {
    var trouble := Trouble(m, deadline, now, same);
    if sent.Failure? then Some(SendFailed)
    else if trouble.Some? then trouble
    else if sent.status < 200 || sent.status >= 300 || !sent.completed then Some(NotCompleted)
    else if !sent.complete || !(0 <= sent.input <= MAX_SAFE) || !(0 <= sent.output <= MAX_SAFE) then Some(UsageUnknown)
    else if sent.input > m.inputTokens || sent.output > m.outputTokens then Some(UsageBound)
    else None
  }

  function SettleOp(m: Manifest, deadline: int, s: State, sent: Sent, now: int, same: bool): (State, bool)
    requires s.pending && s.active.Some?
  {
    var verdict := if s.stop.Some? then s.stop else Verdict(m, deadline, sent, now, same);
    var paid := if verdict.None? && sent.Usage? then Cost(m, sent.input, sent.output) else 0.0;
    var back := s.(pending := false, journal := s.journal + [In(s.active.value, paid)]);
    if verdict.Some? then (Stopped(back, verdict.value), false) else (back, true)
  }

  function EndOp(s: State, g: Generation): (State, bool) {
    if s.stop.Some? then (s, false)
    else if s.active != Some(g) || s.pending || s.activeSends == 0 then (Stopped(s, GenerationIncomplete), false)
    else (s.(active := None), true)
  }

  /** One operation; nobody settles a send that is not out. */
  function Step(m: Manifest, deadline: int, s: State, op: Op): (State, bool) {
    match op
    case Begin(arm, now, same) => BeginOp(m, deadline, s, arm, now, same)
    case Admit(g, kind, now, same) => AdmitOp(m, deadline, s, g, kind, now, same)
    case Settle(sent, now, same) =>
      if s.pending && s.active.Some? then SettleOp(m, deadline, s, sent, now, same) else (s, false)
    case End(g) => EndOp(s, g)
    case Timer => (Stopped(s, Deadline), true)
    case Close => (Stopped(s, Closed), true)
  }

  function Run(m: Manifest, deadline: int, s: State, ops: seq<Op>): State
    decreases |ops|
  {
    if ops == [] then s else Run(m, deadline, Step(m, deadline, s, ops[0]).0, ops[1..])
  }

  // ---- Reading the journal ----

  /** Sends that are out and not back. */
  function InFlight(journal: seq<Mark>): int
    decreases |journal|
  {
    if journal == [] then 0
    else InFlight(journal[..|journal| - 1]) + (if journal[|journal| - 1].Out? then 1 else -1)
  }

  function Count(journal: seq<Mark>): nat
    decreases |journal|
  {
    if journal == [] then 0
    else Count(journal[..|journal| - 1]) + (if journal[|journal| - 1].Out? then 1 else 0)
  }

  function Paid(journal: seq<Mark>): real
    decreases |journal|
  {
    if journal == [] then 0.0
    else Paid(journal[..|journal| - 1]) + (if journal[|journal| - 1].In? then journal[|journal| - 1].paid else 0.0)
  }

  lemma JournalSnoc(journal: seq<Mark>, mark: Mark)
    ensures InFlight(journal + [mark]) == InFlight(journal) + (if mark.Out? then 1 else -1)
    ensures Count(journal + [mark]) == Count(journal) + (if mark.Out? then 1 else 0)
    ensures Paid(journal + [mark]) == Paid(journal) + (if mark.In? then mark.paid else 0.0)
  {
    assert (journal + [mark])[..|journal|] == journal;
  }

  // ---- Invariant ----

  /** `n` reserves of `r` credits. */
  function Times(n: nat, r: real): (t: real)
    requires r >= 0.0
    ensures t >= 0.0
  {
    if n == 0 then 0.0 else Times(n - 1, r) + r
  }

  lemma {:induction false} TimesMonotone(a: nat, b: nat, r: real)
    requires a <= b && r >= 0.0
    ensures Times(a, r) <= Times(b, r)
  {
    if a < b {
      TimesMonotone(a, b - 1, r);
    }
  }

  lemma {:induction false} TimesIsProduct(n: nat, r: real)
    requires r >= 0.0
    ensures Times(n, r) == n as real * r
  {
    if n > 0 {
      TimesIsProduct(n - 1, r);
      assert n as real * r == (n - 1) as real * r + r;
    }
  }

  function Settled(s: State): int {
    s.sends - if s.pending then 1 else 0
  }

  /** `r` is the reserve of one send. */
  predicate Inv(m: Manifest, r: real, s: State)
    requires r >= 0.0
  {
    && s.direct <= 3 && s.commander <= 3
    && 0 <= Settled(s) && s.sends <= m.dispatches
    && s.reserved == Times(s.sends, r)
    && (s.pending ==> s.active.Some?)
    && InFlight(s.journal) == (if s.pending then 1 else 0)
    && Count(s.journal) == s.sends
    && Paid(s.journal) <= Times(Settled(s), r)
  }

  lemma Scale(a: real, b: real, r: real, x: real, y: real)
    requires a <= b && 0.0 <= r && x == a * r && y == b * r
    ensures x <= y
  {
    assert y - x == (b - a) * r >= 0.0;
  }

  /** A send within its token bounds costs no more than its reserve. */
  lemma UsageWithinReserve(m: Manifest, now: int, input: int, output: int)
    requires Qualified(m, now) && 0 <= input <= m.inputTokens && 0 <= output <= m.outputTokens
    ensures Cost(m, input, output) <= Reserve(m)
  {
    var x, y := input as real * m.inputRate, output as real * m.outputRate;
    var a, b := m.inputTokens as real * m.inputRate, m.outputTokens as real * m.outputRate;
    Scale(input as real, m.inputTokens as real, m.inputRate, x, a);
    Scale(output as real, m.outputTokens as real, m.outputRate, y, b);
    Millionths(x + y, a + b);
  }

  lemma Millionths(x: real, y: real)
    requires x <= y
    ensures x / 1000000.0 <= y / 1000000.0
  {
  }

  lemma AdmitKeepsInv(m: Manifest, r: real, deadline: int, s: State, op: Op)
    requires r == Reserve(m) >= 0.0 && op.Admit? && Inv(m, r, s)
    ensures Inv(m, r, Step(m, deadline, s, op).0)
  {
    JournalSnoc(s.journal, Out(op.generation));
  }

  lemma SettleKeepsInv(m: Manifest, r: real, deadline: int, s: State, op: Op)
    requires r >= 0.0 && op.Settle? && s.pending && Inv(m, r, s)
    requires op.sent.Usage? && 0 <= op.sent.input <= m.inputTokens && 0 <= op.sent.output <= m.outputTokens ==>
      Cost(m, op.sent.input, op.sent.output) <= r
    ensures Inv(m, r, SettleOp(m, deadline, s, op.sent, op.now, op.same).0)
  {
    var t := SettleOp(m, deadline, s, op.sent, op.now, op.same).0;
    JournalSnoc(s.journal, t.journal[|s.journal|]);
    assert t.journal[|s.journal|].paid <= r;
    assert Times(Settled(t), r) == Times(Settled(s), r) + r;
  }

  lemma OtherKeepsInv(m: Manifest, r: real, deadline: int, s: State, op: Op)
    requires r >= 0.0 && Inv(m, r, s) && !op.Admit? && (op.Settle? ==> !s.pending)
    ensures Inv(m, r, Step(m, deadline, s, op).0)
  {
  }

  lemma StepKeepsInv(m: Manifest, now: int, deadline: int, s: State, op: Op)
    requires Qualified(m, now) && Inv(m, Reserve(m), s)
    ensures Inv(m, Reserve(m), Step(m, deadline, s, op).0)
  {
    var r := Reserve(m);
    if op.Admit? {
      AdmitKeepsInv(m, r, deadline, s, op);
    } else if op.Settle? && s.pending {
      if op.sent.Usage? && 0 <= op.sent.input <= m.inputTokens && 0 <= op.sent.output <= m.outputTokens {
        UsageWithinReserve(m, now, op.sent.input, op.sent.output);
      }
      SettleKeepsInv(m, r, deadline, s, op);
    } else {
      OtherKeepsInv(m, r, deadline, s, op);
    }
  }

  lemma {:induction false} RunKeepsInv(m: Manifest, now: int, deadline: int, s: State, ops: seq<Op>)
    requires Qualified(m, now) && Inv(m, Reserve(m), s)
    ensures Inv(m, Reserve(m), Run(m, deadline, s, ops))
    decreases |ops|
  {
    if ops != [] {
      StepKeepsInv(m, now, deadline, s, ops[0]);
      RunKeepsInv(m, now, deadline, Step(m, deadline, s, ops[0]).0, ops[1..]);
    }
  }

  // ---- Safety over every run ----

  lemma DispatchesWithinEstimate(m: Manifest, now: int)
    requires Qualified(m, now)
    ensures m.dispatches > 0 && Reserve(m) > 0.0
    ensures !Exceeds(Times(m.dispatches, Reserve(m)), m.estimate)
  {
    var r := Reserve(m);
    TimesIsProduct(m.dispatches, r);
    assert m.dispatches as real * r == r * m.dispatches as real;
  }

  /** `n` reserves are within the estimate, up to the tolerance, as long as there are no more than dispatches. */
  lemma ReservesWithinEstimate(r: real, dispatches: nat, estimate: real, n: nat)
    requires r >= 0.0 && n <= dispatches && !Exceeds(Times(dispatches, r), estimate)
    ensures !Exceeds(Times(n, r), estimate)
  {
    TimesMonotone(n, dispatches, r);
  }

  lemma Totals(m: Manifest, r: real, s: State)
    requires r >= 0.0 && m.dispatches >= 0 && Inv(m, r, s) && !Exceeds(Times(m.dispatches, r), m.estimate)
    ensures !Exceeds(s.reserved, m.estimate) && Paid(s.journal) <= s.reserved
    ensures s.sends < m.dispatches ==> !Exceeds(s.reserved + r, m.estimate)
  {
    ReservesWithinEstimate(r, m.dispatches, m.estimate, s.sends);
    TimesMonotone(Settled(s), s.sends, r);
    if s.sends < m.dispatches {
      ReservesWithinEstimate(r, m.dispatches, m.estimate, s.sends + 1);
    }
  }

  /**
   Whatever order the operations come in: one send out at a time, no more sends than dispatches, three starts an
   arm, credits reserved for every send and within the estimate, and all that was really paid within the reserve.
   */
  lemma BudgetIsSafe(m: Manifest, now: int, deadline: int, ops: seq<Op>)
    requires Qualified(m, now)
    ensures var s := Run(m, deadline, Fresh(), ops);
            && 0 <= InFlight(s.journal) <= 1
            && Count(s.journal) == s.sends <= m.dispatches <= 6
            && s.direct <= 3 && s.commander <= 3
            && s.reserved == Times(s.sends, Reserve(m))
            && !Exceeds(s.reserved, m.estimate)
            && Paid(s.journal) <= s.reserved
  {
    RunKeepsInv(m, now, deadline, Fresh(), ops);
    DispatchesWithinEstimate(m, now);
    Totals(m, Reserve(m), Run(m, deadline, Fresh(), ops));
  }

  /** The credit test of `dispatch` never fires: the manifest check already bounds it by the number of sends. */
  lemma CreditTestIsUnreachable(m: Manifest, now: int, deadline: int, ops: seq<Op>)
    requires Qualified(m, now)
    ensures var s := Run(m, deadline, Fresh(), ops);
            s.sends < m.dispatches ==> !Exceeds(s.reserved + Reserve(m), m.estimate)
  {
    RunKeepsInv(m, now, deadline, Fresh(), ops);
    DispatchesWithinEstimate(m, now);
    Totals(m, Reserve(m), Run(m, deadline, Fresh(), ops));
  }

  predicate Frozen(s: State, t: State) {
    t.stop == s.stop && t.direct == s.direct && t.commander == s.commander && t.sends == s.sends && t.reserved == s.reserved
  }

  /** After the first stop the counters and the reason never change again, and nothing is admitted. */
  lemma {:induction false} StopIsAbsorbing(m: Manifest, deadline: int, s: State, ops: seq<Op>)
    requires s.stop.Some?
    ensures Frozen(s, Run(m, deadline, s, ops))
    ensures Count(Run(m, deadline, s, ops).journal) == Count(s.journal)
    decreases |ops|
  {
    if ops != [] {
      var t := Step(m, deadline, s, ops[0]).0;
      if ops[0].Settle? && s.pending && s.active.Some? {
        JournalSnoc(s.journal, t.journal[|s.journal|]);
      }
      StopIsAbsorbing(m, deadline, t, ops[1..]);
    }
  }

  /** Any operation that is refused leaves the budget stopped. */
  lemma RefusalStops(m: Manifest, deadline: int, s: State, op: Op)
    requires !Step(m, deadline, s, op).1 && (op.Settle? ==> s.pending && s.active.Some?)
    ensures Step(m, deadline, s, op).0.stop.Some?
  {
  }

  lemma {:induction false} RunsOn(m: Manifest, deadline: int, s: State, a: seq<Op>, b: seq<Op>)
    ensures Run(m, deadline, s, a + b) == Run(m, deadline, Run(m, deadline, s, a), b)
    decreases |a|
  {
    if a == [] {
      assert a + b == b;
    } else {
      assert (a + b)[0] == a[0] && (a + b)[1..] == a[1..] + b;
      RunsOn(m, deadline, Step(m, deadline, s, a[0]).0, a[1..], b);
    }
  }

  /** One refusal, anywhere in a run, is the end: however the run goes on, counters and reason stay as it left them. */
  lemma RefusalEndsRun(m: Manifest, deadline: int, s: State, before: seq<Op>, op: Op, later: seq<Op>)
    requires var t := Run(m, deadline, s, before);
      !Step(m, deadline, t, op).1 && (op.Settle? ==> t.pending && t.active.Some?)
    ensures var t := Step(m, deadline, Run(m, deadline, s, before), op).0;
            t.stop.Some? && Frozen(t, Run(m, deadline, s, before + ([op] + later)))
  {
    var t := Run(m, deadline, s, before);
    RefusalStops(m, deadline, t, op);
    RunsOn(m, deadline, s, before, [op] + later);
    assert ([op] + later)[1..] == later;
    StopIsAbsorbing(m, deadline, Step(m, deadline, t, op).0, later);
  }

  // ---- The budget, read off what was asked and answered ----

  datatype Asked = Asked(op: Op, ok: bool)

  /** The operations of a run with their answers. */
  function Transcript(m: Manifest, deadline: int, ops: seq<Op>): seq<Asked> {
    if ops == [] then []
    else
      var (front, op) := (ops[..|ops| - 1], ops[|ops| - 1]);
      Transcript(m, deadline, front) + [Asked(op, Step(m, deadline, Run(m, deadline, Fresh(), front), op).1)]
  }

  /** Generations begun for an arm. */
  function Begun(log: seq<Asked>, arm: Arm): nat {
    if log == [] then 0
    else
      var last := log[|log| - 1];
      Begun(log[..|log| - 1], arm) + (if last.ok && last.op.Begin? && last.op.arm == arm then 1 else 0)
  }

  /** The generation begun last, unless it was ended. */
  function Opened(log: seq<Asked>): Option<Generation> {
    if log == [] then None
    else
      var last := log[|log| - 1];
      if last.ok && last.op.Begin? then Some(Generation(last.op.arm, Begun(log, last.op.arm)))
      else if last.ok && last.op.End? then None
      else Opened(log[..|log| - 1])
  }

  /** A send is out that did not come back. */
  predicate IsOut(log: seq<Asked>) {
    log != [] &&
    var last := log[|log| - 1];
    (last.ok && last.op.Admit?) || (!last.op.Settle? && IsOut(log[..|log| - 1]))
  }

  /** The sends admitted, in all and since the last generation began. */
  function SentIn(log: seq<Asked>): nat {
    if log == [] then 0
    else SentIn(log[..|log| - 1]) + (if log[|log| - 1].ok && log[|log| - 1].op.Admit? then 1 else 0)
  }

  function SentNow(log: seq<Asked>): nat {
    if log == [] || (log[|log| - 1].ok && log[|log| - 1].op.Begin?) then 0
    else SentNow(log[..|log| - 1]) + (if log[|log| - 1].ok && log[|log| - 1].op.Admit? then 1 else 0)
  }

  /** Nothing was refused, and neither the timer nor anybody else stopped the budget. */
  predicate Running(log: seq<Asked>) {
    log == [] ||
    var (front, last) := (log[..|log| - 1], log[|log| - 1]);
    Running(front) && !last.op.Timer? && !last.op.Close? && (last.ok || (last.op.Settle? && !IsOut(front)))
  }

  predicate Tells(s: State, log: seq<Asked>) {
    && (s.stop.None? <==> Running(log))
    && s.active == Opened(log) && s.pending == IsOut(log) && (s.pending ==> s.active.Some?)
    && s.direct == Begun(log, Direct) && s.commander == Begun(log, Commander)
    && s.sends == SentIn(log) && (s.active.Some? ==> s.activeSends == SentNow(log))
  }

  /** What one more entry does to the reading of a log. */
  lemma LogSnoc(log: seq<Asked>, op: Op, ok: bool)
    ensures
      var longer := log + [Asked(op, ok)];
      && (forall arm :: Begun(longer, arm) == Begun(log, arm) + if ok && op.Begin? && op.arm == arm then 1 else 0)
      && Opened(longer) == (if ok && op.Begin? then Some(Generation(op.arm, Begun(log, op.arm) + 1))
                            else if ok && op.End? then None
                            else Opened(log))
      && IsOut(longer) == ((ok && op.Admit?) || (!op.Settle? && IsOut(log)))
      && SentIn(longer) == SentIn(log) + (if ok && op.Admit? then 1 else 0)
      && SentNow(longer) == (if ok && op.Begin? then 0 else SentNow(log) + if ok && op.Admit? then 1 else 0)
      && Running(longer) == (Running(log) && !op.Timer? && !op.Close? && (ok || (op.Settle? && !IsOut(log))))
  {
    assert (log + [Asked(op, ok)])[..|log|] == log;
  }

  lemma BeginTells(m: Manifest, deadline: int, s: State, log: seq<Asked>, op: Op)
    requires Tells(s, log) && op.Begin?
    ensures var (t, ok) := BeginOp(m, deadline, s, op.arm, op.now, op.same); Tells(t, log + [Asked(op, ok)])
  {
    LogSnoc(log, op, BeginOp(m, deadline, s, op.arm, op.now, op.same).1);
  }

  lemma AdmitTells(m: Manifest, deadline: int, s: State, log: seq<Asked>, op: Op)
    requires Tells(s, log) && op.Admit?
    ensures var (t, ok) := AdmitOp(m, deadline, s, op.generation, op.kind, op.now, op.same); Tells(t, log + [Asked(op, ok)])
  {
    LogSnoc(log, op, AdmitOp(m, deadline, s, op.generation, op.kind, op.now, op.same).1);
  }

  lemma OtherTells(m: Manifest, deadline: int, s: State, log: seq<Asked>, op: Op)
    requires Tells(s, log) && !op.Begin? && !op.Admit?
    ensures var (t, ok) := Step(m, deadline, s, op); Tells(t, log + [Asked(op, ok)])
  {
    LogSnoc(log, op, Step(m, deadline, s, op).1);
  }

  lemma StepTells(m: Manifest, deadline: int, s: State, log: seq<Asked>, op: Op)
    requires Tells(s, log)
    ensures var (t, ok) := Step(m, deadline, s, op); Tells(t, log + [Asked(op, ok)])
  {
    if op.Begin? {
      BeginTells(m, deadline, s, log, op);
    } else if op.Admit? {
      AdmitTells(m, deadline, s, log, op);
    } else {
      OtherTells(m, deadline, s, log, op);
    }
  }

  lemma RunSnoc(m: Manifest, deadline: int, ops: seq<Op>)
    requires ops != []
    ensures Run(m, deadline, Fresh(), ops)
         == Step(m, deadline, Run(m, deadline, Fresh(), ops[..|ops| - 1]), ops[|ops| - 1]).0
  {
    var (front, last) := (ops[..|ops| - 1], ops[|ops| - 1]);
    assert ops == front + [last];
    RunsOn(m, deadline, Fresh(), front, [last]);
  }

  /** After any run the registers of the controller are what its transcript says. */
  lemma {:induction false} TranscriptTells(m: Manifest, deadline: int, ops: seq<Op>)
    ensures Tells(Run(m, deadline, Fresh(), ops), Transcript(m, deadline, ops))
  {
    if ops != [] {
      var (front, last) := (ops[..|ops| - 1], ops[|ops| - 1]);
      TranscriptTells(m, deadline, front);
      StepTells(m, deadline, Run(m, deadline, Fresh(), front), Transcript(m, deadline, front), last);
      RunSnoc(m, deadline, ops);
    }
  }

  /** Before the deadline, within a day of the rates, and still the identity the manifest is for. */
  predicate InOrder(m: Manifest, deadline: int, at: int, same: bool) {
    at < deadline && m.verifiedAt <= at <= m.verifiedAt + 86400000 && same
  }

  lemma AdmitsIff(m: Manifest, now: int, deadline: int, ops: seq<Op>, g: Generation, kind: Kind, at: int, same: bool)
    requires Qualified(m, now)
    ensures var s := Run(m, deadline, Fresh(), ops);
            AdmitOp(m, deadline, s, g, kind, at, same).1
            <==> s.stop.None? && InOrder(m, deadline, at, same) && s.active == Some(g) && !s.pending
                 && !kind.Retry? && s.sends < m.dispatches
  {
    CreditTestIsUnreachable(m, now, deadline, ops);
  }

  /** What is admitted, exactly; the credit test adds nothing. */
  lemma AdmittedExactly(m: Manifest, now: int, deadline: int, ops: seq<Op>, g: Generation, kind: Kind, at: int, same: bool)
    requires Qualified(m, now)
    ensures var log := Transcript(m, deadline, ops);
            AdmitOp(m, deadline, Run(m, deadline, Fresh(), ops), g, kind, at, same).1
            <==> Running(log) && InOrder(m, deadline, at, same) && Opened(log) == Some(g) && !IsOut(log)
                 && !kind.Retry? && SentIn(log) < m.dispatches
  {
    AdmitsIff(m, now, deadline, ops, g, kind, at, same);
    TranscriptTells(m, deadline, ops);
  }

  /** What is begun, exactly; the bound on all starts together adds nothing to the bound on each arm. */
  lemma BegunExactly(m: Manifest, now: int, deadline: int, ops: seq<Op>, arm: Arm, at: int, same: bool)
    requires Qualified(m, now)
    ensures var log := Transcript(m, deadline, ops);
            BeginOp(m, deadline, Run(m, deadline, Fresh(), ops), arm, at, same).1
            <==> Running(log) && InOrder(m, deadline, at, same) && Opened(log).None? && Begun(log, arm) < 3
  {
    RunKeepsInv(m, now, deadline, Fresh(), ops);
    TranscriptTells(m, deadline, ops);
  }

  predicate InTokens(m: Manifest, sent: Sent) {
    && sent.Usage? && 200 <= sent.status < 300 && sent.completed && sent.complete
    && 0 <= sent.input <= m.inputTokens && 0 <= sent.output <= m.outputTokens
  }

  lemma VerdictIff(m: Manifest, deadline: int, sent: Sent, at: int, same: bool)
    requires m.inputTokens <= MAX_SAFE && m.outputTokens <= MAX_SAFE
    ensures Verdict(m, deadline, sent, at, same).None? <==> InOrder(m, deadline, at, same) && InTokens(m, sent)
  {
  }

  lemma SettlesIff(m: Manifest, deadline: int, s: State, sent: Sent, at: int, same: bool)
    requires s.pending && s.active.Some? && m.inputTokens <= MAX_SAFE && m.outputTokens <= MAX_SAFE
    ensures var (t, ok) := SettleOp(m, deadline, s, sent, at, same);
            && (ok <==> s.stop.None? && InOrder(m, deadline, at, same) && InTokens(m, sent))
            && t.journal == s.journal + [In(s.active.value, if ok then Cost(m, sent.input, sent.output) else 0.0)]
  {
    VerdictIff(m, deadline, sent, at, same);
  }

  /** Which send is taken back as paid, exactly: completed within the manifest's tokens, and still in order. */
  lemma SettledExactly(m: Manifest, deadline: int, ops: seq<Op>, sent: Sent, at: int, same: bool)
    requires m.inputTokens <= MAX_SAFE && m.outputTokens <= MAX_SAFE
    ensures var (s, log) := (Run(m, deadline, Fresh(), ops), Transcript(m, deadline, ops));
            var (t, ok) := Step(m, deadline, s, Settle(sent, at, same));
            && (ok <==> IsOut(log) && Running(log) && InOrder(m, deadline, at, same) && InTokens(m, sent))
            && (IsOut(log) ==>
                  && Opened(log).Some?
                  && t.journal
                     == s.journal + [In(Opened(log).value, if ok then Cost(m, sent.input, sent.output) else 0.0)])
            && (!IsOut(log) ==> t == s)
  {
    TranscriptTells(m, deadline, ops);
    var s := Run(m, deadline, Fresh(), ops);
    if s.pending && s.active.Some? { SettlesIff(m, deadline, s, sent, at, same); }
  }

  /** A generation ends exactly if it is open, something was sent for it, and nothing is out. */
  lemma EndedExactly(m: Manifest, deadline: int, ops: seq<Op>, g: Generation)
    ensures var log := Transcript(m, deadline, ops);
            EndOp(Run(m, deadline, Fresh(), ops), g).1
            <==> Running(log) && Opened(log) == Some(g) && !IsOut(log) && SentNow(log) > 0
  {
    TranscriptTells(m, deadline, ops);
  }

  /** Begin, admit, and settle of a send that did not fail: the operations that look at clock and identity. */
  predicate Looks(s: State, op: Op) {
    op.Begin? || op.Admit? || (op.Settle? && s.pending && s.active.Some? && op.sent.Usage?)
  }

  /**
   A running budget is stopped by the clock, the age of the rates or another identity exactly when they say so, in
   this order, with just that reason; and then nothing is begun, admitted or paid.
   */
  lemma LatenessIsRefused(m: Manifest, deadline: int, s: State, op: Op)
    requires s.stop.None? && Looks(s, op)
    ensures var (t, ok) := Step(m, deadline, s, op);
      && (t.stop == Some(Deadline) <==> op.now >= deadline)
      && (t.stop == Some(RateBasisExpired)
          <==> op.now < deadline && (op.now < m.verifiedAt || op.now > m.verifiedAt + 86400000))
      && (t.stop == Some(IdentityChanged)
          <==> op.now < deadline && m.verifiedAt <= op.now <= m.verifiedAt + 86400000 && !op.same)
      && (!InOrder(m, deadline, op.now, op.same) ==>
            && !ok && Starts(t, Direct) == Starts(s, Direct) && Starts(t, Commander) == Starts(s, Commander)
            && t.sends == s.sends && t.reserved == s.reserved && t.active == s.active
            && t.journal == if op.Settle? then s.journal + [In(s.active.value, 0.0)] else s.journal)
  {
  }
}
