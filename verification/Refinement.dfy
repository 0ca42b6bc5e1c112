/**
 The stream bridge refines the batch translator: on the events the stream consumes, both produce the same
 items (ids aside) and the same outcome.
 */
module Refinement {
  import opened Text
  import opened Responses
  import T = Translator
  import B = BatchTranslator

  /** No namespaced tool searches, and argument schemas that do not depend on the lookup used. */
  ghost predicate Comparable(cfg: Config) {
    && !cfg.hideThinking && !cfg.compaction
    && (forall n :: n in cfg.namespaces ==> cfg.namespaces[n].1 !in cfg.searchNames)
    && (forall n :: n in cfg.namespaces ==> n in cfg.schemas || cfg.namespaces[n].1 !in cfg.schemas)
  }

  predicate Admissible(e: Event) {
    match e
    case TextDelta(text, _) => text != []
    case ThinkingDelta(thinking) => thinking != []
    case ReasoningRawDelta(text, _) => text != []
    case ToolCallStart(id, _) => id != ""
    case RedactedThinking(_) => false
    case KiroRedactedReasoning(_) => false
    case Done(stopReason, _) => stopReason != Some("")
    case Error(_, _, _, code, _) => code != Some("translation_buffer_limit")
    case _ => true
  }

  /** Every search begin is directly followed by its end, and every end directly follows its begin. */
  predicate Paired(events: seq<Event>)
    decreases events
  {
    if events == [] then true
    else if events[0].WebSearchBegin? then
      |events| > 1 && events[1].WebSearchEnd? && events[1].id == events[0].id && Paired(events[2..])
    else !events[0].WebSearchEnd? && Paired(events[1..])
  }

  ghost predicate SameMessage(s: T.State, b: B.Batch) {
    match s.msg
    case None => b.text == [] && b.phase == None
    case Some(m) => m.text != [] && b.text == m.text && b.phase == m.phase
  }

  ghost predicate SameReasoning(r: Option<T.OpenReasoning>, buffered: Text) {
    match r
    case None => buffered == []
    case Some(o) => o.text != [] && buffered == o.text
  }

  ghost predicate SameCall(cfg: Config, s: T.State, b: B.Batch) {
    match s.call
    case None => b.callId == ""
    case Some(c) =>
      && c.callId != "" && b.callId == c.callId && b.callName == c.schemaName && b.callArgs == c.args
      && c.name == RealName(cfg, c.schemaName) && c.namespace == Namespace(cfg, c.schemaName)
      && c.toolSearch == IsToolSearch(cfg, c.schemaName) && c.freeform == IsFreeform(cfg, c.schemaName)
  }

  ghost predicate AtMostOneOpen(s: T.State) {
    && (s.msg.Some? ==> s.summary.None? && s.raw.None? && s.call.None?)
    && (s.summary.Some? ==> s.raw.None? && s.call.None?)
    && (s.raw.Some? ==> s.call.None?)
  }

  ghost predicate NothingHidden(s: T.State, b: B.Batch) {
    && s.signature == [] && s.redacted == [] && s.hiddenThinking == [] && s.hiddenRaw == [] && s.kiro == []
    && b.signature == [] && b.redacted == [] && b.kiro == []
  }

  ghost predicate Running(s: T.State, b: B.Batch) {
    && s.outcome.None? && b.failure.None? && b.incomplete.None? && b.endTurn.None? && b.stopReason.None?
    && !b.cleanDone && !b.sawTerminal
  }

  /** The two translators hold the same items and the same open text. */
  ghost predicate Held(cfg: Config, s: T.State, b: B.Batch) {
    && Bodies(s.finished) == b.output
    && s.sources == b.sources
    && s.search.None?
    && SameMessage(s, b) && SameReasoning(s.summary, b.summary) && SameReasoning(s.raw, b.raw) && SameCall(cfg, s, b)
    && AtMostOneOpen(s) && NothingHidden(s, b)
  }

  /** ... and neither has seen the end of the turn. */
  ghost predicate Sim(cfg: Config, s: T.State, b: B.Batch) {
    Held(cfg, s, b) && Running(s, b)
  }

  lemma BodiesSnoc(items: seq<Item>, item: Item)
    ensures Bodies(items + [item]) == Bodies(items) + [item.body]
  {
  }

  // ---- Closing one kind of item agrees with flushing it ----

  lemma SimCloseMessage(cfg: Config, s: T.State, b: B.Batch, inferred: Option<Phase>)
    requires Held(cfg, s, b)
    ensures Held(cfg, T.CloseMessage(s, inferred), B.FlushText(b, inferred))
    ensures Running(s, b) ==> Running(T.CloseMessage(s, inferred), B.FlushText(b, inferred))
  {
    if s.msg.Some? {
      BodiesSnoc(s.finished, T.CloseMessage(s, inferred).finished[|s.finished|]);
    }
  }

  lemma SimCloseSummary(cfg: Config, s: T.State, b: B.Batch)
    requires Comparable(cfg) && Held(cfg, s, b)
    ensures Held(cfg, T.CloseSummary(s), B.FlushSummary(cfg, b))
    ensures Running(s, b) ==> Running(T.CloseSummary(s), B.FlushSummary(cfg, b))
    ensures T.FlushHiddenEnvelope(T.CloseSummary(s)) == T.CloseSummary(s)
    ensures b.summary == [] ==> B.FlushSummary(cfg, b) == b
  {
    if s.summary.Some? {
      BodiesSnoc(s.finished, T.CloseSummary(s).finished[|s.finished|]);
    }
  }

  lemma SimCloseRaw(cfg: Config, s: T.State, b: B.Batch)
    requires Comparable(cfg) && Held(cfg, s, b)
    ensures Held(cfg, T.CloseRaw(s), B.FlushRaw(cfg, b))
    ensures Running(s, b) ==> Running(T.CloseRaw(s), B.FlushRaw(cfg, b))
    ensures T.FlushHiddenRaw(T.CloseRaw(s)) == T.CloseRaw(s)
  {
    if s.raw.Some? {
      BodiesSnoc(s.finished, T.CloseRaw(s).finished[|s.finished|]);
    }
  }

  lemma SimCloseCall(cfg: Config, s: T.State, b: B.Batch)
    requires Comparable(cfg) && Held(cfg, s, b)
    ensures Held(cfg, T.CloseCall(cfg, s), B.FlushCall(cfg, b, true))
    ensures Running(s, b) ==> Running(T.CloseCall(cfg, s), B.FlushCall(cfg, b, true))
  {
    if s.call.Some? {
      var c := s.call.value;
      assert T.StreamSchema(cfg, c.schemaName, c.name) == SchemaFor(cfg, b.callName);
      BodiesSnoc(s.finished, T.CloseCall(cfg, s).finished[|s.finished|]);
    }
  }

  lemma SimFailCall(cfg: Config, s: T.State, b: B.Batch)
    requires Comparable(cfg) && Held(cfg, s, b)
    ensures Held(cfg, T.FailCall(cfg, s), B.FlushCall(cfg, b, false))
    ensures Running(s, b) ==> Running(T.FailCall(cfg, s), B.FlushCall(cfg, b, false))
  {
    if s.call.Some? {
      BodiesSnoc(s.finished, T.FailCall(cfg, s).finished[|s.finished|]);
    }
  }

  // ---- Each event keeps the relation ----

  lemma SimAppendText(cfg: Config, s: T.State, b: B.Batch, text: Text, phase: Option<Phase>)
    requires Comparable(cfg) && Sim(cfg, s, b) && text != []
    requires s.summary.None? && s.raw.None? && s.call.None?
    requires !T.PhaseChanges(s, phase)
    ensures
      var s' := T.AppendMessage(if s.msg.None? then T.OpenMessageItem(s, phase) else s, text);
      Sim(cfg, s', b.(phase := if phase.Some? then phase else b.phase, text := b.text + text))
  {
  }

  lemma SimText(cfg: Config, s: T.State, b: B.Batch, text: Text, phase: Option<Phase>)
    requires Comparable(cfg) && Sim(cfg, s, b) && text != []
    ensures Sim(cfg, T.OnText(cfg, s, text, phase), B.OnText(cfg, b, text, phase))
  {
    SimCloseSummary(cfg, s, b);
    var (s1, b1) := (T.CloseSummary(s), B.FlushSummary(cfg, b));
    SimCloseRaw(cfg, s1, b1);
    var (s2, b2) := (T.CloseRaw(s1), B.FlushRaw(cfg, b1));
    SimCloseCall(cfg, s2, b2);
    var (s3, b3) := (T.CloseCall(cfg, s2), B.FlushCall(cfg, b2, true));
    assert T.CloseBeforeText(cfg, s) == s3;
    if s.msg.Some? {
      assert s3 == s && b3 == b;
      if T.PhaseChanges(s, phase) {
        SimCloseMessage(cfg, s, b, Some(Commentary));
        SimAppendText(cfg, T.CloseMessage(s, Some(Commentary)), B.FlushText(b, Some(Commentary)), text, phase);
      } else {
        SimAppendText(cfg, s, b, text, phase);
      }
    } else {
      SimAppendText(cfg, s3, b3, text, phase);
    }
  }

  lemma SimThinking(cfg: Config, s: T.State, b: B.Batch, thinking: Text)
    requires Comparable(cfg) && Sim(cfg, s, b) && thinking != []
    ensures Sim(cfg, T.OnThinking(cfg, s, thinking), B.OnThinking(cfg, b, thinking))
  {
    SimCloseMessage(cfg, s, b, Some(Commentary));
    var (s1, b1) := (T.CloseMessage(s, Some(Commentary)), B.FlushText(b, Some(Commentary)));
    SimCloseRaw(cfg, s1, b1);
    var (s2, b2) := (T.CloseRaw(s1), B.FlushRaw(cfg, b1));
    SimCloseCall(cfg, s2, b2);
  }

  lemma SimSignature(cfg: Config, s: T.State, b: B.Batch, signature: Text)
    requires Comparable(cfg) && Sim(cfg, s, b)
    ensures Sim(cfg, T.OnSignature(s, signature), B.FlushSummary(cfg, b.(signature := signature)))
  {
    var s' := T.OnSignature(s, signature);
    if s.summary.Some? {
      assert s' == T.CloseSummary(s.(signature := signature));
      BodiesSnoc(s.finished, s'.finished[|s.finished|]);
    } else if signature != [] {
      assert s' == T.EnvelopeItem(s, Envelope(signature, [], [], []));
      BodiesSnoc(s.finished, s'.finished[|s.finished|]);
    } else {
      assert s' == s;
    }
  }

  lemma SimRawReasoning(cfg: Config, s: T.State, b: B.Batch, text: Text, asSummary: bool)
    requires Comparable(cfg) && Sim(cfg, s, b) && text != []
    ensures Sim(cfg, T.OnRawReasoning(cfg, s, text, asSummary), B.OnRawReasoning(cfg, b, text, asSummary))
  {
    SimCloseMessage(cfg, s, b, Some(Commentary));
    var (s1, b1) := (T.CloseMessage(s, Some(Commentary)), B.FlushText(b, Some(Commentary)));
    SimCloseCall(cfg, s1, b1);
    var (s2, b2) := (T.CloseCall(cfg, s1), B.FlushCall(cfg, b1, true));
    SimCloseRaw(cfg, s2, b2);
    SimCloseSummary(cfg, s2, b2);
  }

  /** Text and reasoning close; the hidden flushes in between have nothing to do. */
  lemma HeldCloseText(cfg: Config, s: T.State, b: B.Batch, inferred: Option<Phase>)
    requires Comparable(cfg) && Held(cfg, s, b)
    ensures
      var s2 := T.CloseSummary(T.CloseMessage(s, inferred));
      var s' := T.CloseRaw(s2);
      var b' := B.FlushRaw(cfg, B.FlushSummary(cfg, B.FlushText(b, inferred)));
      && T.FlushHiddenEnvelope(s2) == s2 && T.FlushHiddenRaw(s') == s'
      && Held(cfg, s', b')
      && (Running(s, b) ==> Running(s', b'))
      && s'.msg.None? && s'.summary.None? && s'.raw.None?
  {
    SimCloseMessage(cfg, s, b, inferred);
    var (s1, b1) := (T.CloseMessage(s, inferred), B.FlushText(b, inferred));
    SimCloseSummary(cfg, s1, b1);
    var (s2, b2) := (T.CloseSummary(s1), B.FlushSummary(cfg, b1));
    SimCloseRaw(cfg, s2, b2);
  }

  lemma SimCloseAll(cfg: Config, s: T.State, b: B.Batch, inferred: Option<Phase>)
    requires Comparable(cfg) && Held(cfg, s, b)
    ensures
      var s' := T.CloseCall(cfg, T.CloseRaw(T.CloseSummary(T.CloseMessage(s, inferred))));
      var b' := B.FlushCall(cfg, B.FlushRaw(cfg, B.FlushSummary(cfg, B.FlushText(b, inferred))), true);
      && T.FlushHiddenEnvelope(s') == s' && T.FlushKiro(s') == s'
      && Held(cfg, s', b')
      && (Running(s, b) ==> Running(s', b'))
      && s'.msg.None? && s'.summary.None? && s'.raw.None? && s'.call.None?
  {
    HeldCloseText(cfg, s, b, inferred);
    var s3 := T.CloseRaw(T.CloseSummary(T.CloseMessage(s, inferred)));
    var b3 := B.FlushRaw(cfg, B.FlushSummary(cfg, B.FlushText(b, inferred)));
    SimCloseCall(cfg, s3, b3);
  }

  lemma SimBoundary(cfg: Config, s: T.State, b: B.Batch)
    requires Comparable(cfg) && Sim(cfg, s, b)
    ensures Sim(cfg, T.OnBoundary(cfg, s), B.Step(cfg, b, AssistantBoundary))
  {
    HeldCloseText(cfg, s, b, Some(Commentary));
    SimCloseAll(cfg, s, b, Some(Commentary));
  }

  lemma SimCallStart(cfg: Config, s: T.State, b: B.Batch, callId: string, name: string)
    requires Comparable(cfg) && Sim(cfg, s, b) && callId != ""
    ensures Sim(cfg, T.OnCallStart(cfg, s, callId, name), B.OnCallStart(cfg, b, callId, name))
  {
    HeldCloseText(cfg, s, b, Some(Commentary));
    SimCloseAll(cfg, s, b, Some(Commentary));
  }

  lemma SimCallDelta(cfg: Config, s: T.State, b: B.Batch, delta: Text)
    requires Comparable(cfg) && Sim(cfg, s, b)
    ensures Sim(cfg, T.OnCallDelta(s, delta), b.(callArgs := b.callArgs + delta))
  {
  }

  /** A search begin and its end, taken together. */
  lemma SimSearch(cfg: Config, s: T.State, b: B.Batch, e: Event)
    requires Comparable(cfg) && Sim(cfg, s, b) && e.WebSearchEnd?
    ensures Sim(cfg, T.OnSearchEnd(T.OnSearchBegin(cfg, s, e.id), e), B.OnSearchEnd(cfg, b, e))
  {
    HeldCloseText(cfg, s, b, Some(Commentary));
    SimCloseAll(cfg, s, b, Some(Commentary));
    var closed := T.CloseCall(cfg, T.CloseRaw(T.CloseSummary(T.CloseMessage(s, Some(Commentary)))));
    var begun := T.OnSearchBegin(cfg, s, e.id);
    assert begun == T.OpenSearchItem(closed, e.id);
    var ended := T.OnSearchEnd(begun, e);
    BodiesSnoc(closed.finished, ended.finished[|closed.finished|]);
  }

  // ---- The end of the turn ----

  ghost predicate SameItems(s: T.State, r: B.Response) {
    Bodies(s.finished) == r.output
  }

  /** Only a malformed call is reported with different details. */
  ghost predicate SameOutcome(s: T.State, r: B.Response) {
    && s.outcome.Some?
    && s.outcome.value.(because := None) == r.outcome.(because := None)
    && (s.outcome.value.because == r.outcome.because <==> s.outcome.value != MALFORMED)
    && (s.outcome.value == MALFORMED ==> r.outcome.because == ADAPTER_EOF.because)
  }

  ghost predicate SameResult(s: T.State, r: B.Response) {
    SameItems(s, r) && SameOutcome(s, r)
  }

  function Conclude(cfg: Config, b: B.Batch): B.Response {
    B.Response(B.Trailing(cfg, b).output, B.FinalOutcome(b))
  }

  lemma EndDone(cfg: Config, s: T.State, b: B.Batch, e: Event)
    requires Comparable(cfg) && Sim(cfg, s, b) && e.Done? && Admissible(e)
    ensures SameResult(T.OnDone(cfg, s, e), Conclude(cfg, B.Step(cfg, b, e)))
  {
    EndDoneItems(cfg, s, b, e);
    EndDoneOutcome(cfg, s, b, e);
  }

  lemma EndDoneItems(cfg: Config, s: T.State, b: B.Batch, e: Event)
    requires Comparable(cfg) && Sim(cfg, s, b) && e.Done? && Admissible(e)
    ensures SameItems(T.OnDone(cfg, s, e), Conclude(cfg, B.Step(cfg, b, e)))
  {
    var b' := B.Step(cfg, b, e);
    var inferred := if e.stopReason.None? then Some(FinalAnswer) else None;
    HeldCloseText(cfg, s, b', inferred);
    SimCloseAll(cfg, s, b', inferred);
  }

  lemma EndDoneOutcome(cfg: Config, s: T.State, b: B.Batch, e: Event)
    requires Comparable(cfg) && Sim(cfg, s, b) && e.Done? && Admissible(e)
    ensures SameOutcome(T.OnDone(cfg, s, e), Conclude(cfg, B.Step(cfg, b, e)))
  {
    var inferred := if e.stopReason.None? then Some(FinalAnswer) else None;
    SimCloseAll(cfg, s, B.Step(cfg, b, e), inferred);
  }

  /** The abnormal ends: an open call stays incomplete. */
  lemma EndAbandoned(cfg: Config, s: T.State, b: B.Batch)
    requires Comparable(cfg) && Held(cfg, s, b)
    requires !b.cleanDone
    requires b.failure.Some? || b.incomplete.Some? || !b.sawTerminal
    ensures Bodies(T.Abandon(cfg, s).finished) == B.Trailing(cfg, b).output
    ensures T.FlushHiddenEnvelope(T.Abandon(cfg, s)) == T.Abandon(cfg, s)
  {
    HeldCloseText(cfg, s, b, None);
    var s3 := T.CloseRaw(T.CloseSummary(T.CloseMessage(s, None)));
    var b3 := B.FlushRaw(cfg, B.FlushSummary(cfg, B.FlushText(b, None)));
    SimFailCall(cfg, s3, b3);
  }

  lemma EndIncomplete(cfg: Config, s: T.State, b: B.Batch, e: Event)
    requires Comparable(cfg) && Sim(cfg, s, b) && e.Incomplete?
    ensures SameResult(T.OnIncomplete(cfg, s, e), Conclude(cfg, B.Step(cfg, b, e)))
  {
    EndAbandoned(cfg, s, B.Step(cfg, b, e));
  }

  lemma EndError(cfg: Config, s: T.State, b: B.Batch, e: Event)
    requires Comparable(cfg) && Sim(cfg, s, b) && e.Error? && Admissible(e)
    ensures SameResult(T.OnError(cfg, s, e), Conclude(cfg, B.Step(cfg, b, e)))
  {
    EndAbandoned(cfg, s, B.Step(cfg, b, e));
  }

  lemma EndOfInput(cfg: Config, s: T.State, b: B.Batch)
    requires Comparable(cfg) && Sim(cfg, s, b)
    ensures SameResult(T.OnEof(cfg, s), Conclude(cfg, b))
  {
    EndAbandoned(cfg, s, b);
  }

  lemma EndMalformed(cfg: Config, s: T.State, b: B.Batch)
    requires Comparable(cfg) && Sim(cfg, s, b) && T.CallIsMalformed(cfg, s)
    ensures SameResult(T.OnCallEnd(cfg, s), Conclude(cfg, B.Step(cfg, b, ToolCallEnd)))
  {
    SimFailCall(cfg, s, b);
    var b' := B.FlushCall(cfg, b, false).(failure := Some((MalformedArguments, None)));
    assert B.Step(cfg, b, ToolCallEnd) == b';
    assert B.Trailing(cfg, b') == b';
  }

  lemma SimCallEnd(cfg: Config, s: T.State, b: B.Batch)
    requires Comparable(cfg) && Sim(cfg, s, b) && !T.CallIsMalformed(cfg, s)
    ensures Sim(cfg, T.OnCallEnd(cfg, s), B.Step(cfg, b, ToolCallEnd))
  {
    SimCloseCall(cfg, s, b);
  }

  /** Either the relation goes on, or both end with the same result. */
  ghost predicate Agree(cfg: Config, s: T.State, b: B.Batch) {
    if s.outcome.None? then Sim(cfg, s, b) else SameResult(s, Conclude(cfg, b))
  }

  lemma SimContent(cfg: Config, s: T.State, b: B.Batch, e: Event)
    requires Comparable(cfg) && Sim(cfg, s, b) && Admissible(e) && !T.IsTerminal(e) && !T.IsToolEvent(e)
    ensures Sim(cfg, T.StepContent(cfg, s, e), B.Step(cfg, b, e))
  {
    match e
    case Heartbeat =>
    case TextDelta(text, phase) => SimText(cfg, s, b, text, phase);
    case ThinkingDelta(thinking) => SimThinking(cfg, s, b, thinking);
    case ThinkingSignature(signature) => SimSignature(cfg, s, b, signature);
    case ReasoningRawDelta(text, asSummary) => SimRawReasoning(cfg, s, b, text, asSummary);
    case AssistantBoundary => SimBoundary(cfg, s, b);
  }

  lemma SimCallEvent(cfg: Config, s: T.State, b: B.Batch, e: Event)
    requires Comparable(cfg) && Sim(cfg, s, b) && Admissible(e)
    requires e.ToolCallStart? || e.ToolCallDelta? || e.ToolCallEnd?
    ensures Agree(cfg, T.StepTool(cfg, s, e), B.Step(cfg, b, e))
  {
    match e
    case ToolCallStart(id, name) => SimCallStart(cfg, s, b, id, name);
    case ToolCallDelta(arguments) => SimCallDelta(cfg, s, b, arguments);
    case ToolCallEnd => if T.CallIsMalformed(cfg, s) { EndMalformed(cfg, s, b); } else { SimCallEnd(cfg, s, b); }
  }

  lemma SimTerminal(cfg: Config, s: T.State, b: B.Batch, e: Event)
    requires Comparable(cfg) && Sim(cfg, s, b) && Admissible(e) && T.IsTerminal(e)
    ensures SameResult(T.StepTerminal(cfg, s, e), Conclude(cfg, B.Step(cfg, b, e)))
  {
    match e
    case Done(_, _) => EndDone(cfg, s, b, e);
    case Incomplete(_, _, _, _) => EndIncomplete(cfg, s, b, e);
    case Error(_, _, _, _, _) => EndError(cfg, s, b, e);
  }

  lemma SimStep(cfg: Config, s: T.State, b: B.Batch, e: Event)
    requires Comparable(cfg) && Sim(cfg, s, b) && Admissible(e) && !e.WebSearchBegin? && !e.WebSearchEnd?
    ensures Agree(cfg, T.Step(cfg, s, e), B.Step(cfg, b, e))
  {
    if T.IsTerminal(e) {
      SimTerminal(cfg, s, b, e);
    } else if T.IsToolEvent(e) {
      SimCallEvent(cfg, s, b, e);
    } else {
      SimContent(cfg, s, b, e);
    }
  }

  lemma SearchBeginKeepsRunning(cfg: Config, s: T.State, b: B.Batch, e: Event)
    requires Comparable(cfg) && Sim(cfg, s, b) && e.WebSearchBegin?
    ensures T.OnSearchBegin(cfg, s, e.id).outcome.None?
  {
    HeldCloseText(cfg, s, b, Some(Commentary));
    SimCloseAll(cfg, s, b, Some(Commentary));
  }

  lemma StepIsSearchBegin(cfg: Config, s: T.State, e: Event)
    requires !cfg.compaction && e.WebSearchBegin?
    ensures T.Step(cfg, s, e) == T.OnSearchBegin(cfg, s, e.id)
  {
  }

  lemma StepIsSearchEnd(cfg: Config, s: T.State, e: Event)
    requires !cfg.compaction && e.WebSearchEnd?
    ensures T.Step(cfg, s, e) == T.OnSearchEnd(s, e)
  {
  }

  lemma SimSearchPair(cfg: Config, s: T.State, b: B.Batch, begin: Event, end: Event)
    requires Comparable(cfg) && Sim(cfg, s, b)
    requires begin.WebSearchBegin? && end.WebSearchEnd? && begin.id == end.id
    ensures T.Step(cfg, s, begin).outcome.None?
    ensures Sim(cfg, T.Step(cfg, T.Step(cfg, s, begin), end), B.Step(cfg, B.Step(cfg, b, begin), end))
  {
    SearchBeginKeepsRunning(cfg, s, b, begin);
    SimSearch(cfg, s, b, end);
    StepIsSearchBegin(cfg, s, begin);
    StepIsSearchEnd(cfg, T.Step(cfg, s, begin), end);
  }

  /** How many events the stream pulls before its turn is over. */
  function Consumed(cfg: Config, s: T.State, events: seq<Event>): (n: nat)
    ensures n <= |events|
    decreases events
  {
    if s.outcome.Some? || events == [] then 0 else 1 + Consumed(cfg, T.Step(cfg, s, events[0]), events[1..])
  }

  /** What a turn has taken in, `es` before and more now: one event, and then what it takes from there. */
  lemma TakesOne(cfg: Config, s: T.State, es: seq<Event>, more: seq<Event>)
    requires s.outcome.None? && more != []
    ensures
      es + more[..Consumed(cfg, s, more)]
        == es + [more[0]] + more[1..][..Consumed(cfg, T.Step(cfg, s, more[0]), more[1..])]
  {
    var n := Consumed(cfg, T.Step(cfg, s, more[0]), more[1..]);
    assert Consumed(cfg, s, more) == 1 + n;
    Rejoin(es, more, n);
  }

  lemma Rejoin(es: seq<Event>, more: seq<Event>, n: nat)
    requires n < |more|
    ensures es + more[..1 + n] == es + [more[0]] + more[1..][..n]
  {
  }

  lemma TakesNothing(cfg: Config, s: T.State, es: seq<Event>, more: seq<Event>)
    requires s.outcome.Some? || more == []
    ensures T.Steps(cfg, s, more) == s && es + more[..Consumed(cfg, s, more)] == es
  {
  }

  /** Pulling one event, on both sides. */
  lemma PullOne(cfg: Config, s: T.State, b: B.Batch, events: seq<Event>)
    requires s.outcome.None? && events != []
    ensures
      var s', b' := T.Step(cfg, s, events[0]), B.Step(cfg, b, events[0]);
      && T.Steps(cfg, s, events) == T.Steps(cfg, s', events[1..])
      && B.Steps(cfg, b, events[..Consumed(cfg, s, events)])
         == B.Steps(cfg, b', events[1..][..Consumed(cfg, s', events[1..])])
  {
    var n := Consumed(cfg, T.Step(cfg, s, events[0]), events[1..]);
    assert events[..1 + n][1..] == events[1..][..n];
  }

  ghost predicate EndsAlike(cfg: Config, s: T.State, b: B.Batch, events: seq<Event>) {
    var last := T.Steps(cfg, s, events);
    var end := if last.outcome.None? then T.OnEof(cfg, last) else last;
    SameResult(end, Conclude(cfg, B.Steps(cfg, b, events[..Consumed(cfg, s, events)])))
  }

  lemma {:induction false} RefineFrom(cfg: Config, s: T.State, b: B.Batch, events: seq<Event>)
    requires Comparable(cfg) && Sim(cfg, s, b) && Paired(events)
    requires forall e :: e in events ==> Admissible(e)
    ensures EndsAlike(cfg, s, b, events)
    decreases |events|
  {
    if events == [] {
      EndOfInput(cfg, s, b);
    } else {
      var (s1, b1) := (T.Step(cfg, s, events[0]), B.Step(cfg, b, events[0]));
      PullOne(cfg, s, b, events);
      if events[0].WebSearchBegin? {
        SimSearchPair(cfg, s, b, events[0], events[1]);
        PullOne(cfg, s1, b1, events[1..]);
        assert events[1..][1..] == events[2..];
        RefineFrom(cfg, T.Step(cfg, s1, events[1]), B.Step(cfg, b1, events[1]), events[2..]);
      } else {
        SimStep(cfg, s, b, events[0]);
        if s1.outcome.None? {
          RefineFrom(cfg, s1, b1, events[1..]);
        }
      }
    }
  }

  /**
   Streaming refines batch. Whatever the events, the finished items of the stream are the output of the
   batch translator on the events the stream consumed, and both report the same status, end-of-turn hint,
   failure and reason; after malformed arguments the batch adds `adapter_eof`.
   */
  lemma StreamRefinesBatch(cfg: Config, events: seq<Event>)
    requires Comparable(cfg) && Paired(events)
    requires forall e :: e in events ==> Admissible(e)
    ensures SameResult(T.Run(cfg, events), B.Build(cfg, events[..Consumed(cfg, T.START, events)]))
  {
    assert Bodies([]) == [];
    RefineFrom(cfg, T.START, B.EMPTY, events);
  }
}
