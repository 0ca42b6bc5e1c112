/**
 What the stream bridge does with each adapter event: the registers of the open items, the finished
 items, and the frames handed to `emit`. Functions on a value; `Bridge` is the object that computes them.
 */
module Translator {
  import opened Text
  import opened Responses
  import Freeform

  datatype OpenMessage = OpenMessage(id: nat, index: nat, text: Text, phase: Option<Phase>)
  datatype OpenReasoning = OpenReasoning(id: nat, index: nat, text: Text)
  datatype OpenCall = OpenCall(
    id: nat, index: nat, callId: string, name: string, schemaName: string, namespace: Option<string>,
    freeform: bool, toolSearch: bool, args: Text, argumentDeltas: seq<Text>, inputEmitted: Text)
  datatype OpenSearch = OpenSearch(id: nat, eventId: string, index: nat)

  datatype State = State(
    msg: Option<OpenMessage>,
    summary: Option<OpenReasoning>,
    raw: Option<OpenReasoning>,
    call: Option<OpenCall>,
    search: Option<OpenSearch>,
    signature: Text,
    redacted: seq<Text>,
    hiddenThinking: Text,
    hiddenRaw: Text,
    kiro: Text,
    compactionText: Text,
    sources: seq<Citation>,
    outputIndex: nat,
    finished: seq<Item>,
    nextId: nat,
    frames: seq<Frame>,
    outcome: Option<Outcome>)

  /** The state after `response.created`. */
  const START := State(None, None, None, None, None, [], [], [], [], [], [], [], 0, [], 0, [Created], None)

  function Emit(s: State, f: Frame): State {
    s.(frames := s.frames + [f])
  }

  /** `output_item.done`, retention and the step of the output index: how every item finishes. */
  function Finish(s: State, index: nat, item: Item): State {
    s.(frames := s.frames + [ItemDone(index, item)], finished := s.finished + [item], outputIndex := s.outputIndex + 1)
  }

  // ---- Reasoning envelopes ----

  predicate HasEnvelope(s: State) {
    s.signature != [] || s.redacted != []
  }

  function TakenEnvelope(s: State, hidden: Text): Option<Envelope> {
    if HasEnvelope(s) then Some(Envelope(s.signature, s.redacted, hidden, [])) else None
  }

  function DropEnvelope(s: State): State {
    s.(signature := [], redacted := [])
  }

  /** An item that opens and finishes in one go: an envelope without visible text. */
  function EnvelopeItem(s: State, e: Envelope): (t: State)
    ensures t.msg == s.msg && t.summary == s.summary && t.raw == s.raw && t.call == s.call
    ensures t.search == s.search && t.outcome == s.outcome
  {
    var item := Item(s.nextId, Reasoning(None, None, Some(e)));
    Finish(Emit(s, Added(s.outputIndex, s.nextId)), s.outputIndex, item).(nextId := s.nextId + 1)
  }

  function FlushHiddenEnvelope(s: State): (t: State)
    ensures t.msg == s.msg && t.summary == s.summary && t.raw == s.raw && t.call == s.call
    ensures t.search == s.search && t.outcome == s.outcome
  {
    var taken := TakenEnvelope(s, s.hiddenThinking);
    var dropped := s.(hiddenThinking := []);
    match taken
    case None => dropped
    case Some(e) => EnvelopeItem(DropEnvelope(dropped), e)
  }

  function FlushHiddenRaw(s: State): (t: State)
    ensures t.msg == s.msg && t.summary == s.summary && t.raw == s.raw && t.call == s.call
    ensures t.search == s.search && t.outcome == s.outcome
  {
    if s.hiddenRaw == [] then s
    else EnvelopeItem(s.(hiddenRaw := []), Envelope([], [], s.hiddenRaw, []))
  }

  function FlushKiro(s: State): (t: State)
    ensures t.msg == s.msg && t.summary == s.summary && t.raw == s.raw && t.call == s.call
    ensures t.search == s.search && t.outcome == s.outcome
  {
    if s.kiro == [] then s
    else EnvelopeItem(s.(kiro := []), Envelope([], [], [], s.kiro))
  }

  // ---- Closing ----

  function CloseMessage(s: State, inferred: Option<Phase>): (t: State)
    ensures t.msg.None?
    ensures t.summary == s.summary && t.raw == s.raw && t.call == s.call && t.search == s.search && t.outcome == s.outcome
  {
    match s.msg
    case None => s
    case Some(m) =>
      var annotations := Annotations(s.sources);
      var phase := if m.phase.Some? then m.phase else inferred;
      var s1 := Emit(s.(sources := []), TextDone(m.index, m.id, OutputText, m.text));
      var s2 := Emit(s1, PartDone(m.index, m.id, OutputText, m.text));
      Finish(s2, m.index, Item(m.id, Message(m.text, annotations, phase))).(msg := None)
  }

  function CloseSummary(s: State): (t: State)
    ensures t.summary.None?
    ensures t.msg == s.msg && t.raw == s.raw && t.call == s.call && t.search == s.search && t.outcome == s.outcome
  {
    match s.summary
    case None => s
    case Some(r) =>
      var s1 := Emit(s, TextDone(r.index, r.id, SummaryText, r.text));
      var s2 := Emit(s1, PartDone(r.index, r.id, SummaryText, r.text));
      var item := Item(r.id, Reasoning(Some(r.text), None, TakenEnvelope(s, [])));
      Finish(DropEnvelope(s2), r.index, item).(summary := None)
  }

  function CloseRaw(s: State): (t: State)
    ensures t.raw.None?
    ensures t.msg == s.msg && t.summary == s.summary && t.call == s.call && t.search == s.search && t.outcome == s.outcome
  {
    match s.raw
    case None => s
    case Some(r) => Finish(s, r.index, Item(r.id, Reasoning(None, Some(r.text), None))).(raw := None)
  }

  function StreamSchema(cfg: Config, schemaName: string, name: string): Option<Text> {
    if SchemaFor(cfg, schemaName).Some? then SchemaFor(cfg, schemaName) else SchemaFor(cfg, name)
  }

  function CompletedCall(cfg: Config, c: OpenCall, args: Text): ItemBody {
    if c.toolSearch then ToolSearchCall(c.callId, cfg.objectOf(args))
    else if c.freeform then CustomToolCall(c.callId, c.name, c.namespace, FreeformInput(cfg, args), true)
    else FunctionCall(c.callId, c.name, c.namespace, OrEmptyObject(args), true, cfg.plaintext(c.namespace, c.name))
  }

  function CloseCall(cfg: Config, s: State): (t: State)
    ensures t.call.None?
    ensures t.msg == s.msg && t.summary == s.summary && t.raw == s.raw && t.search == s.search && t.outcome == s.outcome
  {
    match s.call
    case None => s
    case Some(c) =>
      var args := CoerceUnder(cfg, StreamSchema(cfg, c.schemaName, c.name), c.args);
      var s1 :=
        if c.toolSearch then Emit(s, Added(c.index, c.id))
        else if c.freeform then Emit(s, TextDone(c.index, c.id, CallInput, FreeformInput(cfg, args)))
        else Emit(s, TextDone(c.index, c.id, CallArguments, OrEmptyObject(args)));
      Finish(s1, c.index, Item(c.id, CompletedCall(cfg, c, args))).(call := None)
  }

  function IncompleteCall(cfg: Config, c: OpenCall): ItemBody {
    if c.freeform && !c.toolSearch
    then CustomToolCall(c.callId, c.name, c.namespace, FreeformInput(cfg, c.args), false)
    else FunctionCall(c.callId, c.name, c.namespace, OrEmptyObject(c.args), false, false)
  }

  /** The buffered argument deltas of a cancelled tool search, replayed as frames. */
  function Replay(c: OpenCall, deltas: seq<Text>): seq<Frame> {
    if deltas == [] then []
    else Replay(c, deltas[..|deltas| - 1]) + [Delta(c.index, c.id, CallArguments, deltas[|deltas| - 1])]
  }

  function FailCall(cfg: Config, s: State): (t: State)
    ensures t.call.None?
    ensures t.msg == s.msg && t.summary == s.summary && t.raw == s.raw && t.search == s.search && t.outcome == s.outcome
  {
    match s.call
    case None => s
    case Some(c) =>
      var s1 :=
        if c.toolSearch
        then s.(frames := s.frames + [Added(c.index, c.id)] + Replay(c, c.argumentDeltas))
        else s;
      Finish(s1, c.index, Item(c.id, IncompleteCall(cfg, c))).(call := None)
  }

  function CloseSearch(s: State, status: SearchStatus, queries: seq<string>, sources: seq<Citation>): (t: State)
    ensures t.search.None?
    ensures t.msg == s.msg && t.summary == s.summary && t.raw == s.raw && t.call == s.call && t.outcome == s.outcome
  {
    match s.search
    case None => s
    case Some(w) =>
      Finish(s, w.index, Item(w.id, WebSearchCall(status, SearchActionOf(queries), sources))).(search := None)
  }

  // ---- Opening ----

  function OpenMessageItem(s: State, phase: Option<Phase>): State {
    var s1 := Emit(s, Added(s.outputIndex, s.nextId));
    var s2 := Emit(s1, PartAdded(s.outputIndex, s.nextId, OutputText));
    s2.(msg := Some(OpenMessage(s.nextId, s.outputIndex, [], phase)), nextId := s.nextId + 1)
  }

  function OpenSummaryItem(s: State): State {
    var s1 := Emit(s, Added(s.outputIndex, s.nextId));
    var s2 := Emit(s1, PartAdded(s.outputIndex, s.nextId, SummaryText));
    s2.(summary := Some(OpenReasoning(s.nextId, s.outputIndex, [])), nextId := s.nextId + 1)
  }

  function OpenRawItem(s: State): State {
    Emit(s, Added(s.outputIndex, s.nextId))
      .(raw := Some(OpenReasoning(s.nextId, s.outputIndex, [])), nextId := s.nextId + 1)
  }

  function OpenCallItem(cfg: Config, s: State, callId: string, name: string): State {
    var toolSearch := IsToolSearch(cfg, name);
    var s1 := if toolSearch then s else Emit(s, Added(s.outputIndex, s.nextId));
    s1.(call := Some(OpenCall(s.nextId, s.outputIndex, callId, RealName(cfg, name), name, Namespace(cfg, name),
                              IsFreeform(cfg, name), toolSearch, [], [], [])),
        nextId := s.nextId + 1)
  }

  function OpenSearchItem(s: State, eventId: string): State {
    Emit(s, Added(s.outputIndex, s.nextId))
      .(search := Some(OpenSearch(s.nextId, eventId, s.outputIndex)), nextId := s.nextId + 1)
  }

  // ---- Appending ----

  function AppendMessage(s: State, text: Text): State {
    match s.msg
    case None => s
    case Some(m) => Emit(s.(msg := Some(m.(text := m.text + text))), Delta(m.index, m.id, OutputText, text))
  }

  function AppendSummary(s: State, text: Text): State {
    var o := if s.summary.None? then OpenSummaryItem(s) else s;
    var r := o.summary.value;
    Emit(o.(summary := Some(r.(text := r.text + text))), Delta(r.index, r.id, SummaryText, text))
  }

  function AppendRaw(s: State, text: Text): State {
    var o := if s.raw.None? then OpenRawItem(s) else s;
    var r := o.raw.value;
    Emit(o.(raw := Some(r.(text := r.text + text))), Delta(r.index, r.id, RawText, text))
  }

  /** One argument delta of the open call. */
  function AppendCall(s: State, c: OpenCall, delta: Text): State {
    var args := c.args + delta;
    if c.toolSearch then s.(call := Some(c.(args := args, argumentDeltas := c.argumentDeltas + [delta])))
    else if !c.freeform then
      Emit(s.(call := Some(c.(args := args))), Delta(c.index, c.id, CallArguments, delta))
    else
      var due := Freeform.Due(args, c.inputEmitted);
      if due == c.inputEmitted then s.(call := Some(c.(args := args)))
      else
        Emit(s.(call := Some(c.(args := args, inputEmitted := due))),
             Delta(c.index, c.id, CallInput, due[|c.inputEmitted|..]))
  }

  // ---- One adapter event ----

  function OnBoundary(cfg: Config, s: State): State {
    FlushHiddenEnvelope(CloseCall(cfg, FlushHiddenRaw(CloseRaw(CloseSummary(CloseMessage(s, Some(Commentary)))))))
  }

  predicate PhaseChanges(s: State, phase: Option<Phase>) {
    s.msg.Some? && phase.Some? && s.msg.value.phase != phase
  }

  function CloseBeforeText(cfg: Config, s: State): State {
    CloseCall(cfg, FlushHiddenRaw(CloseRaw(FlushHiddenEnvelope(CloseSummary(s)))))
  }

  function OnText(cfg: Config, s: State, text: Text, phase: Option<Phase>): State {
    var s1 := CloseBeforeText(cfg, s);
    var s2 := if PhaseChanges(s1, phase) then CloseMessage(s1, Some(Commentary)) else s1;
    var s3 := if s2.msg.None? then OpenMessageItem(s2, phase) else s2;
    AppendMessage(s3, text)
  }

  function OnThinking(cfg: Config, s: State, thinking: Text): State {
    if cfg.hideThinking then
      var s1 := FlushHiddenRaw(s);
      s1.(hiddenThinking := s1.hiddenThinking + thinking)
    else
      AppendSummary(CloseCall(cfg, FlushHiddenRaw(CloseRaw(CloseMessage(s, Some(Commentary))))), thinking)
  }

  function OnSignature(s: State, signature: Text): State {
    var s1 := s.(signature := signature);
    if s1.summary.Some? then CloseSummary(s1) else FlushHiddenEnvelope(s1)
  }

  function OnRawReasoning(cfg: Config, s: State, text: Text, asSummary: bool): State {
    if cfg.hideThinking then s.(hiddenRaw := s.hiddenRaw + text)
    else
      var s1 := CloseCall(cfg, CloseMessage(s, Some(Commentary)));
      if asSummary then AppendSummary(CloseRaw(s1), text) else AppendRaw(CloseSummary(s1), text)
  }

  function OnCallStart(cfg: Config, s: State, callId: string, name: string): State {
    var s1 := FlushHiddenRaw(CloseRaw(FlushHiddenEnvelope(CloseSummary(CloseMessage(s, Some(Commentary))))));
    OpenCallItem(cfg, CloseCall(cfg, s1), callId, name)
  }

  function OnCallDelta(s: State, delta: Text): State {
    match s.call
    case None => s
    case Some(c) => AppendCall(s, c, delta)
  }

  /** A plain function call whose arguments do not parse cannot be completed any more. */
  predicate CallIsMalformed(cfg: Config, s: State) {
    s.call.Some? && !s.call.value.freeform && !s.call.value.toolSearch && !ArgumentsUsable(cfg, s.call.value.args)
  }

  function EndWith(s: State, o: Outcome): State {
    Emit(s, Terminal(o, s.finished)).(outcome := Some(o))
  }

  function OnCallEnd(cfg: Config, s: State): State {
    if CallIsMalformed(cfg, s) then EndWith(FailCall(cfg, s), MALFORMED) else CloseCall(cfg, s)
  }

  function OnSearchBegin(cfg: Config, s: State, eventId: string): State {
    var s1 := CloseCall(cfg, FlushHiddenRaw(CloseRaw(CloseSummary(CloseMessage(s, Some(Commentary))))));
    OpenSearchItem(CloseSearch(s1, SearchCompleted, [], []), eventId)
  }

  /** An end without its begin still gets an `added` frame. */
  function EnsureSearch(s: State, eventId: string): State {
    if s.search.None? || s.search.value.eventId != eventId
    then OpenSearchItem(CloseSearch(s, SearchCompleted, [], []), eventId)
    else s
  }

  function OnSearchEnd(s: State, e: Event): State
    requires e.WebSearchEnd?
  {
    var s1 := EnsureSearch(s, e.id);
    var status := if e.searchStatus.Some? then e.searchStatus.value else SearchCompleted;
    var s2 := CloseSearch(s1, status, e.queries, OrNothing(e.sources));
    s2.(sources := QueueSources(s2.sources, OrNothing(e.sources)))
  }

  function CompactionItem(s: State): State {
    Finish(s, s.outputIndex, Item(s.nextId, Compaction(s.compactionText))).(nextId := s.nextId + 1)
  }

  /** What a normal end does to the open items. */
  function CloseOut(cfg: Config, s: State, inferred: Option<Phase>): State {
    var s1 := CloseCall(cfg, FlushHiddenRaw(CloseRaw(CloseSummary(CloseMessage(s, inferred)))));
    FlushKiro(FlushHiddenEnvelope(CloseSearch(s1, SearchCompleted, [], [])))
  }

  function Complete(cfg: Config, s: State, e: Event): State
    requires e.Done?
  {
    EndWith(if cfg.compaction && !StopsShort(e.stopReason) then CompactionItem(s) else s, DoneOutcome(e))
  }

  function OnDone(cfg: Config, s: State, e: Event): State
    requires e.Done?
  {
    var inferred := if e.stopReason.None? || e.stopReason == Some("") then Some(FinalAnswer) else None;
    Complete(cfg, CloseOut(cfg, s, inferred), e)
  }

  /** What every abnormal end does to the open items. */
  function Abandon(cfg: Config, s: State): State {
    CloseSearch(FailCall(cfg, FlushHiddenRaw(CloseRaw(CloseSummary(CloseMessage(s, None))))), SearchFailed, [], [])
  }

  function OnIncomplete(cfg: Config, s: State, e: Event): State
    requires e.Incomplete?
  {
    EndWith(FlushHiddenEnvelope(Abandon(cfg, s)), IncompleteOutcome(e))
  }

  /** The overflow path forgets the open call and search and reports failure at once. */
  function Overflow(s: State): State {
    EndWith(s.(call := None, search := None), OVERFLOW)
  }

  function OnError(cfg: Config, s: State, e: Event): State
    requires e.Error?
  {
    if IsLimitError(e) then Overflow(s) else EndWith(Abandon(cfg, s), ErrorOutcome(e))
  }

  function OnEof(cfg: Config, s: State): State {
    EndWith(Abandon(cfg, s), ADAPTER_EOF)
  }

  function OnStall(cfg: Config, s: State): State {
    EndWith(Abandon(cfg, s), STALLED)
  }

  function OnThrow(cfg: Config, s: State, message: string): State {
    EndWith(Abandon(cfg, s), FailedWith(Proxy(message), None))
  }

  predicate IsTerminal(e: Event) {
    e.Done? || e.Incomplete? || e.Error?
  }

  predicate IsToolEvent(e: Event) {
    e.ToolCallStart? || e.ToolCallDelta? || e.ToolCallEnd? || e.WebSearchBegin? || e.WebSearchEnd?
  }

  function StepTerminal(cfg: Config, s: State, e: Event): State
    requires IsTerminal(e)
  {
    match e
    case Done(_, _) => OnDone(cfg, s, e)
    case Incomplete(_, _, _, _) => OnIncomplete(cfg, s, e)
    case Error(_, _, _, _, _) => OnError(cfg, s, e)
  }

  function StepTool(cfg: Config, s: State, e: Event): State
    requires IsToolEvent(e)
  {
    match e
    case ToolCallStart(id, name) => OnCallStart(cfg, s, id, name)
    case ToolCallDelta(arguments) => OnCallDelta(s, arguments)
    case ToolCallEnd => OnCallEnd(cfg, s)
    case WebSearchBegin(id) => OnSearchBegin(cfg, s, id)
    case WebSearchEnd(_, _, _, _) => OnSearchEnd(s, e)
  }

  function StepContent(cfg: Config, s: State, e: Event): State
    requires !IsTerminal(e) && !IsToolEvent(e)
  {
    match e
    case Heartbeat => s
    case TextDelta(text, phase) => OnText(cfg, s, text, phase)
    case ThinkingDelta(thinking) => OnThinking(cfg, s, thinking)
    case ThinkingSignature(signature) => OnSignature(s, signature)
    case RedactedThinking(data) => s.(redacted := s.redacted + [data])
    case KiroRedactedReasoning(data) => s.(kiro := data)
    case ReasoningRawDelta(text, asSummary) => OnRawReasoning(cfg, s, text, asSummary)
    case AssistantBoundary => OnBoundary(cfg, s)
  }

  function Step(cfg: Config, s: State, e: Event): State {
    if cfg.compaction && e.TextDelta? then s.(compactionText := s.compactionText + e.text)
    else if cfg.compaction && !IsTerminal(e) then s
    else if IsTerminal(e) then StepTerminal(cfg, s, e)
    else if IsToolEvent(e) then StepTool(cfg, s, e)
    else StepContent(cfg, s, e)
  }

  /** The events pulled from the adapter, up to and including the one that ends the turn. */
  function Steps(cfg: Config, s: State, events: seq<Event>): State
    decreases events
  {
    if s.outcome.Some? || events == [] then s
    else Steps(cfg, Step(cfg, s, events[0]), events[1..])
  }

  /** A whole turn; an adapter that ends without a terminal event ends the turn as incomplete. */
  function Run(cfg: Config, events: seq<Event>): State {
    var s := Steps(cfg, START, events);
    if s.outcome.None? then OnEof(cfg, s) else s
  }

  // ---- Short runs ----

  lemma StepsCons(cfg: Config, s: State, e: Event, rest: seq<Event>)
    requires s.outcome.None?
    ensures Steps(cfg, s, [e] + rest) == Steps(cfg, Step(cfg, s, e), rest)
  {
    assert ([e] + rest)[1..] == rest;
  }

  lemma StepsOfOne(cfg: Config, s: State, e: Event)
    requires s.outcome.None?
    ensures Steps(cfg, s, [e]) == Step(cfg, s, e)
  {
    assert [e] == [e] + [];
    StepsCons(cfg, s, e, []);
  }

  lemma StepsOfTwo(cfg: Config, s: State, a: Event, b: Event)
    requires s.outcome.None? && Step(cfg, s, a).outcome.None?
    ensures Steps(cfg, s, [a, b]) == Step(cfg, Step(cfg, s, a), b)
  {
    assert [a, b] == [a] + [b];
    StepsCons(cfg, s, a, [b]);
    StepsOfOne(cfg, Step(cfg, s, a), b);
  }

  lemma StepsOfThree(cfg: Config, s: State, a: Event, b: Event, c: Event)
    requires s.outcome.None? && Step(cfg, s, a).outcome.None? && Step(cfg, Step(cfg, s, a), b).outcome.None?
    ensures Steps(cfg, s, [a, b, c]) == Step(cfg, Step(cfg, Step(cfg, s, a), b), c)
  {
    assert [a, b, c] == [a] + [b, c];
    StepsCons(cfg, s, a, [b, c]);
    StepsOfTwo(cfg, Step(cfg, s, a), b, c);
  }
}
