/**
 What the answer of the batch translator carries, kind by kind: its messages and searches, its reasoning, its calls,
 its compaction and its outcome, each read off the list of events alone, in every mode.
 */
module BatchAnswers {
  import opened Text
  import opened Responses
  import opened BatchTranslator
  import A = Answers

  /** The items of one kind, in order. */
  function Those(kind: ItemBody -> bool, items: seq<ItemBody>): seq<ItemBody> {
    if items == [] then []
    else
      var last := items[|items| - 1];
      Those(kind, items[..|items| - 1]) + (if kind(last) then [last] else [])
  }

  lemma ThoseSnoc(kind: ItemBody -> bool, items: seq<ItemBody>, item: ItemBody)
    ensures Those(kind, items + [item]) == Those(kind, items) + (if kind(item) then [item] else [])
  {
    assert (items + [item])[..|items|] == items;
  }

  predicate IsMessage(item: ItemBody) {
    item.Message?
  }

  predicate IsSearch(item: ItemBody) {
    item.WebSearchCall?
  }

  predicate IsReasoning(item: ItemBody) {
    item.Reasoning?
  }

  predicate IsCall(item: ItemBody) {
    item.FunctionCall? || item.CustomToolCall? || item.ToolSearchCall?
  }

  predicate IsCompaction(item: ItemBody) {
    item.Compaction?
  }

  // ---- Messages, searches, the compaction text ----

  datatype Said = Said(
    messages: seq<ItemBody>, text: Text, phase: Option<Phase>, queued: seq<Citation>, searches: seq<ItemBody>,
    collected: Text)

  const NOTHING_SAID := Said([], [], None, [], [], [])

  /** A message ends, if it has any text. */
  function Told(l: Said, after: Option<Phase>): Said {
    if l.text == [] then l
    else
      var phase := if l.phase.Some? then l.phase else after;
      l.(messages := l.messages + [Message(l.text, A.AllCited(l.queued), phase)], text := [], phase := None, queued := [])
  }

  function SayText(cfg: Config, l: Said, text: Text, phase: Option<Phase>): Said {
    var told := if phase.Some? && phase != l.phase then Told(l, Some(Commentary)) else l;
    if cfg.compaction then told.(collected := l.collected + text)
    else told.(text := told.text + text, phase := if phase.Some? then phase else told.phase)
  }

  function HearSaid(cfg: Config, l: Said, e: Event): Said {
    match e
    case TextDelta(text, phase) => SayText(cfg, l, text, phase)
    case ThinkingDelta(_) => Told(l, Some(Commentary))
    case ReasoningRawDelta(_, _) => Told(l, Some(Commentary))
    case AssistantBoundary => Told(l, Some(Commentary))
    case ToolCallStart(_, _) => Told(l, Some(Commentary))
    case WebSearchEnd(_, queries, status, sources) =>
      var all := if sources.Some? then sources.value else [];
      var how := if status == Some(SearchFailed) then SearchFailed else SearchCompleted;
      var told := Told(l, Some(Commentary));
      told.(searches := l.searches + [WebSearchCall(how, A.Asked(queries), all)], queued := A.Queued(told.queued, all))
    case _ => l
  }

  function AllSaid(cfg: Config, events: seq<Event>): Said {
    if events == [] then NOTHING_SAID else HearSaid(cfg, AllSaid(cfg, events[..|events| - 1]), events[|events| - 1])
  }

  function SaidIn(b: Batch): Said {
    Said(Those(IsMessage, b.output), b.text, b.phase, b.sources, Those(IsSearch, b.output), b.compactionText)
  }

  // ---- Reasoning ----

  datatype Thought = Thought(
    items: seq<ItemBody>, summary: Text, raw: Text, signature: Text, redacted: seq<Text>, kiro: Text)

  const NOTHING_THOUGHT := Thought([], [], [], [], [], [])

  /**
   The summary goes out with signature and redacted blocks: visible, or inside the envelope. Hidden thinking that
   nothing signs is dropped.
   */
  function SummaryOut(cfg: Config, l: Thought): Thought {
    var signed := l.signature != [] || l.redacted != [];
    var cleared := l.(summary := [], signature := [], redacted := []);
    if cfg.hideThinking then
      if signed
      then cleared.(items := l.items + [Reasoning(None, None, Some(Envelope(l.signature, l.redacted, l.summary, [])))])
      else cleared
    else if l.summary == [] && !signed then l
    else
      var shown := if l.summary == [] then None else Some(l.summary);
      var envelope := if signed then Some(Envelope(l.signature, l.redacted, [], [])) else None;
      cleared.(items := l.items + [Reasoning(shown, None, envelope)])
  }

  function RawOut(cfg: Config, l: Thought): Thought {
    if l.raw == [] then l
    else
      var item := if cfg.hideThinking then Reasoning(None, None, Some(Envelope([], [], l.raw, [])))
                  else Reasoning(None, Some(l.raw), None);
      l.(items := l.items + [item], raw := [])
  }

  /** A summary that has begun goes out. */
  function BegunOut(cfg: Config, l: Thought): Thought {
    if l.summary == [] then l else SummaryOut(cfg, l)
  }

  function HearThought(cfg: Config, l: Thought, e: Event): Thought {
    match e
    case TextDelta(_, _) => RawOut(cfg, SummaryOut(cfg, l))
    case ToolCallStart(_, _) => RawOut(cfg, SummaryOut(cfg, l))
    case AssistantBoundary => RawOut(cfg, SummaryOut(cfg, l))
    case WebSearchEnd(_, _, _, _) => RawOut(cfg, BegunOut(cfg, l))
    case ThinkingDelta(thinking) => RawOut(cfg, l).(summary := l.summary + thinking)
    case ThinkingSignature(signature) => SummaryOut(cfg, l.(signature := signature))
    case RedactedThinking(data) => l.(redacted := l.redacted + [data])
    case KiroRedactedReasoning(data) => l.(kiro := data)
    case ReasoningRawDelta(text, asSummary) =>
      if asSummary && !cfg.hideThinking then RawOut(cfg, l).(summary := l.summary + text)
      else BegunOut(cfg, l).(raw := l.raw + text)
    case _ => l
  }

  function AllThought(cfg: Config, events: seq<Event>): Thought {
    if events == [] then NOTHING_THOUGHT
    else HearThought(cfg, AllThought(cfg, events[..|events| - 1]), events[|events| - 1])
  }

  function KiroOut(l: Thought): Thought {
    if l.kiro == [] then l else l.(items := l.items + [Reasoning(None, None, Some(Envelope([], [], [], l.kiro)))], kiro := [])
  }

  function ThoughtIn(b: Batch): Thought {
    Thought(Those(IsReasoning, b.output), b.summary, b.raw, b.signature, b.redacted, b.kiro)
  }

  // ---- Calls ----

  datatype Called = Called(name: string, callId: string, args: Text)

  datatype Calls = Calls(items: seq<ItemBody>, open: Option<Called>)

  const NO_CALLS := Calls([], None)

  function ItemFor(cfg: Config, c: Called, completed: bool): ItemBody {
    var name := if c.name in cfg.namespaces then cfg.namespaces[c.name].1 else c.name;
    var namespace := if c.name in cfg.namespaces then Some(cfg.namespaces[c.name].0) else None;
    var args := if completed && c.name in cfg.schemas then cfg.coerce(c.args, cfg.schemas[c.name]) else c.args;
    var shown := if args == [] then [0x7B, 0x7D] else args;
    if name in cfg.searchNames then
      if completed then ToolSearchCall(c.callId, cfg.objectOf(args))
      else FunctionCall(c.callId, name, None, shown, false, false)
    else if c.name in cfg.freeformNames then
      CustomToolCall(c.callId, name, namespace, if cfg.inputOf(args).Some? then cfg.inputOf(args).value else args, completed)
    else FunctionCall(c.callId, name, namespace, shown, completed, completed && cfg.plaintext(namespace, name))
  }

  function CallOut(cfg: Config, l: Calls, completed: bool): Calls {
    if l.open.None? then l else Calls(l.items + [ItemFor(cfg, l.open.value, completed)], None)
  }

  predicate Malformed(cfg: Config, l: Calls) {
    l.open.Some? &&
    var c := l.open.value;
    var name := if c.name in cfg.namespaces then cfg.namespaces[c.name].1 else c.name;
    name !in cfg.searchNames && c.name !in cfg.freeformNames && Trim(c.args) != [] && !cfg.parses(Trim(c.args))
  }

  /** A call without an id is none. */
  function HearCalls(cfg: Config, l: Calls, e: Event): Calls {
    match e
    case ToolCallStart(id, name) => CallOut(cfg, l, true).(open := if id == "" then None else Some(Called(name, id, [])))
    case ToolCallDelta(arguments) =>
      if l.open.None? then l else l.(open := Some(l.open.value.(args := l.open.value.args + arguments)))
    case ToolCallEnd => CallOut(cfg, l, !Malformed(cfg, l))
    case TextDelta(_, _) => CallOut(cfg, l, true)
    case ThinkingDelta(_) => CallOut(cfg, l, true)
    case ReasoningRawDelta(_, _) => CallOut(cfg, l, true)
    case AssistantBoundary => CallOut(cfg, l, true)
    case WebSearchEnd(_, _, _, _) => CallOut(cfg, l, true)
    case _ => l
  }

  function AllCalls(cfg: Config, events: seq<Event>): Calls {
    if events == [] then NO_CALLS else HearCalls(cfg, AllCalls(cfg, events[..|events| - 1]), events[|events| - 1])
  }

  function CallsIn(b: Batch): Calls {
    Calls(Those(IsCall, b.output), if b.callId == "" then None else Some(Called(b.callName, b.callId, b.callArgs)))
  }

  // ---- How the turn ends ----

  /** The last failure: an error, or a call that ended malformed. */
  function LastFailure(cfg: Config, events: seq<Event>): Option<(Failure, Option<bool>)> {
    if events == [] then None
    else
      var (front, e) := (events[..|events| - 1], events[|events| - 1]);
      match e
      case Error(message, httpStatus, errorType, code, retryable) =>
        Some((Adapter(message, httpStatus, errorType, code), retryable))
      case ToolCallEnd =>
        if Malformed(cfg, AllCalls(cfg, front)) then Some((MalformedArguments, None)) else LastFailure(cfg, front)
      case _ => LastFailure(cfg, front)
  }

  function LastIncomplete(events: seq<Event>): Option<Because> {
    if events == [] then None
    else
      match events[|events| - 1]
      case Incomplete(reason, note, retryable, _) =>
        Some(Because(reason, if note == Some("") then None else note, retryable))
      case _ => LastIncomplete(events[..|events| - 1])
  }

  /** Why the last normal end that stopped short did. */
  function LastShort(events: seq<Event>): Option<string> {
    if events == [] then None
    else
      match events[|events| - 1]
      case Done(stopReason, _) =>
        if stopReason == Some("max_tokens") then Some("max_output_tokens")
        else if stopReason == Some("content_filter") then Some("content_filter")
        else LastShort(events[..|events| - 1])
      case _ => LastShort(events[..|events| - 1])
  }

  function LastEndTurn(events: seq<Event>): Option<bool> {
    if events == [] then None
    else
      match events[|events| - 1]
      case Done(_, endTurn) => endTurn
      case Incomplete(_, _, _, endTurn) => endTurn
      case _ => LastEndTurn(events[..|events| - 1])
  }

  /** The last normal end gave no reason. */
  predicate EndedClean(events: seq<Event>) {
    events != [] &&
    match events[|events| - 1]
    case Done(stopReason, _) => stopReason.None?
    case _ => EndedClean(events[..|events| - 1])
  }

  predicate Ended(events: seq<Event>) {
    exists e :: e in events && (e.Done? || e.Incomplete? || e.Error?)
  }

  function OutcomeOf(cfg: Config, events: seq<Event>): Outcome {
    var (failure, incomplete, short) := (LastFailure(cfg, events), LastIncomplete(events), LastShort(events));
    Outcome(
      if failure.Some? then Failed
      else if incomplete.Some? || short.Some? || !Ended(events) then Incompleted
      else Status.Completed,
      LastEndTurn(events),
      if failure.Some? then Some(failure.value.0) else None,
      if failure.Some? then failure.value.1 else None,
      if incomplete.Some? then incomplete
      else if !Ended(events) then Some(Because("adapter_eof", None, None))
      else if short.Some? then Some(Because(short.value, None, None))
      else None)
  }

  // ---- The flushes ----

  lemma FlushTextSaid(b: Batch, inferred: Option<Phase>)
    ensures SaidIn(FlushText(b, inferred)) == Told(SaidIn(b), inferred)
  {
    if b.text != [] {
      A.AnnotationsCite(b.sources);
      var item := FlushText(b, inferred).output[|b.output|];
      ThoseSnoc(IsMessage, b.output, item);
      ThoseSnoc(IsSearch, b.output, item);
    }
  }

  /** The items of the other kinds stay as they are. */
  lemma Others(kind: ItemBody -> bool, b: Batch, t: Batch)
    requires t.output == b.output || (|t.output| == |b.output| + 1 && t.output[..|b.output|] == b.output)
    requires t.output != b.output ==> !kind(t.output[|b.output|])
    ensures Those(kind, t.output) == Those(kind, b.output)
  {
    if t.output != b.output {
      assert t.output == b.output + [t.output[|b.output|]];
      ThoseSnoc(kind, b.output, t.output[|b.output|]);
    }
  }

  lemma FlushTextRest(b: Batch, inferred: Option<Phase>)
    ensures ThoughtIn(FlushText(b, inferred)) == ThoughtIn(b) && CallsIn(FlushText(b, inferred)) == CallsIn(b)
  {
    Others(IsReasoning, b, FlushText(b, inferred));
    Others(IsCall, b, FlushText(b, inferred));
  }

  lemma FlushSummaryThought(cfg: Config, b: Batch)
    ensures ThoughtIn(FlushSummary(cfg, b)) == SummaryOut(cfg, ThoughtIn(b))
  {
    var t := FlushSummary(cfg, b);
    if t.output != b.output { ThoseSnoc(IsReasoning, b.output, t.output[|b.output|]); }
  }

  lemma FlushSummaryRest(cfg: Config, b: Batch)
    ensures SaidIn(FlushSummary(cfg, b)) == SaidIn(b) && CallsIn(FlushSummary(cfg, b)) == CallsIn(b)
  {
    var t := FlushSummary(cfg, b);
    Others(IsMessage, b, t);
    Others(IsSearch, b, t);
    Others(IsCall, b, t);
  }

  lemma FlushRawThought(cfg: Config, b: Batch)
    ensures ThoughtIn(FlushRaw(cfg, b)) == RawOut(cfg, ThoughtIn(b))
  {
    var t := FlushRaw(cfg, b);
    if t.output != b.output { ThoseSnoc(IsReasoning, b.output, t.output[|b.output|]); }
  }

  lemma FlushRawRest(cfg: Config, b: Batch)
    ensures SaidIn(FlushRaw(cfg, b)) == SaidIn(b) && CallsIn(FlushRaw(cfg, b)) == CallsIn(b)
  {
    var t := FlushRaw(cfg, b);
    Others(IsMessage, b, t);
    Others(IsSearch, b, t);
    Others(IsCall, b, t);
  }

  lemma CallItemIs(cfg: Config, b: Batch, completed: bool)
    ensures CallItem(cfg, b, completed) == ItemFor(cfg, Called(b.callName, b.callId, b.callArgs), completed)
    ensures IsCall(CallItem(cfg, b, completed))
  {
  }

  lemma FlushCallCalls(cfg: Config, b: Batch, completed: bool)
    ensures CallsIn(FlushCall(cfg, b, completed)) == CallOut(cfg, CallsIn(b), completed)
  {
    if b.callId != "" {
      CallItemIs(cfg, b, completed);
      ThoseSnoc(IsCall, b.output, CallItem(cfg, b, completed));
    }
  }

  lemma FlushCallRest(cfg: Config, b: Batch, completed: bool)
    ensures SaidIn(FlushCall(cfg, b, completed)) == SaidIn(b) && ThoughtIn(FlushCall(cfg, b, completed)) == ThoughtIn(b)
  {
    var t := FlushCall(cfg, b, completed);
    CallItemIs(cfg, b, completed);
    Others(IsMessage, b, t);
    Others(IsSearch, b, t);
    Others(IsReasoning, b, t);
  }

  // ---- One event ----

  datatype View = View(said: Said, thought: Thought, calls: Calls, compactions: seq<ItemBody>)

  function ViewOf(b: Batch): View {
    View(SaidIn(b), ThoughtIn(b), CallsIn(b), Those(IsCompaction, b.output))
  }

  lemma TextView(b: Batch, inferred: Option<Phase>)
    ensures ViewOf(FlushText(b, inferred)) == ViewOf(b).(said := Told(SaidIn(b), inferred))
  {
    FlushTextSaid(b, inferred);
    FlushTextRest(b, inferred);
    Others(IsCompaction, b, FlushText(b, inferred));
  }

  lemma SummaryView(cfg: Config, b: Batch)
    ensures ViewOf(FlushSummary(cfg, b)) == ViewOf(b).(thought := SummaryOut(cfg, ThoughtIn(b)))
  {
    FlushSummaryThought(cfg, b);
    FlushSummaryRest(cfg, b);
    Others(IsCompaction, b, FlushSummary(cfg, b));
  }

  lemma RawView(cfg: Config, b: Batch)
    ensures ViewOf(FlushRaw(cfg, b)) == ViewOf(b).(thought := RawOut(cfg, ThoughtIn(b)))
  {
    FlushRawThought(cfg, b);
    FlushRawRest(cfg, b);
    Others(IsCompaction, b, FlushRaw(cfg, b));
  }

  lemma CallView(cfg: Config, b: Batch, completed: bool)
    ensures ViewOf(FlushCall(cfg, b, completed)) == ViewOf(b).(calls := CallOut(cfg, CallsIn(b), completed))
  {
    FlushCallCalls(cfg, b, completed);
    FlushCallRest(cfg, b, completed);
    CallItemIs(cfg, b, completed);
    Others(IsCompaction, b, FlushCall(cfg, b, completed));
  }

  function Hear(cfg: Config, v: View, e: Event): View {
    View(HearSaid(cfg, v.said, e), HearThought(cfg, v.thought, e), HearCalls(cfg, v.calls, e), v.compactions)
  }

  /** Summary, raw reasoning and call go out. */
  lemma SettledView(cfg: Config, b: Batch)
    ensures ViewOf(FlushCall(cfg, FlushRaw(cfg, FlushSummary(cfg, b)), true))
         == ViewOf(b).(thought := RawOut(cfg, SummaryOut(cfg, ThoughtIn(b))), calls := CallOut(cfg, CallsIn(b), true))
  {
    SummaryView(cfg, b);
    RawView(cfg, FlushSummary(cfg, b));
    CallView(cfg, FlushRaw(cfg, FlushSummary(cfg, b)), true);
  }

  lemma PhaseView(b: Batch, phase: Option<Phase>)
    ensures
      var b1 := if b.text != [] && phase.Some? && b.phase != phase then FlushText(b, Some(Commentary)) else b;
      ViewOf(b1) == ViewOf(b).(said := if phase.Some? && phase != b.phase then Told(SaidIn(b), Some(Commentary)) else SaidIn(b))
  {
    TextView(b, Some(Commentary));
  }

  /** The new text, once everything before it is out. */
  lemma SaysText(cfg: Config, b: Batch, v: View, text: Text, phase: Option<Phase>)
    requires v == ViewOf(b)
    ensures
      var t := if cfg.compaction then b.(compactionText := b.compactionText + text)
               else b.(phase := if phase.Some? then phase else b.phase, text := b.text + text);
      ViewOf(t) == if cfg.compaction then v.(said := v.said.(collected := v.said.collected + text))
                   else v.(said := v.said.(text := v.said.text + text, phase := if phase.Some? then phase else v.said.phase))
  {
  }

  lemma HearText(cfg: Config, v: View, text: Text, phase: Option<Phase>)
    ensures
      var told := if phase.Some? && phase != v.said.phase then Told(v.said, Some(Commentary)) else v.said;
      Hear(cfg, v, TextDelta(text, phase))
        == v.(said := if cfg.compaction then told.(collected := told.collected + text)
                      else told.(text := told.text + text, phase := if phase.Some? then phase else told.phase),
              thought := RawOut(cfg, SummaryOut(cfg, v.thought)), calls := CallOut(cfg, v.calls, true))
  {
  }

  lemma TextHeard(cfg: Config, b: Batch, text: Text, phase: Option<Phase>)
    ensures ViewOf(OnText(cfg, b, text, phase)) == Hear(cfg, ViewOf(b), TextDelta(text, phase))
  {
    var b1 := if b.text != [] && phase.Some? && b.phase != phase then FlushText(b, Some(Commentary)) else b;
    var b2 := FlushCall(cfg, FlushRaw(cfg, FlushSummary(cfg, b1)), true);
    PhaseView(b, phase);
    SettledView(cfg, b1);
    SaysText(cfg, b2, ViewOf(b2), text, phase);
    HearText(cfg, ViewOf(b), text, phase);
  }

  lemma BoundaryView(cfg: Config, b: Batch)
    ensures
      ViewOf(FlushCall(cfg, FlushRaw(cfg, FlushSummary(cfg, FlushText(b, Some(Commentary)))), true))
        == ViewOf(b).(said := Told(SaidIn(b), Some(Commentary)),
                      thought := RawOut(cfg, SummaryOut(cfg, ThoughtIn(b))), calls := CallOut(cfg, CallsIn(b), true))
  {
    TextView(b, Some(Commentary));
    SettledView(cfg, FlushText(b, Some(Commentary)));
  }

  lemma CallStartHeard(cfg: Config, b: Batch, callId: string, name: string)
    ensures ViewOf(OnCallStart(cfg, b, callId, name)) == Hear(cfg, ViewOf(b), ToolCallStart(callId, name))
  {
    BoundaryView(cfg, b);
  }

  lemma ThinkingHeard(cfg: Config, b: Batch, thinking: Text)
    ensures ViewOf(OnThinking(cfg, b, thinking)) == Hear(cfg, ViewOf(b), ThinkingDelta(thinking))
  {
    var b1 := FlushText(b, Some(Commentary));
    TextView(b, Some(Commentary));
    RawView(cfg, b1);
    CallView(cfg, FlushRaw(cfg, b1), true);
  }

  lemma RawFlushes(cfg: Config, b: Batch)
    ensures ViewOf(FlushCall(cfg, FlushText(b, Some(Commentary)), true))
         == ViewOf(b).(said := Told(SaidIn(b), Some(Commentary)), calls := CallOut(cfg, CallsIn(b), true))
  {
    TextView(b, Some(Commentary));
    CallView(cfg, FlushText(b, Some(Commentary)), true);
  }

  lemma RawHeard(cfg: Config, b: Batch, text: Text, asSummary: bool)
    ensures ViewOf(OnRawReasoning(cfg, b, text, asSummary)) == Hear(cfg, ViewOf(b), ReasoningRawDelta(text, asSummary))
  {
    var b1 := FlushCall(cfg, FlushText(b, Some(Commentary)), true);
    RawFlushes(cfg, b);
    if asSummary && !cfg.hideThinking {
      RawView(cfg, b1);
      AppendsView(FlushRaw(cfg, b1), text);
    } else {
      SummaryView(cfg, b1);
      AppendsView(if b1.summary != [] then FlushSummary(cfg, b1) else b1, text);
    }
    HearRaw(cfg, ViewOf(b), text, asSummary);
  }

  lemma AppendsView(b: Batch, text: Text)
    ensures ViewOf(b.(summary := b.summary + text)) == ViewOf(b).(thought := ThoughtIn(b).(summary := b.summary + text))
    ensures ViewOf(b.(raw := b.raw + text)) == ViewOf(b).(thought := ThoughtIn(b).(raw := b.raw + text))
  {
  }

  lemma HearRaw(cfg: Config, v: View, text: Text, asSummary: bool)
    ensures
      var out := if asSummary && !cfg.hideThinking then RawOut(cfg, v.thought) else BegunOut(cfg, v.thought);
      Hear(cfg, v, ReasoningRawDelta(text, asSummary))
        == v.(said := Told(v.said, Some(Commentary)), calls := CallOut(cfg, v.calls, true),
              thought := if asSummary && !cfg.hideThinking then out.(summary := out.summary + text)
                         else out.(raw := out.raw + text))
  {
  }

  lemma SignatureHeard(cfg: Config, b: Batch, signature: Text)
    ensures ViewOf(FlushSummary(cfg, b.(signature := signature))) == Hear(cfg, ViewOf(b), ThinkingSignature(signature))
  {
    SummaryView(cfg, b.(signature := signature));
  }

  lemma MalformedAlike(cfg: Config, b: Batch)
    ensures CallIsMalformed(cfg, b) <==> Malformed(cfg, CallsIn(b))
  {
  }

  lemma HearCallEnd(cfg: Config, v: View)
    ensures Hear(cfg, v, ToolCallEnd) == v.(calls := CallOut(cfg, v.calls, !Malformed(cfg, v.calls)))
  {
  }

  lemma FailureView(b: Batch, failure: Option<(Failure, Option<bool>)>)
    ensures ViewOf(b.(failure := failure)) == ViewOf(b)
  {
  }

  lemma CallEndHeard(cfg: Config, b: Batch)
    ensures ViewOf(OnCallEnd(cfg, b)) == Hear(cfg, ViewOf(b), ToolCallEnd)
  {
    MalformedAlike(cfg, b);
    HearCallEnd(cfg, ViewOf(b));
    CallView(cfg, b, !CallIsMalformed(cfg, b));
    FailureView(FlushCall(cfg, b, false), Some((MalformedArguments, None)));
  }

  lemma SearchFlushes(cfg: Config, b: Batch)
    ensures
      var b1 := FlushText(b, Some(Commentary));
      var b2 := if b1.summary != [] then FlushSummary(cfg, b1) else b1;
      ViewOf(FlushCall(cfg, FlushRaw(cfg, b2), true))
        == ViewOf(b).(said := Told(SaidIn(b), Some(Commentary)),
                      thought := RawOut(cfg, BegunOut(cfg, ThoughtIn(b))), calls := CallOut(cfg, CallsIn(b), true))
  {
    var b1 := FlushText(b, Some(Commentary));
    var b2 := if b1.summary != [] then FlushSummary(cfg, b1) else b1;
    TextView(b, Some(Commentary));
    SummaryView(cfg, b1);
    RawView(cfg, b2);
    CallView(cfg, FlushRaw(cfg, b2), true);
  }

  /** A search is pushed and its citations queued. */
  lemma SearchPushed(b: Batch, item: ItemBody, sources: seq<Citation>)
    requires item.WebSearchCall?
    ensures
      var v := ViewOf(b);
      ViewOf(Push(b, item).(sources := QueueSources(b.sources, sources)))
        == v.(said := v.said.(searches := v.said.searches + [item], queued := A.Queued(v.said.queued, sources)))
  {
    A.QueueIsQueued(b.sources, sources);
    ThoseSnoc(IsSearch, b.output, item);
    Others(IsMessage, b, Push(b, item));
    Others(IsReasoning, b, Push(b, item));
    Others(IsCall, b, Push(b, item));
    Others(IsCompaction, b, Push(b, item));
  }

  lemma HearSearchEnd(cfg: Config, v: View, e: Event)
    requires e.WebSearchEnd?
    ensures
      var all := if e.sources.Some? then e.sources.value else [];
      var how := if e.searchStatus == Some(SearchFailed) then SearchFailed else SearchCompleted;
      var told := Told(v.said, Some(Commentary));
      Hear(cfg, v, e)
        == v.(said := told.(searches := told.searches + [WebSearchCall(how, A.Asked(e.queries), all)],
                            queued := A.Queued(told.queued, all)),
              thought := RawOut(cfg, BegunOut(cfg, v.thought)), calls := CallOut(cfg, v.calls, true))
  {
  }

  lemma PushedView(cfg: Config, b3: Batch, v: View, e: Event)
    requires e.WebSearchEnd?
    requires ViewOf(b3) == v.(said := Told(v.said, Some(Commentary)), thought := RawOut(cfg, BegunOut(cfg, v.thought)),
                              calls := CallOut(cfg, v.calls, true))
    ensures
      var how := if e.searchStatus == Some(SearchFailed) then SearchFailed else SearchCompleted;
      ViewOf(Push(b3, WebSearchCall(how, A.Asked(e.queries), OrNothing(e.sources)))
               .(sources := QueueSources(b3.sources, OrNothing(e.sources))))
        == Hear(cfg, v, e)
  {
    var how := if e.searchStatus == Some(SearchFailed) then SearchFailed else SearchCompleted;
    SearchPushed(b3, WebSearchCall(how, A.Asked(e.queries), OrNothing(e.sources)), OrNothing(e.sources));
    HearSearchEnd(cfg, v, e);
  }

  lemma AskedFor(queries: seq<string>)
    ensures SearchActionOf(queries) == A.Asked(queries)
  {
    assert |queries| == 1 ==> queries == [queries[0]];
  }

  lemma SearchEndIs(cfg: Config, b: Batch, e: Event, b2: Batch, b3: Batch)
    requires e.WebSearchEnd? && b3 == FlushCall(cfg, FlushRaw(cfg, b2), true)
    requires
      var b1 := FlushText(b, Some(Commentary));
      b2 == if b1.summary != [] then FlushSummary(cfg, b1) else b1
    ensures
      var how := if e.searchStatus == Some(SearchFailed) then SearchFailed else SearchCompleted;
      OnSearchEnd(cfg, b, e)
        == Push(b3, WebSearchCall(how, A.Asked(e.queries), OrNothing(e.sources)))
             .(sources := QueueSources(b3.sources, OrNothing(e.sources)))
  {
    AskedFor(e.queries);
    var status := if e.searchStatus.Some? then e.searchStatus.value else SearchCompleted;
    assert status == if e.searchStatus == Some(SearchFailed) then SearchFailed else SearchCompleted;
  }

  lemma SearchEndHeard(cfg: Config, b: Batch, e: Event)
    requires e.WebSearchEnd?
    ensures ViewOf(OnSearchEnd(cfg, b, e)) == Hear(cfg, ViewOf(b), e)
  {
    var b1 := FlushText(b, Some(Commentary));
    var b2 := if b1.summary != [] then FlushSummary(cfg, b1) else b1;
    var b3 := FlushCall(cfg, FlushRaw(cfg, b2), true);
    SearchFlushes(cfg, b);
    PushedView(cfg, b3, ViewOf(b), e);
    SearchEndIs(cfg, b, e, b2, b3);
  }

  predicate IsQuiet(e: Event) {
    || e.Heartbeat? || e.RedactedThinking? || e.KiroRedactedReasoning? || e.ToolCallDelta? || e.WebSearchBegin?
    || e.Error? || e.Incomplete? || e.Done?
  }

  lemma QuietHeard(cfg: Config, b: Batch, e: Event)
    requires IsQuiet(e)
    ensures ViewOf(Step(cfg, b, e)) == Hear(cfg, ViewOf(b), e)
  {
  }

  lemma StepHeard(cfg: Config, b: Batch, e: Event)
    ensures ViewOf(Step(cfg, b, e)) == Hear(cfg, ViewOf(b), e)
  {
    if IsQuiet(e) {
      QuietHeard(cfg, b, e);
    } else {
      match e
      case AssistantBoundary => BoundaryView(cfg, b);
      case TextDelta(text, phase) => TextHeard(cfg, b, text, phase);
      case ThinkingDelta(thinking) => ThinkingHeard(cfg, b, thinking);
      case ThinkingSignature(signature) => SignatureHeard(cfg, b, signature);
      case ReasoningRawDelta(text, asSummary) => RawHeard(cfg, b, text, asSummary);
      case ToolCallStart(id, name) => CallStartHeard(cfg, b, id, name);
      case ToolCallEnd => CallEndHeard(cfg, b);
      case WebSearchEnd(_, _, _, _) => SearchEndHeard(cfg, b, e);
    }
  }

  // ---- The whole turn ----

  function Heard(cfg: Config, events: seq<Event>): View {
    View(AllSaid(cfg, events), AllThought(cfg, events), AllCalls(cfg, events), [])
  }

  lemma HeardSnoc(cfg: Config, es: seq<Event>, e: Event)
    ensures Heard(cfg, es + [e]) == Hear(cfg, Heard(cfg, es), e)
  {
    assert (es + [e])[..|es|] == es;
  }

  /** The registers that decide how the turn ends. */
  ghost predicate Decides(cfg: Config, b: Batch, es: seq<Event>) {
    && b.failure == LastFailure(cfg, es) && b.incomplete == LastIncomplete(es)
    && b.endTurn == LastEndTurn(es) && b.cleanDone == EndedClean(es) && (b.sawTerminal <==> Ended(es))
    && LastShort(es) == (if b.stopReason.None? then None else Some(ShortReason(b.stopReason)))
    && (b.stopReason.Some? ==> StopsShort(b.stopReason))
  }

  lemma EndedSnoc(es: seq<Event>, e: Event)
    ensures Ended(es + [e]) <==> Ended(es) || e.Done? || e.Incomplete? || e.Error?
  {
    assert forall x :: x in es + [e] <==> x in es || x == e;
  }

  /** Flushes leave them alone. */
  predicate SameVerdict(a: Batch, b: Batch) {
    && a.failure == b.failure && a.incomplete == b.incomplete && a.endTurn == b.endTurn && a.cleanDone == b.cleanDone
    && a.sawTerminal == b.sawTerminal && a.stopReason == b.stopReason
  }

  lemma SummaryKeepsVerdict(cfg: Config, b: Batch)
    ensures SameVerdict(b, FlushSummary(cfg, b))
  {
  }

  lemma FlushesKeepVerdict(cfg: Config, b: Batch, inferred: Option<Phase>, completed: bool)
    ensures SameVerdict(b, FlushText(b, inferred)) && SameVerdict(b, FlushSummary(cfg, b))
    ensures SameVerdict(b, FlushRaw(cfg, b)) && SameVerdict(b, FlushCall(cfg, b, completed))
  {
    SummaryKeepsVerdict(cfg, b);
  }

  lemma SettlingKeepsVerdict(cfg: Config, b: Batch)
    ensures SameVerdict(b, FlushCall(cfg, FlushRaw(cfg, FlushSummary(cfg, b)), true))
    ensures SameVerdict(b, FlushCall(cfg, FlushRaw(cfg, b), true))
  {
    FlushesKeepVerdict(cfg, b, None, true);
    FlushesKeepVerdict(cfg, FlushSummary(cfg, b), None, true);
    FlushesKeepVerdict(cfg, FlushRaw(cfg, FlushSummary(cfg, b)), None, true);
    FlushesKeepVerdict(cfg, FlushRaw(cfg, b), None, true);
  }

  lemma TextKeepsVerdict(cfg: Config, b: Batch, text: Text, phase: Option<Phase>)
    ensures SameVerdict(b, OnText(cfg, b, text, phase))
  {
    FlushesKeepVerdict(cfg, b, Some(Commentary), true);
    SettlingKeepsVerdict(cfg, if b.text != [] && phase.Some? && b.phase != phase then FlushText(b, Some(Commentary)) else b);
  }

  lemma ThinkingKeepsVerdict(cfg: Config, b: Batch, thinking: Text)
    ensures SameVerdict(b, OnThinking(cfg, b, thinking))
  {
    FlushesKeepVerdict(cfg, b, Some(Commentary), true);
    SettlingKeepsVerdict(cfg, FlushText(b, Some(Commentary)));
  }

  lemma RawKeepsVerdict(cfg: Config, b: Batch, text: Text, asSummary: bool)
    ensures SameVerdict(b, OnRawReasoning(cfg, b, text, asSummary))
  {
    var b1 := FlushText(b, Some(Commentary));
    FlushesKeepVerdict(cfg, b, Some(Commentary), true);
    FlushesKeepVerdict(cfg, b1, None, true);
    FlushesKeepVerdict(cfg, FlushCall(cfg, b1, true), None, true);
  }

  lemma SearchEndKeepsVerdict(cfg: Config, b: Batch, e: Event)
    requires e.WebSearchEnd?
    ensures SameVerdict(b, OnSearchEnd(cfg, b, e))
  {
    var b1 := FlushText(b, Some(Commentary));
    FlushesKeepVerdict(cfg, b, Some(Commentary), true);
    SettlingKeepsVerdict(cfg, b1);
  }

  lemma StepKeepsVerdict(cfg: Config, b: Batch, e: Event)
    requires !e.Done? && !e.Incomplete? && !e.Error? && !e.ToolCallEnd?
    ensures SameVerdict(b, Step(cfg, b, e))
  {
    match e
    case TextDelta(text, phase) => TextKeepsVerdict(cfg, b, text, phase);
    case ThinkingDelta(thinking) => ThinkingKeepsVerdict(cfg, b, thinking);
    case ReasoningRawDelta(text, asSummary) => RawKeepsVerdict(cfg, b, text, asSummary);
    case ThinkingSignature(signature) => FlushesKeepVerdict(cfg, b.(signature := signature), None, true);
    case WebSearchEnd(_, _, _, _) => SearchEndKeepsVerdict(cfg, b, e);
    case AssistantBoundary =>
      FlushesKeepVerdict(cfg, b, Some(Commentary), true);
      SettlingKeepsVerdict(cfg, FlushText(b, Some(Commentary)));
    case ToolCallStart(_, _) =>
      FlushesKeepVerdict(cfg, b, Some(Commentary), true);
      SettlingKeepsVerdict(cfg, FlushText(b, Some(Commentary)));
    case _ =>
  }

  lemma CallEndVerdict(cfg: Config, b: Batch)
    ensures SameVerdict(b.(failure := if CallIsMalformed(cfg, b) then Some((MalformedArguments, None)) else b.failure),
                        OnCallEnd(cfg, b))
  {
  }

  lemma CallEndDecides(cfg: Config, b: Batch, es: seq<Event>)
    requires Decides(cfg, b, es) && CallsIn(b) == AllCalls(cfg, es)
    ensures Decides(cfg, OnCallEnd(cfg, b), es + [ToolCallEnd])
  {
    assert (es + [ToolCallEnd])[..|es|] == es;
    EndedSnoc(es, ToolCallEnd);
    CallEndVerdict(cfg, b);
    MalformedAlike(cfg, b);
  }

  lemma TerminalDecides(cfg: Config, b: Batch, es: seq<Event>, e: Event)
    requires Decides(cfg, b, es) && (e.Done? || e.Incomplete? || e.Error?)
    ensures Decides(cfg, Step(cfg, b, e), es + [e])
  {
    assert (es + [e])[..|es|] == es;
    EndedSnoc(es, e);
  }

  lemma OtherDecides(cfg: Config, b: Batch, t: Batch, es: seq<Event>, e: Event)
    requires Decides(cfg, b, es) && SameVerdict(b, t) && !e.Done? && !e.Incomplete? && !e.Error? && !e.ToolCallEnd?
    ensures Decides(cfg, t, es + [e])
  {
    assert (es + [e])[..|es|] == es;
    EndedSnoc(es, e);
  }

  lemma StepDecides(cfg: Config, b: Batch, es: seq<Event>, e: Event)
    requires Decides(cfg, b, es) && CallsIn(b) == AllCalls(cfg, es)
    ensures Decides(cfg, Step(cfg, b, e), es + [e])
  {
    if e.ToolCallEnd? {
      CallEndDecides(cfg, b, es);
    } else if e.Done? || e.Incomplete? || e.Error? {
      TerminalDecides(cfg, b, es, e);
    } else {
      StepKeepsVerdict(cfg, b, e);
      OtherDecides(cfg, b, Step(cfg, b, e), es, e);
    }
  }

  lemma {:induction false} StepsHeard(cfg: Config, b: Batch, es: seq<Event>, more: seq<Event>)
    requires ViewOf(b) == Heard(cfg, es) && Decides(cfg, b, es)
    ensures ViewOf(Steps(cfg, b, more)) == Heard(cfg, es + more) && Decides(cfg, Steps(cfg, b, more), es + more)
    decreases |more|
  {
    if more == [] {
      assert es + more == es;
    } else {
      StepHeard(cfg, b, more[0]);
      HeardSnoc(cfg, es, more[0]);
      StepDecides(cfg, b, es, more[0]);
      assert es + more == es + [more[0]] + more[1..];
      StepsHeard(cfg, Step(cfg, b, more[0]), es + [more[0]], more[1..]);
    }
  }

  lemma OutcomeDecided(cfg: Config, b: Batch, es: seq<Event>)
    requires Decides(cfg, b, es)
    ensures FinalOutcome(b) == OutcomeOf(cfg, es)
  {
  }

  lemma KiroView(b: Batch)
    ensures
      var item := Reasoning(None, None, Some(Envelope([], [], [], b.kiro)));
      var t := if b.kiro == [] then b else Push(b, item).(kiro := []);
      ViewOf(t) == ViewOf(b).(thought := KiroOut(ThoughtIn(b)))
  {
    var item := Reasoning(None, None, Some(Envelope([], [], [], b.kiro)));
    ThoseSnoc(IsReasoning, b.output, item);
    Others(IsMessage, b, Push(b, item));
    Others(IsSearch, b, Push(b, item));
    Others(IsCall, b, Push(b, item));
    Others(IsCompaction, b, Push(b, item));
  }

  /** The trailing flushes, up to the compaction item. */
  function Flushed(cfg: Config, b: Batch, inferred: Option<Phase>, completed: bool): Batch {
    var b2 := FlushCall(cfg, FlushRaw(cfg, FlushSummary(cfg, FlushText(b, inferred))), completed);
    if b2.kiro == [] then b2 else Push(b2, Reasoning(None, None, Some(Envelope([], [], [], b2.kiro)))).(kiro := [])
  }

  lemma FlushedView(cfg: Config, b: Batch, inferred: Option<Phase>, completed: bool)
    ensures ViewOf(Flushed(cfg, b, inferred, completed))
         == ViewOf(b).(said := Told(SaidIn(b), inferred),
                       thought := KiroOut(RawOut(cfg, SummaryOut(cfg, ThoughtIn(b)))),
                       calls := CallOut(cfg, CallsIn(b), completed))
  {
    var b1 := FlushText(b, inferred);
    TextView(b, inferred);
    SummaryView(cfg, b1);
    RawView(cfg, FlushSummary(cfg, b1));
    CallView(cfg, FlushRaw(cfg, FlushSummary(cfg, b1)), completed);
    KiroView(FlushCall(cfg, FlushRaw(cfg, FlushSummary(cfg, b1)), completed));
  }

  lemma CompactionPushed(b: Batch, text: Text)
    ensures ViewOf(Push(b, Compaction(text))) == ViewOf(b).(compactions := ViewOf(b).compactions + [Compaction(text)])
  {
    ThoseSnoc(IsCompaction, b.output, Compaction(text));
    Others(IsMessage, b, Push(b, Compaction(text)));
    Others(IsSearch, b, Push(b, Compaction(text)));
    Others(IsReasoning, b, Push(b, Compaction(text)));
    Others(IsCall, b, Push(b, Compaction(text)));
  }

  /** What the answer carries at the end of the events. */
  ghost predicate Carries(cfg: Config, events: seq<Event>, output: seq<ItemBody>) {
    var (failure, incomplete) := (LastFailure(cfg, events), LastIncomplete(events));
    var said, going := AllSaid(cfg, events), failure.None? && incomplete.None?;
    var after := if EndedClean(events) && going then Some(FinalAnswer) else None;
    && Those(IsMessage, output) == Told(said, after).messages
    && Those(IsSearch, output) == said.searches
    && Those(IsReasoning, output) == KiroOut(RawOut(cfg, SummaryOut(cfg, AllThought(cfg, events)))).items
    && Those(IsCall, output) == CallOut(cfg, AllCalls(cfg, events), going && Ended(events)).items
    && Those(IsCompaction, output)
       == if cfg.compaction && going && Ended(events) && LastShort(events).None? then [Compaction(said.collected)] else []
  }

  lemma TrailingIs(cfg: Config, b: Batch, flushed: Batch, going: bool)
    requires going == (b.failure.None? && b.incomplete.None?)
    requires flushed == Flushed(cfg, b, if b.cleanDone && going then Some(FinalAnswer) else None, going && b.sawTerminal)
    ensures Trailing(cfg, b)
         == if cfg.compaction && going && b.sawTerminal && b.stopReason.None? then Push(flushed, Compaction(b.compactionText))
            else flushed
  {
  }

  lemma ViewCarries(cfg: Config, events: seq<Event>, t: Batch)
    requires
      var (said, going) := (AllSaid(cfg, events), LastFailure(cfg, events).None? && LastIncomplete(events).None?);
      ViewOf(t) == View(
        Told(said, if EndedClean(events) && going then Some(FinalAnswer) else None),
        KiroOut(RawOut(cfg, SummaryOut(cfg, AllThought(cfg, events)))),
        CallOut(cfg, AllCalls(cfg, events), going && Ended(events)),
        if cfg.compaction && going && Ended(events) && LastShort(events).None? then [Compaction(said.collected)] else [])
    ensures Carries(cfg, events, t.output)
  {
  }

  lemma TrailingCarries(cfg: Config, b: Batch, events: seq<Event>)
    requires ViewOf(b) == Heard(cfg, events) && Decides(cfg, b, events)
    ensures Carries(cfg, events, Trailing(cfg, b).output)
  {
    var going := b.failure.None? && b.incomplete.None?;
    var inferred := if b.cleanDone && going then Some(FinalAnswer) else None;
    var flushed := Flushed(cfg, b, inferred, going && b.sawTerminal);
    FlushedView(cfg, b, inferred, going && b.sawTerminal);
    CompactionPushed(flushed, b.compactionText);
    TrailingIs(cfg, b, flushed, going);
    assert b.compactionText == SaidIn(b).collected;
    ViewCarries(cfg, events, Trailing(cfg, b));
  }

  /**
   The answer of the batch translator, in every mode: of each kind its items, in order, are those its events tell,
   and its outcome is what the last failure, the last incomplete end and the last normal end say.
   */
  lemma BatchAnswerIsTold(cfg: Config, events: seq<Event>)
    ensures Carries(cfg, events, Build(cfg, events).output)
    ensures Build(cfg, events).outcome == OutcomeOf(cfg, events)
  {
    assert Decides(cfg, EMPTY, []);
    StepsHeard(cfg, EMPTY, [], events);
    assert [] + events == events;
    OutcomeDecided(cfg, Steps(cfg, EMPTY, events), events);
    TrailingCarries(cfg, Steps(cfg, EMPTY, events), events);
  }
}
