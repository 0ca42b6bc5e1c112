/** The non-streaming translator: one pass over the events of a turn, then the final flushes. */
module BatchTranslator {
  import opened Text
  import opened Responses

  /** The local variables of `buildResponseJSONWithBudget`. */
  datatype Batch = Batch(
    output: seq<ItemBody>,
    text: Text,
    phase: Option<Phase>,
    summary: Text,
    raw: Text,
    signature: Text,
    redacted: seq<Text>,
    kiro: Text,
    callId: string,
    callName: string,
    callArgs: Text,
    sources: seq<Citation>,
    compactionText: Text,
    failure: Option<(Failure, Option<bool>)>,
    incomplete: Option<Because>,
    endTurn: Option<bool>,
    stopReason: Option<string>,
    cleanDone: bool,
    sawTerminal: bool)

  datatype Response = Response(output: seq<ItemBody>, outcome: Outcome)

  const EMPTY := Batch([], [], None, [], [], [], [], [], "", "", [], [], [], None, None, None, None, false, false)

  function Push(b: Batch, item: ItemBody): Batch {
    b.(output := b.output + [item])
  }

  function FlushText(b: Batch, inferred: Option<Phase>): Batch {
    if b.text == [] then b
    else
      var phase := if b.phase.Some? then b.phase else inferred;
      Push(b, Message(b.text, Annotations(b.sources), phase)).(sources := [], text := [], phase := None)
  }

  function FlushSummary(cfg: Config, b: Batch): Batch {
    if b.summary == [] && b.signature == [] && b.redacted == [] then b
    else
      var signed := b.signature != [] || b.redacted != [];
      var txt := if cfg.hideThinking then b.summary else [];
      var envelope := if signed then Some(Envelope(b.signature, b.redacted, txt, [])) else None;
      var cleared := b.(signature := [], redacted := [], summary := []);
      if cfg.hideThinking && !signed then cleared
      else
        var shown := if !cfg.hideThinking && b.summary != [] then Some(b.summary) else None;
        Push(cleared, Reasoning(shown, None, envelope))
  }

  function FlushRaw(cfg: Config, b: Batch): Batch {
    if b.raw == [] then b
    else if cfg.hideThinking then Push(b, Reasoning(None, None, Some(Envelope([], [], b.raw, [])))).(raw := [])
    else Push(b, Reasoning(None, Some(b.raw), None)).(raw := [])
  }

  function CallItem(cfg: Config, b: Batch, completed: bool): ItemBody {
    var args := if completed then CoerceUnder(cfg, SchemaFor(cfg, b.callName), b.callArgs) else b.callArgs;
    var (name, ns) := (RealName(cfg, b.callName), Namespace(cfg, b.callName));
    if IsToolSearch(cfg, b.callName) then
      if completed then ToolSearchCall(b.callId, cfg.objectOf(args))
      else FunctionCall(b.callId, name, None, OrEmptyObject(args), false, false)
    else if IsFreeform(cfg, b.callName) then
      CustomToolCall(b.callId, name, ns, FreeformInput(cfg, args), completed)
    else
      FunctionCall(b.callId, name, ns, OrEmptyObject(args), completed, completed && cfg.plaintext(ns, name))
  }

  function FlushCall(cfg: Config, b: Batch, completed: bool): Batch {
    if b.callId == "" then b
    else Push(b, CallItem(cfg, b, completed)).(callId := "", callName := "", callArgs := [])
  }

  function OnText(cfg: Config, b: Batch, text: Text, phase: Option<Phase>): Batch {
    var b1 := if b.text != [] && phase.Some? && b.phase != phase then FlushText(b, Some(Commentary)) else b;
    var b2 := FlushCall(cfg, FlushRaw(cfg, FlushSummary(cfg, b1)), true);
    if cfg.compaction then b2.(compactionText := b2.compactionText + text)
    else b2.(phase := if phase.Some? then phase else b2.phase, text := b2.text + text)
  }

  function OnThinking(cfg: Config, b: Batch, thinking: Text): Batch {
    var b1 := FlushCall(cfg, FlushRaw(cfg, FlushText(b, Some(Commentary))), true);
    b1.(summary := b1.summary + thinking)
  }

  function OnRawReasoning(cfg: Config, b: Batch, text: Text, asSummary: bool): Batch {
    var b1 := FlushCall(cfg, FlushText(b, Some(Commentary)), true);
    if asSummary && !cfg.hideThinking then
      var b2 := FlushRaw(cfg, b1);
      b2.(summary := b2.summary + text)
    else
      var b2 := if b1.summary != [] then FlushSummary(cfg, b1) else b1;
      b2.(raw := b2.raw + text)
  }

  function OnCallStart(cfg: Config, b: Batch, callId: string, name: string): Batch {
    var b1 := FlushCall(cfg, FlushRaw(cfg, FlushSummary(cfg, FlushText(b, Some(Commentary)))), true);
    b1.(callId := callId, callName := name, callArgs := [])
  }

  predicate CallIsMalformed(cfg: Config, b: Batch) {
    !ArgumentsUsable(cfg, b.callArgs) && b.callId != ""
    && !IsFreeform(cfg, b.callName) && !IsToolSearch(cfg, b.callName)
  }

  function OnCallEnd(cfg: Config, b: Batch): Batch {
    if CallIsMalformed(cfg, b)
    then FlushCall(cfg, b, false).(failure := Some((MalformedArguments, None)))
    else FlushCall(cfg, b, true)
  }

  function OnSearchEnd(cfg: Config, b: Batch, e: Event): Batch
    requires e.WebSearchEnd?
  {
    var b1 := FlushText(b, Some(Commentary));
    var b2 := if b1.summary != [] then FlushSummary(cfg, b1) else b1;
    var b3 := FlushCall(cfg, FlushRaw(cfg, b2), true);
    var status := if e.searchStatus.Some? then e.searchStatus.value else SearchCompleted;
    Push(b3, WebSearchCall(status, SearchActionOf(e.queries), OrNothing(e.sources)))
      .(sources := QueueSources(b3.sources, OrNothing(e.sources)))
  }

  function Step(cfg: Config, b: Batch, e: Event): Batch {
    match e
    case Heartbeat => b
    case AssistantBoundary =>
      FlushCall(cfg, FlushRaw(cfg, FlushSummary(cfg, FlushText(b, Some(Commentary)))), true)
    case TextDelta(text, phase) => OnText(cfg, b, text, phase)
    case ThinkingDelta(thinking) => OnThinking(cfg, b, thinking)
    case ThinkingSignature(signature) => FlushSummary(cfg, b.(signature := signature))
    case RedactedThinking(data) => b.(redacted := b.redacted + [data])
    case KiroRedactedReasoning(data) => b.(kiro := data)
    case ReasoningRawDelta(text, asSummary) => OnRawReasoning(cfg, b, text, asSummary)
    case ToolCallStart(id, name) => OnCallStart(cfg, b, id, name)
    case ToolCallDelta(arguments) => b.(callArgs := b.callArgs + arguments)
    case ToolCallEnd => OnCallEnd(cfg, b)
    case WebSearchBegin(_) => b
    case WebSearchEnd(_, _, _, _) => OnSearchEnd(cfg, b, e)
    case Error(message, status, errorType, code, retryable) =>
      b.(sawTerminal := true, failure := Some((Adapter(message, status, errorType, code), retryable)))
    case Incomplete(reason, note, retryable, endTurn) =>
      b.(sawTerminal := true, endTurn := endTurn, incomplete := Some(Because(reason, NonEmpty(note), retryable)))
    case Done(stopReason, endTurn) =>
      b.(sawTerminal := true, endTurn := endTurn, cleanDone := stopReason.None?,
         stopReason := if StopsShort(stopReason) then stopReason else b.stopReason)
  }

  function Steps(cfg: Config, b: Batch, events: seq<Event>): Batch
    decreases events
  {
    if events == [] then b else Steps(cfg, Step(cfg, b, events[0]), events[1..])
  }

  function Trailing(cfg: Config, b: Batch): Batch {
    var inferred := if b.cleanDone && b.failure.None? && b.incomplete.None? then Some(FinalAnswer) else None;
    var b1 := FlushRaw(cfg, FlushSummary(cfg, FlushText(b, inferred)));
    var b2 := FlushCall(cfg, b1, !(b.failure.Some? || b.incomplete.Some? || !b.sawTerminal));
    var b3 := if b2.kiro == [] then b2 else Push(b2, Reasoning(None, None, Some(Envelope([], [], [], b2.kiro)))).(kiro := []);
    if cfg.compaction && b.failure.None? && b.incomplete.None? && b.sawTerminal && b.stopReason.None?
    then Push(b3, Compaction(b.compactionText))
    else b3
  }

  function FinalOutcome(b: Batch): Outcome {
    var status :=
      if b.failure.Some? then Failed
      else if b.incomplete.Some? || b.stopReason.Some? || !b.sawTerminal then Incompleted
      else Status.Completed;
    var because :=
      if b.incomplete.Some? then b.incomplete
      else if !b.sawTerminal then Some(Because("adapter_eof", None, None))
      else if b.stopReason.Some? then Some(Because(ShortReason(b.stopReason), None, None))
      else None;
    match b.failure
    case None => Outcome(status, b.endTurn, None, None, because)
    case Some(f) => Outcome(status, b.endTurn, Some(f.0), f.1, because)
  }

  function Build(cfg: Config, events: seq<Event>): Response {
    var b := Steps(cfg, EMPTY, events);
    Response(Trailing(cfg, b).output, FinalOutcome(b))
  }

  method BuildResponseJSON(cfg: Config, events: seq<Event>) returns (response: Response)
    ensures response == Build(cfg, events)
  {
    var b := EMPTY;
    var i := 0;
    while i < |events|
      invariant 0 <= i <= |events|
      invariant Steps(cfg, b, events[i..]) == Steps(cfg, EMPTY, events)
    {
      assert events[i..][1..] == events[i + 1..];
      b := Step(cfg, b, events[i]);
      i := i + 1;
    }
    response := Response(Trailing(cfg, b).output, FinalOutcome(b));
  }
}
