/** Adapter events, Responses output items and stream frames, as the bridge exchanges them. */
module Responses {
  import opened Text

  datatype Phase = Commentary | FinalAnswer

  datatype Citation = Citation(url: string, title: Option<string>)

  datatype SearchStatus = SearchCompleted | SearchFailed

  datatype Event =
    | Heartbeat
    | TextDelta(text: Text, phase: Option<Phase>)
    | ThinkingDelta(thinking: Text)
    | ThinkingSignature(signature: Text)
    | RedactedThinking(data: Text)
    | KiroRedactedReasoning(data: Text)
    | ReasoningRawDelta(text: Text, asSummary: bool)
    | ToolCallStart(id: string, name: string)
    | ToolCallDelta(arguments: Text)
    | ToolCallEnd
    | AssistantBoundary
    | WebSearchBegin(id: string)
    | WebSearchEnd(id: string, queries: seq<string>, searchStatus: Option<SearchStatus>, sources: Option<seq<Citation>>)
    | Done(stopReason: Option<string>, endTurn: Option<bool>)
    | Incomplete(reason: string, note: Option<string>, retryable: Option<bool>, endTurn: Option<bool>)
    | Error(message: string, httpStatus: Option<int>, errorType: Option<string>, code: Option<string>, retryable: Option<bool>)

  /** The `ccxr1` reasoning envelope; an absent field is an empty one. */
  datatype Envelope = Envelope(sig: Text, red: seq<Text>, txt: Text, krc: Text)

  datatype ItemBody =
    | Message(text: Text, annotations: seq<Citation>, phase: Option<Phase>)
    | Reasoning(summary: Option<Text>, content: Option<Text>, envelope: Option<Envelope>)
    | FunctionCall(callId: string, name: string, namespace: Option<string>, arguments: Text, completed: bool, plaintext: bool)
    | CustomToolCall(callId: string, name: string, namespace: Option<string>, input: Text, completed: bool)
    | ToolSearchCall(callId: string, parsed: Text)
    | WebSearchCall(searchStatus: SearchStatus, action: SearchAction, sources: seq<Citation>)
    | Compaction(summaryText: Text)

  /** `WebSearchAction::Search`: a single query is carried twice, a batch only as `queries`. */
  datatype SearchAction = Search(query: Option<string>, queries: seq<string>)

  datatype Item = Item(id: nat, body: ItemBody)

  datatype Status = Completed | Failed | Incompleted

  datatype Failure =
    | Adapter(message: string, httpStatus: Option<int>, errorType: Option<string>, code: Option<string>)
    | MalformedArguments
    | TranslationLimit
    | Proxy(message: string)

  datatype Because = Because(reason: string, note: Option<string>, retryable: Option<bool>)

  /** How a turn ends: status, end-of-turn hint, the failure if any, and `incomplete_details`. */
  datatype Outcome = Outcome(
    status: Status, endTurn: Option<bool>, failure: Option<Failure>, retryable: Option<bool>, because: Option<Because>)

  datatype Channel = OutputText | SummaryText | RawText | CallArguments | CallInput

  datatype Frame =
    | Created
    | Added(index: nat, id: nat)
    | PartAdded(index: nat, id: nat, channel: Channel)
    | Delta(index: nat, id: nat, channel: Channel, delta: Text)
    | TextDone(index: nat, id: nat, channel: Channel, text: Text)
    | PartDone(index: nat, id: nat, channel: Channel, text: Text)
    | ItemDone(index: nat, item: Item)
    | Terminal(outcome: Outcome, output: seq<Item>)

  /** Static configuration of a turn; JSON parsing and schema coercion enter as functions. */
  datatype Config = Config(
    namespaces: map<string, (string, string)>,  // wire name -> (namespace, real name)
    freeformNames: set<string>,
    searchNames: set<string>,
    hideThinking: bool,
    compaction: bool,
    schemas: map<string, Text>,
    parses: Text -> bool,                       // JSON.parse accepts
    inputOf: Text -> Option<Text>,              // the string `.input` of a parsed object
    objectOf: Text -> Text,                     // the parsed object, or {}
    coerce: (Text, Text) -> Text,               // integer coercion under a schema
    plaintext: (Option<string>, string) -> bool // V2 collaboration marking
  )

  const EMPTY_OBJECT: Text := [0x7B, 0x7D]

  function OrEmptyObject(args: Text): Text {
    if args == [] then EMPTY_OBJECT else args
  }

  function RealName(cfg: Config, name: string): string {
    if name in cfg.namespaces then cfg.namespaces[name].1 else name
  }

  function Namespace(cfg: Config, name: string): Option<string> {
    if name in cfg.namespaces then Some(cfg.namespaces[name].0) else None
  }

  predicate IsToolSearch(cfg: Config, name: string) {
    RealName(cfg, name) in cfg.searchNames
  }

  predicate IsFreeform(cfg: Config, name: string) {
    !IsToolSearch(cfg, name) && name in cfg.freeformNames
  }

  function CoerceUnder(cfg: Config, schema: Option<Text>, args: Text): Text {
    match schema
    case None => args
    case Some(s) => cfg.coerce(args, s)
  }

  function SchemaFor(cfg: Config, name: string): Option<Text> {
    if name in cfg.schemas then Some(cfg.schemas[name]) else None
  }

  function FreeformInput(cfg: Config, args: Text): Text {
    match cfg.inputOf(args)
    case Some(input) => input
    case None => args
  }

  /** An empty buffer is a call without arguments; anything else must parse. */
  predicate ArgumentsUsable(cfg: Config, args: Text) {
    Trim(args) == [] || cfg.parses(Trim(args))
  }

  function SearchActionOf(queries: seq<string>): SearchAction {
    if |queries| <= 1 then
      var query := if queries == [] then "" else queries[0];
      Search(Some(query), [query])
    else Search(None, queries)
  }

  function Annotation(c: Citation): Citation {
    if c.title == Some("") then c.(title := None) else c
  }

  function Annotations(sources: seq<Citation>): seq<Citation> {
    seq(|sources|, i requires 0 <= i < |sources| => Annotation(sources[i]))
  }

  function OrNothing(sources: Option<seq<Citation>>): seq<Citation> {
    if sources.Some? then sources.value else []
  }

  /** Queue citations, at most one for each URL. */
  function QueueSources(pending: seq<Citation>, sources: seq<Citation>): seq<Citation>
    decreases sources
  {
    if sources == [] then pending
    else if exists c :: c in pending && c.url == sources[0].url then QueueSources(pending, sources[1..])
    else QueueSources(pending + [sources[0]], sources[1..])
  }

  predicate StopsShort(stopReason: Option<string>) {
    stopReason == Some("max_tokens") || stopReason == Some("content_filter")
  }

  function ShortReason(stopReason: Option<string>): string {
    if stopReason == Some("max_tokens") then "max_output_tokens" else "content_filter"
  }

  function NonEmpty(note: Option<string>): Option<string> {
    if note == Some("") then None else note
  }

  function FailedWith(failure: Failure, retryable: Option<bool>): Outcome {
    Outcome(Failed, None, Some(failure), retryable, None)
  }

  function IncompleteBecause(reason: string): Outcome {
    Outcome(Incompleted, None, None, None, Some(Because(reason, None, None)))
  }

  function DoneOutcome(e: Event): Outcome
    requires e.Done?
  {
    if StopsShort(e.stopReason)
    then IncompleteBecause(ShortReason(e.stopReason)).(endTurn := e.endTurn)
    else Outcome(Status.Completed, e.endTurn, None, None, None)
  }

  function IncompleteOutcome(e: Event): Outcome
    requires e.Incomplete?
  {
    Outcome(Incompleted, e.endTurn, None, None, Some(Because(e.reason, NonEmpty(e.note), e.retryable)))
  }

  function ErrorOutcome(e: Event): Outcome
    requires e.Error?
  {
    FailedWith(Adapter(e.message, e.httpStatus, e.errorType, e.code), e.retryable)
  }

  const MALFORMED := FailedWith(MalformedArguments, None)
  const OVERFLOW := FailedWith(TranslationLimit, None)
  const ADAPTER_EOF := IncompleteBecause("adapter_eof")
  const STALLED := IncompleteBecause("upstream_stall_timeout")

  predicate IsLimitError(e: Event) {
    e.Error? && e.code == Some("translation_buffer_limit")
  }

  function Bodies(items: seq<Item>): seq<ItemBody> {
    seq(|items|, i requires 0 <= i < |items| => items[i].body)
  }
}
