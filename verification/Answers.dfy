/**
 What the messages and the searches of a turn say, and how it ends: read off the list of events alone, in every mode
 but compaction.
 */
module Answers {
  import opened Text
  import opened Responses
  import opened Translator
  import P = Progress
  import R = Refinement

  // ---- Reading the events ----

  datatype Spoken = Spoken(text: Text, phase: Option<Phase>)

  /** Messages and searches told so far, what is still open of each, and the citations for the next message. */
  datatype Log = Log(
    messages: seq<ItemBody>, open: Option<Spoken>, queued: seq<Citation>,
    searches: seq<ItemBody>, pending: Option<string>)

  const NOTHING := Log([], None, [], [], None)

  function Cited(c: Citation): Citation {
    Citation(c.url, if c.title == Some("") then None else c.title)
  }

  function AllCited(sources: seq<Citation>): seq<Citation> {
    if sources == [] then [] else AllCited(sources[..|sources| - 1]) + [Cited(sources[|sources| - 1])]
  }

  /** Each URL once, the first citation of it. */
  function Queued(queued: seq<Citation>, sources: seq<Citation>): seq<Citation> {
    if sources == [] then queued
    else
      var (front, last) := (Queued(queued, sources[..|sources| - 1]), sources[|sources| - 1]);
      if exists c :: c in front && c.url == last.url then front else front + [last]
  }

  /** The message ends: it takes the citations, and the phase of what comes after unless it brought its own. */
  function Told(l: Log, after: Option<Phase>): Log {
    if l.open.None? then l
    else
      var phase := if l.open.value.phase.Some? then l.open.value.phase else after;
      l.(messages := l.messages + [Message(l.open.value.text, AllCited(l.queued), phase)], open := None, queued := [])
  }

  function Asked(queries: seq<string>): SearchAction {
    if |queries| > 1 then Search(None, queries)
    else if |queries| == 1 then Search(Some(queries[0]), queries)
    else Search(Some(""), [""])
  }

  /** The search ends. */
  function Looked(l: Log, status: SearchStatus, queries: seq<string>, sources: seq<Citation>): Log {
    if l.pending.None? then l
    else l.(searches := l.searches + [WebSearchCall(status, Asked(queries), sources)], pending := None)
  }

  function SayText(l: Log, text: Text, phase: Option<Phase>): Log {
    var anew := l.open.None? || (phase.Some? && phase != l.open.value.phase);
    if anew then Told(l, Some(Commentary)).(open := Some(Spoken(text, phase)))
    else l.(open := Some(Spoken(l.open.value.text + text, l.open.value.phase)))
  }

  function BeginSearch(l: Log, id: string): Log {
    Looked(l, SearchCompleted, [], []).(pending := Some(id))
  }

  /** An end without its begin makes a search of its own. */
  function EndSearch(l: Log, id: string, queries: seq<string>, status: Option<SearchStatus>, sources: seq<Citation>): Log {
    var begun := if l.pending == Some(id) then l else BeginSearch(l, id);
    Looked(begun, if status == Some(SearchFailed) then SearchFailed else SearchCompleted, queries, sources)
      .(queued := Queued(l.queued, sources))
  }

  function Heard(cfg: Config, l: Log, e: Event): Log {
    match e
    case TextDelta(text, phase) => SayText(l, text, phase)
    case ThinkingDelta(_) => if cfg.hideThinking then l else Told(l, Some(Commentary))
    case ReasoningRawDelta(_, _) => if cfg.hideThinking then l else Told(l, Some(Commentary))
    case AssistantBoundary => Told(l, Some(Commentary))
    case ToolCallStart(_, _) => Told(l, Some(Commentary))
    case WebSearchBegin(id) => BeginSearch(Told(l, Some(Commentary)), id)
    case WebSearchEnd(id, queries, status, sources) =>
      EndSearch(l, id, queries, status, if sources.Some? then sources.value else [])
    case Done(stopReason, _) =>
      Looked(Told(l, if stopReason.None? || stopReason == Some("") then Some(FinalAnswer) else None),
             SearchCompleted, [], [])
    case Incomplete(_, _, _, _) => Looked(Told(l, None), SearchFailed, [], [])
    case Error(_, _, _, _, _) => if IsLimitError(e) then l.(pending := None) else Looked(Told(l, None), SearchFailed, [], [])
    case _ => l
  }

  function LogOf(cfg: Config, events: seq<Event>): Log {
    if events == [] then NOTHING else Heard(cfg, LogOf(cfg, events[..|events| - 1]), events[|events| - 1])
  }

  // ---- What the bridge has of it ----

  function MessagesOf(items: seq<Item>): seq<ItemBody> {
    if items == [] then []
    else
      var body := items[|items| - 1].body;
      MessagesOf(items[..|items| - 1]) + (if body.Message? then [body] else [])
  }

  function SearchesOf(items: seq<Item>): seq<ItemBody> {
    if items == [] then []
    else
      var body := items[|items| - 1].body;
      SearchesOf(items[..|items| - 1]) + (if body.WebSearchCall? then [body] else [])
  }

  function View(s: State): Log {
    Log(MessagesOf(s.finished),
        if s.msg.None? then None else Some(Spoken(s.msg.value.text, s.msg.value.phase)),
        s.sources,
        SearchesOf(s.finished),
        if s.search.None? then None else Some(s.search.value.eventId))
  }

  lemma OfSnoc(items: seq<Item>, item: Item)
    ensures MessagesOf(items + [item]) == MessagesOf(items) + (if item.body.Message? then [item.body] else [])
    ensures SearchesOf(items + [item]) == SearchesOf(items) + (if item.body.WebSearchCall? then [item.body] else [])
  {
    assert (items + [item])[..|items|] == items;
  }

  /** Nothing happened to messages and searches. */
  ghost predicate Same(s: State, t: State) {
    View(t) == View(s)
  }

  lemma SummarySame(s: State)
    ensures Same(s, CloseSummary(s))
  {
    if s.summary.Some? { OfSnoc(s.finished, CloseSummary(s).finished[|s.finished|]); }
  }

  lemma RawSame(s: State)
    ensures Same(s, CloseRaw(s))
  {
    if s.raw.Some? { OfSnoc(s.finished, CloseRaw(s).finished[|s.finished|]); }
  }

  lemma CallClosedSame(cfg: Config, s: State)
    ensures Same(s, CloseCall(cfg, s))
  {
    if s.call.Some? { OfSnoc(s.finished, CloseCall(cfg, s).finished[|s.finished|]); }
  }

  lemma CallFailedSame(cfg: Config, s: State)
    ensures Same(s, FailCall(cfg, s))
  {
    if s.call.Some? { OfSnoc(s.finished, FailCall(cfg, s).finished[|s.finished|]); }
  }

  lemma CallSame(cfg: Config, s: State)
    ensures Same(s, CloseCall(cfg, s)) && Same(s, FailCall(cfg, s))
  {
    CallClosedSame(cfg, s);
    CallFailedSame(cfg, s);
  }

  lemma ItemSame(s: State, e: Envelope)
    ensures Same(s, EnvelopeItem(s, e))
  {
    OfSnoc(s.finished, Item(s.nextId, Reasoning(None, None, Some(e))));
  }

  lemma FlushSame(s: State)
    ensures Same(s, FlushHiddenEnvelope(s))
  {
    if HasEnvelope(s) {
      ItemSame(DropEnvelope(s.(hiddenThinking := [])), TakenEnvelope(s, s.hiddenThinking).value);
    }
  }

  lemma HiddenRawSame(s: State)
    ensures Same(s, FlushHiddenRaw(s))
  {
    if s.hiddenRaw != [] { ItemSame(s.(hiddenRaw := []), Envelope([], [], s.hiddenRaw, [])); }
  }

  lemma KiroSame(s: State)
    ensures Same(s, FlushKiro(s))
  {
    if s.kiro != [] { ItemSame(s.(kiro := []), Envelope([], [], [], s.kiro)); }
  }

  lemma {:induction false} AnnotationsCite(sources: seq<Citation>)
    ensures Annotations(sources) == AllCited(sources)
  {
    if sources != [] {
      var (front, last) := (sources[..|sources| - 1], sources[|sources| - 1]);
      AnnotationsCite(front);
      assert Annotations(sources) == Annotations(front) + [Annotation(last)];
    }
  }

  lemma MessageTold(s: State, inferred: Option<Phase>)
    ensures View(CloseMessage(s, inferred)) == Told(View(s), inferred)
  {
    if s.msg.Some? {
      AnnotationsCite(s.sources);
      OfSnoc(s.finished, CloseMessage(s, inferred).finished[|s.finished|]);
    }
  }

  lemma SearchLooked(s: State, status: SearchStatus, queries: seq<string>, sources: seq<Citation>)
    ensures View(CloseSearch(s, status, queries, sources)) == Looked(View(s), status, queries, sources)
  {
    if s.search.Some? {
      OfSnoc(s.finished, CloseSearch(s, status, queries, sources).finished[|s.finished|]);
      assert |queries| == 1 ==> queries == [queries[0]];
    }
  }

  lemma {:induction false} QueueFront(queued: seq<Citation>, c: Citation, rest: seq<Citation>)
    ensures Queued(queued, [c] + rest) == Queued(Queued(queued, [c]), rest)
  {
    if rest == [] {
      assert [c] + rest == [c];
    } else {
      var front := rest[..|rest| - 1];
      assert ([c] + rest)[..|rest|] == [c] + front;
      QueueFront(queued, c, front);
    }
  }

  lemma {:induction false} QueueIsQueued(queued: seq<Citation>, sources: seq<Citation>)
    ensures QueueSources(queued, sources) == Queued(queued, sources)
    decreases sources
  {
    if sources != [] {
      var (c, rest) := (sources[0], sources[1..]);
      assert sources == [c] + rest;
      QueueFront(queued, c, rest);
      assert [c][..0] == [];
      assert Queued(queued, [c]) == if exists x :: x in queued && x.url == c.url then queued else queued + [c];
      QueueIsQueued(Queued(queued, [c]), rest);
    }
  }

  // ---- The handlers ----

  lemma TextClosesTold(s: State, inferred: Option<Phase>)
    ensures View(FlushHiddenRaw(CloseRaw(CloseSummary(CloseMessage(s, inferred))))) == Told(View(s), inferred)
  {
    MessageTold(s, inferred);
    SummarySame(CloseMessage(s, inferred));
    RawSame(CloseSummary(CloseMessage(s, inferred)));
    HiddenRawSame(CloseRaw(CloseSummary(CloseMessage(s, inferred))));
  }

  lemma SettledSame(s: State)
    ensures Same(s, FlushHiddenRaw(CloseRaw(FlushHiddenEnvelope(CloseSummary(s)))))
  {
    SummarySame(s);
    FlushSame(CloseSummary(s));
    RawSame(FlushHiddenEnvelope(CloseSummary(s)));
    HiddenRawSame(CloseRaw(FlushHiddenEnvelope(CloseSummary(s))));
  }

  lemma OpensMessage(s: State, phase: Option<Phase>)
    requires s.msg.None?
    ensures View(OpenMessageItem(s, phase)) == View(s).(open := Some(Spoken([], phase)))
    ensures OpenMessageItem(s, phase).msg.Some?
  {
  }

  lemma AppendsText(s: State, text: Text)
    requires s.msg.Some?
    ensures
      var m := View(s).open.value;
      View(AppendMessage(s, text)) == View(s).(open := Some(Spoken(m.text + text, m.phase)))
  {
  }

  lemma SaysText(s: State, text: Text, phase: Option<Phase>)
    ensures
      var s1 := if PhaseChanges(s, phase) then CloseMessage(s, Some(Commentary)) else s;
      var s2 := if s1.msg.None? then OpenMessageItem(s1, phase) else s1;
      View(AppendMessage(s2, text)) == SayText(View(s), text, phase)
  {
    var s1 := if PhaseChanges(s, phase) then CloseMessage(s, Some(Commentary)) else s;
    MessageTold(s, Some(Commentary));
    if s1.msg.None? {
      OpensMessage(s1, phase);
      AppendsText(OpenMessageItem(s1, phase), text);
      assert [] + text == text;
    } else {
      AppendsText(s1, text);
    }
  }

  lemma TextHeard(cfg: Config, s: State, text: Text, phase: Option<Phase>)
    ensures View(OnText(cfg, s, text, phase)) == SayText(View(s), text, phase)
  {
    SettledSame(s);
    CallSame(cfg, FlushHiddenRaw(CloseRaw(FlushHiddenEnvelope(CloseSummary(s)))));
    SaysText(CloseBeforeText(cfg, s), text, phase);
  }

  lemma AppendsSame(s: State, text: Text)
    ensures Same(s, AppendSummary(s, text)) && Same(s, AppendRaw(s, text))
  {
  }

  lemma ThinkingHeard(cfg: Config, s: State, thinking: Text)
    ensures View(OnThinking(cfg, s, thinking)) == if cfg.hideThinking then View(s) else Told(View(s), Some(Commentary))
  {
    if cfg.hideThinking {
      HiddenRawSame(s);
    } else {
      var s1 := CloseMessage(s, Some(Commentary));
      MessageTold(s, Some(Commentary));
      RawSame(s1);
      HiddenRawSame(CloseRaw(s1));
      CallSame(cfg, FlushHiddenRaw(CloseRaw(s1)));
      AppendsSame(CloseCall(cfg, FlushHiddenRaw(CloseRaw(s1))), thinking);
    }
  }

  lemma RawHeard(cfg: Config, s: State, text: Text, asSummary: bool)
    ensures View(OnRawReasoning(cfg, s, text, asSummary))
         == if cfg.hideThinking then View(s) else Told(View(s), Some(Commentary))
  {
    if !cfg.hideThinking {
      var s1 := CloseMessage(s, Some(Commentary));
      MessageTold(s, Some(Commentary));
      CallSame(cfg, s1);
      RawSame(CloseCall(cfg, s1));
      SummarySame(CloseCall(cfg, s1));
      AppendsSame(CloseRaw(CloseCall(cfg, s1)), text);
      AppendsSame(CloseSummary(CloseCall(cfg, s1)), text);
    }
  }

  lemma SignatureSame(s: State, signature: Text)
    ensures Same(s, OnSignature(s, signature))
  {
    SummarySame(s.(signature := signature));
    FlushSame(s.(signature := signature));
  }

  lemma BoundaryHeard(cfg: Config, s: State)
    ensures View(OnBoundary(cfg, s)) == Told(View(s), Some(Commentary))
  {
    TextClosesTold(s, Some(Commentary));
    var s1 := FlushHiddenRaw(CloseRaw(CloseSummary(CloseMessage(s, Some(Commentary)))));
    CallSame(cfg, s1);
    FlushSame(CloseCall(cfg, s1));
  }

  lemma OpenCallSame(cfg: Config, s: State, callId: string, name: string)
    ensures Same(s, OpenCallItem(cfg, s, callId, name))
  {
  }

  lemma CallStartHeard(cfg: Config, s: State, callId: string, name: string)
    ensures View(OnCallStart(cfg, s, callId, name)) == Told(View(s), Some(Commentary))
  {
    var s1 := CloseMessage(s, Some(Commentary));
    MessageTold(s, Some(Commentary));
    SettledSame(s1);
    var s2 := FlushHiddenRaw(CloseRaw(FlushHiddenEnvelope(CloseSummary(s1))));
    CallSame(cfg, s2);
    OpenCallSame(cfg, CloseCall(cfg, s2), callId, name);
  }

  lemma CallDeltaSame(s: State, delta: Text)
    ensures Same(s, OnCallDelta(s, delta))
  {
  }

  lemma EndSame(s: State, o: Outcome)
    ensures Same(s, EndWith(s, o))
  {
  }

  lemma CallEndSame(cfg: Config, s: State)
    ensures Same(s, OnCallEnd(cfg, s))
  {
    CallSame(cfg, s);
    EndSame(FailCall(cfg, s), MALFORMED);
  }

  lemma OpensSearch(s: State, id: string)
    ensures View(OpenSearchItem(s, id)) == View(s).(pending := Some(id))
  {
  }

  lemma SearchBeginHeard(cfg: Config, s: State, id: string)
    ensures View(OnSearchBegin(cfg, s, id)) == BeginSearch(Told(View(s), Some(Commentary)), id)
  {
    TextClosesTold(s, Some(Commentary));
    var s1 := FlushHiddenRaw(CloseRaw(CloseSummary(CloseMessage(s, Some(Commentary)))));
    CallSame(cfg, s1);
    SearchLooked(CloseCall(cfg, s1), SearchCompleted, [], []);
    OpensSearch(CloseSearch(CloseCall(cfg, s1), SearchCompleted, [], []), id);
  }

  lemma EnsureHeard(s: State, id: string)
    ensures View(EnsureSearch(s, id)) == if View(s).pending == Some(id) then View(s) else BeginSearch(View(s), id)
  {
    SearchLooked(s, SearchCompleted, [], []);
    OpensSearch(CloseSearch(s, SearchCompleted, [], []), id);
  }

  lemma SearchSettles(s: State, e: Event, status: SearchStatus)
    requires e.WebSearchEnd? && status == if e.searchStatus.Some? then e.searchStatus.value else SearchCompleted
    ensures
      var begun := if View(s).pending == Some(e.id) then View(s) else BeginSearch(View(s), e.id);
      View(CloseSearch(EnsureSearch(s, e.id), status, e.queries, OrNothing(e.sources)))
        == Looked(begun, if e.searchStatus == Some(SearchFailed) then SearchFailed else SearchCompleted,
                  e.queries, OrNothing(e.sources))
  {
    EnsureHeard(s, e.id);
    SearchLooked(EnsureSearch(s, e.id), status, e.queries, OrNothing(e.sources));
    assert status == if e.searchStatus == Some(SearchFailed) then SearchFailed else SearchCompleted;
  }

  lemma QueuesOn(s: State, sources: seq<Citation>)
    ensures View(s.(sources := QueueSources(s.sources, sources))) == View(s).(queued := Queued(View(s).queued, sources))
  {
    QueueIsQueued(s.sources, sources);
  }

  lemma LookedQueues(l: Log, id: string, status: SearchStatus, queries: seq<string>, sources: seq<Citation>)
    ensures
      var begun := if l.pending == Some(id) then l else BeginSearch(l, id);
      Looked(begun, status, queries, sources).queued == l.queued
  {
  }

  lemma SearchEndHeard(s: State, e: Event)
    requires e.WebSearchEnd?
    ensures View(OnSearchEnd(s, e))
         == EndSearch(View(s), e.id, e.queries, e.searchStatus, if e.sources.Some? then e.sources.value else [])
  {
    var status := if e.searchStatus.Some? then e.searchStatus.value else SearchCompleted;
    var s2 := CloseSearch(EnsureSearch(s, e.id), status, e.queries, OrNothing(e.sources));
    SearchSettles(s, e, status);
    QueuesOn(s2, OrNothing(e.sources));
    LookedQueues(View(s), e.id, if e.searchStatus == Some(SearchFailed) then SearchFailed else SearchCompleted,
                 e.queries, OrNothing(e.sources));
  }

  lemma AbandonHeard(cfg: Config, s: State)
    ensures View(Abandon(cfg, s)) == Looked(Told(View(s), None), SearchFailed, [], [])
  {
    TextClosesTold(s, None);
    var s1 := FlushHiddenRaw(CloseRaw(CloseSummary(CloseMessage(s, None))));
    CallSame(cfg, s1);
    SearchLooked(FailCall(cfg, s1), SearchFailed, [], []);
  }

  lemma CloseOutHeard(cfg: Config, s: State, inferred: Option<Phase>)
    ensures View(CloseOut(cfg, s, inferred)) == Looked(Told(View(s), inferred), SearchCompleted, [], [])
  {
    TextClosesTold(s, inferred);
    var s1 := FlushHiddenRaw(CloseRaw(CloseSummary(CloseMessage(s, inferred))));
    CallSame(cfg, s1);
    SearchLooked(CloseCall(cfg, s1), SearchCompleted, [], []);
    var s2 := CloseSearch(CloseCall(cfg, s1), SearchCompleted, [], []);
    FlushSame(s2);
    KiroSame(FlushHiddenEnvelope(s2));
  }

  lemma DoneHeard(cfg: Config, s: State, e: Event)
    requires !cfg.compaction && e.Done?
    ensures View(OnDone(cfg, s, e))
         == Looked(Told(View(s), if e.stopReason.None? || e.stopReason == Some("") then Some(FinalAnswer) else None),
                   SearchCompleted, [], [])
  {
    var inferred := if e.stopReason.None? || e.stopReason == Some("") then Some(FinalAnswer) else None;
    CloseOutHeard(cfg, s, inferred);
    EndSame(CloseOut(cfg, s, inferred), DoneOutcome(e));
  }

  lemma IncompleteHeard(cfg: Config, s: State, e: Event)
    requires e.Incomplete?
    ensures View(OnIncomplete(cfg, s, e)) == Looked(Told(View(s), None), SearchFailed, [], [])
  {
    AbandonHeard(cfg, s);
    FlushSame(Abandon(cfg, s));
    EndSame(FlushHiddenEnvelope(Abandon(cfg, s)), IncompleteOutcome(e));
  }

  lemma ErrorHeard(cfg: Config, s: State, e: Event)
    requires e.Error? && !IsLimitError(e)
    ensures View(OnError(cfg, s, e)) == Looked(Told(View(s), None), SearchFailed, [], [])
  {
    AbandonHeard(cfg, s);
    EndSame(Abandon(cfg, s), ErrorOutcome(e));
  }

  lemma OverflowHeard(s: State)
    ensures View(Overflow(s)) == View(s).(pending := None)
  {
    EndSame(s.(call := None, search := None), OVERFLOW);
  }

  // ---- Every step of a run ----

  lemma CallEventHeard(cfg: Config, s: State, e: Event)
    requires e.ToolCallStart? || e.ToolCallDelta? || e.ToolCallEnd?
    ensures View(StepTool(cfg, s, e)) == Heard(cfg, View(s), e)
  {
    match e
    case ToolCallStart(id, name) => CallStartHeard(cfg, s, id, name);
    case ToolCallDelta(arguments) => CallDeltaSame(s, arguments);
    case ToolCallEnd => CallEndSame(cfg, s);
  }

  lemma SearchBeginsHeard(cfg: Config, s: State, e: Event)
    requires e.WebSearchBegin?
    ensures View(StepTool(cfg, s, e)) == Heard(cfg, View(s), e)
  {
    SearchBeginHeard(cfg, s, e.id);
  }

  lemma SearchEndsHeard(cfg: Config, s: State, e: Event, l: Log)
    requires e.WebSearchEnd? && l == View(s)
    ensures View(OnSearchEnd(s, e)) == Heard(cfg, l, e)
  {
    SearchEndHeard(s, e);
    HeardSearchEnd(cfg, l, e);
  }

  lemma HeardSearchEnd(cfg: Config, l: Log, e: Event)
    requires e.WebSearchEnd?
    ensures Heard(cfg, l, e) == EndSearch(l, e.id, e.queries, e.searchStatus, if e.sources.Some? then e.sources.value else [])
  {
  }

  lemma ContentHeard(cfg: Config, s: State, e: Event)
    requires !IsTerminal(e) && !IsToolEvent(e)
    ensures View(StepContent(cfg, s, e)) == Heard(cfg, View(s), e)
  {
    match e
    case Heartbeat =>
    case TextDelta(text, phase) => TextHeard(cfg, s, text, phase);
    case ThinkingDelta(thinking) => ThinkingHeard(cfg, s, thinking);
    case ThinkingSignature(signature) => SignatureSame(s, signature);
    case RedactedThinking(_) =>
    case KiroRedactedReasoning(_) =>
    case ReasoningRawDelta(text, asSummary) => RawHeard(cfg, s, text, asSummary);
    case AssistantBoundary => BoundaryHeard(cfg, s);
  }

  lemma HeardDone(cfg: Config, l: Log, e: Event)
    requires e.Done?
    ensures Heard(cfg, l, e)
         == Looked(Told(l, if e.stopReason.None? || e.stopReason == Some("") then Some(FinalAnswer) else None),
                   SearchCompleted, [], [])
  {
  }

  lemma HeardFailed(cfg: Config, l: Log, e: Event)
    requires e.Incomplete? || (e.Error? && !IsLimitError(e))
    ensures Heard(cfg, l, e) == Looked(Told(l, None), SearchFailed, [], [])
  {
  }

  lemma DoneStepHeard(cfg: Config, s: State, e: Event, l: Log)
    requires !cfg.compaction && e.Done? && l == View(s)
    ensures View(OnDone(cfg, s, e)) == Heard(cfg, l, e)
  {
    DoneHeard(cfg, s, e);
    HeardDone(cfg, l, e);
  }

  lemma IncompleteStepHeard(cfg: Config, s: State, e: Event, l: Log)
    requires e.Incomplete? && l == View(s)
    ensures View(OnIncomplete(cfg, s, e)) == Heard(cfg, l, e)
  {
    IncompleteHeard(cfg, s, e);
    HeardFailed(cfg, l, e);
  }

  lemma ErrorStepHeard(cfg: Config, s: State, e: Event, l: Log)
    requires e.Error? && l == View(s)
    ensures View(OnError(cfg, s, e)) == Heard(cfg, l, e)
  {
    if IsLimitError(e) {
      OverflowHeard(s);
    } else {
      ErrorHeard(cfg, s, e);
      HeardFailed(cfg, l, e);
    }
  }

  lemma StepHeard(cfg: Config, s: State, e: Event)
    requires !cfg.compaction
    ensures View(Step(cfg, s, e)) == Heard(cfg, View(s), e)
  {
    if e.Done? {
      DoneStepHeard(cfg, s, e, View(s));
    } else if e.Incomplete? {
      IncompleteStepHeard(cfg, s, e, View(s));
    } else if e.Error? {
      ErrorStepHeard(cfg, s, e, View(s));
    } else if e.WebSearchBegin? {
      SearchBeginsHeard(cfg, s, e);
    } else if e.WebSearchEnd? {
      SearchEndsHeard(cfg, s, e, View(s));
    } else if IsToolEvent(e) {
      CallEventHeard(cfg, s, e);
    } else {
      ContentHeard(cfg, s, e);
    }
  }

  lemma LogSnoc(cfg: Config, es: seq<Event>, e: Event)
    ensures LogOf(cfg, es + [e]) == Heard(cfg, LogOf(cfg, es), e)
  {
    assert (es + [e])[..|es|] == es;
  }

  /** `es` is the part of the events that the turn has taken in, `more` what comes. */
  lemma {:induction false} StepsHeard(cfg: Config, s: State, es: seq<Event>, more: seq<Event>)
    requires !cfg.compaction && View(s) == LogOf(cfg, es)
    ensures View(Steps(cfg, s, more)) == LogOf(cfg, es + more[..R.Consumed(cfg, s, more)])
    decreases |more|
  {
    if s.outcome.Some? || more == [] {
      R.TakesNothing(cfg, s, es, more);
    } else {
      StepHeard(cfg, s, more[0]);
      LogSnoc(cfg, es, more[0]);
      StepsHeard(cfg, Step(cfg, s, more[0]), es + [more[0]], more[1..]);
      R.TakesOne(cfg, s, es, more);
    }
  }

  /**
   The messages and the searches of a turn, each in order, are those its events tell: every message with the text
   between two events that end it, its phase and the citations found before it; every search with what its own end
   said, or as completed or failed if it never came. An input that just ends fails the open search.
   */
  lemma MessagesAndSearchesAreTold(cfg: Config, events: seq<Event>)
    requires !cfg.compaction
    ensures
      var heard := LogOf(cfg, events[..R.Consumed(cfg, START, events)]);
      var all := if Steps(cfg, START, events).outcome.None? then Looked(Told(heard, None), SearchFailed, [], []) else heard;
      && MessagesOf(Run(cfg, events).finished) == all.messages
      && SearchesOf(Run(cfg, events).finished) == all.searches
  {
    StepsHeard(cfg, START, [], events);
    var taken := events[..R.Consumed(cfg, START, events)];
    assert [] + taken == taken;
    var s := Steps(cfg, START, events);
    if s.outcome.None? {
      AbandonHeard(cfg, s);
      EndSame(Abandon(cfg, s), ADAPTER_EOF);
    }
  }

  // ---- How the turn ends ----

  /** What an event makes of the turn when it ends it. */
  function EndOf(e: Event): Option<Outcome> {
    match e
    case Done(stopReason, endTurn) =>
      if stopReason == Some("max_tokens")
      then Some(Outcome(Incompleted, endTurn, None, None, Some(Because("max_output_tokens", None, None))))
      else if stopReason == Some("content_filter")
      then Some(Outcome(Incompleted, endTurn, None, None, Some(Because("content_filter", None, None))))
      else Some(Outcome(Status.Completed, endTurn, None, None, None))
    case Incomplete(reason, note, retryable, endTurn) =>
      Some(Outcome(Incompleted, endTurn, None, None, Some(Because(reason, if note == Some("") then None else note, retryable))))
    case Error(message, httpStatus, errorType, code, retryable) =>
      if code == Some("translation_buffer_limit") then Some(Outcome(Failed, None, Some(TranslationLimit), None, None))
      else Some(Outcome(Failed, None, Some(Adapter(message, httpStatus, errorType, code)), retryable, None))
    case ToolCallEnd => Some(Outcome(Failed, None, Some(MalformedArguments), None, None))
    case _ => None
  }

  lemma ToolEnds(cfg: Config, s: State, e: Event)
    requires s.outcome.None? && IsToolEvent(e)
    ensures StepTool(cfg, s, e).outcome.None? || (e.ToolCallEnd? && StepTool(cfg, s, e).outcome == EndOf(e))
  {
    match e
    case ToolCallStart(id, name) => P.CallStartExtends(cfg, s, id, name);
    case ToolCallDelta(arguments) => P.CallDeltaExtends(s, arguments);
    case ToolCallEnd =>
    case WebSearchBegin(id) => P.SearchBeginExtends(cfg, s, id);
    case WebSearchEnd(_, _, _, _) => P.SearchEndExtends(s, e);
  }

  lemma DoneEnds(cfg: Config, s: State, e: Event)
    requires e.Done?
    ensures OnDone(cfg, s, e).outcome == EndOf(e)
  {
    EndIs(s, DoneOutcome(e));
  }

  lemma EndIs(s: State, o: Outcome)
    ensures EndWith(s, o).outcome == Some(o)
  {
  }

  lemma IncompleteEnds(cfg: Config, s: State, e: Event)
    requires e.Incomplete?
    ensures OnIncomplete(cfg, s, e).outcome == EndOf(e)
  {
    EndIs(FlushHiddenEnvelope(Abandon(cfg, s)), IncompleteOutcome(e));
  }

  lemma ErrorEnds(cfg: Config, s: State, e: Event)
    requires e.Error?
    ensures OnError(cfg, s, e).outcome == EndOf(e)
  {
    EndIs(Abandon(cfg, s), ErrorOutcome(e));
  }

  lemma TerminalEnds(cfg: Config, s: State, e: Event)
    requires IsTerminal(e)
    ensures StepTerminal(cfg, s, e).outcome == EndOf(e)
  {
    match e
    case Done(_, _) => DoneEnds(cfg, s, e);
    case Incomplete(_, _, _, _) => IncompleteEnds(cfg, s, e);
    case Error(_, _, _, _, _) => ErrorEnds(cfg, s, e);
  }

  lemma StepEnds(cfg: Config, s: State, e: Event)
    requires s.outcome.None?
    ensures IsTerminal(e) ==> Step(cfg, s, e).outcome.Some?
    ensures Step(cfg, s, e).outcome.Some? ==> (IsTerminal(e) || e.ToolCallEnd?) && Step(cfg, s, e).outcome == EndOf(e)
  {
    if IsTerminal(e) {
      TerminalEnds(cfg, s, e);
    } else if IsToolEvent(e) {
      ToolEnds(cfg, s, e);
    } else {
      P.ContentExtends(cfg, s, e);
    }
  }

  /** The ends that come from outside the events: each fails the open search and says why. */
  lemma OutsideEndsAreTold(cfg: Config, s: State, message: string)
    ensures
      var told := Looked(Told(View(s), None), SearchFailed, [], []);
      && View(OnEof(cfg, s)) == told && View(OnStall(cfg, s)) == told && View(OnThrow(cfg, s, message)) == told
    ensures OnEof(cfg, s).outcome == Some(Outcome(Incompleted, None, None, None, Some(Because("adapter_eof", None, None))))
    ensures OnStall(cfg, s).outcome
         == Some(Outcome(Incompleted, None, None, None, Some(Because("upstream_stall_timeout", None, None))))
    ensures OnThrow(cfg, s, message).outcome == Some(Outcome(Failed, None, Some(Proxy(message)), None, None))
  {
    AbandonHeard(cfg, s);
    EndSame(Abandon(cfg, s), ADAPTER_EOF);
    EndSame(Abandon(cfg, s), STALLED);
    EndSame(Abandon(cfg, s), FailedWith(Proxy(message), None));
    EndIs(Abandon(cfg, s), ADAPTER_EOF);
    EndIs(Abandon(cfg, s), STALLED);
    EndIs(Abandon(cfg, s), FailedWith(Proxy(message), None));
  }

  /** How the events taken in, and so the turn, end: only the last one can end it, and a terminal one does. */
  ghost predicate EndsAsTold(s: State, taken: seq<Event>, all: seq<Event>) {
    && (s.outcome.None? ==> taken == all)
    && (s.outcome.Some? ==>
          && taken != [] && s.outcome == EndOf(taken[|taken| - 1])
          && (IsTerminal(taken[|taken| - 1]) || taken[|taken| - 1].ToolCallEnd?))
    && forall k :: 0 <= k < |taken| - (if s.outcome.Some? then 1 else 0) ==> !IsTerminal(taken[k])
  }

  lemma {:induction false} StepsEnd(cfg: Config, s: State, events: seq<Event>)
    requires s.outcome.None?
    ensures EndsAsTold(Steps(cfg, s, events), events[..R.Consumed(cfg, s, events)], events)
    decreases |events|
  {
    if events != [] {
      StepEnds(cfg, s, events[0]);
      var s1 := Step(cfg, s, events[0]);
      var n := R.Consumed(cfg, s1, events[1..]);
      if s1.outcome.Some? {
        assert n == 0 && Steps(cfg, s, events) == s1;
        assert events[..1] == [events[0]];
      } else {
        StepsEnd(cfg, s1, events[1..]);
        FrontEnds(Steps(cfg, s1, events[1..]), events, n);
      }
    }
  }

  lemma FrontEnds(t: State, events: seq<Event>, n: nat)
    requires n < |events| && !IsTerminal(events[0]) && EndsAsTold(t, events[1..][..n], events[1..])
    ensures EndsAsTold(t, events[..1 + n], events)
  {
    assert events[..1 + n] == [events[0]] + events[1..][..n];
    assert events == [events[0]] + events[1..];
  }

  /** The outcome of a turn is what its last event says; an input that just ends makes it incomplete. */
  lemma OutcomeIsTold(cfg: Config, events: seq<Event>)
    ensures
      var taken := events[..R.Consumed(cfg, START, events)];
      && EndsAsTold(Steps(cfg, START, events), taken, events)
      && Run(cfg, events).outcome
         == if Steps(cfg, START, events).outcome.None?
            then Some(Outcome(Incompleted, None, None, None, Some(Because("adapter_eof", None, None))))
            else EndOf(taken[|taken| - 1])
  {
    StepsEnd(cfg, START, events);
  }
}
