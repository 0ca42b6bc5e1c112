/**
 Where the stream bridge and the batch translator part: for each restriction of the refinement a short run, on
 which dropping that restriction alone makes the items differ.
 */
module Divergence {
  import opened Text
  import opened Responses
  import T = Translator
  import B = BatchTranslator

  predicate Visible(cfg: Config) {
    !cfg.hideThinking && !cfg.compaction
  }

  const DONE: Event := Done(None, None)

  lemma StreamOfTwo(cfg: Config, e: Event, done: Event)
    requires Visible(cfg) && done.Done? && T.Step(cfg, T.START, e).outcome.None?
    ensures T.Run(cfg, [e, done]) == T.OnDone(cfg, T.Step(cfg, T.START, e), done)
  {
    T.StepsOfTwo(cfg, T.START, e, done);
    assert T.Step(cfg, T.Step(cfg, T.START, e), done) == T.OnDone(cfg, T.Step(cfg, T.START, e), done);
  }

  lemma BatchOfTwo(cfg: Config, e: Event, done: Event)
    ensures B.Steps(cfg, B.EMPTY, [e, done]) == B.Step(cfg, B.Step(cfg, B.EMPTY, e), done)
  {
    assert [e, done][1..] == [done] && [done][1..] == [];
    assert B.Steps(cfg, B.Step(cfg, B.EMPTY, e), [done]) == B.Steps(cfg, B.Step(cfg, B.Step(cfg, B.EMPTY, e), done), []);
  }

  lemma StreamOfText(cfg: Config, text: Text)
    requires Visible(cfg)
    ensures var s := T.Run(cfg, [TextDelta(text, None), Done(Some(""), None)]);
            |s.finished| == 1 && s.finished[0].body == Message(text, [], Some(FinalAnswer))
  {
    StreamOfTwo(cfg, TextDelta(text, None), Done(Some(""), None));
  }

  lemma BatchOfText(cfg: Config, text: Text)
    requires Visible(cfg) && text != []
    ensures B.Build(cfg, [TextDelta(text, None), Done(Some(""), None)]).output == [Message(text, [], None)]
  {
    BatchOfTwo(cfg, TextDelta(text, None), Done(Some(""), None));
    assert [] + text == text && Annotations([]) == [];
    var b := B.Step(cfg, B.Step(cfg, B.EMPTY, TextDelta(text, None)), Done(Some(""), None));
    assert b.text == text && b.phase.None? && b.output == [] && !b.cleanDone;
    assert B.Trailing(cfg, b).output == [] + [Message(text, [], None)];
  }

  lemma StreamOfNothing(cfg: Config)
    requires Visible(cfg)
    ensures |T.Run(cfg, [TextDelta([], None), DONE]).finished| == 1
  {
    StreamOfTwo(cfg, TextDelta([], None), DONE);
  }

  lemma BatchOfNothing(cfg: Config, e: Event)
    requires Visible(cfg) && (e == TextDelta([], None) || e.WebSearchBegin?)
    ensures B.Build(cfg, [e, DONE]).output == []
  {
    BatchOfTwo(cfg, e, DONE);
  }

  /** An empty delta opens a message on the stream; the batch form sees no text at all. */
  lemma EmptyDeltaDiverges(cfg: Config)
    requires Visible(cfg)
    ensures var events := [TextDelta([], None), DONE];
            |T.Run(cfg, events).finished| == 1 && B.Build(cfg, events).output == []
  {
    StreamOfNothing(cfg);
    BatchOfNothing(cfg, TextDelta([], None));
  }

  /** A stop reason that is there but empty: the stream takes the text for the final answer, the batch does not. */
  lemma EmptyStopReasonDiverges(cfg: Config, text: Text)
    requires Visible(cfg) && text != []
    ensures var events := [TextDelta(text, None), Done(Some(""), None)];
            && |T.Run(cfg, events).finished| == 1
            && T.Run(cfg, events).finished[0].body == Message(text, [], Some(FinalAnswer))
            && B.Build(cfg, events).output == [Message(text, [], None)]
  {
    StreamOfText(cfg, text);
    BatchOfText(cfg, text);
  }

  lemma StreamOfSearch(cfg: Config, id: string)
    requires Visible(cfg)
    ensures |T.Run(cfg, [WebSearchBegin(id), DONE]).finished| == 1
  {
    StreamOfTwo(cfg, WebSearchBegin(id), DONE);
  }

  /** A search that never ends is closed on the stream, and never shows in the batch form. */
  lemma OpenSearchDiverges(cfg: Config, id: string)
    requires Visible(cfg)
    ensures var events := [WebSearchBegin(id), DONE];
            |T.Run(cfg, events).finished| == 1 && B.Build(cfg, events).output == []
  {
    StreamOfSearch(cfg, id);
    BatchOfNothing(cfg, WebSearchBegin(id));
  }

  // ---- Runs of one and of three events ----

  lemma StreamOfOne(cfg: Config, e: Event)
    requires T.Step(cfg, T.START, e).outcome.None?
    ensures T.Run(cfg, [e]) == T.OnEof(cfg, T.Step(cfg, T.START, e))
  {
    T.StepsOfOne(cfg, T.START, e);
  }

  lemma BatchOfOne(cfg: Config, e: Event)
    ensures B.Steps(cfg, B.EMPTY, [e]) == B.Step(cfg, B.EMPTY, e)
  {
    assert [e][1..] == [];
    assert B.Steps(cfg, B.EMPTY, [e]) == B.Steps(cfg, B.Step(cfg, B.EMPTY, e), []);
  }

  lemma BatchGoesOn(cfg: Config, b: B.Batch, e: Event, rest: seq<Event>)
    ensures B.Steps(cfg, b, [e] + rest) == B.Steps(cfg, B.Step(cfg, b, e), rest)
  {
    assert ([e] + rest)[1..] == rest;
  }

  lemma BatchOfThree(cfg: Config, a: Event, b: Event, c: Event)
    ensures B.Steps(cfg, B.EMPTY, [a, b, c]) == B.Step(cfg, B.Step(cfg, B.Step(cfg, B.EMPTY, a), b), c)
  {
    var s := B.Step(cfg, B.EMPTY, a);
    assert [a, b, c] == [a] + [b, c] && [b, c] == [b] + [c] && [c] == [c] + [];
    BatchGoesOn(cfg, B.EMPTY, a, [b, c]);
    BatchGoesOn(cfg, s, b, [c]);
    BatchGoesOn(cfg, B.Step(cfg, s, b), c, []);
  }

  // ---- Empty payloads ----

  predicate EmptyPayload(e: Event) {
    e == ThinkingDelta([]) || (e.ReasoningRawDelta? && e.text == []) || (e.ToolCallStart? && e.id == "")
  }

  /** Empty reasoning, shown or raw, and a call without an id: an item on the stream, nothing in the batch form. */
  lemma EmptyPayloadDiverges(cfg: Config, e: Event)
    requires Visible(cfg) && EmptyPayload(e)
    ensures |T.Run(cfg, [e, DONE]).finished| == 1 && B.Build(cfg, [e, DONE]).output == []
  {
    StreamOfEmpty(cfg, e);
    BatchOfEmpty(cfg, e);
  }

  lemma StreamOfEmpty(cfg: Config, e: Event)
    requires Visible(cfg) && EmptyPayload(e)
    ensures |T.Run(cfg, [e, DONE]).finished| == 1
  {
    match e
    case ThinkingDelta(_) => StreamOfEmptyThinking(cfg);
    case ReasoningRawDelta(_, asSummary) => StreamOfEmptyRaw(cfg, asSummary);
    case ToolCallStart(_, name) => StreamOfNamelessCall(cfg, name);
  }

  lemma StreamOfEmptyThinking(cfg: Config)
    requires Visible(cfg)
    ensures |T.Run(cfg, [ThinkingDelta([]), DONE]).finished| == 1
  {
    StreamOfTwo(cfg, ThinkingDelta([]), DONE);
  }

  lemma StreamOfEmptyRaw(cfg: Config, asSummary: bool)
    requires Visible(cfg)
    ensures |T.Run(cfg, [ReasoningRawDelta([], asSummary), DONE]).finished| == 1
  {
    StreamOfTwo(cfg, ReasoningRawDelta([], asSummary), DONE);
  }

  lemma StreamOfNamelessCall(cfg: Config, name: string)
    requires Visible(cfg)
    ensures |T.Run(cfg, [ToolCallStart("", name), DONE]).finished| == 1
  {
    StreamOfTwo(cfg, ToolCallStart("", name), DONE);
  }

  lemma BatchOfEmpty(cfg: Config, e: Event)
    requires Visible(cfg) && EmptyPayload(e)
    ensures B.Build(cfg, [e, DONE]).output == []
  {
    BatchOfTwo(cfg, e, DONE);
    IgnoresEmpty(cfg, e);
    EndsEmpty(cfg, B.Step(cfg, B.EMPTY, e));
  }

  lemma IgnoresEmpty(cfg: Config, e: Event)
    requires Visible(cfg) && EmptyPayload(e)
    ensures var b := B.Step(cfg, B.EMPTY, e); b == B.EMPTY.(callName := b.callName)
  {
  }

  lemma EndsEmpty(cfg: Config, b: B.Batch)
    requires !cfg.compaction && b == B.EMPTY.(callName := b.callName)
    ensures B.Trailing(cfg, B.Step(cfg, b, DONE)).output == []
  {
  }

  // ---- Blocks that only a clean end hands on ----

  /** A redacted or a Kiro block: lost on the stream at the end of the input, an item in the batch form. */
  lemma BlockDiverges(cfg: Config, e: Event)
    requires Visible(cfg) && (e.RedactedThinking? || (e.KiroRedactedReasoning? && e.data != []))
    ensures T.Run(cfg, [e]).finished == [] && |B.Build(cfg, [e]).output| == 1
  {
    BlockOnStream(cfg, e);
    BlockInBatch(cfg, e);
  }

  lemma BlockOnStream(cfg: Config, e: Event)
    requires Visible(cfg) && (e.RedactedThinking? || e.KiroRedactedReasoning?)
    ensures T.Run(cfg, [e]).finished == []
  {
    StoresBlock(cfg, e);
    StreamOfOne(cfg, e);
    EndsSilent(cfg, T.Step(cfg, T.START, e));
  }

  predicate Silent(s: T.State) {
    && s.msg.None? && s.summary.None? && s.raw.None? && s.call.None? && s.search.None? && s.hiddenRaw == []
    && s.outcome.None? && s.finished == []
  }

  lemma StoresBlock(cfg: Config, e: Event)
    requires Visible(cfg) && (e.RedactedThinking? || e.KiroRedactedReasoning?)
    ensures Silent(T.Step(cfg, T.START, e))
  {
  }

  lemma EndsSilent(cfg: Config, s: T.State)
    requires Silent(s)
    ensures T.OnEof(cfg, s).finished == []
  {
  }

  lemma BlockInBatch(cfg: Config, e: Event)
    requires Visible(cfg) && (e.RedactedThinking? || (e.KiroRedactedReasoning? && e.data != []))
    ensures |B.Build(cfg, [e]).output| == 1
  {
    BatchOfOne(cfg, e);
    if e.RedactedThinking? { RedactedInBatch(cfg, e.data); } else { KiroInBatch(cfg, e.data); }
  }

  lemma RedactedInBatch(cfg: Config, data: Text)
    requires Visible(cfg)
    ensures |B.Trailing(cfg, B.Step(cfg, B.EMPTY, RedactedThinking(data))).output| == 1
  {
    assert B.Step(cfg, B.EMPTY, RedactedThinking(data)) == B.EMPTY.(redacted := [data]) by { assert [] + [data] == [data]; }
  }

  lemma KiroInBatch(cfg: Config, data: Text)
    requires Visible(cfg) && data != []
    ensures |B.Trailing(cfg, B.Step(cfg, B.EMPTY, KiroRedactedReasoning(data))).output| == 1
  {
  }

  // ---- Searches ----

  /** A search end without its begin, while a message is open: the search comes first on the stream, last in the batch. */
  lemma UnpairedSearchDiverges(cfg: Config, text: Text, end: Event)
    requires Visible(cfg) && text != [] && end.WebSearchEnd?
    ensures var events := [TextDelta(text, None), end, DONE];
            && |T.Run(cfg, events).finished| == 2 && |B.Build(cfg, events).output| == 2
            && T.Run(cfg, events).finished[0].body.WebSearchCall? && B.Build(cfg, events).output[0].Message?
  {
    UnpairedOnStream(cfg, text, end);
    UnpairedInBatch(cfg, text, end);
  }

  lemma UnpairedOnStream(cfg: Config, text: Text, end: Event)
    requires Visible(cfg) && end.WebSearchEnd?
    ensures var s := T.Run(cfg, [TextDelta(text, None), end, DONE]);
            |s.finished| == 2 && s.finished[0].body.WebSearchCall?
  {
    T.StepsOfThree(cfg, T.START, TextDelta(text, None), end, DONE);
    var s := T.Step(cfg, T.START, TextDelta(text, None));
    SpeaksFirst(cfg, text);
    SearchesInside(cfg, s, end);
    EndsSpeaking(cfg, T.Step(cfg, s, end));
  }

  predicate OnlySpeaks(s: T.State) {
    && s.msg.Some? && s.summary.None? && s.raw.None? && s.call.None? && s.search.None?
    && s.signature == [] && s.redacted == [] && s.hiddenThinking == [] && s.hiddenRaw == [] && s.kiro == []
    && s.outcome.None?
  }

  lemma SpeaksFirst(cfg: Config, text: Text)
    requires Visible(cfg)
    ensures var s := T.Step(cfg, T.START, TextDelta(text, None)); OnlySpeaks(s) && s.finished == []
  {
  }

  lemma SearchesInside(cfg: Config, s: T.State, end: Event)
    requires Visible(cfg) && OnlySpeaks(s) && s.finished == [] && end.WebSearchEnd?
    ensures var t := T.Step(cfg, s, end); OnlySpeaks(t) && |t.finished| == 1 && t.finished[0].body.WebSearchCall?
  {
  }

  lemma EndsSpeaking(cfg: Config, s: T.State)
    requires Visible(cfg) && OnlySpeaks(s)
    ensures var t := T.Step(cfg, s, DONE); |t.finished| == |s.finished| + 1 && t.finished[..|s.finished|] == s.finished
  {
  }

  lemma UnpairedInBatch(cfg: Config, text: Text, end: Event)
    requires Visible(cfg) && text != [] && end.WebSearchEnd?
    ensures var b := B.Build(cfg, [TextDelta(text, None), end, DONE]);
            |b.output| == 2 && b.output[0].Message?
  {
    BatchOfThree(cfg, TextDelta(text, None), end, DONE);
  }

  /** So does an end that text separates from its begin. */
  lemma LateSearchEndDiverges(cfg: Config, text: Text, end: Event)
    requires Visible(cfg) && text != [] && end.WebSearchEnd?
    ensures var events := [WebSearchBegin(end.id)] + [TextDelta(text, None), end, DONE];
            && |T.Run(cfg, events).finished| == 2 && |B.Build(cfg, events).output| == 2
            && T.Run(cfg, events).finished[0].body.WebSearchCall? && B.Build(cfg, events).output[0].Message?
  {
    LateOnStream(cfg, text, end);
    BatchGoesOn(cfg, B.EMPTY, WebSearchBegin(end.id), [TextDelta(text, None), end, DONE]);
    UnpairedInBatch(cfg, text, end);
  }

  lemma LateOnStream(cfg: Config, text: Text, end: Event)
    requires Visible(cfg) && end.WebSearchEnd?
    ensures var s := T.Run(cfg, [WebSearchBegin(end.id)] + [TextDelta(text, None), end, DONE]);
            |s.finished| == 2 && s.finished[0].body.WebSearchCall?
  {
    var e := TextDelta(text, None);
    var s0 := T.Step(cfg, T.START, WebSearchBegin(end.id));
    T.StepsCons(cfg, T.START, WebSearchBegin(end.id), [e, end, DONE]);
    SpeaksDuring(cfg, text, end);
    var s1 := T.Step(cfg, s0, e);
    T.StepsOfThree(cfg, s0, e, end, DONE);
    EndsSpeaking(cfg, T.Step(cfg, s1, end));
  }

  lemma SpeaksDuring(cfg: Config, text: Text, end: Event)
    requires Visible(cfg) && end.WebSearchEnd?
    ensures var s0 := T.Step(cfg, T.START, WebSearchBegin(end.id));
            var s1 := T.Step(cfg, s0, TextDelta(text, None));
            var s2 := T.Step(cfg, s1, end);
            && s0.outcome.None? && s1.outcome.None?
            && OnlySpeaks(s2) && |s2.finished| == 1 && s2.finished[0].body.WebSearchCall?
  {
    var s0 := T.Step(cfg, T.START, WebSearchBegin(end.id));
    OpensSearch(cfg, end.id);
    SpeaksBeside(cfg, s0, text);
    SearchEndsBeside(cfg, T.Step(cfg, s0, TextDelta(text, None)), end);
  }

  /** A search is open, perhaps beside a message, and nothing else. */
  predicate Searches(s: T.State, id: string) {
    && s.search.Some? && s.search.value.eventId == id
    && OnlySpeaks(s.(msg := Some(T.OpenMessage(0, 0, [], None)), search := None))
  }

  lemma OpensSearch(cfg: Config, id: string)
    requires Visible(cfg)
    ensures var s := T.Step(cfg, T.START, WebSearchBegin(id)); Searches(s, id) && s.msg.None? && s.finished == []
  {
  }

  lemma SpeaksBeside(cfg: Config, s: T.State, text: Text)
    requires Visible(cfg) && s.search.Some? && Searches(s, s.search.value.eventId) && s.msg.None?
    ensures var t := T.Step(cfg, s, TextDelta(text, None));
            Searches(t, s.search.value.eventId) && t.msg.Some? && t.finished == s.finished
  {
  }

  lemma SearchEndsBeside(cfg: Config, s: T.State, end: Event)
    requires Visible(cfg) && end.WebSearchEnd? && Searches(s, end.id) && s.msg.Some? && s.finished == []
    ensures var t := T.Step(cfg, s, end); OnlySpeaks(t) && |t.finished| == 1 && t.finished[0].body.WebSearchCall?
  {
  }

  // ---- Configurations ----

  /** Hidden reasoning: the stream's message goes on across it, the batch form splits it. */
  lemma HiddenReasoningDiverges(cfg: Config, text: Text, thinking: Text)
    requires cfg.hideThinking && !cfg.compaction && text != [] && thinking != []
    ensures var events := [TextDelta(text, None), ThinkingDelta(thinking), TextDelta(text, None)];
            |T.Run(cfg, events).finished| == 1 && |B.Build(cfg, events).output| == 2
  {
    HiddenOnStream(cfg, text, thinking);
    HiddenInBatch(cfg, text, thinking);
  }

  lemma HiddenOnStream(cfg: Config, text: Text, thinking: Text)
    requires cfg.hideThinking && !cfg.compaction
    ensures |T.Run(cfg, [TextDelta(text, None), ThinkingDelta(thinking), TextDelta(text, None)]).finished| == 1
  {
    T.StepsOfThree(cfg, T.START, TextDelta(text, None), ThinkingDelta(thinking), TextDelta(text, None));
  }

  lemma HiddenInBatch(cfg: Config, text: Text, thinking: Text)
    requires cfg.hideThinking && !cfg.compaction && text != [] && thinking != []
    ensures |B.Build(cfg, [TextDelta(text, None), ThinkingDelta(thinking), TextDelta(text, None)]).output| == 2
  {
    var e, h: Event := TextDelta(text, None), ThinkingDelta(thinking);
    BatchOfThree(cfg, e, h, e);
    var b1 := B.Step(cfg, B.EMPTY, e);
    assert b1 == B.EMPTY.(text := text) by { assert [] + text == text; }
    var b2 := B.Step(cfg, b1, h);
    SplitsHidden(cfg, b1, thinking);
    SpeaksAgain(cfg, b2, text);
  }

  lemma SplitsHidden(cfg: Config, b: B.Batch, thinking: Text)
    requires cfg.hideThinking && b == B.EMPTY.(text := b.text) && b.text != []
    ensures var b2 := B.Step(cfg, b, ThinkingDelta(thinking));
            |b2.output| == 1 && b2 == B.EMPTY.(output := b2.output, summary := thinking)
  {
    assert [] + thinking == thinking;
  }

  lemma SpeaksAgain(cfg: Config, b: B.Batch, text: Text)
    requires cfg.hideThinking && !cfg.compaction && text != []
    requires |b.output| == 1 && b == B.EMPTY.(output := b.output, summary := b.summary)
    ensures |B.Trailing(cfg, B.Step(cfg, b, TextDelta(text, None))).output| == 2
  {
    assert [] + text == text;
    assert B.Step(cfg, b, TextDelta(text, None)) == B.EMPTY.(output := b.output, text := text);
  }

  /** Compaction: the stream drops everything but text, the batch form keeps the reasoning. */
  lemma CompactionDiverges(cfg: Config, thinking: Text)
    requires !cfg.hideThinking && cfg.compaction && thinking != []
    ensures var events := [ThinkingDelta(thinking), DONE];
            |T.Run(cfg, events).finished| == 1 && |B.Build(cfg, events).output| == 2
  {
    CompactionOnStream(cfg, thinking);
    CompactionInBatch(cfg, thinking);
  }

  lemma CompactionInBatch(cfg: Config, thinking: Text)
    requires !cfg.hideThinking && cfg.compaction && thinking != []
    ensures |B.Build(cfg, [ThinkingDelta(thinking), DONE]).output| == 2
  {
    BatchOfTwo(cfg, ThinkingDelta(thinking), DONE);
    assert B.Step(cfg, B.EMPTY, ThinkingDelta(thinking)) == B.EMPTY.(summary := thinking) by {
      assert [] + thinking == thinking;
    }
  }

  lemma CompactionOnStream(cfg: Config, thinking: Text)
    requires cfg.compaction
    ensures |T.Run(cfg, [ThinkingDelta(thinking), DONE]).finished| == 1
  {
    var e: Event := ThinkingDelta(thinking);
    assert T.Step(cfg, T.START, e) == T.START;
    T.StepsOfTwo(cfg, T.START, e, DONE);
  }

  /** A namespaced tool search cut off by the end of the input: only the stream names the namespace. */
  lemma NamespacedSearchDiverges(cfg: Config, id: string, name: string)
    requires Visible(cfg) && id != "" && name in cfg.namespaces && cfg.namespaces[name].1 in cfg.searchNames
    ensures var events := [ToolCallStart(id, name)];
            && |T.Run(cfg, events).finished| == |B.Build(cfg, events).output| == 1
            && T.Run(cfg, events).finished[0].body.FunctionCall? && B.Build(cfg, events).output[0].FunctionCall?
            && T.Run(cfg, events).finished[0].body.namespace == Some(cfg.namespaces[name].0)
            && B.Build(cfg, events).output[0].namespace == None
  {
    SearchCutOnStream(cfg, id, name);
    SearchCutInBatch(cfg, id, name);
  }

  lemma SearchCutOnStream(cfg: Config, id: string, name: string)
    requires Visible(cfg) && name in cfg.namespaces && cfg.namespaces[name].1 in cfg.searchNames
    ensures var s := T.Run(cfg, [ToolCallStart(id, name)]);
            && |s.finished| == 1 && s.finished[0].body.FunctionCall?
            && s.finished[0].body.namespace == Some(cfg.namespaces[name].0)
  {
    StreamOfOne(cfg, ToolCallStart(id, name));
  }

  lemma SearchCutInBatch(cfg: Config, id: string, name: string)
    requires Visible(cfg) && id != "" && name in cfg.namespaces && cfg.namespaces[name].1 in cfg.searchNames
    ensures var b := B.Build(cfg, [ToolCallStart(id, name)]);
            |b.output| == 1 && b.output[0].FunctionCall? && b.output[0].namespace == None
  {
    BatchOfOne(cfg, ToolCallStart(id, name));
  }

  /** A schema that is only found under the real name of a namespaced tool: the stream coerces, the batch does not. */
  lemma SchemaLookupDiverges(cfg: Config, id: string, name: string, args: Text)
    requires Visible(cfg) && id != "" && name in cfg.namespaces && name !in cfg.schemas && args != []
    requires var inner := cfg.namespaces[name].1;
      inner in cfg.schemas && inner !in cfg.searchNames && name !in cfg.freeformNames
      && OrEmptyObject(cfg.coerce(args, cfg.schemas[inner])) != args
    ensures var events := [ToolCallStart(id, name), ToolCallDelta(args), DONE];
            && |T.Run(cfg, events).finished| == |B.Build(cfg, events).output| == 1
            && T.Run(cfg, events).finished[0].body.FunctionCall? && B.Build(cfg, events).output[0].FunctionCall?
            && T.Run(cfg, events).finished[0].body.arguments != B.Build(cfg, events).output[0].arguments == args
  {
    CoercedOnStream(cfg, id, name, args);
    PlainInBatch(cfg, id, name, args);
  }

  lemma CoercedOnStream(cfg: Config, id: string, name: string, args: Text)
    requires Visible(cfg) && name in cfg.namespaces && name !in cfg.schemas
    requires var inner := cfg.namespaces[name].1;
      inner in cfg.schemas && inner !in cfg.searchNames && name !in cfg.freeformNames
    ensures var s := T.Run(cfg, [ToolCallStart(id, name), ToolCallDelta(args), DONE]);
            && |s.finished| == 1 && s.finished[0].body.FunctionCall?
            && s.finished[0].body.arguments == OrEmptyObject(cfg.coerce(args, cfg.schemas[cfg.namespaces[name].1]))
  {
    T.StepsOfThree(cfg, T.START, ToolCallStart(id, name), ToolCallDelta(args), DONE);
    assert [] + args == args;
  }

  lemma PlainInBatch(cfg: Config, id: string, name: string, args: Text)
    requires Visible(cfg) && id != "" && name in cfg.namespaces && name !in cfg.schemas && args != []
    requires cfg.namespaces[name].1 !in cfg.searchNames && name !in cfg.freeformNames
    ensures var b := B.Build(cfg, [ToolCallStart(id, name), ToolCallDelta(args), DONE]);
            |b.output| == 1 && b.output[0].FunctionCall? && b.output[0].arguments == args
  {
    BatchOfThree(cfg, ToolCallStart(id, name), ToolCallDelta(args), DONE);
    assert [] + args == args;
  }

  // ---- Budget ----

  /** A budget error drops the open message on the stream; the batch form still flushes it. */
  lemma BudgetErrorDiverges(cfg: Config, text: Text, error: Event)
    requires Visible(cfg) && text != [] && IsLimitError(error)
    ensures var events := [TextDelta(text, None), error];
            T.Run(cfg, events).finished == [] && |B.Build(cfg, events).output| == 1
  {
    BudgetErrorOnStream(cfg, text, error);
    BatchOfTwo(cfg, TextDelta(text, None), error);
  }

  lemma BudgetErrorOnStream(cfg: Config, text: Text, error: Event)
    requires Visible(cfg) && IsLimitError(error)
    ensures T.Run(cfg, [TextDelta(text, None), error]).finished == []
  {
    T.StepsOfTwo(cfg, T.START, TextDelta(text, None), error);
  }
}
