/**
 What becomes of the arguments of a tool call: a log read off the events alone says which calls there were and
 what their deltas add up to; the call items of the stream are exactly the items of that log, in order, and what
 the client was sent for each of them is what its arguments show.
 */
module Calls {
  import opened Text
  import opened Responses
  import opened Translator
  import opened Lifecycle
  import Freeform

  // ---- The log ----

  /** A call and the concatenation of the argument deltas that arrived while it was open. */
  datatype Called = Called(name: string, callId: string, args: Text)

  datatype Ended = Ended(call: Called, completed: bool)

  datatype Log = Log(ended: seq<Ended>, open: Option<Called>, over: bool)

  const NO_CALLS := Log([], None, false)

  /**
   The item of a finished call, from what was called and with which arguments: a namespaced tool goes by its real
   name, completed arguments are coerced under the schema of the wire name or else of the real one.
   */
  function ItemFor(cfg: Config, c: Called, completed: bool): ItemBody {
    var name := if c.name in cfg.namespaces then cfg.namespaces[c.name].1 else c.name;
    var namespace := if c.name in cfg.namespaces then Some(cfg.namespaces[c.name].0) else None;
    var args :=
      if !completed then c.args
      else if c.name in cfg.schemas then cfg.coerce(c.args, cfg.schemas[c.name])
      else if name in cfg.schemas then cfg.coerce(c.args, cfg.schemas[name])
      else c.args;
    var shown := if args == [] then [0x7B, 0x7D] else args;
    if name in cfg.searchNames then
      if completed then ToolSearchCall(c.callId, cfg.objectOf(args))
      else FunctionCall(c.callId, name, namespace, shown, false, false)
    else if c.name in cfg.freeformNames then
      var input := if cfg.inputOf(args).Some? then cfg.inputOf(args).value else args;
      CustomToolCall(c.callId, name, namespace, input, completed)
    else FunctionCall(c.callId, name, namespace, shown, completed, completed && cfg.plaintext(namespace, name))
  }

  /** What its deltas spell: the arguments, the preview of a freeform call, nothing for a completed tool search. */
  function StreamOf(cfg: Config, e: Ended): Text {
    if IsToolSearch(cfg, e.call.name) then (if e.completed then [] else e.call.args)
    else if IsFreeform(cfg, e.call.name) then Freeform.Shown(e.call.args)
    else e.call.args
  }

  function Close(l: Log, completed: bool): Log {
    match l.open
    case None => l
    case Some(c) => l.(ended := l.ended + [Ended(c, completed)], open := None)
  }

  predicate Malformed(cfg: Config, l: Log) {
    l.open.Some? && !IsFreeform(cfg, l.open.value.name) && !IsToolSearch(cfg, l.open.value.name)
    && Trim(l.open.value.args) != [] && !cfg.parses(Trim(l.open.value.args))
  }

  function LogTool(cfg: Config, l: Log, e: Event): Log
    requires IsToolEvent(e)
  {
    match e
    case ToolCallStart(id, name) => Close(l, true).(open := Some(Called(name, id, [])))
    case ToolCallDelta(arguments) =>
      if l.open.None? then l else l.(open := Some(l.open.value.(args := l.open.value.args + arguments)))
    case ToolCallEnd => if Malformed(cfg, l) then Close(l, false).(over := true) else Close(l, true)
    case WebSearchBegin(_) => Close(l, true)
    case WebSearchEnd(_, _, _, _) => l
  }

  /** Text, a boundary and visible reasoning complete the open call. */
  predicate Completes(cfg: Config, e: Event) {
    e.TextDelta? || e.AssistantBoundary? || (!cfg.hideThinking && (e.ThinkingDelta? || e.ReasoningRawDelta?))
  }

  /** A malformed call ends the turn, and so does every terminal event. */
  function LogEvent(cfg: Config, l: Log, e: Event): Log {
    if IsTerminal(e) then Close(l, e.Done?).(over := true)
    else if IsToolEvent(e) then LogTool(cfg, l, e)
    else if Completes(cfg, e) then Close(l, true)
    else l
  }

  function LogOf(cfg: Config, l: Log, events: seq<Event>): Log
    decreases events
  {
    if l.over || events == [] then l else LogOf(cfg, LogEvent(cfg, l, events[0]), events[1..])
  }

  // ---- The call items among the finished ones ----

  predicate IsCall(body: ItemBody) {
    body.FunctionCall? || body.CustomToolCall? || body.ToolSearchCall?
  }

  function CallItems(items: seq<Item>): seq<Item> {
    if items == [] then []
    else
      var item := items[|items| - 1];
      CallItems(items[..|items| - 1]) + (if IsCall(item.body) then [item] else [])
  }

  lemma CallItemsSnoc(items: seq<Item>, item: Item)
    ensures CallItems(items + [item]) == CallItems(items) + (if IsCall(item.body) then [item] else [])
  {
    assert (items + [item])[..|items|] == items;
  }

  // ---- What was sent for a finished item stays what it was ----

  lemma {:induction false} LifeGoesOn(fs: seq<Frame>, more: seq<Frame>, x: nat)
    requires LifeOf(fs, x).Closed?
    ensures LifeOf(fs + more, x) == LifeOf(fs, x) || LifeOf(fs + more, x).Broken?
    decreases more
  {
    if more == [] {
      assert fs + more == fs;
    } else {
      var n := |more| - 1;
      LifeGoesOn(fs, more[..n], x);
      LifeAppend(fs + more[..n], more[n], x);
      assert fs + more == (fs + more[..n]) + [more[n]];
    }
  }

  ghost predicate DoneIn(fs: seq<Frame>, item: Item) {
    exists i: nat :: i < |fs| && fs[i].ItemDone? && fs[i].item == item
  }

  lemma DoneIsClosed(cfg: Config, s: State, item: Item)
    requires Lively(cfg, s) && DoneIn(s.frames, item)
    ensures LifeOf(s.frames, item.id).Closed? && LifeOf(s.frames, item.id).text == Streamed(s.frames, item.id)
  {
    var i: nat :| i < |s.frames| && s.frames[i].ItemDone? && s.frames[i].item == item;
    assert Subject(s.frames[i]) == Some(item.id);
    LifeMeaning(s.frames, item.id);
    assert Accounted(cfg, LedgerOf(s), item.id);
  }

  lemma FinishedStays(cfg: Config, s: State, t: State, item: Item)
    requires Lively(cfg, s) && Lively(cfg, t) && s.frames <= t.frames && DoneIn(s.frames, item)
    ensures DoneIn(t.frames, item) && Streamed(t.frames, item.id) == Streamed(s.frames, item.id)
  {
    var i: nat :| i < |s.frames| && s.frames[i].ItemDone? && s.frames[i].item == item;
    assert t.frames[i] == s.frames[i];
    DoneIsClosed(cfg, s, item);
    DoneIsClosed(cfg, t, item);
    LifeGoesOn(s.frames, t.frames[|s.frames|..], item.id);
    assert s.frames + t.frames[|s.frames|..] == t.frames;
  }

  lemma StreamedAppend(fs: seq<Frame>, f: Frame, x: nat)
    ensures Streamed(fs + [f], x) == Streamed(fs, x) + (if f.Delta? && f.id == x then f.delta else [])
  {
    assert (fs + [f])[..|fs|] == fs;
  }

  lemma {:induction false} StreamedReplay(fs: seq<Frame>, c: OpenCall, deltas: seq<Text>)
    ensures Streamed(fs + Replay(c, deltas), c.id) == Streamed(fs, c.id) + Concat(deltas)
  {
    if deltas == [] {
      assert fs + Replay(c, deltas) == fs;
    } else {
      var n := |deltas| - 1;
      var f := Delta(c.index, c.id, CallArguments, deltas[n]);
      StreamedReplay(fs, c, deltas[..n]);
      StreamedAppend(fs + Replay(c, deltas[..n]), f, c.id);
      assert fs + Replay(c, deltas) == (fs + Replay(c, deltas[..n])) + [f];
    }
  }

  /** What was sent for the open call so far. */
  lemma OpenCallStreams(cfg: Config, s: State)
    requires Lively(cfg, s) && s.call.Some?
    ensures var c := s.call.value;
      Streamed(s.frames, c.id) == if c.toolSearch then [] else if c.freeform then Freeform.Shown(c.args) else c.args
  {
    var c := s.call.value;
    assert Accounted(cfg, LedgerOf(s), c.id);
    LifeMeaning(s.frames, c.id);
  }

  // ---- What leaves the calls alone ----

  ghost predicate Same(s: State, t: State) {
    t.call == s.call && CallItems(t.finished) == CallItems(s.finished) && s.frames <= t.frames
  }

  lemma EnvelopeSame(s: State, e: Envelope)
    ensures Same(s, EnvelopeItem(s, e))
  {
    CallItemsSnoc(s.finished, Item(s.nextId, Reasoning(None, None, Some(e))));
  }

  lemma HiddenSame(s: State)
    ensures Same(s, FlushHiddenEnvelope(s))
  {
    var taken := TakenEnvelope(s, s.hiddenThinking);
    if taken.Some? { EnvelopeSame(DropEnvelope(s.(hiddenThinking := [])), taken.value); }
  }

  lemma HiddenRawSame(s: State)
    ensures Same(s, FlushHiddenRaw(s))
  {
    if s.hiddenRaw != [] { EnvelopeSame(s.(hiddenRaw := []), Envelope([], [], s.hiddenRaw, [])); }
  }

  lemma KiroSame(s: State)
    ensures Same(s, FlushKiro(s))
  {
    if s.kiro != [] { EnvelopeSame(s.(kiro := []), Envelope([], [], [], s.kiro)); }
  }

  lemma MessageSame(s: State, inferred: Option<Phase>)
    ensures Same(s, CloseMessage(s, inferred))
  {
    if s.msg.Some? { CallItemsSnoc(s.finished, CloseMessage(s, inferred).finished[|s.finished|]); }
  }

  lemma SummarySame(s: State)
    ensures Same(s, CloseSummary(s))
  {
    if s.summary.Some? { CallItemsSnoc(s.finished, CloseSummary(s).finished[|s.finished|]); }
  }

  lemma RawSame(s: State)
    ensures Same(s, CloseRaw(s))
  {
    if s.raw.Some? { CallItemsSnoc(s.finished, CloseRaw(s).finished[|s.finished|]); }
  }

  lemma SearchSame(s: State, status: SearchStatus, queries: seq<string>, sources: seq<Citation>)
    ensures Same(s, CloseSearch(s, status, queries, sources))
  {
    if s.search.Some? { CallItemsSnoc(s.finished, CloseSearch(s, status, queries, sources).finished[|s.finished|]); }
  }

  lemma SaysSame(s: State, phase: Option<Phase>, text: Text)
    ensures Same(s, AppendMessage(if s.msg.None? then OpenMessageItem(s, phase) else s, text))
  {
  }

  lemma AppendsSame(s: State, text: Text)
    ensures Same(s, AppendSummary(s, text)) && Same(s, AppendRaw(s, text))
  {
  }

  lemma SameChain(a: State, b: State, c: State)
    requires Same(a, b) && Same(b, c)
    ensures Same(a, c)
  {
  }

  lemma RawFlushSame(s: State)
    ensures Same(s, FlushHiddenRaw(CloseRaw(s)))
  {
    RawSame(s);
    HiddenRawSame(CloseRaw(s));
    SameChain(s, CloseRaw(s), FlushHiddenRaw(CloseRaw(s)));
  }

  lemma TextClosesSame(s: State, inferred: Option<Phase>)
    ensures Same(s, FlushHiddenRaw(CloseRaw(CloseSummary(CloseMessage(s, inferred)))))
    ensures Same(s, FlushHiddenRaw(CloseRaw(FlushHiddenEnvelope(CloseSummary(CloseMessage(s, inferred))))))
  {
    var s1 := CloseSummary(CloseMessage(s, inferred));
    MessageSame(s, inferred);
    SummarySame(CloseMessage(s, inferred));
    SameChain(s, CloseMessage(s, inferred), s1);
    RawFlushSame(s1);
    SameChain(s, s1, FlushHiddenRaw(CloseRaw(s1)));
    HiddenSame(s1);
    var s2 := FlushHiddenEnvelope(s1);
    SameChain(s, s1, s2);
    RawFlushSame(s2);
    SameChain(s, s2, FlushHiddenRaw(CloseRaw(s2)));
  }

  // ---- Log and bridge agree ----

  /** The item is the one of the log entry, and was sent to the client as that entry says. */
  ghost predicate Matches(cfg: Config, fs: seq<Frame>, item: Item, e: Ended) {
    item.body == ItemFor(cfg, e.call, e.completed) && DoneIn(fs, item) && Streamed(fs, item.id) == StreamOf(cfg, e)
  }

  ghost predicate HoldsCall(cfg: Config, s: State, l: Log) {
    match s.call
    case None => l.open.None?
    case Some(c) =>
      && l.open == Some(Called(c.schemaName, c.callId, c.args))
      && c.name == RealName(cfg, c.schemaName) && c.namespace == Namespace(cfg, c.schemaName)
      && c.toolSearch == IsToolSearch(cfg, c.schemaName) && c.freeform == IsFreeform(cfg, c.schemaName)
  }

  ghost predicate AllMatch(cfg: Config, fs: seq<Frame>, items: seq<Item>, ended: seq<Ended>) {
    |items| == |ended| && forall k :: 0 <= k < |ended| ==> Matches(cfg, fs, items[k], ended[k])
  }

  /** The bridge has finished the calls the log has ended, and holds the call the log holds. */
  ghost predicate Tied(cfg: Config, s: State, l: Log) {
    Lively(cfg, s) && HoldsCall(cfg, s, l) && AllMatch(cfg, s.frames, CallItems(s.finished), l.ended)
  }

  lemma StillMatch(cfg: Config, s: State, t: State, items: seq<Item>, ended: seq<Ended>)
    requires Lively(cfg, s) && Lively(cfg, t) && s.frames <= t.frames && AllMatch(cfg, s.frames, items, ended)
    ensures AllMatch(cfg, t.frames, items, ended)
  {
    forall k | 0 <= k < |ended| ensures Matches(cfg, t.frames, items[k], ended[k]) {
      assert Matches(cfg, s.frames, items[k], ended[k]);
      FinishedStays(cfg, s, t, items[k]);
    }
  }

  lemma SameTied(cfg: Config, s: State, t: State, l: Log)
    requires Tied(cfg, s, l) && Same(s, t) && Lively(cfg, t)
    ensures Tied(cfg, t, l)
  {
    StillMatch(cfg, s, t, CallItems(s.finished), l.ended);
  }

  /** One more call is finished. */
  lemma EndTied(cfg: Config, s: State, t: State, l: Log, item: Item, completed: bool)
    requires Tied(cfg, s, l) && Lively(cfg, t) && s.frames <= t.frames && s.call.Some? && t.call.None?
    requires CallItems(t.finished) == CallItems(s.finished) + [item]
    requires Matches(cfg, t.frames, item, Ended(l.open.value, completed))
    ensures Tied(cfg, t, Close(l, completed))
  {
    StillMatch(cfg, s, t, CallItems(s.finished), l.ended);
  }

  /** Completing a call sends nothing but its closing frames. */
  lemma CloseCallStreams(cfg: Config, s: State)
    requires Lively(cfg, s) && s.call.Some?
    ensures
      var c, t := s.call.value, CloseCall(cfg, s);
      && Streamed(t.frames, c.id) == Streamed(s.frames, c.id)
      && t.finished == s.finished + [t.finished[|s.finished|]] && DoneIn(t.frames, t.finished[|s.finished|])
      && t.finished[|s.finished|]
         == Item(c.id, CompletedCall(cfg, c, CoerceUnder(cfg, StreamSchema(cfg, c.schemaName, c.name), c.args)))
  {
    var c, t := s.call.value, CloseCall(cfg, s);
    var f, item := t.frames[|s.frames|], t.finished[|s.finished|];
    StreamedAppend(s.frames, f, c.id);
    StreamedAppend(s.frames + [f], ItemDone(c.index, item), c.id);
    assert t.frames == s.frames + [f] + [ItemDone(c.index, item)];
    assert t.frames[|s.frames| + 1] == ItemDone(c.index, item);
  }

  lemma CompletedMatches(cfg: Config, s: State, l: Log)
    requires HoldsCall(cfg, s, l) && s.call.Some?
    ensures
      var c := s.call.value;
      var body := CompletedCall(cfg, c, CoerceUnder(cfg, StreamSchema(cfg, c.schemaName, c.name), c.args));
      body == ItemFor(cfg, l.open.value, true) && IsCall(body)
  {
  }

  lemma CompletedStreams(cfg: Config, s: State, l: Log)
    requires Lively(cfg, s) && HoldsCall(cfg, s, l) && s.call.Some?
    ensures Streamed(CloseCall(cfg, s).frames, s.call.value.id) == StreamOf(cfg, Ended(l.open.value, true))
  {
    OpenCallStreams(cfg, s);
    CloseCallStreams(cfg, s);
  }

  lemma CloseCallTied(cfg: Config, s: State, l: Log)
    requires Tied(cfg, s, l)
    ensures Tied(cfg, CloseCall(cfg, s), Close(l, true))
  {
    if s.call.Some? {
      var t := CloseCall(cfg, s);
      CompletedStreams(cfg, s, l);
      CompletedMatches(cfg, s, l);
      CloseCallStreams(cfg, s);
      LivelyCloseCall(cfg, s);
      CallItemsSnoc(s.finished, t.finished[|s.finished|]);
      EndTied(cfg, s, t, l, t.finished[|s.finished|], true);
    }
  }

  /** Failing a call replays the withheld deltas of a tool search. */
  lemma FailCallStreams(cfg: Config, s: State)
    requires Lively(cfg, s) && s.call.Some?
    ensures
      var c, t := s.call.value, FailCall(cfg, s);
      && Streamed(t.frames, c.id) == Streamed(s.frames, c.id) + (if c.toolSearch then c.args else [])
      && t.finished == s.finished + [Item(c.id, IncompleteCall(cfg, c))]
      && DoneIn(t.frames, Item(c.id, IncompleteCall(cfg, c))) && s.frames <= t.frames
  {
    var c, t := s.call.value, FailCall(cfg, s);
    var item := Item(c.id, IncompleteCall(cfg, c));
    var replayed := if c.toolSearch then [Added(c.index, c.id)] + Replay(c, c.argumentDeltas) else [];
    assert t.frames == (s.frames + replayed) + [ItemDone(c.index, item)];
    FailFramesStream(s.frames, c, item, replayed);
    assert t.frames[|s.frames + replayed|] == ItemDone(c.index, item);
  }

  lemma FailFramesStream(fs: seq<Frame>, c: OpenCall, item: Item, replayed: seq<Frame>)
    requires replayed == if c.toolSearch then [Added(c.index, c.id)] + Replay(c, c.argumentDeltas) else []
    requires c.toolSearch ==> Concat(c.argumentDeltas) == c.args
    ensures Streamed((fs + replayed) + [ItemDone(c.index, item)], c.id)
         == Streamed(fs, c.id) + (if c.toolSearch then c.args else [])
  {
    StreamedAppend(fs + replayed, ItemDone(c.index, item), c.id);
    if c.toolSearch {
      StreamedAppend(fs, Added(c.index, c.id), c.id);
      StreamedReplay(fs + [Added(c.index, c.id)], c, c.argumentDeltas);
      assert fs + replayed == (fs + [Added(c.index, c.id)]) + Replay(c, c.argumentDeltas);
    } else {
      assert fs + replayed == fs;
    }
  }

  lemma CutOffMatches(cfg: Config, s: State, l: Log)
    requires HoldsCall(cfg, s, l) && s.call.Some?
    ensures IncompleteCall(cfg, s.call.value) == ItemFor(cfg, l.open.value, false)
    ensures IsCall(IncompleteCall(cfg, s.call.value))
  {
  }

  lemma CutOffStreams(cfg: Config, s: State, l: Log)
    requires Lively(cfg, s) && HoldsCall(cfg, s, l) && s.call.Some?
    ensures Streamed(FailCall(cfg, s).frames, s.call.value.id) == StreamOf(cfg, Ended(l.open.value, false))
  {
    OpenCallStreams(cfg, s);
    FailCallStreams(cfg, s);
    assert [] + s.call.value.args == s.call.value.args;
  }

  lemma FailCallTied(cfg: Config, s: State, l: Log)
    requires Tied(cfg, s, l)
    ensures Tied(cfg, FailCall(cfg, s), Close(l, false))
  {
    if s.call.Some? {
      var t, item := FailCall(cfg, s), Item(s.call.value.id, IncompleteCall(cfg, s.call.value));
      CutOffStreams(cfg, s, l);
      CutOffMatches(cfg, s, l);
      FailCallStreams(cfg, s);
      LivelyFailCall(cfg, s);
      CallItemsSnoc(s.finished, item);
      EndTied(cfg, s, t, l, item, false);
    }
  }

  lemma TextTied(cfg: Config, s: State, l: Log, text: Text, phase: Option<Phase>)
    requires Tied(cfg, s, l)
    ensures Tied(cfg, OnText(cfg, s, text, phase), Close(l, true))
  {
    var s1 := FlushHiddenEnvelope(CloseSummary(s));
    SummarySame(s);
    HiddenSame(CloseSummary(s));
    RawSame(s1);
    HiddenRawSame(CloseRaw(s1));
    LivelyCloseSummary(cfg, s);
    LivelyFlushEnvelope(cfg, CloseSummary(s));
    LivelyCloseRaw(cfg, s1);
    LivelyFlushRaw(cfg, CloseRaw(s1));
    SameTied(cfg, s, FlushHiddenRaw(CloseRaw(s1)), l);
    CloseCallTied(cfg, FlushHiddenRaw(CloseRaw(s1)), l);
    SayTied(cfg, s, CloseBeforeText(cfg, s), Close(l, true), text, phase);
  }

  lemma SayTied(cfg: Config, s0: State, s: State, l: Log, text: Text, phase: Option<Phase>)
    requires Lively(cfg, s0) && s == CloseBeforeText(cfg, s0) && Tied(cfg, s, l)
    ensures Tied(cfg, OnText(cfg, s0, text, phase), l)
  {
    MessageSame(s, Some(Commentary));
    var s1 := if PhaseChanges(s, phase) then CloseMessage(s, Some(Commentary)) else s;
    SaysSame(s1, phase, text);
    LivelyText(cfg, s0, text, phase);
    SameTied(cfg, s, OnText(cfg, s0, text, phase), l);
  }

  lemma ThinkingTied(cfg: Config, s: State, l: Log, thinking: Text)
    requires !cfg.hideThinking && Tied(cfg, s, l)
    ensures Tied(cfg, OnThinking(cfg, s, thinking), Close(l, true))
  {
    var s1 := CloseRaw(CloseMessage(s, Some(Commentary)));
    MessageSame(s, Some(Commentary));
    RawSame(CloseMessage(s, Some(Commentary)));
    HiddenRawSame(s1);
    LivelyCloseMessage(cfg, s, Some(Commentary));
    LivelyCloseRaw(cfg, CloseMessage(s, Some(Commentary)));
    LivelyFlushRaw(cfg, s1);
    SameTied(cfg, s, FlushHiddenRaw(s1), l);
    CloseCallTied(cfg, FlushHiddenRaw(s1), l);
    var s2 := CloseCall(cfg, FlushHiddenRaw(s1));
    AppendsSame(s2, thinking);
    LivelyThinking(cfg, s, thinking);
    SameTied(cfg, s2, OnThinking(cfg, s, thinking), Close(l, true));
  }

  lemma RawReasoningTied(cfg: Config, s: State, l: Log, text: Text, asSummary: bool)
    requires !cfg.hideThinking && Tied(cfg, s, l)
    ensures Tied(cfg, OnRawReasoning(cfg, s, text, asSummary), Close(l, true))
  {
    MessageSame(s, Some(Commentary));
    LivelyCloseMessage(cfg, s, Some(Commentary));
    SameTied(cfg, s, CloseMessage(s, Some(Commentary)), l);
    CloseCallTied(cfg, CloseMessage(s, Some(Commentary)), l);
    var s1 := CloseCall(cfg, CloseMessage(s, Some(Commentary)));
    RawSame(s1);
    SummarySame(s1);
    AppendsSame(if asSummary then CloseRaw(s1) else CloseSummary(s1), text);
    LivelyRawReasoning(cfg, s, text, asSummary);
    SameTied(cfg, s1, OnRawReasoning(cfg, s, text, asSummary), Close(l, true));
  }

  lemma HiddenTied(cfg: Config, s: State, l: Log, e: Event)
    requires cfg.hideThinking && Tied(cfg, s, l) && (e.ThinkingDelta? || e.ReasoningRawDelta?)
    ensures Tied(cfg, StepContent(cfg, s, e), l)
  {
    HiddenRawSame(s);
    LivelyContentEvent(cfg, s, e);
    SameTied(cfg, s, StepContent(cfg, s, e), l);
  }

  lemma SignatureTied(cfg: Config, s: State, l: Log, signature: Text)
    requires Tied(cfg, s, l)
    ensures Tied(cfg, OnSignature(s, signature), l)
  {
    var s1 := s.(signature := signature);
    SummarySame(s1);
    HiddenSame(s1);
    LivelySignature(cfg, s, signature);
    SameTied(cfg, s, OnSignature(s, signature), l);
  }

  lemma BoundaryTied(cfg: Config, s: State, l: Log)
    requires Tied(cfg, s, l)
    ensures Tied(cfg, OnBoundary(cfg, s), Close(l, true))
  {
    TextClosedTied(cfg, s, l, Some(Commentary));
    var s1 := FlushHiddenRaw(CloseRaw(CloseSummary(CloseMessage(s, Some(Commentary)))));
    CloseCallTied(cfg, s1, l);
    HiddenSame(CloseCall(cfg, s1));
    LivelyBoundary(cfg, s);
    SameTied(cfg, CloseCall(cfg, s1), OnBoundary(cfg, s), Close(l, true));
  }

  lemma TextClosedTied(cfg: Config, s: State, l: Log, inferred: Option<Phase>)
    requires Tied(cfg, s, l)
    ensures Tied(cfg, FlushHiddenRaw(CloseRaw(CloseSummary(CloseMessage(s, inferred)))), l)
    ensures Tied(cfg, FlushHiddenRaw(CloseRaw(FlushHiddenEnvelope(CloseSummary(CloseMessage(s, inferred))))), l)
  {
    TextClosesSame(s, inferred);
    LivelyCloseText(cfg, s, inferred);
    SameTied(cfg, s, FlushHiddenRaw(CloseRaw(CloseSummary(CloseMessage(s, inferred)))), l);
    SameTied(cfg, s, FlushHiddenRaw(CloseRaw(FlushHiddenEnvelope(CloseSummary(CloseMessage(s, inferred))))), l);
  }

  lemma CallStartTied(cfg: Config, s: State, l: Log, callId: string, name: string)
    requires Tied(cfg, s, l)
    ensures Tied(cfg, OnCallStart(cfg, s, callId, name), LogTool(cfg, l, ToolCallStart(callId, name)))
  {
    TextClosedTied(cfg, s, l, Some(Commentary));
    var s1 := FlushHiddenRaw(CloseRaw(FlushHiddenEnvelope(CloseSummary(CloseMessage(s, Some(Commentary))))));
    CloseCallTied(cfg, s1, l);
    LivelyCallStart(cfg, s, callId, name);
    OpenCallTied(cfg, CloseCall(cfg, s1), Close(l, true), callId, name);
  }

  lemma OpenCallTied(cfg: Config, s: State, l: Log, callId: string, name: string)
    requires Tied(cfg, s, l) && s.call.None? && Lively(cfg, OpenCallItem(cfg, s, callId, name))
    ensures Tied(cfg, OpenCallItem(cfg, s, callId, name), l.(open := Some(Called(name, callId, []))))
  {
    StillMatch(cfg, s, OpenCallItem(cfg, s, callId, name), CallItems(s.finished), l.ended);
  }

  lemma CallDeltaTied(cfg: Config, s: State, l: Log, delta: Text)
    requires Tied(cfg, s, l)
    ensures Tied(cfg, OnCallDelta(s, delta), LogTool(cfg, l, ToolCallDelta(delta)))
  {
    var t := OnCallDelta(s, delta);
    LivelyCallDelta(cfg, s, delta);
    DeltaHolds(cfg, s, l, delta);
    StillMatch(cfg, s, t, CallItems(s.finished), l.ended);
  }

  lemma DeltaHolds(cfg: Config, s: State, l: Log, delta: Text)
    requires HoldsCall(cfg, s, l)
    ensures
      var t, l' := OnCallDelta(s, delta), LogTool(cfg, l, ToolCallDelta(delta));
      HoldsCall(cfg, t, l') && t.finished == s.finished && s.frames <= t.frames && l'.ended == l.ended
  {
  }

  lemma CallEndTied(cfg: Config, s: State, l: Log)
    requires Tied(cfg, s, l) && s.outcome.None? && !l.over
    ensures Tied(cfg, OnCallEnd(cfg, s), LogTool(cfg, l, ToolCallEnd))
    ensures OnCallEnd(cfg, s).outcome.Some? <==> LogTool(cfg, l, ToolCallEnd).over
  {
    assert CallIsMalformed(cfg, s) <==> Malformed(cfg, l);
    if CallIsMalformed(cfg, s) {
      FailCallTied(cfg, s, l);
      LivelyCallEnd(cfg, s);
      SameTied(cfg, FailCall(cfg, s), OnCallEnd(cfg, s), Close(l, false));
    } else {
      CloseCallTied(cfg, s, l);
    }
  }

  lemma SearchBeginTied(cfg: Config, s: State, l: Log, eventId: string)
    requires Tied(cfg, s, l)
    ensures Tied(cfg, OnSearchBegin(cfg, s, eventId), Close(l, true))
  {
    TextClosedTied(cfg, s, l, Some(Commentary));
    var s1 := FlushHiddenRaw(CloseRaw(CloseSummary(CloseMessage(s, Some(Commentary)))));
    CloseCallTied(cfg, s1, l);
    SearchSame(CloseCall(cfg, s1), SearchCompleted, [], []);
    LivelySearchBegin(cfg, s, eventId);
    SameTied(cfg, CloseCall(cfg, s1), OnSearchBegin(cfg, s, eventId), Close(l, true));
  }

  lemma EnsureSearchSame(s: State, eventId: string)
    ensures Same(s, EnsureSearch(s, eventId))
  {
    SearchSame(s, SearchCompleted, [], []);
  }

  lemma SearchEndSame(s: State, e: Event)
    requires e.WebSearchEnd?
    ensures Same(s, OnSearchEnd(s, e))
  {
    var s1 := EnsureSearch(s, e.id);
    var status := if e.searchStatus.Some? then e.searchStatus.value else SearchCompleted;
    EnsureSearchSame(s, e.id);
    SearchSame(s1, status, e.queries, OrNothing(e.sources));
    SameChain(s, s1, CloseSearch(s1, status, e.queries, OrNothing(e.sources)));
  }

  lemma SearchEndTied(cfg: Config, s: State, l: Log, e: Event)
    requires Tied(cfg, s, l) && e.WebSearchEnd?
    ensures Tied(cfg, OnSearchEnd(s, e), l)
  {
    SearchEndSame(s, e);
    LivelySearchEnd(cfg, s, e);
    SameTied(cfg, s, OnSearchEnd(s, e), l);
  }

  lemma AbandonTied(cfg: Config, s: State, l: Log)
    requires Tied(cfg, s, l)
    ensures Tied(cfg, Abandon(cfg, s), Close(l, false))
  {
    TextClosedTied(cfg, s, l, None);
    var s1 := FlushHiddenRaw(CloseRaw(CloseSummary(CloseMessage(s, None))));
    FailCallTied(cfg, s1, l);
    SearchSame(FailCall(cfg, s1), SearchFailed, [], []);
    LivelyAbandon(cfg, s);
    SameTied(cfg, FailCall(cfg, s1), Abandon(cfg, s), Close(l, false));
  }

  lemma CloseOutTied(cfg: Config, s: State, l: Log, inferred: Option<Phase>)
    requires Tied(cfg, s, l)
    ensures Tied(cfg, CloseOut(cfg, s, inferred), Close(l, true))
  {
    TextClosedTied(cfg, s, l, inferred);
    var s1 := FlushHiddenRaw(CloseRaw(CloseSummary(CloseMessage(s, inferred))));
    CloseCallTied(cfg, s1, l);
    var s2 := CloseSearch(CloseCall(cfg, s1), SearchCompleted, [], []);
    SearchSame(CloseCall(cfg, s1), SearchCompleted, [], []);
    HiddenSame(s2);
    KiroSame(FlushHiddenEnvelope(s2));
    SameChain(s2, FlushHiddenEnvelope(s2), CloseOut(cfg, s, inferred));
    SameChain(CloseCall(cfg, s1), s2, CloseOut(cfg, s, inferred));
    LivelyCloseOut(cfg, s, inferred);
    SameTied(cfg, CloseCall(cfg, s1), CloseOut(cfg, s, inferred), Close(l, true));
  }

  lemma EndWithTied(cfg: Config, s: State, o: Outcome, l: Log)
    requires Tied(cfg, s, l)
    ensures Tied(cfg, EndWith(s, o), l)
  {
    LivelyEnd(cfg, s, o);
    SameTied(cfg, s, EndWith(s, o), l);
  }

  lemma DoneTied(cfg: Config, s: State, l: Log, e: Event)
    requires !cfg.compaction && Tied(cfg, s, l) && e.Done?
    ensures Tied(cfg, OnDone(cfg, s, e), Close(l, true))
  {
    var inferred := if e.stopReason.None? || e.stopReason == Some("") then Some(FinalAnswer) else None;
    CloseOutTied(cfg, s, l, inferred);
    EndWithTied(cfg, CloseOut(cfg, s, inferred), DoneOutcome(e), Close(l, true));
  }

  lemma IncompleteTied(cfg: Config, s: State, l: Log, e: Event)
    requires Tied(cfg, s, l) && e.Incomplete?
    ensures Tied(cfg, OnIncomplete(cfg, s, e), Close(l, false))
  {
    AbandonTied(cfg, s, l);
    var s1 := Abandon(cfg, s);
    HiddenSame(s1);
    LivelyFlushEnvelope(cfg, s1);
    SameTied(cfg, s1, FlushHiddenEnvelope(s1), Close(l, false));
    EndWithTied(cfg, FlushHiddenEnvelope(s1), IncompleteOutcome(e), Close(l, false));
  }

  lemma ErrorTied(cfg: Config, s: State, l: Log, e: Event)
    requires Tied(cfg, s, l) && e.Error? && !IsLimitError(e)
    ensures Tied(cfg, OnError(cfg, s, e), Close(l, false))
  {
    AbandonTied(cfg, s, l);
    EndWithTied(cfg, Abandon(cfg, s), ErrorOutcome(e), Close(l, false));
  }

  lemma TerminalTied(cfg: Config, s: State, l: Log, e: Event)
    requires !cfg.compaction && Tied(cfg, s, l) && IsTerminal(e) && !IsLimitError(e)
    ensures Tied(cfg, StepTerminal(cfg, s, e), Close(l, e.Done?).(over := true)) && StepTerminal(cfg, s, e).outcome.Some?
  {
    match e
    case Done(_, _) => DoneTied(cfg, s, l, e);
    case Incomplete(_, _, _, _) => IncompleteTied(cfg, s, l, e);
    case Error(_, _, _, _, _) => ErrorTied(cfg, s, l, e);
  }

  lemma CallEventTied(cfg: Config, s: State, l: Log, e: Event)
    requires Tied(cfg, s, l) && s.outcome.None? && !l.over && (e.ToolCallStart? || e.ToolCallDelta? || e.ToolCallEnd?)
    ensures Tied(cfg, StepTool(cfg, s, e), LogTool(cfg, l, e))
    ensures StepTool(cfg, s, e).outcome.Some? <==> LogTool(cfg, l, e).over
  {
    match e
    case ToolCallStart(id, name) => CallStartTied(cfg, s, l, id, name);
    case ToolCallDelta(arguments) => CallDeltaTied(cfg, s, l, arguments);
    case ToolCallEnd => CallEndTied(cfg, s, l);
  }

  lemma SearchEventTied(cfg: Config, s: State, l: Log, e: Event)
    requires Tied(cfg, s, l) && s.outcome.None? && !l.over && (e.WebSearchBegin? || e.WebSearchEnd?)
    ensures Tied(cfg, StepTool(cfg, s, e), LogTool(cfg, l, e))
    ensures StepTool(cfg, s, e).outcome.None? && !LogTool(cfg, l, e).over
  {
    if e.WebSearchBegin? { SearchBeginTied(cfg, s, l, e.id); } else { SearchEndTied(cfg, s, l, e); }
  }

  lemma CompletingTied(cfg: Config, s: State, l: Log, e: Event)
    requires Tied(cfg, s, l) && s.outcome.None? && !IsTerminal(e) && !IsToolEvent(e) && Completes(cfg, e)
    ensures Tied(cfg, StepContent(cfg, s, e), Close(l, true)) && StepContent(cfg, s, e).outcome.None?
  {
    match e
    case TextDelta(text, phase) => TextTied(cfg, s, l, text, phase);
    case ThinkingDelta(thinking) => ThinkingTied(cfg, s, l, thinking);
    case ReasoningRawDelta(text, asSummary) => RawReasoningTied(cfg, s, l, text, asSummary);
    case AssistantBoundary => BoundaryTied(cfg, s, l);
  }

  lemma BlockTied(cfg: Config, s: State, l: Log, e: Event)
    requires Tied(cfg, s, l) && (e.Heartbeat? || e.RedactedThinking? || e.KiroRedactedReasoning?)
    ensures Tied(cfg, StepContent(cfg, s, e), l)
  {
    LivelyContentEvent(cfg, s, e);
    SameTied(cfg, s, StepContent(cfg, s, e), l);
  }

  lemma OtherContentTied(cfg: Config, s: State, l: Log, e: Event)
    requires Tied(cfg, s, l) && s.outcome.None? && !IsTerminal(e) && !IsToolEvent(e) && !Completes(cfg, e)
    ensures Tied(cfg, StepContent(cfg, s, e), l) && StepContent(cfg, s, e).outcome.None?
  {
    match e
    case ThinkingDelta(thinking) => HiddenTied(cfg, s, l, e);
    case ReasoningRawDelta(text, asSummary) => HiddenTied(cfg, s, l, e);
    case ThinkingSignature(signature) => SignatureTied(cfg, s, l, signature);
    case _ => BlockTied(cfg, s, l, e);
  }

  lemma StepTied(cfg: Config, s: State, l: Log, e: Event)
    requires !cfg.compaction && !IsLimitError(e) && Tied(cfg, s, l) && s.outcome.None? && !l.over
    ensures Tied(cfg, Step(cfg, s, e), LogEvent(cfg, l, e))
    ensures Step(cfg, s, e).outcome.Some? <==> LogEvent(cfg, l, e).over
  {
    if IsTerminal(e) {
      TerminalTied(cfg, s, l, e);
      assert Step(cfg, s, e) == StepTerminal(cfg, s, e);
    } else if IsToolEvent(e) {
      if e.WebSearchBegin? || e.WebSearchEnd? { SearchEventTied(cfg, s, l, e); } else { CallEventTied(cfg, s, l, e); }
      assert Step(cfg, s, e) == StepTool(cfg, s, e);
    } else {
      if Completes(cfg, e) { CompletingTied(cfg, s, l, e); } else { OtherContentTied(cfg, s, l, e); }
      assert Step(cfg, s, e) == StepContent(cfg, s, e);
    }
  }

  lemma {:induction false} StepsTied(cfg: Config, s: State, l: Log, events: seq<Event>)
    requires !cfg.compaction && (forall e :: e in events ==> !IsLimitError(e))
    requires Tied(cfg, s, l) && (s.outcome.Some? <==> l.over)
    ensures Tied(cfg, Steps(cfg, s, events), LogOf(cfg, l, events))
    ensures Steps(cfg, s, events).outcome.Some? <==> LogOf(cfg, l, events).over
    decreases |events|
  {
    if s.outcome.None? && events != [] {
      StepTied(cfg, s, l, events[0]);
      StepsTied(cfg, Step(cfg, s, events[0]), LogEvent(cfg, l, events[0]), events[1..]);
    }
  }

  /** The whole turn, with the call that the end of the input cuts off. */
  function WholeLog(cfg: Config, events: seq<Event>): Log {
    var l := LogOf(cfg, NO_CALLS, events);
    if l.over then l else Close(l, false)
  }

  /**
   The call items of a turn, in order, are the calls that were started, each with the concatenation of its argument
   deltas: coerced and parsed by kind if it was completed, raw if it was cut off. What the client was sent for each
   is that concatenation; for a freeform call the preview of it; for a tool search nothing, unless it was cut off.
   In every reachable state the same holds of the calls finished so far, and the open call holds the concatenation
   so far.
   */
  lemma CallsCarryTheirArguments(cfg: Config, events: seq<Event>, k: nat)
    requires Ordinary(cfg, events) && k <= |events|
    ensures Tied(cfg, Steps(cfg, START, events[..k]), LogOf(cfg, NO_CALLS, events[..k]))
    ensures var s := Run(cfg, events);
      AllMatch(cfg, s.frames, CallItems(s.finished), WholeLog(cfg, events).ended)
  {
    StartIsLively(cfg);
    assert Tied(cfg, START, NO_CALLS);
    StepsTied(cfg, START, NO_CALLS, events[..k]);
    StepsTied(cfg, START, NO_CALLS, events);
    var last := Steps(cfg, START, events);
    if last.outcome.None? {
      AbandonTied(cfg, last, LogOf(cfg, NO_CALLS, events));
      EndWithTied(cfg, Abandon(cfg, last), ADAPTER_EOF, WholeLog(cfg, events));
    }
  }
}
