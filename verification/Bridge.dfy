/**
 The stream bridge as the object its closures make up: one field per register, one method per helper
 and per adapter event. Every method is proved to compute the function of the same name in `Translator`.
 */
module BridgeObject {
  import opened Text
  import opened Responses
  import T = Translator
  import D = DenseIndices
  import E = TurnEnds
  import L = Lifecycle
  import Freeform

  class Bridge {
    const cfg: Config
    var currentMsg: Option<T.OpenMessage>
    var currentReasoning: Option<T.OpenReasoning>
    var currentRawReasoning: Option<T.OpenReasoning>
    var currentToolCall: Option<T.OpenCall>
    var currentWebSearch: Option<T.OpenSearch>
    var pendingSignature: Text
    var pendingRedacted: seq<Text>
    var hiddenThinkingText: Text
    var hiddenRawReasoningText: Text
    var pendingKiroRedacted: Text
    var compactionText: Text
    var pendingWebSources: seq<Citation>
    var outputIndex: nat
    var finishedItems: seq<Item>
    var freshId: nat
    var frames: seq<Frame>
    var outcome: Option<Outcome>

    ghost function View(): T.State
      reads this
    {
      T.State(currentMsg, currentReasoning, currentRawReasoning, currentToolCall, currentWebSearch,
              pendingSignature, pendingRedacted, hiddenThinkingText, hiddenRawReasoningText, pendingKiroRedacted,
              compactionText, pendingWebSources, outputIndex, finishedItems, freshId, frames, outcome)
    }

    constructor (cfg: Config)
      ensures this.cfg == cfg && View() == T.START
    {
      this.cfg := cfg;
      currentMsg, currentReasoning, currentRawReasoning := None, None, None;
      currentToolCall, currentWebSearch := None, None;
      pendingSignature, pendingRedacted, hiddenThinkingText, hiddenRawReasoningText := [], [], [], [];
      pendingKiroRedacted, compactionText, pendingWebSources := [], [], [];
      outputIndex, finishedItems, freshId, frames, outcome := 0, [], 0, [Created], None;
    }

    method Emit(f: Frame)
      modifies this`frames
      ensures View() == T.Emit(old(View()), f)
    {
      frames := frames + [f];
    }

    method Finish(index: nat, item: Item)
      modifies this`frames, this`finishedItems, this`outputIndex
      ensures View() == T.Finish(old(View()), index, item)
    {
      Emit(ItemDone(index, item));
      finishedItems := finishedItems + [item];
      outputIndex := outputIndex + 1;
    }

    method Uuid() returns (id: nat)
      modifies this`freshId
      ensures id == old(freshId) && View() == old(View()).(nextId := id + 1)
    {
      id := freshId;
      freshId := freshId + 1;
    }

    method TakeReasoningEnvelope(hidden: Text) returns (envelope: Option<Envelope>)
      modifies this`pendingSignature, this`pendingRedacted
      ensures envelope == T.TakenEnvelope(old(View()), hidden)
      ensures View() == if envelope.Some? then T.DropEnvelope(old(View())) else old(View())
    {
      if pendingSignature == [] && pendingRedacted == [] {
        return None;
      }
      envelope := Some(Envelope(pendingSignature, pendingRedacted, hidden, []));
      pendingSignature := [];
      pendingRedacted := [];
    }

    method EmitEnvelopeItem(envelope: Envelope)
      modifies this`frames, this`finishedItems, this`outputIndex, this`freshId
      ensures View() == T.EnvelopeItem(old(View()), envelope)
    {
      var itemId := Uuid();
      Emit(Added(outputIndex, itemId));
      Finish(outputIndex, Item(itemId, Reasoning(None, None, Some(envelope))));
    }

    method FlushHiddenReasoningEnvelope()
      modifies this
      ensures View() == T.FlushHiddenEnvelope(old(View()))
    {
      var encrypted := TakeReasoningEnvelope(hiddenThinkingText);
      hiddenThinkingText := [];
      if encrypted.Some? {
        EmitEnvelopeItem(encrypted.value);
      }
    }

    method FlushHiddenRawReasoning()
      modifies this
      ensures View() == T.FlushHiddenRaw(old(View()))
    {
      if hiddenRawReasoningText == [] {
        return;
      }
      var encrypted := Envelope([], [], hiddenRawReasoningText, []);
      hiddenRawReasoningText := [];
      EmitEnvelopeItem(encrypted);
    }

    method FlushKiroRedactedReasoning()
      modifies this
      ensures View() == T.FlushKiro(old(View()))
    {
      if pendingKiroRedacted == [] {
        return;
      }
      var encrypted := Envelope([], [], [], pendingKiroRedacted);
      pendingKiroRedacted := [];
      EmitEnvelopeItem(encrypted);
    }

    method TakeWebAnnotations() returns (annotations: seq<Citation>)
      modifies this`pendingWebSources
      ensures annotations == Annotations(old(pendingWebSources))
      ensures View() == old(View()).(sources := [])
    {
      annotations := Annotations(pendingWebSources);
      pendingWebSources := [];
    }

    method CloseCurrentMessage(inferredPhase: Option<Phase>)
      modifies this
      ensures View() == T.CloseMessage(old(View()), inferredPhase)
    {
      if currentMsg.None? {
        return;
      }
      var m := currentMsg.value;
      var phase := if m.phase.Some? then m.phase else inferredPhase;
      var annotations := TakeWebAnnotations();
      Emit(TextDone(m.index, m.id, OutputText, m.text));
      Emit(PartDone(m.index, m.id, OutputText, m.text));
      Finish(m.index, Item(m.id, Message(m.text, annotations, phase)));
      currentMsg := None;
    }

    method CloseCurrentReasoning()
      modifies this
      ensures View() == T.CloseSummary(old(View()))
    {
      if currentReasoning.None? {
        return;
      }
      var r := currentReasoning.value;
      Emit(TextDone(r.index, r.id, SummaryText, r.text));
      Emit(PartDone(r.index, r.id, SummaryText, r.text));
      var encrypted := TakeReasoningEnvelope([]);
      Finish(r.index, Item(r.id, Reasoning(Some(r.text), None, encrypted)));
      currentReasoning := None;
    }

    method CloseCurrentRawReasoning()
      modifies this
      ensures View() == T.CloseRaw(old(View()))
    {
      if currentRawReasoning.None? {
        return;
      }
      var r := currentRawReasoning.value;
      Finish(r.index, Item(r.id, Reasoning(None, Some(r.text), None)));
      currentRawReasoning := None;
    }

    method CloseCurrentToolCall()
      modifies this
      ensures View() == T.CloseCall(cfg, old(View()))
    {
      if currentToolCall.None? {
        return;
      }
      var c := currentToolCall.value;
      var args := CoerceUnder(cfg, T.StreamSchema(cfg, c.schemaName, c.name), c.args);
      if !c.freeform && !c.toolSearch {
        Emit(TextDone(c.index, c.id, CallArguments, OrEmptyObject(args)));
      }
      if c.freeform && !c.toolSearch {
        Emit(TextDone(c.index, c.id, CallInput, FreeformInput(cfg, args)));
      }
      if c.toolSearch {
        Emit(Added(c.index, c.id));
      }
      Finish(c.index, Item(c.id, T.CompletedCall(cfg, c, args)));
      currentToolCall := None;
    }

    method FailCurrentToolCall()
      modifies this
      ensures View() == T.FailCall(cfg, old(View()))
    {
      if currentToolCall.None? {
        return;
      }
      var c := currentToolCall.value;
      if c.toolSearch {
        Emit(Added(c.index, c.id));
        ghost var added := frames;
        var i := 0;
        while i < |c.argumentDeltas|
          invariant 0 <= i <= |c.argumentDeltas|
          invariant View() == old(View()).(frames := added + T.Replay(c, c.argumentDeltas[..i]))
        {
          assert c.argumentDeltas[..i + 1][..i] == c.argumentDeltas[..i];
          Emit(Delta(c.index, c.id, CallArguments, c.argumentDeltas[i]));
          i := i + 1;
        }
        assert c.argumentDeltas[..i] == c.argumentDeltas;
      }
      Finish(c.index, Item(c.id, T.IncompleteCall(cfg, c)));
      currentToolCall := None;
    }

    method CloseCurrentWebSearch(status: SearchStatus, queries: seq<string>, sources: seq<Citation>)
      modifies this
      ensures View() == T.CloseSearch(old(View()), status, queries, sources)
    {
      if currentWebSearch.None? {
        return;
      }
      var w := currentWebSearch.value;
      Finish(w.index, Item(w.id, WebSearchCall(status, SearchActionOf(queries), sources)));
      currentWebSearch := None;
    }

    method AppendCurrentReasoningSummary(text: Text)
      modifies this
      ensures View() == T.AppendSummary(old(View()), text)
    {
      if currentReasoning.None? {
        var itemId := Uuid();
        Emit(Added(outputIndex, itemId));
        Emit(PartAdded(outputIndex, itemId, SummaryText));
        currentReasoning := Some(T.OpenReasoning(itemId, outputIndex, []));
      }
      var r := currentReasoning.value;
      currentReasoning := Some(r.(text := r.text + text));
      Emit(Delta(r.index, r.id, SummaryText, text));
    }

    // ---- The event switch of `step` ----

    method OnBoundary()
      modifies this
      ensures View() == T.OnBoundary(cfg, old(View()))
    {
      CloseCurrentMessage(Some(Commentary));
      CloseCurrentReasoning();
      CloseCurrentRawReasoning();
      FlushHiddenRawReasoning();
      CloseCurrentToolCall();
      FlushHiddenReasoningEnvelope();
    }

    method CloseBeforeText()
      modifies this
      ensures View() == T.CloseBeforeText(cfg, old(View()))
    {
      CloseCurrentReasoning();
      FlushHiddenReasoningEnvelope();
      CloseCurrentRawReasoning();
      FlushHiddenRawReasoning();
      CloseCurrentToolCall();
    }

    method OnText(text: Text, phase: Option<Phase>)
      modifies this
      ensures View() == T.OnText(cfg, old(View()), text, phase)
    {
      CloseBeforeText();
      if currentMsg.Some? && phase.Some? && currentMsg.value.phase != phase {
        CloseCurrentMessage(Some(Commentary));
      }
      if currentMsg.None? {
        var itemId := Uuid();
        Emit(Added(outputIndex, itemId));
        Emit(PartAdded(outputIndex, itemId, OutputText));
        currentMsg := Some(T.OpenMessage(itemId, outputIndex, [], phase));
      }
      var m := currentMsg.value;
      currentMsg := Some(m.(text := m.text + text));
      Emit(Delta(m.index, m.id, OutputText, text));
    }

    method OnThinking(thinking: Text)
      modifies this
      ensures View() == T.OnThinking(cfg, old(View()), thinking)
    {
      if cfg.hideThinking {
        FlushHiddenRawReasoning();
        hiddenThinkingText := hiddenThinkingText + thinking;
        return;
      }
      CloseCurrentMessage(Some(Commentary));
      CloseCurrentRawReasoning();
      FlushHiddenRawReasoning();
      CloseCurrentToolCall();
      AppendCurrentReasoningSummary(thinking);
    }

    method OnSignature(signature: Text)
      modifies this
      ensures View() == T.OnSignature(old(View()), signature)
    {
      pendingSignature := signature;
      if currentReasoning.Some? {
        CloseCurrentReasoning();
      } else {
        FlushHiddenReasoningEnvelope();
      }
    }

    method OnRawReasoning(text: Text, asSummary: bool)
      modifies this
      ensures View() == T.OnRawReasoning(cfg, old(View()), text, asSummary)
    {
      if cfg.hideThinking {
        hiddenRawReasoningText := hiddenRawReasoningText + text;
        return;
      }
      CloseCurrentMessage(Some(Commentary));
      CloseCurrentToolCall();
      if asSummary {
        CloseCurrentRawReasoning();
        AppendCurrentReasoningSummary(text);
        return;
      }
      CloseCurrentReasoning();
      if currentRawReasoning.None? {
        var itemId := Uuid();
        Emit(Added(outputIndex, itemId));
        currentRawReasoning := Some(T.OpenReasoning(itemId, outputIndex, []));
      }
      var r := currentRawReasoning.value;
      currentRawReasoning := Some(r.(text := r.text + text));
      Emit(Delta(r.index, r.id, RawText, text));
    }

    method OnCallStart(callId: string, name: string)
      modifies this
      ensures View() == T.OnCallStart(cfg, old(View()), callId, name)
    {
      CloseCurrentMessage(Some(Commentary));
      CloseCurrentReasoning();
      FlushHiddenReasoningEnvelope();
      CloseCurrentRawReasoning();
      FlushHiddenRawReasoning();
      CloseCurrentToolCall();
      var realName := if name in cfg.namespaces then cfg.namespaces[name].1 else name;
      var toolSearch := realName in cfg.searchNames;
      var freeform := !toolSearch && name in cfg.freeformNames;
      var itemId := Uuid();
      if !toolSearch {
        Emit(Added(outputIndex, itemId));
      }
      currentToolCall := Some(T.OpenCall(itemId, outputIndex, callId, realName, name, Namespace(cfg, name),
                                         freeform, toolSearch, [], [], []));
    }

    method OnCallDelta(delta: Text)
      modifies this
      ensures View() == T.OnCallDelta(old(View()), delta)
    {
      if currentToolCall.None? {
        return;
      }
      var c := currentToolCall.value;
      var args := c.args + delta;
      currentToolCall := Some(c.(args := args));
      if c.toolSearch {
        currentToolCall := Some(c.(args := args, argumentDeltas := c.argumentDeltas + [delta]));
      }
      if !c.freeform && !c.toolSearch {
        Emit(Delta(c.index, c.id, CallArguments, delta));
      }
      if c.freeform && !c.toolSearch && !(args <= Freeform.WRAP) {
        var full := Freeform.FreeformPartialInput(args);
        if c.inputEmitted <= full && |full| > |c.inputEmitted| {
          Emit(Delta(c.index, c.id, CallInput, full[|c.inputEmitted|..]));
          currentToolCall := Some(c.(args := args, inputEmitted := full));
        }
      }
    }

    method EndWith(o: Outcome)
      modifies this`frames, this`outcome
      ensures View() == T.EndWith(old(View()), o)
    {
      Emit(Terminal(o, finishedItems));
      outcome := Some(o);
    }

    method OnCallEnd()
      modifies this
      ensures View() == T.OnCallEnd(cfg, old(View()))
    {
      if currentToolCall.Some? && !currentToolCall.value.freeform && !currentToolCall.value.toolSearch
         && !ArgumentsUsable(cfg, currentToolCall.value.args) {
        FailCurrentToolCall();
        EndWith(MALFORMED);
        return;
      }
      CloseCurrentToolCall();
    }

    method OnSearchBegin(eventId: string)
      modifies this
      ensures View() == T.OnSearchBegin(cfg, old(View()), eventId)
    {
      CloseCurrentMessage(Some(Commentary));
      CloseCurrentReasoning();
      CloseCurrentRawReasoning();
      FlushHiddenRawReasoning();
      CloseCurrentToolCall();
      CloseCurrentWebSearch(SearchCompleted, [], []);
      ghost var closed := View();
      assert closed == T.OnSearchBegin(cfg, old(View()), eventId).(
        search := closed.search, nextId := closed.nextId, frames := closed.frames);
      var itemId := Uuid();
      Emit(Added(outputIndex, itemId));
      currentWebSearch := Some(T.OpenSearch(itemId, eventId, outputIndex));
    }

    method QueueSources(sources: seq<Citation>)
      modifies this`pendingWebSources
      ensures View() == old(View()).(sources := Responses.QueueSources(old(pendingWebSources), sources))
    {
      var i := 0;
      while i < |sources|
        invariant 0 <= i <= |sources|
        invariant Responses.QueueSources(pendingWebSources, sources[i..])
               == Responses.QueueSources(old(pendingWebSources), sources)
        invariant View() == old(View()).(sources := pendingWebSources)
      {
        assert sources[i..][1..] == sources[i + 1..];
        if !exists c :: c in pendingWebSources && c.url == sources[i].url {
          pendingWebSources := pendingWebSources + [sources[i]];
        }
        i := i + 1;
      }
    }

    method EnsureSearch(eventId: string)
      modifies this
      ensures View() == T.EnsureSearch(old(View()), eventId)
    {
      if currentWebSearch.None? || currentWebSearch.value.eventId != eventId {
        CloseCurrentWebSearch(SearchCompleted, [], []);
        var itemId := Uuid();
        Emit(Added(outputIndex, itemId));
        currentWebSearch := Some(T.OpenSearch(itemId, eventId, outputIndex));
      }
    }

    method OnSearchEnd(e: Event)
      requires e.WebSearchEnd?
      modifies this
      ensures View() == T.OnSearchEnd(old(View()), e)
    {
      EnsureSearch(e.id);
      var status := if e.searchStatus.Some? then e.searchStatus.value else SearchCompleted;
      CloseCurrentWebSearch(status, e.queries, OrNothing(e.sources));
      if e.sources.Some? {
        QueueSources(e.sources.value);
      }
    }

    method CloseOut(inferredPhase: Option<Phase>)
      modifies this
      ensures View() == T.CloseOut(cfg, old(View()), inferredPhase)
    {
      CloseCurrentMessage(inferredPhase);
      CloseCurrentReasoning();
      CloseCurrentRawReasoning();
      FlushHiddenRawReasoning();
      CloseCurrentToolCall();
      CloseCurrentWebSearch(SearchCompleted, [], []);
      FlushHiddenReasoningEnvelope();
      FlushKiroRedactedReasoning();
    }

    method OnDone(e: Event)
      requires e.Done?
      modifies this
      ensures View() == T.OnDone(cfg, old(View()), e)
    {
      CloseOut(if e.stopReason.None? || e.stopReason == Some("") then Some(FinalAnswer) else None);
      Complete(e);
    }

    method Complete(e: Event)
      requires e.Done?
      modifies this
      ensures View() == T.Complete(cfg, old(View()), e)
    {
      if cfg.compaction && !StopsShort(e.stopReason) {
        var itemId := Uuid();
        Finish(outputIndex, Item(itemId, Compaction(compactionText)));
      }
      EndWith(DoneOutcome(e));
    }

    /** The closing sequence shared by `incomplete`, `error`, stall, adapter EOF and a thrown error. */
    method Abandon()
      modifies this
      ensures View() == T.Abandon(cfg, old(View()))
    {
      CloseCurrentMessage(None);
      CloseCurrentReasoning();
      CloseCurrentRawReasoning();
      FlushHiddenRawReasoning();
      FailCurrentToolCall();
      CloseCurrentWebSearch(SearchFailed, [], []);
    }

    method OnIncomplete(e: Event)
      requires e.Incomplete?
      modifies this
      ensures View() == T.OnIncomplete(cfg, old(View()), e)
    {
      Abandon();
      FlushHiddenReasoningEnvelope();
      EndWith(IncompleteOutcome(e));
    }

    method Overflow()
      modifies this
      ensures View() == T.Overflow(old(View()))
    {
      currentToolCall := None;
      currentWebSearch := None;
      EndWith(OVERFLOW);
    }

    method OnError(e: Event)
      requires e.Error?
      modifies this
      ensures View() == T.OnError(cfg, old(View()), e)
    {
      if e.code == Some("translation_buffer_limit") {
        Overflow();
        return;
      }
      Abandon();
      EndWith(ErrorOutcome(e));
    }

    method Handle(e: Event)
      modifies this
      ensures View() == T.Step(cfg, old(View()), e)
    {
      if cfg.compaction {
        if e.TextDelta? {
          compactionText := compactionText + e.text;
          return;
        }
        if !e.Done? && !e.Incomplete? && !e.Error? {
          return;
        }
      }
      if T.IsTerminal(e) {
        HandleTerminal(e);
      } else if T.IsToolEvent(e) {
        HandleTool(e);
      } else {
        HandleContent(e);
      }
    }

    method HandleTerminal(e: Event)
      requires T.IsTerminal(e)
      modifies this
      ensures View() == T.StepTerminal(cfg, old(View()), e)
    {
      match e
      case Done(_, _) => OnDone(e);
      case Incomplete(_, _, _, _) => OnIncomplete(e);
      case Error(_, _, _, _, _) => OnError(e);
    }

    method HandleTool(e: Event)
      requires T.IsToolEvent(e)
      modifies this
      ensures View() == T.StepTool(cfg, old(View()), e)
    {
      match e
      case ToolCallStart(id, name) => OnCallStart(id, name);
      case ToolCallDelta(arguments) => OnCallDelta(arguments);
      case ToolCallEnd => OnCallEnd();
      case WebSearchBegin(id) => OnSearchBegin(id);
      case WebSearchEnd(_, _, _, _) => OnSearchEnd(e);
    }

    method HandleContent(e: Event)
      requires !T.IsTerminal(e) && !T.IsToolEvent(e)
      modifies this
      ensures View() == T.StepContent(cfg, old(View()), e)
    {
      match e
      case Heartbeat =>
      case TextDelta(text, phase) => OnText(text, phase);
      case ThinkingDelta(thinking) => OnThinking(thinking);
      case ThinkingSignature(signature) => OnSignature(signature);
      case RedactedThinking(data) => pendingRedacted := pendingRedacted + [data];
      case KiroRedactedReasoning(data) => pendingKiroRedacted := data;
      case ReasoningRawDelta(text, asSummary) => OnRawReasoning(text, asSummary);
      case AssistantBoundary => OnBoundary();
    }

    /**
     The pull loop over one turn's events, with the synthesized end of a turn that has none. It leaves every item
     accounted for, and the indices of an orderly turn dense.
     */
    method Drain(events: seq<Event>)
      requires View() == T.START
      modifies this
      ensures View() == T.Run(cfg, events) && View().outcome.Some?
      ensures L.Ordinary(cfg, events) ==> L.Lively(cfg, View())
      ensures L.Ordinary(cfg, events) && E.SearchesEndFirst(cfg, T.START, events) ==>
        L.AllClosed(View()) && forall x: nat :: x < View().nextId ==> E.Completed(cfg, View(), x)
      ensures D.OrderlyTurn(cfg, events) ==> D.Dense(View())
    {
      var i := 0;
      while i < |events| && outcome.None?
        invariant 0 <= i <= |events|
        invariant T.Steps(cfg, View(), events[i..]) == T.Steps(cfg, T.START, events)
      {
        assert events[i..][1..] == events[i + 1..];
        Handle(events[i]);
        i := i + 1;
      }
      if outcome.None? {
        Abandon();
        EndWith(ADAPTER_EOF);
      }
      DrainMeans(cfg, events);
    }
  }

  lemma DrainMeans(cfg: Config, events: seq<Event>)
    ensures var s := T.Run(cfg, events);
            && s.outcome.Some?
            && (L.Ordinary(cfg, events) ==> L.Lively(cfg, s))
            && (L.Ordinary(cfg, events) && E.SearchesEndFirst(cfg, T.START, events) ==>
                  L.AllClosed(s) && forall x: nat :: x < s.nextId ==> E.Completed(cfg, s, x))
            && (D.OrderlyTurn(cfg, events) ==> D.Dense(s))
  {
    L.RunEnds(cfg, events);
    if L.Ordinary(cfg, events) {
      L.ItemsLiveProperly(cfg, events, 0);
      if E.SearchesEndFirst(cfg, T.START, events) { E.EveryItemIsCompleted(cfg, events); }
    }
    if D.OrderlyTurn(cfg, events) { D.IndicesAreDense(cfg, events); }
  }
}
