/** Handlers only append frames, and the terminal frame is the last one of the turn. */
module Progress {
  import opened Text
  import opened Responses
  import opened Translator

  /** `t` is `s` with more frames, none of them terminal. */
  ghost predicate Extends(s: State, t: State) {
    && s.frames <= t.frames && t.outcome == s.outcome
    && forall i :: |s.frames| <= i < |t.frames| ==> !t.frames[i].Terminal?
  }

  /** `t` is `s` with more frames, the last of which is the terminal frame of its outcome. */
  ghost predicate Concludes(s: State, t: State) {
    && t.outcome.Some? && |s.frames| < |t.frames|
    && s.frames <= t.frames[..|t.frames| - 1]
    && (forall i :: |s.frames| <= i < |t.frames| - 1 ==> !t.frames[i].Terminal?)
    && t.frames[|t.frames| - 1].Terminal? && t.frames[|t.frames| - 1].outcome == t.outcome.value
  }

  lemma Chain(a: State, b: State, c: State)
    requires Extends(a, b) && Extends(b, c)
    ensures Extends(a, c)
  {
    assert forall i :: |a.frames| <= i < |b.frames| ==> c.frames[i] == b.frames[i];
  }

  lemma EndConcludes(a: State, b: State, o: Outcome)
    requires Extends(a, b)
    ensures Concludes(a, EndWith(b, o))
  {
    assert EndWith(b, o).frames[..|b.frames|] == b.frames;
  }

  lemma ClosesExtend(cfg: Config, s: State, inferred: Option<Phase>)
    ensures Extends(s, CloseMessage(s, inferred)) && Extends(s, CloseSummary(s)) && Extends(s, CloseRaw(s))
    ensures Extends(s, CloseCall(cfg, s))
  {
    MessageExtends(s, inferred);
    SummaryExtends(s);
    RawExtends(s);
    CallExtends(cfg, s);
  }

  lemma MessageExtends(s: State, inferred: Option<Phase>)
    ensures Extends(s, CloseMessage(s, inferred))
  {
  }

  lemma SummaryExtends(s: State)
    ensures Extends(s, CloseSummary(s))
  {
  }

  lemma RawExtends(s: State)
    ensures Extends(s, CloseRaw(s))
  {
  }

  lemma CallExtends(cfg: Config, s: State)
    ensures Extends(s, CloseCall(cfg, s))
  {
  }

  lemma FlushesExtend(s: State)
    ensures Extends(s, FlushHiddenEnvelope(s)) && Extends(s, FlushHiddenRaw(s)) && Extends(s, FlushKiro(s))
  {
    EnvelopeExtends(s);
    HiddenRawExtends(s);
    KiroExtends(s);
  }

  lemma EnvelopeExtends(s: State)
    ensures Extends(s, FlushHiddenEnvelope(s))
  {
  }

  lemma HiddenRawExtends(s: State)
    ensures Extends(s, FlushHiddenRaw(s))
  {
  }

  lemma KiroExtends(s: State)
    ensures Extends(s, FlushKiro(s))
  {
  }

  lemma SearchExtends(s: State, status: SearchStatus, queries: seq<string>, sources: seq<Citation>, eventId: string)
    ensures Extends(s, CloseSearch(s, status, queries, sources)) && Extends(s, OpenSearchItem(s, eventId))
  {
  }

  lemma {:induction false} ReplayIsDeltas(c: OpenCall, deltas: seq<Text>)
    ensures forall f :: f in Replay(c, deltas) ==> f.Delta?
  {
    if deltas != [] {
      ReplayIsDeltas(c, deltas[..|deltas| - 1]);
    }
  }

  lemma FailExtends(cfg: Config, s: State)
    ensures Extends(s, FailCall(cfg, s))
  {
    if s.call.Some? && s.call.value.toolSearch {
      var c := s.call.value;
      ReplayIsDeltas(c, c.argumentDeltas);
      var added := s.frames + [Added(c.index, c.id)];
      var replayed := Replay(c, c.argumentDeltas);
      forall i | |s.frames| <= i < |FailCall(cfg, s).frames| ensures !FailCall(cfg, s).frames[i].Terminal? {
        if |added| <= i < |added + replayed| {
          assert FailCall(cfg, s).frames[i] == (added + replayed)[i] == replayed[i - |added|];
          assert replayed[i - |added|] in replayed;
        }
      }
    }
  }

  lemma TextClosesExtend(cfg: Config, s: State, inferred: Option<Phase>)
    ensures Extends(s, FlushHiddenRaw(CloseRaw(CloseSummary(CloseMessage(s, inferred)))))
    ensures Extends(s, FlushHiddenRaw(CloseRaw(FlushHiddenEnvelope(CloseSummary(CloseMessage(s, inferred))))))
  {
    var s1 := CloseMessage(s, inferred);
    ClosesExtend(cfg, s, inferred);
    ClosesExtend(cfg, s1, inferred);
    var s2 := CloseSummary(s1);
    Chain(s, s1, s2);
    ClosesExtend(cfg, s2, inferred);
    Chain(s, s2, CloseRaw(s2));
    FlushesExtend(CloseRaw(s2));
    Chain(s, CloseRaw(s2), FlushHiddenRaw(CloseRaw(s2)));
    FlushesExtend(s2);
    var s3 := FlushHiddenEnvelope(s2);
    Chain(s, s2, s3);
    ClosesExtend(cfg, s3, inferred);
    Chain(s, s3, CloseRaw(s3));
    FlushesExtend(CloseRaw(s3));
    Chain(s, CloseRaw(s3), FlushHiddenRaw(CloseRaw(s3)));
  }

  /** A close of the call on top of any extension. */
  lemma ThenCloseCall(cfg: Config, a: State, b: State)
    requires Extends(a, b)
    ensures Extends(a, CloseCall(cfg, b)) && Extends(a, FailCall(cfg, b))
  {
    ClosesExtend(cfg, b, None);
    FailExtends(cfg, b);
    Chain(a, b, CloseCall(cfg, b));
    Chain(a, b, FailCall(cfg, b));
  }

  lemma AbandonExtends(cfg: Config, s: State)
    ensures Extends(s, Abandon(cfg, s))
  {
    TextClosesExtend(cfg, s, None);
    var s1 := FlushHiddenRaw(CloseRaw(CloseSummary(CloseMessage(s, None))));
    ThenCloseCall(cfg, s, s1);
    SearchExtends(FailCall(cfg, s1), SearchFailed, [], [], "");
    Chain(s, FailCall(cfg, s1), Abandon(cfg, s));
  }

  lemma CloseOutExtends(cfg: Config, s: State, inferred: Option<Phase>)
    ensures Extends(s, CloseOut(cfg, s, inferred))
  {
    TextClosesExtend(cfg, s, inferred);
    var s1 := FlushHiddenRaw(CloseRaw(CloseSummary(CloseMessage(s, inferred))));
    ThenCloseCall(cfg, s, s1);
    var s2 := CloseSearch(CloseCall(cfg, s1), SearchCompleted, [], []);
    SearchExtends(CloseCall(cfg, s1), SearchCompleted, [], [], "");
    Chain(s, CloseCall(cfg, s1), s2);
    FlushesExtend(s2);
    Chain(s, s2, FlushHiddenEnvelope(s2));
    FlushesExtend(FlushHiddenEnvelope(s2));
    Chain(s, FlushHiddenEnvelope(s2), CloseOut(cfg, s, inferred));
  }

  lemma AppendsExtend(s: State, text: Text)
    ensures Extends(s, AppendMessage(s, text)) && Extends(s, AppendSummary(s, text)) && Extends(s, AppendRaw(s, text))
  {
  }

  lemma BeforeTextExtends(cfg: Config, s: State)
    ensures Extends(s, CloseBeforeText(cfg, s))
  {
    ClosesExtend(cfg, s, None);
    var s1 := CloseSummary(s);
    FlushesExtend(s1);
    var s2 := FlushHiddenEnvelope(s1);
    Chain(s, s1, s2);
    ClosesExtend(cfg, s2, None);
    Chain(s, s2, CloseRaw(s2));
    FlushesExtend(CloseRaw(s2));
    var s3 := FlushHiddenRaw(CloseRaw(s2));
    Chain(s, CloseRaw(s2), s3);
    ThenCloseCall(cfg, s, s3);
  }

  lemma SayExtends(s: State, text: Text, phase: Option<Phase>)
    ensures Extends(s, AppendMessage(if s.msg.None? then OpenMessageItem(s, phase) else s, text))
  {
  }

  lemma TextExtends(cfg: Config, s: State, text: Text, phase: Option<Phase>)
    ensures Extends(s, OnText(cfg, s, text, phase))
  {
    BeforeTextExtends(cfg, s);
    var s1 := CloseBeforeText(cfg, s);
    ClosesExtend(cfg, s1, Some(Commentary));
    Chain(s, s1, CloseMessage(s1, Some(Commentary)));
    var s2 := if PhaseChanges(s1, phase) then CloseMessage(s1, Some(Commentary)) else s1;
    SayExtends(s2, text, phase);
    Chain(s, s2, OnText(cfg, s, text, phase));
  }

  lemma ThinkingExtends(cfg: Config, s: State, thinking: Text)
    ensures Extends(s, OnThinking(cfg, s, thinking))
  {
    if cfg.hideThinking {
      FlushesExtend(s);
    } else {
      ClosesExtend(cfg, s, Some(Commentary));
      var s1 := CloseMessage(s, Some(Commentary));
      ClosesExtend(cfg, s1, None);
      Chain(s, s1, CloseRaw(s1));
      FlushesExtend(CloseRaw(s1));
      var s2 := FlushHiddenRaw(CloseRaw(s1));
      Chain(s, CloseRaw(s1), s2);
      ThenCloseCall(cfg, s, s2);
      AppendsExtend(CloseCall(cfg, s2), thinking);
      Chain(s, CloseCall(cfg, s2), OnThinking(cfg, s, thinking));
    }
  }

  lemma RawReasoningExtends(cfg: Config, s: State, text: Text, asSummary: bool)
    ensures Extends(s, OnRawReasoning(cfg, s, text, asSummary))
  {
    if !cfg.hideThinking {
      ClosesExtend(cfg, s, Some(Commentary));
      ThenCloseCall(cfg, s, CloseMessage(s, Some(Commentary)));
      var s1 := CloseCall(cfg, CloseMessage(s, Some(Commentary)));
      ClosesExtend(cfg, s1, None);
      var s2 := if asSummary then CloseRaw(s1) else CloseSummary(s1);
      Chain(s, s1, s2);
      AppendsExtend(s2, text);
      Chain(s, s2, OnRawReasoning(cfg, s, text, asSummary));
    }
  }

  lemma SignatureExtends(s: State, signature: Text)
    ensures Extends(s, OnSignature(s, signature))
  {
    SummaryExtends(s.(signature := signature));
    EnvelopeExtends(s.(signature := signature));
  }

  lemma BlockExtends(cfg: Config, s: State, e: Event)
    requires e.Heartbeat? || e.RedactedThinking? || e.KiroRedactedReasoning?
    ensures Extends(s, StepContent(cfg, s, e))
  {
  }

  lemma ContentExtends(cfg: Config, s: State, e: Event)
    requires !IsTerminal(e) && !IsToolEvent(e)
    ensures Extends(s, StepContent(cfg, s, e))
  {
    match e
    case TextDelta(text, phase) => TextExtends(cfg, s, text, phase);
    case ThinkingDelta(thinking) => ThinkingExtends(cfg, s, thinking);
    case ThinkingSignature(signature) => SignatureExtends(s, signature);
    case ReasoningRawDelta(text, asSummary) => RawReasoningExtends(cfg, s, text, asSummary);
    case AssistantBoundary => BoundaryExtends(cfg, s);
    case _ => BlockExtends(cfg, s, e);
  }

  lemma BoundaryExtends(cfg: Config, s: State)
    ensures Extends(s, OnBoundary(cfg, s))
  {
    TextClosesExtend(cfg, s, Some(Commentary));
    var s1 := FlushHiddenRaw(CloseRaw(CloseSummary(CloseMessage(s, Some(Commentary)))));
    ThenCloseCall(cfg, s, s1);
    FlushesExtend(CloseCall(cfg, s1));
    Chain(s, CloseCall(cfg, s1), OnBoundary(cfg, s));
  }

  lemma CallStartExtends(cfg: Config, s: State, callId: string, name: string)
    ensures Extends(s, OnCallStart(cfg, s, callId, name))
  {
    TextClosesExtend(cfg, s, Some(Commentary));
    var s1 := FlushHiddenRaw(CloseRaw(FlushHiddenEnvelope(CloseSummary(CloseMessage(s, Some(Commentary))))));
    ThenCloseCall(cfg, s, s1);
    assert Extends(CloseCall(cfg, s1), OpenCallItem(cfg, CloseCall(cfg, s1), callId, name));
    Chain(s, CloseCall(cfg, s1), OnCallStart(cfg, s, callId, name));
  }

  lemma SearchBeginExtends(cfg: Config, s: State, eventId: string)
    ensures Extends(s, OnSearchBegin(cfg, s, eventId))
  {
    TextClosesExtend(cfg, s, Some(Commentary));
    var s1 := FlushHiddenRaw(CloseRaw(CloseSummary(CloseMessage(s, Some(Commentary)))));
    ThenCloseCall(cfg, s, s1);
    SearchExtends(CloseCall(cfg, s1), SearchCompleted, [], [], "");
    var s2 := CloseSearch(CloseCall(cfg, s1), SearchCompleted, [], []);
    Chain(s, CloseCall(cfg, s1), s2);
    SearchExtends(s2, SearchCompleted, [], [], eventId);
    Chain(s, s2, OnSearchBegin(cfg, s, eventId));
  }

  lemma SearchEndExtends(s: State, e: Event)
    requires e.WebSearchEnd?
    ensures Extends(s, OnSearchEnd(s, e))
  {
    SearchExtends(s, SearchCompleted, [], [], "");
    var s0 := CloseSearch(s, SearchCompleted, [], []);
    SearchExtends(s0, SearchCompleted, [], [], e.id);
    Chain(s, s0, OpenSearchItem(s0, e.id));
    var s1 := EnsureSearch(s, e.id);
    var status := if e.searchStatus.Some? then e.searchStatus.value else SearchCompleted;
    SearchExtends(s1, status, e.queries, OrNothing(e.sources), "");
    Chain(s, s1, CloseSearch(s1, status, e.queries, OrNothing(e.sources)));
  }

  lemma CallDeltaExtends(s: State, delta: Text)
    ensures Extends(s, OnCallDelta(s, delta))
  {
  }

  lemma CallEndMoves(cfg: Config, s: State)
    requires s.outcome.None?
    ensures if OnCallEnd(cfg, s).outcome.None? then Extends(s, OnCallEnd(cfg, s)) else Concludes(s, OnCallEnd(cfg, s))
  {
    ClosesExtend(cfg, s, None);
    FailExtends(cfg, s);
    EndConcludes(s, FailCall(cfg, s), MALFORMED);
  }

  lemma ToolMoves(cfg: Config, s: State, e: Event)
    requires s.outcome.None? && IsToolEvent(e)
    ensures
      var t := StepTool(cfg, s, e);
      if t.outcome.None? then Extends(s, t) else Concludes(s, t)
  {
    match e
    case ToolCallStart(id, name) => CallStartExtends(cfg, s, id, name);
    case ToolCallDelta(arguments) => CallDeltaExtends(s, arguments);
    case ToolCallEnd => CallEndMoves(cfg, s);
    case WebSearchBegin(id) => SearchBeginExtends(cfg, s, id);
    case WebSearchEnd(_, _, _, _) => SearchEndExtends(s, e);
  }

  lemma DoneConcludes(cfg: Config, s: State, e: Event)
    requires e.Done?
    ensures Concludes(s, OnDone(cfg, s, e))
  {
    var inferred := if e.stopReason.None? || e.stopReason == Some("") then Some(FinalAnswer) else None;
    CloseOutExtends(cfg, s, inferred);
    var s1 := CloseOut(cfg, s, inferred);
    assert Extends(s1, CompactionItem(s1));
    Chain(s, s1, CompactionItem(s1));
    EndConcludes(s, if cfg.compaction && !StopsShort(e.stopReason) then CompactionItem(s1) else s1, DoneOutcome(e));
  }

  lemma TerminalConcludes(cfg: Config, s: State, e: Event)
    requires IsTerminal(e)
    ensures Concludes(s, StepTerminal(cfg, s, e))
  {
    match e
    case Done(_, _) => DoneConcludes(cfg, s, e);
    case Incomplete(_, _, _, _) =>
      AbandonExtends(cfg, s);
      FlushesExtend(Abandon(cfg, s));
      Chain(s, Abandon(cfg, s), FlushHiddenEnvelope(Abandon(cfg, s)));
      EndConcludes(s, FlushHiddenEnvelope(Abandon(cfg, s)), IncompleteOutcome(e));
    case Error(_, _, _, _, _) =>
      AbandonExtends(cfg, s);
      EndConcludes(s, Abandon(cfg, s), ErrorOutcome(e));
      EndConcludes(s, s.(call := None, search := None), OVERFLOW);
  }

  /** One event either extends the frames or concludes them. */
  lemma StepMoves(cfg: Config, s: State, e: Event)
    requires s.outcome.None?
    ensures
      var t := Step(cfg, s, e);
      if t.outcome.None? then Extends(s, t) else Concludes(s, t)
  {
    if IsTerminal(e) {
      TerminalConcludes(cfg, s, e);
    } else if IsToolEvent(e) {
      ToolMoves(cfg, s, e);
    } else {
      ContentExtends(cfg, s, e);
    }
  }

  lemma AbnormalEndsConclude(cfg: Config, s: State, o: Outcome)
    ensures Concludes(s, EndWith(Abandon(cfg, s), o))
  {
    AbandonExtends(cfg, s);
    EndConcludes(s, Abandon(cfg, s), o);
  }
}
