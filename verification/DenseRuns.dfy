/**
 Which turns are orderly: those with paired searches and signatures in place, in visible mode without deferred
 blocks; and what hidden mode and compaction do instead.
 */
module DenseRuns {
  import opened Text
  import opened Responses
  import opened Translator
  import opened DenseIndices
  import Refinement

  // ---- Nothing pending ----

  /** Visible reasoning, no compaction, no deferred payloads, and no translation overflow. */
  predicate Plain(cfg: Config, e: Event) {
    !cfg.hideThinking && !cfg.compaction && !e.RedactedThinking? && !e.KiroRedactedReasoning? && !IsLimitError(e)
  }

  /** What was not pending does not become so. */
  predicate Free(s: State, t: State) {
    (s.hiddenRaw == [] ==> t.hiddenRaw == []) && (s.redacted == [] ==> t.redacted == [])
  }

  lemma FreeCloses(cfg: Config, s: State, inferred: Option<Phase>)
    ensures Free(s, CloseMessage(s, inferred)) && Free(s, CloseSummary(s)) && Free(s, CloseRaw(s))
    ensures Free(s, CloseCall(cfg, s)) && Free(s, FailCall(cfg, s))
  {
    FreeMessage(s, inferred);
    FreeSummary(s);
    FreeRaw(s);
    FreeCall(cfg, s);
    FreeFailedCall(cfg, s);
  }

  lemma FreeMessage(s: State, inferred: Option<Phase>)
    ensures Free(s, CloseMessage(s, inferred))
  {
  }

  lemma FreeSummary(s: State)
    ensures Free(s, CloseSummary(s))
  {
  }

  lemma FreeRaw(s: State)
    ensures Free(s, CloseRaw(s))
  {
  }

  lemma FreeCall(cfg: Config, s: State)
    ensures Free(s, CloseCall(cfg, s))
  {
  }

  lemma FreeFailedCall(cfg: Config, s: State)
    ensures Free(s, FailCall(cfg, s))
  {
  }

  lemma FreeEnvelope(s: State)
    ensures Free(s, FlushHiddenEnvelope(s))
  {
  }

  lemma FreeHiddenRaw(s: State)
    ensures Free(s, FlushHiddenRaw(s))
  {
  }

  lemma FreeKiro(s: State)
    ensures Free(s, FlushKiro(s))
  {
  }

  lemma FreeFlushes(s: State)
    ensures Free(s, FlushHiddenEnvelope(s)) && Free(s, FlushHiddenRaw(s)) && Free(s, FlushKiro(s))
  {
    FreeEnvelope(s);
    FreeHiddenRaw(s);
    FreeKiro(s);
  }

  lemma FreeChain(a: State, b: State, c: State)
    requires Free(a, b) && Free(b, c)
    ensures Free(a, c)
  {
  }

  lemma FreeRawFlush(s: State)
    ensures Free(s, FlushHiddenRaw(CloseRaw(s)))
  {
    FreeRaw(s);
    FreeHiddenRaw(CloseRaw(s));
    FreeChain(s, CloseRaw(s), FlushHiddenRaw(CloseRaw(s)));
  }

  lemma FreeSearch(s: State, status: SearchStatus, queries: seq<string>, sources: seq<Citation>)
    ensures Free(s, CloseSearch(s, status, queries, sources))
  {
  }

  lemma FreeCloseText(cfg: Config, s: State, inferred: Option<Phase>)
    ensures Free(s, FlushHiddenRaw(CloseRaw(CloseSummary(CloseMessage(s, inferred)))))
    ensures Free(s, FlushHiddenRaw(CloseRaw(FlushHiddenEnvelope(CloseSummary(CloseMessage(s, inferred))))))
  {
    var s1 := CloseSummary(CloseMessage(s, inferred));
    FreeMessage(s, inferred);
    FreeSummary(CloseMessage(s, inferred));
    FreeChain(s, CloseMessage(s, inferred), s1);
    FreeRawFlush(s1);
    FreeChain(s, s1, FlushHiddenRaw(CloseRaw(s1)));
    FreeEnvelope(s1);
    var s2 := FlushHiddenEnvelope(s1);
    FreeChain(s, s1, s2);
    FreeRawFlush(s2);
    FreeChain(s, s2, FlushHiddenRaw(CloseRaw(s2)));
  }

  lemma FreeText(cfg: Config, s: State, text: Text, phase: Option<Phase>)
    ensures Free(s, OnText(cfg, s, text, phase))
  {
    FreeBeforeText(cfg, s);
    var s1 := CloseBeforeText(cfg, s);
    FreeMessage(s1, Some(Commentary));
    var s2 := if PhaseChanges(s1, phase) then CloseMessage(s1, Some(Commentary)) else s1;
    FreeChain(s, s1, s2);
  }

  lemma FreeBeforeText(cfg: Config, s: State)
    ensures Free(s, CloseBeforeText(cfg, s))
  {
    FreeSummary(s);
    FreeEnvelope(CloseSummary(s));
    var s1 := FlushHiddenEnvelope(CloseSummary(s));
    FreeChain(s, CloseSummary(s), s1);
    FreeRawFlush(s1);
    var s2 := FlushHiddenRaw(CloseRaw(s1));
    FreeChain(s, s1, s2);
    FreeCall(cfg, s2);
    FreeChain(s, s2, CloseCall(cfg, s2));
  }

  lemma FreeThinking(cfg: Config, s: State, thinking: Text)
    ensures Free(s, OnThinking(cfg, s, thinking))
  {
    FreeHiddenRaw(s);
    var s1 := CloseMessage(s, Some(Commentary));
    FreeMessage(s, Some(Commentary));
    FreeRawFlush(s1);
    var s2 := FlushHiddenRaw(CloseRaw(s1));
    FreeChain(s, s1, s2);
    FreeCall(cfg, s2);
    FreeChain(s, s2, CloseCall(cfg, s2));
  }

  lemma FreeRawReasoning(cfg: Config, s: State, text: Text, asSummary: bool)
    requires !cfg.hideThinking
    ensures Free(s, OnRawReasoning(cfg, s, text, asSummary))
  {
    var s1 := CloseMessage(s, Some(Commentary));
    FreeCloses(cfg, s, Some(Commentary));
    FreeCloses(cfg, s1, None);
    FreeCloses(cfg, CloseCall(cfg, s1), None);
  }

  lemma FreeSignature(cfg: Config, s: State, signature: Text)
    ensures Free(s, OnSignature(s, signature))
  {
    FreeCloses(cfg, s.(signature := signature), None);
    FreeFlushes(s.(signature := signature));
  }

  lemma FreeBoundary(cfg: Config, s: State)
    ensures Free(s, OnBoundary(cfg, s))
  {
    FreeCloseText(cfg, s, Some(Commentary));
    var s1 := FlushHiddenRaw(CloseRaw(CloseSummary(CloseMessage(s, Some(Commentary)))));
    FreeCloses(cfg, s1, None);
    FreeFlushes(CloseCall(cfg, s1));
  }

  lemma FreeContent(cfg: Config, s: State, e: Event)
    requires !cfg.hideThinking && !e.RedactedThinking? && !IsTerminal(e) && !IsToolEvent(e)
    ensures Free(s, StepContent(cfg, s, e))
  {
    match e
    case TextDelta(text, phase) => FreeText(cfg, s, text, phase);
    case ThinkingDelta(thinking) => FreeThinking(cfg, s, thinking);
    case ThinkingSignature(signature) => FreeSignature(cfg, s, signature);
    case ReasoningRawDelta(text, asSummary) => FreeRawReasoning(cfg, s, text, asSummary);
    case AssistantBoundary => FreeBoundary(cfg, s);
    case _ =>
  }

  lemma FreeCallStart(cfg: Config, s: State, callId: string, name: string)
    ensures Free(s, OnCallStart(cfg, s, callId, name))
  {
    FreeCloseText(cfg, s, Some(Commentary));
    FreeCloses(cfg, FlushHiddenRaw(CloseRaw(FlushHiddenEnvelope(CloseSummary(CloseMessage(s, Some(Commentary)))))), None);
  }

  lemma FreeSearchBegin(cfg: Config, s: State, eventId: string)
    ensures Free(s, OnSearchBegin(cfg, s, eventId))
  {
    FreeCloseText(cfg, s, Some(Commentary));
    var s1 := FlushHiddenRaw(CloseRaw(CloseSummary(CloseMessage(s, Some(Commentary)))));
    FreeCloses(cfg, s1, None);
    FreeSearch(CloseCall(cfg, s1), SearchCompleted, [], []);
  }

  lemma FreeSearchEnd(s: State, e: Event)
    requires e.WebSearchEnd?
    ensures Free(s, OnSearchEnd(s, e))
  {
    FreeSearch(s, SearchCompleted, [], []);
    var status := if e.searchStatus.Some? then e.searchStatus.value else SearchCompleted;
    FreeSearch(EnsureSearch(s, e.id), status, e.queries, OrNothing(e.sources));
  }

  lemma FreeTool(cfg: Config, s: State, e: Event)
    requires IsToolEvent(e)
    ensures Free(s, StepTool(cfg, s, e))
  {
    match e
    case ToolCallStart(id, name) => FreeCallStart(cfg, s, id, name);
    case ToolCallDelta(arguments) =>
    case ToolCallEnd => FreeCloses(cfg, s, None);
    case WebSearchBegin(id) => FreeSearchBegin(cfg, s, id);
    case WebSearchEnd(_, _, _, _) => FreeSearchEnd(s, e);
  }

  /** In visible mode only a redacted block makes anything pending that a later flush would emit early. */
  lemma FreeStep(cfg: Config, s: State, e: Event)
    requires !cfg.hideThinking && !e.RedactedThinking? && !IsTerminal(e)
    ensures Free(s, Step(cfg, s, e))
  {
    if cfg.compaction {
    } else if IsToolEvent(e) {
      FreeTool(cfg, s, e);
    } else {
      FreeContent(cfg, s, e);
    }
  }

  lemma TerminalEndsTurn(cfg: Config, s: State, e: Event)
    requires IsTerminal(e)
    ensures Step(cfg, s, e).outcome.Some?
  {
  }

  lemma RedactedBlock(cfg: Config, s: State, e: Event)
    requires e.RedactedThinking?
    ensures Step(cfg, s, e).hiddenRaw == s.hiddenRaw
  {
  }

  lemma {:induction false} VisibleHidesNothing(cfg: Config, s: State, events: seq<Event>)
    requires !cfg.hideThinking && s.hiddenRaw == []
    ensures Steps(cfg, s, events).outcome.None? ==> Steps(cfg, s, events).hiddenRaw == []
    decreases |events|
  {
    if s.outcome.None? && events != [] {
      var e := events[0];
      if IsTerminal(e) {
        TerminalEndsTurn(cfg, s, e);
      } else {
        if e.RedactedThinking? { RedactedBlock(cfg, s, e); } else { FreeStep(cfg, s, e); }
        VisibleHidesNothing(cfg, Step(cfg, s, e), events[1..]);
      }
    }
  }

  /** In visible mode the end of the input never overlaps anything. */
  lemma VisibleTurnIsOrderly(cfg: Config, events: seq<Event>)
    requires !cfg.hideThinking
    ensures OrderlyTurn(cfg, events) <==> Orderly(cfg, START, events)
  {
    VisibleHidesNothing(cfg, START, events);
  }

  // ---- Paired searches and signatures in place ----

  /** Every signature directly follows a thinking delta; `after` says whether one came just before. */
  predicate SignedInPlace(after: bool, events: seq<Event>)
    decreases events
  {
    events == []
    || ((events[0].ThinkingSignature? ==> after) && SignedInPlace(events[0].ThinkingDelta?, events[1..]))
  }

  lemma QuietContent(cfg: Config, s: State, e: Event)
    requires Plain(cfg, e) && s.search.None? && !IsTerminal(e) && !IsToolEvent(e)
    ensures StepContent(cfg, s, e).search.None?
    ensures e.ThinkingDelta? ==> StepContent(cfg, s, e).summary.Some?
  {
  }

  lemma QuietCall(cfg: Config, s: State, e: Event)
    requires s.search.None? && (e.ToolCallStart? || e.ToolCallDelta? || e.ToolCallEnd?)
    ensures StepTool(cfg, s, e).search.None?
  {
  }

  lemma QuietStep(cfg: Config, s: State, e: Event)
    requires Plain(cfg, e) && s.search.None? && !e.WebSearchBegin? && !e.WebSearchEnd?
    ensures Step(cfg, s, e).outcome.None? && !IsTerminal(e) ==> Step(cfg, s, e).search.None?
    ensures e.ThinkingDelta? ==> Step(cfg, s, e).summary.Some?
  {
    if IsTerminal(e) {
    } else if IsToolEvent(e) {
      QuietCall(cfg, s, e);
    } else {
      QuietContent(cfg, s, e);
    }
  }

  lemma SearchPair(cfg: Config, s: State, begin: Event, end: Event)
    requires !cfg.compaction && begin.WebSearchBegin? && end.WebSearchEnd? && end.id == begin.id
    ensures Step(cfg, s, begin).search.Some? && Step(cfg, Step(cfg, s, begin), end).search.None?
  {
    assert Step(cfg, s, begin) == OnSearchBegin(cfg, s, begin.id);
  }

  /** Paired searches and signatures in place keep a plain run orderly, whatever else happens. */
  lemma {:induction false} PairedIsOrderly(cfg: Config, s: State, after: bool, events: seq<Event>)
    requires Dense(s) && s.search.None? && s.redacted == [] && s.hiddenRaw == [] && (after ==> s.summary.Some?)
    requires forall e :: e in events ==> Plain(cfg, e)
    requires Refinement.Paired(events) && SignedInPlace(after, events)
    ensures Orderly(cfg, s, events)
    decreases |events|
  {
    if s.outcome.None? && events != [] {
      var e := events[0];
      var t := Step(cfg, s, e);
      DenseStep(cfg, s, e);
      assert Plain(cfg, e);
      if e.WebSearchBegin? {
        FreeStep(cfg, s, e);
        SearchPair(cfg, s, e, events[1]);
        DenseStep(cfg, t, events[1]);
        FreeStep(cfg, t, events[1]);
        assert events[1..][1..] == events[2..];
        if t.outcome.None? { PairedIsOrderly(cfg, Step(cfg, t, events[1]), false, events[2..]); }
      } else if IsTerminal(e) {
        TerminalEndsTurn(cfg, s, e);
      } else {
        FreeStep(cfg, s, e);
        QuietStep(cfg, s, e);
        if t.outcome.None? { PairedIsOrderly(cfg, t, e.ThinkingDelta?, events[1..]); }
      }
    }
  }

  // ---- Hidden mode and compaction ----

  lemma HiddenText(cfg: Config, text: Text)
    requires cfg.hideThinking && !cfg.compaction
    ensures var s := Step(cfg, START, TextDelta(text, None));
            && s.frames == [Created, Added(0, 0), PartAdded(0, 0, OutputText), Delta(0, 0, OutputText, text)]
            && s.msg == Some(OpenMessage(0, 0, text, None)) && s == START.(frames := s.frames, msg := s.msg, nextId := 1)
  {
    assert [] + text == text;
  }

  lemma HiddenRaw(cfg: Config, s: State, raw: Text)
    requires cfg.hideThinking && !cfg.compaction && s.hiddenRaw == []
    ensures Step(cfg, s, ReasoningRawDelta(raw, false)) == s.(hiddenRaw := raw)
  {
    assert [] + raw == raw;
  }

  lemma HiddenFlush(cfg: Config, s: State, text: Text)
    requires cfg.hideThinking && !cfg.compaction && s.hiddenRaw != [] && s.msg.Some?
    requires s == START.(frames := s.frames, msg := s.msg, nextId := 1, hiddenRaw := s.hiddenRaw)
    ensures var t := Step(cfg, s, TextDelta(text, None));
            t.outputIndex == 1 && t.msg.Some? && t.msg.value.index == s.msg.value.index
            && s.frames <= t.frames && |t.frames| == |s.frames| + 3 && t.frames[|s.frames|] == Added(0, 1)
  {
  }

  lemma HiddenRun(cfg: Config, text: Text, raw: Text)
    requires cfg.hideThinking && !cfg.compaction && raw != []
    ensures var s := Steps(cfg, START, [TextDelta(text, None), ReasoningRawDelta(raw, false), TextDelta(text, None)]);
            && |s.frames| == 7 && s.frames[1] == Added(0, 0) && s.frames[4] == Added(0, 1)
            && s.outputIndex == 1 && s.msg.Some? && s.msg.value.index == 0
  {
    HiddenText(cfg, text);
    var s := Step(cfg, START, TextDelta(text, None));
    HiddenRaw(cfg, s, raw);
    HiddenFlush(cfg, s.(hiddenRaw := raw), text);
    StepsOfThree(cfg, START, TextDelta(text, None), ReasoningRawDelta(raw, false), TextDelta(text, None));
  }

  /** A hidden flush while a message is open: two items are announced at index 0, and the message stays behind the next. */
  lemma HiddenFlushReusesIndex(cfg: Config, text: Text, raw: Text)
    requires cfg.hideThinking && !cfg.compaction && raw != []
    ensures var s := Steps(cfg, START, [TextDelta(text, None), ReasoningRawDelta(raw, false), TextDelta(text, None)]);
            && Added(0, 0) in s.frames && Added(0, 1) in s.frames
            && s.msg.Some? && s.msg.value.index < s.outputIndex && !Dense(s)
  {
    HiddenRun(cfg, text, raw);
  }

  /** The text a compaction turn has collected. */
  function Collected(events: seq<Event>): Text {
    if events == [] then []
    else
      var (front, e) := (events[..|events| - 1], events[|events| - 1]);
      Collected(front) + (if e.TextDelta? then e.text else [])
  }

  lemma CollectedCons(e: Event, rest: seq<Event>)
    ensures Collected([e] + rest) == (if e.TextDelta? then e.text else []) + Collected(rest)
    decreases |rest|
  {
    var all := [e] + rest;
    if rest == [] {
      assert all == [e] && [e][..0] == [];
    } else {
      assert all[..|all| - 1] == [e] + rest[..|rest| - 1];
      CollectedCons(e, rest[..|rest| - 1]);
    }
  }

  lemma CompactionTakes(cfg: Config, s: State, e: Event)
    requires cfg.compaction && !IsTerminal(e)
    ensures Step(cfg, s, e) == s.(compactionText := s.compactionText + Collected([e]))
  {
    assert [e][..0] == [];
    assert s.compactionText + [] == s.compactionText;
  }

  lemma CompactionEnds(cfg: Config, s: State, done: Event)
    requires cfg.compaction && s.outcome.None? && done.Done?
    ensures Steps(cfg, s, [done]) == Step(cfg, s, done) == OnDone(cfg, s, done)
  {
    StepsOfOne(cfg, s, done);
  }

  lemma CompactionGoesOn(cfg: Config, s: State, events: seq<Event>)
    requires cfg.compaction && s.outcome.None? && events != [] && !IsTerminal(events[0])
    ensures Steps(cfg, s, events)
         == Steps(cfg, s.(compactionText := s.compactionText + Collected([events[0]])), events[1..])
  {
    CompactionTakes(cfg, s, events[0]);
  }

  lemma {:induction false} CompactionCollects(cfg: Config, s: State, events: seq<Event>, done: Event)
    requires cfg.compaction && s.outcome.None? && forall e :: e in events ==> !IsTerminal(e)
    ensures Steps(cfg, s, events + [done])
         == Steps(cfg, s.(compactionText := s.compactionText + Collected(events)), [done])
    decreases |events|
  {
    if events == [] {
      assert events + [done] == [done];
      assert s.(compactionText := s.compactionText + Collected([])) == s;
    } else {
      var e, rest := events[0], events[1..];
      assert (events + [done])[1..] == rest + [done] && events == [e] + rest && [e] + [] == [e];
      CollectedCons(e, rest);
      CollectedCons(e, []);
      var t := s.(compactionText := s.compactionText + Collected([e]));
      assert t.compactionText + Collected(rest) == s.compactionText + Collected(events);
      CompactionGoesOn(cfg, s, events + [done]);
      CompactionCollects(cfg, t, rest, done);
    }
  }

  /**
   All the frames of a compaction turn: one item that is done without having been added, and none if the turn
   stopped short; the terminal lists it.
   */
  lemma CompactionFrames(cfg: Config, events: seq<Event>, done: Event)
    requires cfg.compaction && done.Done? && forall e :: e in events ==> !IsTerminal(e)
    ensures var item := Item(0, Compaction(Collected(events)));
            Run(cfg, events + [done]).frames ==
              if StopsShort(done.stopReason) then [Created, Terminal(DoneOutcome(done), [])]
              else [Created, ItemDone(0, item), Terminal(DoneOutcome(done), [item])]
  {
    CompactionCollects(cfg, START, events, done);
    var s := START.(compactionText := Collected(events));
    assert [] + Collected(events) == Collected(events);
    CompactionEnds(cfg, s, done);
    NothingToClose(cfg, s, done);
  }

  lemma NothingToClose(cfg: Config, s: State, done: Event)
    requires cfg.compaction && done.Done? && s == START.(compactionText := s.compactionText)
    ensures var item := Item(0, Compaction(s.compactionText));
            var t := OnDone(cfg, s, done);
            && t.outcome.Some?
            && t.frames == if StopsShort(done.stopReason) then [Created, Terminal(DoneOutcome(done), [])]
                           else [Created, ItemDone(0, item), Terminal(DoneOutcome(done), [item])]
  {
    var inferred := if done.stopReason.None? || done.stopReason == Some("") then Some(FinalAnswer) else None;
    assert CloseOut(cfg, s, inferred) == s;
    var item := Item(0, Compaction(s.compactionText));
    assert [] + [item] == [item];
    if !StopsShort(done.stopReason) {
      assert CompactionItem(s).frames == [Created, ItemDone(0, item)] && CompactionItem(s).finished == [item];
    }
  }
}
