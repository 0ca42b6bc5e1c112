/**
 What the end of a turn leaves open: nothing, but for a web search that a tool call with malformed arguments
 was started over. The condition is on the state before an event, and it is exact.
 */
module TurnEnds {
  import opened Text
  import opened Responses
  import opened Translator
  import opened Lifecycle

  // ---- The one event that leaves something open ----

  /** A malformed tool call ends while a search is open. */
  predicate CutsSearch(cfg: Config, s: State, e: Event) {
    s.outcome.None? && e.ToolCallEnd? && CallIsMalformed(cfg, s) && s.search.Some?
  }

  predicate CutAt(cfg: Config, s: State, events: seq<Event>, k: nat) {
    k < |events| && CutsSearch(cfg, Steps(cfg, s, events[..k]), events[k])
  }

  function RunFrom(cfg: Config, s: State, events: seq<Event>): State {
    var t := Steps(cfg, s, events);
    if t.outcome.None? then OnEof(cfg, t) else t
  }

  lemma StepsTail(cfg: Config, s: State, events: seq<Event>, k: nat)
    requires s.outcome.None? && 0 < k <= |events|
    ensures Steps(cfg, s, events[..k]) == Steps(cfg, Step(cfg, s, events[0]), events[1..][..k - 1])
  {
    assert events[..k][1..] == events[1..][..k - 1];
  }

  lemma StepsStay(cfg: Config, s: State, events: seq<Event>)
    requires s.outcome.Some?
    ensures Steps(cfg, s, events) == s
  {
  }

  /** The step that ends the turn closes everything but such a search. */
  lemma EndingStep(cfg: Config, s: State, e: Event)
    requires Lively(cfg, s) && s.outcome.None? && !cfg.compaction && !IsLimitError(e) && Step(cfg, s, e).outcome.Some?
    ensures MainClosed(Step(cfg, s, e))
    ensures Step(cfg, s, e).search == if CutsSearch(cfg, s, e) then s.search else None
  {
    if IsTerminal(e) {
      LivelyTerminal(cfg, s, e);
      assert Step(cfg, s, e) == StepTerminal(cfg, s, e);
    } else if IsToolEvent(e) {
      OnlyMalformedEnds(cfg, s, e);
      assert Step(cfg, s, e) == StepTool(cfg, s, e);
      LivelyCallEnd(cfg, s);
    } else {
      ContentNeverEnds(cfg, s, e);
    }
  }

  /** What is open at the end is the search that was cut off, if one was. */
  ghost predicate OpenIsCut(cfg: Config, s: State, events: seq<Event>) {
    var t := RunFrom(cfg, s, events);
    && MainClosed(t)
    && (forall k: nat :: CutAt(cfg, s, events, k) ==> t.search == Steps(cfg, s, events[..k]).search)
    && (t.search.Some? ==> exists k: nat :: CutAt(cfg, s, events, k))
  }

  lemma CutAtTail(cfg: Config, s: State, events: seq<Event>, k: nat)
    requires s.outcome.None? && events != []
    ensures CutAt(cfg, s, events, k)
       <==> if k == 0 then CutsSearch(cfg, s, events[0]) else CutAt(cfg, Step(cfg, s, events[0]), events[1..], k - 1)
  {
    if k == 0 {
      assert events[..0] == [];
    } else if k < |events| {
      StepsTail(cfg, s, events, k);
    }
  }

  lemma OpenIsCutHere(cfg: Config, s: State, events: seq<Event>, t: State)
    requires Lively(cfg, s) && s.outcome.None? && Ordinary(cfg, events) && events != []
    requires t == Step(cfg, s, events[0]) && t.outcome.Some?
    ensures OpenIsCut(cfg, s, events)
  {
    EndingStep(cfg, s, events[0]);
    StepsStay(cfg, t, events[1..]);
    assert events[..0] == [];
    CutAtTail(cfg, s, events, 0);
    forall k: nat | 0 < k < |events| ensures !CutAt(cfg, s, events, k) {
      CutAtTail(cfg, s, events, k);
      StepsStay(cfg, t, events[1..][..k - 1]);
    }
  }

  lemma OpenIsCutLater(cfg: Config, s: State, events: seq<Event>, t: State)
    requires !cfg.compaction && s.outcome.None? && events != [] && t == Step(cfg, s, events[0]) && t.outcome.None?
    requires OpenIsCut(cfg, t, events[1..])
    ensures OpenIsCut(cfg, s, events)
  {
    assert RunFrom(cfg, s, events) == RunFrom(cfg, t, events[1..]);
    CutAtTail(cfg, s, events, 0);
    forall k: nat | CutAt(cfg, s, events, k) ensures RunFrom(cfg, s, events).search == Steps(cfg, s, events[..k]).search {
      CutAtTail(cfg, s, events, k);
      if k > 0 {
        StepsTail(cfg, s, events, k);
      } else {
        CutEnds(cfg, s, events[0]);
      }
    }
    if RunFrom(cfg, t, events[1..]).search.Some? {
      var k: nat :| CutAt(cfg, t, events[1..], k);
      CutAtTail(cfg, s, events, k + 1);
    }
  }

  lemma CutEnds(cfg: Config, s: State, e: Event)
    requires CutsSearch(cfg, s, e)
    ensures !cfg.compaction ==> Step(cfg, s, e).outcome.Some?
  {
  }

  lemma {:induction false} OpenAtEndIsCut(cfg: Config, s: State, events: seq<Event>)
    requires Lively(cfg, s) && s.outcome.None? && Ordinary(cfg, events)
    ensures OpenIsCut(cfg, s, events)
    decreases |events|
  {
    if events == [] {
      EndsCloseEverything(cfg, s, None);
    } else {
      var t := Step(cfg, s, events[0]);
      LivelyStep(cfg, s, events[0]);
      if t.outcome.None? {
        OpenAtEndIsCut(cfg, t, events[1..]);
        OpenIsCutLater(cfg, s, events, t);
      } else {
        OpenIsCutHere(cfg, s, events, t);
      }
    }
  }

  // ---- The end of a turn ----

  /**
   Nothing is open when the terminal frame of an ordinary turn goes out, if and only if the turn was not ended
   by a malformed tool call over an open search.
   */
  lemma EndIsClosedExactly(cfg: Config, events: seq<Event>)
    requires Ordinary(cfg, events)
    ensures AllClosed(Run(cfg, events)) <==> !(exists k: nat :: CutAt(cfg, START, events, k))
  {
    StartIsLively(cfg);
    OpenAtEndIsCut(cfg, START, events);
    assert Run(cfg, events) == RunFrom(cfg, START, events);
  }

  /** The abnormal ends that come from outside, at any point of the turn, leave nothing open either. */
  lemma OutsideEndsAreClosed(cfg: Config, events: seq<Event>, k: nat, message: string)
    requires Ordinary(cfg, events) && k <= |events|
    ensures var s := Steps(cfg, START, events[..k]);
            && Lively(cfg, OnEof(cfg, s)) && AllClosed(OnEof(cfg, s))
            && Lively(cfg, OnStall(cfg, s)) && AllClosed(OnStall(cfg, s))
            && Lively(cfg, OnThrow(cfg, s, message)) && AllClosed(OnThrow(cfg, s, message))
  {
    var s := Steps(cfg, START, events[..k]);
    ItemsLiveProperly(cfg, events, k);
    LivelyAbandon(cfg, s);
    EndsCloseEverything(cfg, s, None);
    LivelyEnd(cfg, Abandon(cfg, s), ADAPTER_EOF);
    LivelyEnd(cfg, Abandon(cfg, s), STALLED);
    LivelyEnd(cfg, Abandon(cfg, s), FailedWith(Proxy(message), None));
  }

  // ---- Every item ----

  /**
   One `added` before one `done`, nothing about the item outside, and the deltas agree with the finished item: they
   spell its text; for a call `Calls` says which arguments they spell.
   */
  ghost predicate Completed(cfg: Config, s: State, x: nat) {
    exists i: nat, j: nat, item ::
      && item in s.finished && OnlyAddedAt(s.frames, x, i) && OnlyDoneAt(s.frames, x, j, item)
      && Agrees(cfg, Streamed(s.frames, x), item.body)
  }

  lemma ClosedIsCompleted(cfg: Config, s: State, x: nat)
    requires Lively(cfg, s) && x < s.nextId && x !in LedgerOf(s).open
    ensures Completed(cfg, s, x)
  {
    assert Accounted(cfg, LedgerOf(s), x);
    LifeMeaning(s.frames, x);
    var item := LifeOf(s.frames, x).item;
    var i: nat :| OnlyAddedAt(s.frames, x, i);
    var j: nat :| OnlyDoneAt(s.frames, x, j, item);
    assert item in s.finished && OnlyAddedAt(s.frames, x, i) && OnlyDoneAt(s.frames, x, j, item);
  }

  lemma OpenIsNotCompleted(cfg: Config, s: State)
    requires Lively(cfg, s) && s.search.Some?
    ensures !Completed(cfg, s, s.search.value.id)
  {
    var x := s.search.value.id;
    assert LedgerOf(s).open[x] == Some([]);
    assert Accounted(cfg, LedgerOf(s), x);
    LifeMeaning(s.frames, x);
    forall j: nat, item ensures !OnlyDoneAt(s.frames, x, j, item) {
    }
  }

  /** The search of id `x` was cut off. */
  predicate CutOff(cfg: Config, events: seq<Event>, k: nat, x: nat) {
    CutAt(cfg, START, events, k) && Steps(cfg, START, events[..k]).search.value.id == x
  }

  /**
   At the end of an ordinary turn, visible or hidden, every item ever created is completed, if and only if it
   is not a search cut off by a malformed tool call.
   */
  lemma ItemsCompletedExactly(cfg: Config, events: seq<Event>, x: nat)
    requires Ordinary(cfg, events) && x < Run(cfg, events).nextId
    ensures Completed(cfg, Run(cfg, events), x) <==> !(exists k: nat :: CutOff(cfg, events, k, x))
  {
    var s := Run(cfg, events);
    ItemsLiveProperly(cfg, events, 0);
    StartIsLively(cfg);
    OpenAtEndIsCut(cfg, START, events);
    assert s == RunFrom(cfg, START, events);
    if s.search.Some? && s.search.value.id == x {
      OpenIsNotCompleted(cfg, s);
      var k: nat :| CutAt(cfg, START, events, k);
      assert CutOff(cfg, events, k, x);
    } else {
      ClosedIsCompleted(cfg, s, x);
      forall k: nat ensures !CutOff(cfg, events, k, x) {
        assert CutAt(cfg, START, events, k) ==> s.search == Steps(cfg, START, events[..k]).search;
      }
    }
  }

  // ---- A guard that rules it out ----

  /** No tool call starts while a search is open. */
  predicate SearchesEndFirst(cfg: Config, s: State, events: seq<Event>)
    decreases events
  {
    s.outcome.Some? || events == []
    || (!(events[0].ToolCallStart? && s.search.Some?) && SearchesEndFirst(cfg, Step(cfg, s, events[0]), events[1..]))
  }

  predicate Apart(s: State) {
    s.call.Some? ==> s.search.None?
  }

  lemma ToolStepKeepsApart(cfg: Config, s: State, e: Event)
    requires IsToolEvent(e) && Apart(s) && !(e.ToolCallStart? && s.search.Some?)
    ensures Apart(StepTool(cfg, s, e))
  {
  }

  lemma ContentStepKeepsApart(cfg: Config, s: State, e: Event)
    requires !IsTerminal(e) && !IsToolEvent(e) && Apart(s)
    ensures Apart(StepContent(cfg, s, e))
  {
  }

  lemma {:induction false} ApartIsNeverCut(cfg: Config, s: State, events: seq<Event>, k: nat)
    requires !cfg.compaction && Apart(s) && SearchesEndFirst(cfg, s, events)
    ensures !CutAt(cfg, s, events, k)
    decreases |events|
  {
    if k < |events| && s.outcome.None? {
      CutAtTail(cfg, s, events, k);
      var t := Step(cfg, s, events[0]);
      if k > 0 {
        if t.outcome.Some? {
          StepsStay(cfg, t, events[1..][..k - 1]);
        } else {
          RunningStepKeepsApart(cfg, s, events[0]);
          ApartIsNeverCut(cfg, t, events[1..], k - 1);
        }
      }
    } else if k < |events| {
      StepsStay(cfg, s, events[..k]);
    }
  }

  lemma RunningStepKeepsApart(cfg: Config, s: State, e: Event)
    requires !cfg.compaction && Apart(s) && s.outcome.None? && !(e.ToolCallStart? && s.search.Some?)
    requires Step(cfg, s, e).outcome.None?
    ensures Apart(Step(cfg, s, e))
  {
    if IsTerminal(e) {
      TerminalEnds(cfg, s, e);
    } else if IsToolEvent(e) {
      ToolStepKeepsApart(cfg, s, e);
    } else {
      ContentStepKeepsApart(cfg, s, e);
    }
  }

  lemma TerminalEnds(cfg: Config, s: State, e: Event)
    requires !cfg.compaction && IsTerminal(e)
    ensures Step(cfg, s, e).outcome.Some?
  {
  }

  /** When every search ends before the next tool call starts, nothing is open at the end and every item is completed. */
  lemma EveryItemIsCompleted(cfg: Config, events: seq<Event>)
    requires Ordinary(cfg, events) && SearchesEndFirst(cfg, START, events)
    ensures AllClosed(Run(cfg, events))
    ensures forall x: nat :: x < Run(cfg, events).nextId ==> Completed(cfg, Run(cfg, events), x)
  {
    forall k: nat ensures !CutAt(cfg, START, events, k) {
      ApartIsNeverCut(cfg, START, events, k);
    }
    EndIsClosedExactly(cfg, events);
    forall x: nat | x < Run(cfg, events).nextId ensures Completed(cfg, Run(cfg, events), x) {
      ItemsCompletedExactly(cfg, events, x);
    }
  }

  /** A turn that does leave its search open: begin, a call, arguments that do not parse, the end of the call. */
  lemma MalformedCallLeavesSearchOpen(cfg: Config, id: string, callId: string, name: string, bad: Text)
    requires !cfg.compaction && !IsFreeform(cfg, name) && !IsToolSearch(cfg, name) && !ArgumentsUsable(cfg, bad)
    ensures var events := [WebSearchBegin(id), ToolCallStart(callId, name), ToolCallDelta(bad), ToolCallEnd];
            && CutAt(cfg, START, events, 3)
            && Run(cfg, events).search.Some? && !AllClosed(Run(cfg, events))
            && !Completed(cfg, Run(cfg, events), Run(cfg, events).search.value.id)
  {
    var events := [WebSearchBegin(id), ToolCallStart(callId, name), ToolCallDelta(bad), ToolCallEnd];
    var s1 := Step(cfg, START, events[0]);
    assert s1.search.Some? && s1.call.None? && s1.outcome.None?;
    var s2 := Step(cfg, s1, events[1]);
    assert s2.search == s1.search && s2.call.Some? && s2.call.value.args == [] && s2.outcome.None?;
    assert !s2.call.value.freeform && !s2.call.value.toolSearch;
    var s3 := Step(cfg, s2, events[2]);
    assert [] + bad == bad;
    assert s3.search == s1.search && s3.call.Some? && s3.call.value.args == bad && s3.outcome.None?;
    assert !s3.call.value.freeform && !s3.call.value.toolSearch;
    ThreeSteps(cfg, events, s1, s2, s3);
    var s := Run(cfg, events);
    StartIsLively(cfg);
    OpenAtEndIsCut(cfg, START, events);
    assert s == RunFrom(cfg, START, events);
    ItemsLiveProperly(cfg, events, 0);
    OpenIsNotCompleted(cfg, s);
  }

  lemma ThreeSteps(cfg: Config, events: seq<Event>, s1: State, s2: State, s3: State)
    requires |events| >= 3 && s1 == Step(cfg, START, events[0]) && s1.outcome.None?
    requires s2 == Step(cfg, s1, events[1]) && s2.outcome.None? && s3 == Step(cfg, s2, events[2])
    ensures Steps(cfg, START, events[..3]) == s3
  {
    StepsTail(cfg, START, events, 3);
    StepsTail(cfg, s1, events[1..], 2);
    StepsTail(cfg, s2, events[1..][1..], 1);
    assert events[1..][1..][1..][..0] == [];
  }
}
