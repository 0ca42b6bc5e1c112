/**
 Output indices are dense: the k-th item added is the k-th item finished, all its frames carry index k,
 and the next index is the number of finished items. `Overlaps` is the exact guard under which a step keeps this.
 */
module DenseIndices {
  import opened Text
  import opened Responses
  import opened Translator

  // ---- What the frames sent so far say about indices ----

  function AddOf(f: Frame): seq<(nat, nat)> {
    if f.Added? then [(f.index, f.id)] else []
  }

  function DoneOf(f: Frame): seq<(nat, Item)> {
    if f.ItemDone? then [(f.index, f.item)] else []
  }

  function Adds(fs: seq<Frame>): seq<(nat, nat)> {
    if fs == [] then [] else Adds(fs[..|fs| - 1]) + AddOf(fs[|fs| - 1])
  }

  function Dones(fs: seq<Frame>): seq<(nat, Item)> {
    if fs == [] then [] else Dones(fs[..|fs| - 1]) + DoneOf(fs[|fs| - 1])
  }

  lemma LogAppend(fs: seq<Frame>, f: Frame)
    ensures Adds(fs + [f]) == Adds(fs) + AddOf(f)
    ensures Dones(fs + [f]) == Dones(fs) + DoneOf(f)
  {
    assert (fs + [f])[..|fs|] == fs;
  }

  function Listing(items: seq<Item>): seq<(nat, nat)> {
    seq(|items|, k requires 0 <= k < |items| => (k, items[k].id))
  }

  function DoneListing(items: seq<Item>): seq<(nat, Item)> {
    seq(|items|, k requires 0 <= k < |items| => (k, items[k]))
  }

  /** A frame about part of an item names the index and the id under which that item was added. */
  predicate RefersWell(f: Frame, adds: seq<(nat, nat)>) {
    match f
    case PartAdded(index, id, _) => index < |adds| && adds[index] == (index, id)
    case Delta(index, id, _, _) => index < |adds| && adds[index] == (index, id)
    case TextDone(index, id, _, _) => index < |adds| && adds[index] == (index, id)
    case PartDone(index, id, _, _) => index < |adds| && adds[index] == (index, id)
    case _ => true
  }

  /** The bookkeeping of the stream: `added` is the item that was announced and is not finished yet. */
  datatype Book = Book(frames: seq<Frame>, finished: seq<Item>, added: Option<nat>)

  ghost predicate DenseBook(b: Book) {
    && Adds(b.frames) == Listing(b.finished) + (if b.added.Some? then [(|b.finished|, b.added.value)] else [])
    && Dones(b.frames) == DoneListing(b.finished)
    && forall f :: f in b.frames ==> RefersWell(f, Adds(b.frames))
  }

  lemma BookAdd(b: Book, id: nat)
    requires DenseBook(b) && b.added.None?
    ensures DenseBook(Book(b.frames + [Added(|b.finished|, id)], b.finished, Some(id)))
  {
    LogAppend(b.frames, Added(|b.finished|, id));
  }

  lemma BookRefer(b: Book, f: Frame)
    requires DenseBook(b) && !f.Added? && !f.ItemDone?
    requires RefersWell(f, Adds(b.frames))
    ensures DenseBook(b.(frames := b.frames + [f]))
  {
    LogAppend(b.frames, f);
  }

  lemma BookFinish(b: Book, item: Item)
    requires DenseBook(b) && b.added == Some(item.id)
    ensures DenseBook(Book(b.frames + [ItemDone(|b.finished|, item)], b.finished + [item], None))
  {
    LogAppend(b.frames, ItemDone(|b.finished|, item));
    assert Listing(b.finished + [item]) == Listing(b.finished) + [(|b.finished|, item.id)];
    assert DoneListing(b.finished + [item]) == DoneListing(b.finished) + [(|b.finished|, item)];
  }

  lemma BookOpenRef(b: Book)
    requires DenseBook(b) && b.added.Some?
    ensures |b.finished| < |Adds(b.frames)| && Adds(b.frames)[|b.finished|] == (|b.finished|, b.added.value)
  {
  }

  // ---- The invariant of the bridge ----

  predicate AnyOpen(s: State) {
    s.msg.Some? || s.summary.Some? || s.raw.Some? || s.call.Some? || s.search.Some?
  }

  predicate OneOpen(s: State) {
    && (s.msg.Some? ==> s.summary.None? && s.raw.None? && s.call.None? && s.search.None?)
    && (s.summary.Some? ==> s.raw.None? && s.call.None? && s.search.None?)
    && (s.raw.Some? ==> s.call.None? && s.search.None?)
    && (s.call.Some? ==> s.search.None?)
  }

  function AddedId(s: State): Option<nat> {
    if s.msg.Some? then Some(s.msg.value.id)
    else if s.summary.Some? then Some(s.summary.value.id)
    else if s.raw.Some? then Some(s.raw.value.id)
    else if s.call.Some? then (if s.call.value.toolSearch then None else Some(s.call.value.id))
    else if s.search.Some? then Some(s.search.value.id)
    else None
  }

  predicate OpenAtNextIndex(s: State) {
    && (s.msg.Some? ==> s.msg.value.index == s.outputIndex)
    && (s.summary.Some? ==> s.summary.value.index == s.outputIndex)
    && (s.raw.Some? ==> s.raw.value.index == s.outputIndex)
    && (s.call.Some? ==> s.call.value.index == s.outputIndex)
    && (s.search.Some? ==> s.search.value.index == s.outputIndex)
  }

  function BookOf(s: State): Book {
    Book(s.frames, s.finished, AddedId(s))
  }

  ghost predicate Dense(s: State) {
    && OneOpen(s) && s.signature == [] && OpenAtNextIndex(s)
    && s.outputIndex == |s.finished|
    && DenseBook(BookOf(s))
  }

  // ---- Closing ----

  lemma DenseCloseMessage(s: State, inferred: Option<Phase>)
    requires Dense(s)
    ensures Dense(CloseMessage(s, inferred)) && CloseMessage(s, inferred).msg.None?
  {
    if s.msg.Some? {
      var m, b := s.msg.value, BookOf(s);
      BookOpenRef(b);
      BookRefer(b, TextDone(m.index, m.id, OutputText, m.text));
      var b1 := b.(frames := b.frames + [TextDone(m.index, m.id, OutputText, m.text)]);
      BookOpenRef(b1);
      BookRefer(b1, PartDone(m.index, m.id, OutputText, m.text));
      var b2 := b1.(frames := b1.frames + [PartDone(m.index, m.id, OutputText, m.text)]);
      var s' := CloseMessage(s, inferred);
      BookFinish(b2, s'.finished[|s.finished|]);
      assert BookOf(s') == Book(b2.frames + [ItemDone(|b.finished|, s'.finished[|s.finished|])], s'.finished, None);
    }
  }

  lemma DenseCloseSummary(s: State)
    requires Dense(s.(signature := []))
    ensures s.summary.Some? || s.signature == [] ==> Dense(CloseSummary(s)) && CloseSummary(s).summary.None?
  {
    if s.summary.Some? {
      var m, b := s.summary.value, BookOf(s.(signature := []));
      BookOpenRef(b);
      BookRefer(b, TextDone(m.index, m.id, SummaryText, m.text));
      var b1 := b.(frames := b.frames + [TextDone(m.index, m.id, SummaryText, m.text)]);
      BookOpenRef(b1);
      BookRefer(b1, PartDone(m.index, m.id, SummaryText, m.text));
      var b2 := b1.(frames := b1.frames + [PartDone(m.index, m.id, SummaryText, m.text)]);
      var s' := CloseSummary(s);
      BookFinish(b2, s'.finished[|s.finished|]);
      assert BookOf(s') == Book(b2.frames + [ItemDone(|b.finished|, s'.finished[|s.finished|])], s'.finished, None);
    }
  }

  lemma DenseCloseRaw(s: State)
    requires Dense(s)
    ensures Dense(CloseRaw(s)) && CloseRaw(s).raw.None?
  {
    if s.raw.Some? {
      BookFinish(BookOf(s), CloseRaw(s).finished[|s.finished|]);
    }
  }

  lemma DenseCloseSearch(s: State, status: SearchStatus, queries: seq<string>, sources: seq<Citation>)
    requires Dense(s)
    ensures Dense(CloseSearch(s, status, queries, sources)) && CloseSearch(s, status, queries, sources).search.None?
  {
    if s.search.Some? {
      BookFinish(BookOf(s), CloseSearch(s, status, queries, sources).finished[|s.finished|]);
    }
  }

  lemma DenseCloseCall(cfg: Config, s: State)
    requires Dense(s)
    ensures Dense(CloseCall(cfg, s)) && CloseCall(cfg, s).call.None?
  {
    if s.call.Some? {
      var c, b, s' := s.call.value, BookOf(s), CloseCall(cfg, s);
      var item := s'.finished[|s.finished|];
      if c.toolSearch {
        BookAdd(b, c.id);
        BookFinish(Book(b.frames + [Added(|b.finished|, c.id)], b.finished, Some(c.id)), item);
      } else {
        var f := s'.frames[|s.frames|];
        BookOpenRef(b);
        BookRefer(b, f);
        BookFinish(b.(frames := b.frames + [f]), item);
        assert s'.frames == b.frames + [f] + [ItemDone(|b.finished|, item)];
      }
    }
  }

  lemma {:induction false} BookReplay(b: Book, c: OpenCall, deltas: seq<Text>)
    requires DenseBook(b) && b.added == Some(c.id) && c.index == |b.finished|
    ensures DenseBook(b.(frames := b.frames + Replay(c, deltas)))
  {
    if deltas == [] {
      assert b.frames + Replay(c, []) == b.frames;
    } else {
      var front := deltas[..|deltas| - 1];
      BookReplay(b, c, front);
      var b1 := b.(frames := b.frames + Replay(c, front));
      var f := Delta(c.index, c.id, CallArguments, deltas[|deltas| - 1]);
      BookOpenRef(b1);
      BookRefer(b1, f);
      assert b.frames + Replay(c, deltas) == b1.frames + [f];
    }
  }

  lemma DenseFailCall(cfg: Config, s: State)
    requires Dense(s)
    ensures Dense(FailCall(cfg, s)) && FailCall(cfg, s).call.None?
  {
    if s.call.Some? {
      var c, b := s.call.value, BookOf(s);
      var item := FailCall(cfg, s).finished[|s.finished|];
      if c.toolSearch {
        BookAdd(b, c.id);
        var b1 := Book(b.frames + [Added(|b.finished|, c.id)], b.finished, Some(c.id));
        BookReplay(b1, c, c.argumentDeltas);
        BookFinish(b1.(frames := b1.frames + Replay(c, c.argumentDeltas)), item);
      } else {
        BookFinish(b, item);
      }
    }
  }

  // ---- Opening and appending ----

  lemma DenseAppendMessage(s: State, text: Text)
    requires Dense(s) && s.msg.Some?
    ensures Dense(AppendMessage(s, text))
  {
    var b := BookOf(s);
    BookOpenRef(b);
    BookRefer(b, Delta(s.msg.value.index, s.msg.value.id, OutputText, text));
  }

  lemma DenseOpenMessage(s: State, phase: Option<Phase>)
    requires Dense(s) && !AnyOpen(s)
    ensures Dense(OpenMessageItem(s, phase)) && OpenMessageItem(s, phase).msg.Some?
  {
    var b := BookOf(s);
    BookAdd(b, s.nextId);
    var b1 := Book(b.frames + [Added(|b.finished|, s.nextId)], b.finished, Some(s.nextId));
    BookOpenRef(b1);
    BookRefer(b1, PartAdded(s.outputIndex, s.nextId, OutputText));
  }

  lemma DenseOpenSummary(s: State)
    requires Dense(s) && !AnyOpen(s)
    ensures Dense(OpenSummaryItem(s)) && OpenSummaryItem(s).summary.Some?
  {
    var b := BookOf(s);
    BookAdd(b, s.nextId);
    var b1 := Book(b.frames + [Added(|b.finished|, s.nextId)], b.finished, Some(s.nextId));
    BookOpenRef(b1);
    BookRefer(b1, PartAdded(s.outputIndex, s.nextId, SummaryText));
  }

  lemma DenseAppendSummary(s: State, text: Text)
    requires Dense(s) && (s.summary.Some? || !AnyOpen(s))
    ensures Dense(AppendSummary(s, text))
  {
    if s.summary.None? { DenseOpenSummary(s); }
    var o := if s.summary.None? then OpenSummaryItem(s) else s;
    var b := BookOf(o);
    BookOpenRef(b);
    BookRefer(b, Delta(o.summary.value.index, o.summary.value.id, SummaryText, text));
  }

  lemma DenseAppendRaw(s: State, text: Text)
    requires Dense(s) && (s.raw.Some? || !AnyOpen(s))
    ensures Dense(AppendRaw(s, text))
  {
    if s.raw.None? { BookAdd(BookOf(s), s.nextId); }
    var o := if s.raw.None? then OpenRawItem(s) else s;
    var b := BookOf(o);
    BookOpenRef(b);
    BookRefer(b, Delta(o.raw.value.index, o.raw.value.id, RawText, text));
  }

  lemma DenseOpenCall(cfg: Config, s: State, callId: string, name: string)
    requires Dense(s) && !AnyOpen(s)
    ensures Dense(OpenCallItem(cfg, s, callId, name))
  {
    if !IsToolSearch(cfg, name) { BookAdd(BookOf(s), s.nextId); }
  }

  lemma DenseOpenSearch(s: State, eventId: string)
    requires Dense(s) && !AnyOpen(s)
    ensures Dense(OpenSearchItem(s, eventId))
  {
    BookAdd(BookOf(s), s.nextId);
  }

  lemma DenseCallDelta(s: State, delta: Text)
    requires Dense(s)
    ensures Dense(OnCallDelta(s, delta))
  {
    if s.call.Some? {
      var b, s' := BookOf(s), OnCallDelta(s, delta);
      if |s'.frames| > |s.frames| {
        var f := s'.frames[|s.frames|];
        BookOpenRef(b);
        BookRefer(b, f);
        assert s'.frames == s.frames + [f];
      }
    }
  }

  lemma DenseEnvelopeItem(s: State, e: Envelope)
    requires Dense(s) && !AnyOpen(s)
    ensures Dense(EnvelopeItem(s, e))
  {
    var b := BookOf(s);
    BookAdd(b, s.nextId);
    BookFinish(Book(b.frames + [Added(|b.finished|, s.nextId)], b.finished, Some(s.nextId)),
               EnvelopeItem(s, e).finished[|s.finished|]);
  }

  lemma DenseEnd(s: State, o: Outcome)
    requires Dense(s)
    ensures Dense(EndWith(s, o))
  {
    BookRefer(BookOf(s), Terminal(o, s.finished));
  }

  // ---- What cannot be dense any more ----

  function OpenIndices(s: State): set<nat> {
    (if s.msg.Some? then {s.msg.value.index} else {}) + (if s.summary.Some? then {s.summary.value.index} else {})
    + (if s.raw.Some? then {s.raw.value.index} else {}) + (if s.call.Some? then {s.call.value.index} else {})
    + (if s.search.Some? then {s.search.value.index} else {})
  }

  ghost predicate MisnumberedAt(fs: seq<Frame>, k: nat) {
    k < |Dones(fs)| && Dones(fs)[k].0 != k
  }

  /** An item was finished under an index that was not its turn, or is still open under one that has passed. */
  ghost predicate Late(s: State) {
    (exists k: nat :: MisnumberedAt(s.frames, k)) || (exists i :: i in OpenIndices(s) && i < |Dones(s.frames)|)
  }

  lemma DenseIsNotLate(s: State)
    requires Dense(s)
    ensures !Late(s)
  {
    assert forall i :: i in OpenIndices(s) ==> i == s.outputIndex;
    assert forall k: nat :: !MisnumberedAt(s.frames, k);
  }

  lemma LateIsNotDense(s: State)
    requires Late(s)
    ensures !Dense(s)
  {
    if Dense(s) { DenseIsNotLate(s); }
  }

  lemma {:induction false} DonesPrefix(fs: seq<Frame>, more: seq<Frame>)
    ensures Dones(fs) <= Dones(fs + more)
    decreases more
  {
    if more == [] {
      assert fs + more == fs;
    } else {
      var n := |more| - 1;
      DonesPrefix(fs, more[..n]);
      LogAppend(fs + more[..n], more[n]);
      assert fs + more == (fs + more[..n]) + [more[n]];
    }
  }

  lemma LateGrows(s: State, t: State)
    requires Late(s) && s.frames <= t.frames && OpenIndices(s) <= OpenIndices(t)
    ensures Late(t)
  {
    DonesPrefix(s.frames, t.frames[|s.frames|..]);
    assert s.frames + t.frames[|s.frames|..] == t.frames;
    if k: nat :| MisnumberedAt(s.frames, k) {
      assert MisnumberedAt(t.frames, k);
    } else {
      var i :| i in OpenIndices(s) && i < |Dones(s.frames)|;
      assert i in OpenIndices(t) && i < |Dones(t.frames)|;
    }
  }

  /** Finishing one open item of a late state. */
  lemma LateFinishes(s: State, t: State, between: seq<Frame>, index: nat, item: Item)
    requires Late(s) && t.frames == s.frames + between + [ItemDone(index, item)]
    requires OpenIndices(s) <= OpenIndices(t) + {index}
    ensures Late(t)
  {
    var fs := s.frames + between;
    DonesPrefix(s.frames, between);
    LogAppend(fs, ItemDone(index, item));
    if k: nat :| MisnumberedAt(s.frames, k) {
      assert MisnumberedAt(t.frames, k);
    } else {
      var i :| i in OpenIndices(s) && i < |Dones(s.frames)|;
      if i == index {
        assert MisnumberedAt(t.frames, |Dones(fs)|);
      } else {
        assert i in OpenIndices(t) && i < |Dones(t.frames)|;
      }
    }
  }

  lemma LateCloseMessage(s: State, inferred: Option<Phase>)
    requires Late(s)
    ensures Late(CloseMessage(s, inferred))
  {
    if s.msg.Some? {
      var m, t := s.msg.value, CloseMessage(s, inferred);
      var between := [TextDone(m.index, m.id, OutputText, m.text), PartDone(m.index, m.id, OutputText, m.text)];
      LateFinishes(s, t, between, m.index, t.finished[|s.finished|]);
    }
  }

  lemma LateCloseSummary(s: State)
    requires Late(s)
    ensures Late(CloseSummary(s))
  {
    if s.summary.Some? {
      var m, t := s.summary.value, CloseSummary(s);
      var between := [TextDone(m.index, m.id, SummaryText, m.text), PartDone(m.index, m.id, SummaryText, m.text)];
      LateFinishes(s, t, between, m.index, t.finished[|s.finished|]);
    }
  }

  lemma LateCloseRaw(s: State)
    requires Late(s)
    ensures Late(CloseRaw(s))
  {
    if s.raw.Some? {
      LateFinishes(s, CloseRaw(s), [], s.raw.value.index, CloseRaw(s).finished[|s.finished|]);
    }
  }

  lemma LateCloseSearch(s: State, status: SearchStatus, queries: seq<string>, sources: seq<Citation>)
    requires Late(s)
    ensures Late(CloseSearch(s, status, queries, sources))
  {
    if s.search.Some? {
      var t := CloseSearch(s, status, queries, sources);
      LateFinishes(s, t, [], s.search.value.index, t.finished[|s.finished|]);
    }
  }

  lemma LateCloseCall(cfg: Config, s: State)
    requires Late(s)
    ensures Late(CloseCall(cfg, s))
  {
    if s.call.Some? {
      var t := CloseCall(cfg, s);
      LateFinishes(s, t, [t.frames[|s.frames|]], s.call.value.index, t.finished[|s.finished|]);
    }
  }

  lemma LateFailCall(cfg: Config, s: State)
    requires Late(s)
    ensures Late(FailCall(cfg, s))
  {
    if s.call.Some? {
      var c, t := s.call.value, FailCall(cfg, s);
      var replayed := if c.toolSearch then [Added(c.index, c.id)] + Replay(c, c.argumentDeltas) else [];
      LateFinishes(s, t, replayed, c.index, t.finished[|s.finished|]);
    }
  }

  lemma LateFlushes(s: State)
    requires Late(s)
    ensures Late(FlushHiddenEnvelope(s)) && Late(FlushHiddenRaw(s)) && Late(FlushKiro(s))
  {
    LateEnvelope(s);
    LateHiddenRaw(s);
    LateKiro(s);
  }

  lemma LateEnvelope(s: State)
    requires Late(s)
    ensures Late(FlushHiddenEnvelope(s))
  {
    LateGrows(s, FlushHiddenEnvelope(s));
  }

  lemma LateHiddenRaw(s: State)
    requires Late(s)
    ensures Late(FlushHiddenRaw(s))
  {
    LateGrows(s, FlushHiddenRaw(s));
  }

  lemma LateKiro(s: State)
    requires Late(s)
    ensures Late(FlushKiro(s))
  {
    LateGrows(s, FlushKiro(s));
  }

  // ---- Dense or late ----

  /** The state is late if something overlapped, and dense otherwise. */
  ghost predicate Goes(s: State, overlapped: bool) {
    if overlapped then Late(s) else Dense(s)
  }

  lemma GoesMeans(s: State, overlapped: bool)
    requires Goes(s, overlapped)
    ensures Dense(s) <==> !overlapped
  {
    if overlapped { LateIsNotDense(s); }
  }

  /** An envelope item while something is open, or while nothing is. */
  lemma GoesEnvelopeItem(s: State, e: Envelope)
    requires Dense(s)
    ensures Goes(EnvelopeItem(s, e), AnyOpen(s))
  {
    if AnyOpen(s) {
      var t, item := EnvelopeItem(s, e), Item(s.nextId, Reasoning(None, None, Some(e)));
      LogAppend(s.frames, Added(s.outputIndex, s.nextId));
      LogAppend(s.frames + [Added(s.outputIndex, s.nextId)], ItemDone(s.outputIndex, item));
      assert s.outputIndex in OpenIndices(t) && s.outputIndex < |Dones(t.frames)|;
    } else {
      DenseEnvelopeItem(s, e);
    }
  }

  lemma GoesFlushEnvelope(s: State, overlapped: bool)
    requires Goes(s, overlapped) && s.signature == []
    ensures Goes(FlushHiddenEnvelope(s), overlapped || (s.redacted != [] && AnyOpen(s)))
  {
    if overlapped {
      LateFlushes(s);
    } else if s.redacted != [] {
      GoesEnvelopeItem(DropEnvelope(s.(hiddenThinking := [])), TakenEnvelope(s, s.hiddenThinking).value);
    }
  }

  lemma GoesFlushRaw(s: State, overlapped: bool)
    requires Goes(s, overlapped)
    ensures Goes(FlushHiddenRaw(s), overlapped || (s.hiddenRaw != [] && AnyOpen(s)))
  {
    if overlapped {
      LateFlushes(s);
    } else if s.hiddenRaw != [] {
      GoesEnvelopeItem(s.(hiddenRaw := []), Envelope([], [], s.hiddenRaw, []));
    }
  }

  lemma GoesFlushKiro(s: State, overlapped: bool)
    requires Goes(s, overlapped) && !AnyOpen(s)
    ensures Goes(FlushKiro(s), overlapped)
  {
    if overlapped {
      LateFlushes(s);
    } else if s.kiro != [] {
      GoesEnvelopeItem(s.(kiro := []), Envelope([], [], [], s.kiro));
    }
  }

  lemma GoesCloseMessage(s: State, inferred: Option<Phase>, overlapped: bool)
    requires Goes(s, overlapped)
    ensures Goes(CloseMessage(s, inferred), overlapped)
  {
    if overlapped { LateCloseMessage(s, inferred); } else { DenseCloseMessage(s, inferred); }
  }

  lemma GoesCloseSummary(s: State, overlapped: bool)
    requires Goes(s, overlapped) && s.signature == []
    ensures Goes(CloseSummary(s), overlapped)
  {
    assert s.(signature := []) == s;
    if overlapped { LateCloseSummary(s); } else { DenseCloseSummary(s); }
  }

  lemma GoesCloseRaw(s: State, overlapped: bool)
    requires Goes(s, overlapped)
    ensures Goes(CloseRaw(s), overlapped)
  {
    if overlapped { LateCloseRaw(s); } else { DenseCloseRaw(s); }
  }

  lemma GoesCloseCall(cfg: Config, s: State, overlapped: bool)
    requires Goes(s, overlapped)
    ensures Goes(CloseCall(cfg, s), overlapped) && Goes(FailCall(cfg, s), overlapped)
  {
    if overlapped {
      LateCloseCall(cfg, s);
      LateFailCall(cfg, s);
    } else {
      DenseCloseCall(cfg, s);
      DenseFailCall(cfg, s);
    }
  }

  lemma GoesCloseSearch(
      s: State, status: SearchStatus, queries: seq<string>, sources: seq<Citation>, overlapped: bool)
    requires Goes(s, overlapped)
    ensures Goes(CloseSearch(s, status, queries, sources), overlapped)
  {
    if overlapped { LateCloseSearch(s, status, queries, sources); } else { DenseCloseSearch(s, status, queries, sources); }
  }

  lemma GoesEnd(s: State, o: Outcome, overlapped: bool)
    requires Goes(s, overlapped)
    ensures Goes(EndWith(s, o), overlapped)
  {
    if overlapped { LateGrows(s, EndWith(s, o)); } else { DenseEnd(s, o); }
  }

  // ---- One event ----

  /** Every end closes the text first, and hidden raw text is flushed before call and search close. */
  predicate EndOverlaps(s: State) {
    s.hiddenRaw != [] && (s.call.Some? || s.search.Some?)
  }

  /** Closing for text: the redacted blocks go out after the summary, the hidden raw text after the raw one. */
  predicate FlushesUnderText(s: State) {
    || (s.redacted != [] && (s.msg.Some? || s.raw.Some? || s.call.Some? || s.search.Some?))
    || (s.hiddenRaw != [] && (s.msg.Some? || s.call.Some? || s.search.Some?))
  }

  predicate FlushesUnderCall(s: State) {
    || (s.redacted != [] && (s.raw.Some? || s.call.Some? || s.search.Some?))
    || (s.hiddenRaw != [] && (s.call.Some? || s.search.Some?))
  }

  predicate ContentOverlaps(cfg: Config, s: State, e: Event)
    requires !IsTerminal(e) && !IsToolEvent(e)
  {
    match e
    case TextDelta(_, _) => s.search.Some? || FlushesUnderText(s)
    case ThinkingDelta(_) =>
      if cfg.hideThinking then s.hiddenRaw != [] && AnyOpen(s)
      else s.search.Some? || (s.hiddenRaw != [] && (s.summary.Some? || s.call.Some?))
    case ReasoningRawDelta(_, _) => !cfg.hideThinking && s.search.Some?
    case ThinkingSignature(signature) => s.summary.None? && (signature != [] || s.redacted != []) && AnyOpen(s)
    case AssistantBoundary => EndOverlaps(s) || (s.redacted != [] && s.search.Some?)
    case _ => false
  }

  predicate ToolOverlaps(s: State, e: Event)
    requires IsToolEvent(e)
  {
    match e
    case ToolCallStart(_, _) => s.search.Some? || FlushesUnderCall(s)
    case WebSearchBegin(_) => EndOverlaps(s)
    case WebSearchEnd(_, _, _, _) => s.search.None? && AnyOpen(s)
    case _ => false
  }

  /** A budget error forgets call and search; the compaction item is never announced. */
  predicate TerminalOverlaps(cfg: Config, s: State, e: Event)
    requires IsTerminal(e)
  {
    match e
    case Done(stopReason, _) => EndOverlaps(s) || (cfg.compaction && !StopsShort(stopReason))
    case Incomplete(_, _, _, _) => EndOverlaps(s)
    case Error(_, _, _, _, _) =>
      if IsLimitError(e) then s.search.Some? || (s.call.Some? && !s.call.value.toolSearch) else EndOverlaps(s)
  }

  /**
   The step would open or emit an item while another one stays open, would finish one that was never announced, or
   would forget one that was.
   */
  predicate Overlaps(cfg: Config, s: State, e: Event) {
    if IsTerminal(e) then TerminalOverlaps(cfg, s, e)
    else if cfg.compaction then false
    else if IsToolEvent(e) then ToolOverlaps(s, e)
    else ContentOverlaps(cfg, s, e)
  }

  /** Message, summary and raw reasoning close in the order of the event switch, then hidden raw text is flushed. */
  lemma GoesCloseText(s: State, inferred: Option<Phase>)
    requires Dense(s)
    ensures
      var t := FlushHiddenRaw(CloseRaw(CloseSummary(CloseMessage(s, inferred))));
      && Goes(t, EndOverlaps(s))
      && t.msg.None? && t.summary.None? && t.raw.None? && t.call == s.call && t.search == s.search
      && t.signature == [] && t.redacted == if s.summary.Some? then [] else s.redacted
  {
    GoesCloseMessage(s, inferred, false);
    var s1 := CloseMessage(s, inferred);
    GoesCloseSummary(s1, false);
    GoesCloseRaw(CloseSummary(s1), false);
    GoesFlushRaw(CloseRaw(CloseSummary(s1)), false);
  }

  lemma GoesBeforeText(cfg: Config, s: State)
    requires Dense(s)
    ensures Goes(CloseBeforeText(cfg, s), FlushesUnderText(s))
  {
    GoesCloseSummary(s, false);
    var s1 := CloseSummary(s);
    GoesFlushEnvelope(s1, false);
    var early := s1.redacted != [] && AnyOpen(s1);
    var s2 := FlushHiddenEnvelope(s1);
    GoesCloseRaw(s2, early);
    GoesFlushRaw(CloseRaw(s2), early);
    var late := early || (s.hiddenRaw != [] && AnyOpen(CloseRaw(s2)));
    GoesCloseCall(cfg, FlushHiddenRaw(CloseRaw(s2)), late);
    assert late == FlushesUnderText(s);
  }

  lemma LateSays(s: State, text: Text, phase: Option<Phase>)
    requires Late(s)
    ensures Late(AppendMessage(if s.msg.None? then OpenMessageItem(s, phase) else s, text))
  {
    LateGrows(s, AppendMessage(if s.msg.None? then OpenMessageItem(s, phase) else s, text));
  }

  lemma DenseSays(s: State, text: Text, phase: Option<Phase>)
    requires Dense(s) && (s.msg.Some? || !AnyOpen(s))
    ensures Dense(AppendMessage(if s.msg.None? then OpenMessageItem(s, phase) else s, text))
  {
    if s.msg.None? { DenseOpenMessage(s, phase); }
    DenseAppendMessage(if s.msg.None? then OpenMessageItem(s, phase) else s, text);
  }

  lemma TextOverSearch(cfg: Config, s: State, text: Text, phase: Option<Phase>)
    requires s.search.Some?
    ensures OnText(cfg, s, text, phase).search.Some? && OnText(cfg, s, text, phase).msg.Some?
  {
  }

  lemma DenseText(cfg: Config, s: State, text: Text, phase: Option<Phase>)
    requires Dense(s)
    ensures Dense(OnText(cfg, s, text, phase)) <==> !(s.search.Some? || FlushesUnderText(s))
  {
    GoesBeforeText(cfg, s);
    var s1 := CloseBeforeText(cfg, s);
    GoesCloseMessage(s1, Some(Commentary), FlushesUnderText(s));
    var s2 := if PhaseChanges(s1, phase) then CloseMessage(s1, Some(Commentary)) else s1;
    if s.search.Some? {
      TextOverSearch(cfg, s, text, phase);
    } else if FlushesUnderText(s) {
      LateSays(s2, text, phase);
      LateIsNotDense(OnText(cfg, s, text, phase));
    } else {
      DenseSays(s2, text, phase);
    }
  }

  lemma LateAppendSummary(s: State, text: Text)
    requires Late(s)
    ensures Late(AppendSummary(s, text))
  {
    LateGrows(s, AppendSummary(s, text));
  }

  lemma DenseThinking(cfg: Config, s: State, thinking: Text)
    requires Dense(s)
    ensures Dense(OnThinking(cfg, s, thinking)) <==> !ContentOverlaps(cfg, s, ThinkingDelta(thinking))
  {
    if cfg.hideThinking { HiddenThinking(cfg, s, thinking); } else { ShownThinking(cfg, s, thinking); }
  }

  lemma HiddenThinking(cfg: Config, s: State, thinking: Text)
    requires Dense(s) && cfg.hideThinking
    ensures Dense(OnThinking(cfg, s, thinking)) <==> !(s.hiddenRaw != [] && AnyOpen(s))
  {
    GoesFlushRaw(s, false);
    GoesMeans(FlushHiddenRaw(s), s.hiddenRaw != [] && AnyOpen(s));
  }

  lemma ShownThinking(cfg: Config, s: State, thinking: Text)
    requires Dense(s) && !cfg.hideThinking
    ensures Dense(OnThinking(cfg, s, thinking))
       <==> !(s.search.Some? || (s.hiddenRaw != [] && (s.summary.Some? || s.call.Some?)))
  {
    GoesCloseMessage(s, Some(Commentary), false);
    var s1 := CloseMessage(s, Some(Commentary));
    GoesCloseRaw(s1, false);
    GoesFlushRaw(CloseRaw(s1), false);
    var over := s.hiddenRaw != [] && AnyOpen(CloseRaw(s1));
    GoesCloseCall(cfg, FlushHiddenRaw(CloseRaw(s1)), over);
    var s2 := CloseCall(cfg, FlushHiddenRaw(CloseRaw(s1)));
    if s.search.Some? {
    } else if over {
      LateAppendSummary(s2, thinking);
      LateIsNotDense(OnThinking(cfg, s, thinking));
    } else {
      DenseAppendSummary(s2, thinking);
    }
  }

  lemma DenseRawReasoning(cfg: Config, s: State, text: Text, asSummary: bool)
    requires Dense(s)
    ensures Dense(OnRawReasoning(cfg, s, text, asSummary)) <==> cfg.hideThinking || s.search.None?
  {
    if !cfg.hideThinking {
      DenseCloseMessage(s, Some(Commentary));
      DenseCloseCall(cfg, CloseMessage(s, Some(Commentary)));
      var s1 := CloseCall(cfg, CloseMessage(s, Some(Commentary)));
      if asSummary {
        DenseCloseRaw(s1);
        if s.search.None? { DenseAppendSummary(CloseRaw(s1), text); }
      } else {
        assert s1.(signature := []) == s1;
        DenseCloseSummary(s1);
        if s.search.None? { DenseAppendRaw(CloseSummary(s1), text); }
      }
    }
  }

  lemma DenseSignature(s: State, signature: Text)
    requires Dense(s)
    ensures Dense(OnSignature(s, signature))
       <==> !(s.summary.None? && (signature != [] || s.redacted != []) && AnyOpen(s))
  {
    var s1 := s.(signature := signature);
    assert s1.(signature := []) == s;
    if s.summary.Some? {
      DenseCloseSummary(s1);
    } else if signature == [] && s.redacted == [] {
      assert OnSignature(s, signature) == s.(hiddenThinking := []);
    } else {
      GoesSignature(s, signature);
      GoesMeans(OnSignature(s, signature), AnyOpen(s));
    }
  }

  lemma GoesSignature(s: State, signature: Text)
    requires Dense(s) && s.summary.None? && (signature != [] || s.redacted != [])
    ensures Goes(OnSignature(s, signature), AnyOpen(s))
  {
    var s1 := s.(signature := signature);
    GoesEnvelopeItem(DropEnvelope(s1.(hiddenThinking := [])), TakenEnvelope(s1, s.hiddenThinking).value);
  }

  lemma DenseBoundary(cfg: Config, s: State)
    requires Dense(s)
    ensures Dense(OnBoundary(cfg, s)) <==> !(EndOverlaps(s) || (s.redacted != [] && s.search.Some?))
  {
    GoesCloseText(s, Some(Commentary));
    var s1 := FlushHiddenRaw(CloseRaw(CloseSummary(CloseMessage(s, Some(Commentary)))));
    GoesCloseCall(cfg, s1, EndOverlaps(s));
    var s2 := CloseCall(cfg, s1);
    GoesFlushEnvelope(s2, EndOverlaps(s));
    GoesMeans(OnBoundary(cfg, s), EndOverlaps(s) || (s2.redacted != [] && AnyOpen(s2)));
  }

  /** Closing for a call: the redacted blocks go out before the raw reasoning closes. */
  lemma GoesBeforeCall(cfg: Config, s: State)
    requires Dense(s)
    ensures
      var t := CloseCall(cfg, FlushHiddenRaw(CloseRaw(FlushHiddenEnvelope(CloseSummary(CloseMessage(s, Some(Commentary)))))));
      && Goes(t, FlushesUnderCall(s))
      && t.msg.None? && t.summary.None? && t.raw.None? && t.call.None? && t.search == s.search
  {
    GoesCloseMessage(s, Some(Commentary), false);
    GoesCloseSummary(CloseMessage(s, Some(Commentary)), false);
    var s1 := CloseSummary(CloseMessage(s, Some(Commentary)));
    GoesFlushEnvelope(s1, false);
    var early := s1.redacted != [] && AnyOpen(s1);
    var s2 := FlushHiddenEnvelope(s1);
    GoesCloseRaw(s2, early);
    GoesFlushRaw(CloseRaw(s2), early);
    var late := early || (s.hiddenRaw != [] && AnyOpen(CloseRaw(s2)));
    GoesCloseCall(cfg, FlushHiddenRaw(CloseRaw(s2)), late);
    assert late == FlushesUnderCall(s);
  }

  lemma LateOpenCall(cfg: Config, s: State, callId: string, name: string)
    requires Late(s) && s.call.None?
    ensures Late(OpenCallItem(cfg, s, callId, name))
  {
    LateGrows(s, OpenCallItem(cfg, s, callId, name));
  }

  lemma DenseCallStart(cfg: Config, s: State, callId: string, name: string)
    requires Dense(s)
    ensures Dense(OnCallStart(cfg, s, callId, name)) <==> !(s.search.Some? || FlushesUnderCall(s))
  {
    GoesBeforeCall(cfg, s);
    var s1 := FlushHiddenRaw(CloseRaw(FlushHiddenEnvelope(CloseSummary(CloseMessage(s, Some(Commentary))))));
    var s2 := CloseCall(cfg, s1);
    if s.search.Some? {
    } else if FlushesUnderCall(s) {
      LateOpenCall(cfg, s2, callId, name);
      LateIsNotDense(OnCallStart(cfg, s, callId, name));
    } else {
      DenseOpenCall(cfg, s2, callId, name);
    }
  }

  lemma DenseCallEnd(cfg: Config, s: State)
    requires Dense(s)
    ensures Dense(OnCallEnd(cfg, s))
  {
    if CallIsMalformed(cfg, s) {
      DenseFailCall(cfg, s);
      DenseEnd(FailCall(cfg, s), MALFORMED);
    } else {
      DenseCloseCall(cfg, s);
    }
  }

  lemma GoesOpenSearch(s: State, eventId: string, overlapped: bool)
    requires Goes(s, overlapped) && !AnyOpen(s)
    ensures Goes(OpenSearchItem(s, eventId), overlapped)
  {
    if overlapped { LateGrows(s, OpenSearchItem(s, eventId)); } else { DenseOpenSearch(s, eventId); }
  }

  lemma DenseSearchBegin(cfg: Config, s: State, eventId: string)
    requires Dense(s)
    ensures Dense(OnSearchBegin(cfg, s, eventId)) <==> !EndOverlaps(s)
  {
    GoesCloseText(s, Some(Commentary));
    var s1 := FlushHiddenRaw(CloseRaw(CloseSummary(CloseMessage(s, Some(Commentary)))));
    GoesCloseCall(cfg, s1, EndOverlaps(s));
    var s2 := CloseCall(cfg, s1);
    GoesCloseSearch(s2, SearchCompleted, [], [], EndOverlaps(s));
    GoesOpenSearch(CloseSearch(s2, SearchCompleted, [], []), eventId, EndOverlaps(s));
    GoesMeans(OnSearchBegin(cfg, s, eventId), EndOverlaps(s));
  }

  lemma DenseEnsureSearch(s: State, eventId: string)
    requires Dense(s) && (s.search.Some? || !AnyOpen(s))
    ensures Dense(EnsureSearch(s, eventId))
  {
    DenseCloseSearch(s, SearchCompleted, [], []);
    if s.search.None? || s.search.value.eventId != eventId {
      DenseOpenSearch(CloseSearch(s, SearchCompleted, [], []), eventId);
    }
  }

  lemma DenseSearchEnd(s: State, e: Event)
    requires Dense(s) && e.WebSearchEnd?
    ensures Dense(OnSearchEnd(s, e)) <==> !(s.search.None? && AnyOpen(s))
  {
    if s.search.Some? || !AnyOpen(s) {
      DenseEnsureSearch(s, e.id);
      var status := if e.searchStatus.Some? then e.searchStatus.value else SearchCompleted;
      DenseCloseSearch(EnsureSearch(s, e.id), status, e.queries, OrNothing(e.sources));
    }
  }

  lemma GoesAbandon(cfg: Config, s: State)
    requires Dense(s)
    ensures Goes(Abandon(cfg, s), EndOverlaps(s)) && !AnyOpen(Abandon(cfg, s)) && Abandon(cfg, s).signature == []
  {
    GoesCloseText(s, None);
    var s1 := FlushHiddenRaw(CloseRaw(CloseSummary(CloseMessage(s, None))));
    GoesCloseCall(cfg, s1, EndOverlaps(s));
    GoesCloseSearch(FailCall(cfg, s1), SearchFailed, [], [], EndOverlaps(s));
  }

  lemma GoesCloseOut(cfg: Config, s: State, inferred: Option<Phase>)
    requires Dense(s)
    ensures Goes(CloseOut(cfg, s, inferred), EndOverlaps(s)) && !AnyOpen(CloseOut(cfg, s, inferred))
  {
    GoesCloseText(s, inferred);
    var s1 := FlushHiddenRaw(CloseRaw(CloseSummary(CloseMessage(s, inferred))));
    GoesCloseCall(cfg, s1, EndOverlaps(s));
    var s2 := CloseSearch(CloseCall(cfg, s1), SearchCompleted, [], []);
    GoesCloseSearch(CloseCall(cfg, s1), SearchCompleted, [], [], EndOverlaps(s));
    GoesFlushEnvelope(s2, EndOverlaps(s));
    GoesFlushKiro(FlushHiddenEnvelope(s2), EndOverlaps(s));
  }

  /** The compaction item is finished without having been announced. */
  lemma CompactionItemIsNotDense(s: State, o: Outcome, overlapped: bool)
    requires Goes(s, overlapped) && !AnyOpen(s)
    ensures !Dense(EndWith(CompactionItem(s), o))
  {
    var item := Item(s.nextId, Compaction(s.compactionText));
    var t := EndWith(CompactionItem(s), o);
    if overlapped {
      LateGrows(s, t);
      LateIsNotDense(t);
    } else {
      LogAppend(s.frames, ItemDone(s.outputIndex, item));
      LogAppend(s.frames + [ItemDone(s.outputIndex, item)], Terminal(o, CompactionItem(s).finished));
      assert |Adds(t.frames)| == |s.finished| < |Listing(t.finished)|;
    }
  }

  lemma DenseDone(cfg: Config, s: State, e: Event)
    requires Dense(s) && e.Done?
    ensures Dense(OnDone(cfg, s, e)) <==> !(EndOverlaps(s) || (cfg.compaction && !StopsShort(e.stopReason)))
  {
    var inferred := if e.stopReason.None? || e.stopReason == Some("") then Some(FinalAnswer) else None;
    GoesCloseOut(cfg, s, inferred);
    var s1 := CloseOut(cfg, s, inferred);
    if cfg.compaction && !StopsShort(e.stopReason) {
      CompactionItemIsNotDense(s1, DoneOutcome(e), EndOverlaps(s));
    } else {
      GoesEnd(s1, DoneOutcome(e), EndOverlaps(s));
      GoesMeans(EndWith(s1, DoneOutcome(e)), EndOverlaps(s));
    }
  }

  lemma DenseIncomplete(cfg: Config, s: State, e: Event)
    requires Dense(s) && e.Incomplete?
    ensures Dense(OnIncomplete(cfg, s, e)) <==> !EndOverlaps(s)
  {
    GoesAbandon(cfg, s);
    var s1 := Abandon(cfg, s);
    GoesFlushEnvelope(s1, EndOverlaps(s));
    GoesEnd(FlushHiddenEnvelope(s1), IncompleteOutcome(e), EndOverlaps(s));
    GoesMeans(OnIncomplete(cfg, s, e), EndOverlaps(s));
  }

  /** The end by an error, by the end of the input, by a stall or by an exception. */
  lemma DenseAbandoned(cfg: Config, s: State, o: Outcome)
    requires Dense(s)
    ensures Dense(EndWith(Abandon(cfg, s), o)) <==> !EndOverlaps(s)
  {
    GoesAbandon(cfg, s);
    GoesEnd(Abandon(cfg, s), o, EndOverlaps(s));
    GoesMeans(EndWith(Abandon(cfg, s), o), EndOverlaps(s));
  }

  /** The overflow forgets the open call and search; what was announced stays announced. */
  lemma DenseOverflow(s: State)
    requires Dense(s)
    ensures Dense(Overflow(s)) <==> s.search.None? && (s.call.Some? ==> s.call.value.toolSearch)
  {
    var t := s.(call := None, search := None);
    LogAppend(s.frames, Terminal(OVERFLOW, s.finished));
    if s.search.None? && (s.call.Some? ==> s.call.value.toolSearch) {
      assert BookOf(t) == BookOf(s);
      DenseEnd(t, OVERFLOW);
    } else {
      assert |Adds(Overflow(s).frames)| == |s.finished| + 1;
      assert BookOf(Overflow(s)).added == None;
    }
  }

  lemma DenseError(cfg: Config, s: State, e: Event)
    requires Dense(s) && e.Error?
    ensures Dense(OnError(cfg, s, e)) <==> !TerminalOverlaps(cfg, s, e)
  {
    if IsLimitError(e) { DenseOverflow(s); } else { DenseAbandoned(cfg, s, ErrorOutcome(e)); }
  }

  lemma DenseTerminal(cfg: Config, s: State, e: Event)
    requires Dense(s) && IsTerminal(e)
    ensures Dense(StepTerminal(cfg, s, e)) <==> !TerminalOverlaps(cfg, s, e)
  {
    match e
    case Done(_, _) => DenseDone(cfg, s, e);
    case Incomplete(_, _, _, _) => DenseIncomplete(cfg, s, e);
    case Error(_, _, _, _, _) => DenseError(cfg, s, e);
  }

  lemma DenseCallEvent(cfg: Config, s: State, e: Event)
    requires Dense(s) && (e.ToolCallStart? || e.ToolCallDelta? || e.ToolCallEnd?)
    ensures Dense(StepTool(cfg, s, e)) <==> !ToolOverlaps(s, e)
  {
    match e
    case ToolCallStart(id, name) => DenseCallStart(cfg, s, id, name);
    case ToolCallDelta(arguments) => DenseCallDelta(s, arguments);
    case ToolCallEnd => DenseCallEnd(cfg, s);
  }

  lemma DenseSearchEvent(cfg: Config, s: State, e: Event)
    requires Dense(s) && (e.WebSearchBegin? || e.WebSearchEnd?)
    ensures Dense(StepTool(cfg, s, e)) <==> !ToolOverlaps(s, e)
  {
    match e
    case WebSearchBegin(id) => DenseSearchBegin(cfg, s, id);
    case WebSearchEnd(_, _, _, _) => DenseSearchEnd(s, e);
  }

  lemma DenseToolEvent(cfg: Config, s: State, e: Event)
    requires Dense(s) && IsToolEvent(e)
    ensures Dense(StepTool(cfg, s, e)) <==> !ToolOverlaps(s, e)
  {
    if e.WebSearchBegin? || e.WebSearchEnd? { DenseSearchEvent(cfg, s, e); } else { DenseCallEvent(cfg, s, e); }
  }

  lemma DenseContentEvent(cfg: Config, s: State, e: Event)
    requires Dense(s) && !IsTerminal(e) && !IsToolEvent(e)
    ensures Dense(StepContent(cfg, s, e)) <==> !ContentOverlaps(cfg, s, e)
  {
    match e
    case TextDelta(text, phase) => DenseText(cfg, s, text, phase);
    case ThinkingDelta(thinking) => DenseThinking(cfg, s, thinking);
    case ThinkingSignature(signature) => DenseSignature(s, signature);
    case ReasoningRawDelta(text, asSummary) => DenseRawReasoning(cfg, s, text, asSummary);
    case AssistantBoundary => DenseBoundary(cfg, s);
    case _ =>
  }

  lemma StepIsTerminal(cfg: Config, s: State, e: Event)
    requires IsTerminal(e)
    ensures Step(cfg, s, e) == StepTerminal(cfg, s, e)
  {
  }

  lemma DenseCompaction(cfg: Config, s: State, e: Event)
    requires Dense(s) && cfg.compaction && !IsTerminal(e)
    ensures Dense(Step(cfg, s, e))
  {
    assert BookOf(Step(cfg, s, e)) == BookOf(s);
  }

  /**
   A step keeps the indices dense exactly when it does not overlap an open item: for every configuration, every
   dense state and every event.
   */
  lemma DenseStep(cfg: Config, s: State, e: Event)
    requires Dense(s)
    ensures Dense(Step(cfg, s, e)) <==> !Overlaps(cfg, s, e)
  {
    if IsTerminal(e) {
      StepIsTerminal(cfg, s, e);
      DenseTerminal(cfg, s, e);
    } else if cfg.compaction {
      DenseCompaction(cfg, s, e);
    } else if IsToolEvent(e) {
      DenseToolEvent(cfg, s, e);
    } else {
      DenseContentEvent(cfg, s, e);
    }
  }

  // ---- Whole runs ----

  /** No event of the run arrives while it would overlap an open item. */
  predicate Orderly(cfg: Config, s: State, events: seq<Event>)
    decreases events
  {
    s.outcome.Some? || events == []
    || (!Overlaps(cfg, s, events[0]) && Orderly(cfg, Step(cfg, s, events[0]), events[1..]))
  }

  /** ... and neither does the end of the input. */
  predicate OrderlyTurn(cfg: Config, events: seq<Event>) {
    var last := Steps(cfg, START, events);
    Orderly(cfg, START, events) && (last.outcome.None? ==> !EndOverlaps(last))
  }

  lemma {:induction false} DenseReachable(cfg: Config, s: State, events: seq<Event>, k: nat)
    requires Dense(s) && Orderly(cfg, s, events) && k <= |events|
    ensures Dense(Steps(cfg, s, events[..k]))
    decreases k
  {
    if k > 0 && s.outcome.None? {
      DenseStep(cfg, s, events[0]);
      StepsOn(cfg, s, events, k - 1);
      DenseReachable(cfg, Step(cfg, s, events[0]), events[1..], k - 1);
    }
  }

  lemma StartIsDense()
    ensures Dense(START)
  {
    LogAppend([], Created);
    assert [] + [Created] == [Created];
  }

  lemma StepsOn(cfg: Config, s: State, events: seq<Event>, k: nat)
    requires k < |events| && s.outcome.None?
    ensures Steps(cfg, s, events[..k + 1]) == Steps(cfg, Step(cfg, s, events[0]), events[1..][..k])
  {
    assert events[..k + 1][1..] == events[1..][..k];
  }

  /** The guard misses nothing: a run is orderly exactly if every state it reaches is dense. */
  lemma {:induction false} OrderlyIsDense(cfg: Config, s: State, events: seq<Event>)
    requires Dense(s)
    ensures Orderly(cfg, s, events) <==> forall k: nat :: k <= |events| ==> Dense(Steps(cfg, s, events[..k]))
    decreases |events|
  {
    if Orderly(cfg, s, events) {
      forall k: nat | k <= |events| ensures Dense(Steps(cfg, s, events[..k])) {
        DenseReachable(cfg, s, events, k);
      }
    }
    if (forall k: nat :: k <= |events| ==> Dense(Steps(cfg, s, events[..k]))) && s.outcome.None? && events != [] {
      var t := Step(cfg, s, events[0]);
      forall k: nat | k <= |events| - 1 ensures Dense(Steps(cfg, t, events[1..][..k])) {
        StepsOn(cfg, s, events, k);
      }
      assert events[1..][..0] == [];
      DenseStep(cfg, s, events[0]);
      OrderlyIsDense(cfg, t, events[1..]);
    }
  }

  /** Every reachable state of a turn, and its end, is dense, if and only if the turn is orderly. */
  lemma IndicesAreDense(cfg: Config, events: seq<Event>)
    ensures OrderlyTurn(cfg, events)
       <==> (forall k: nat :: k <= |events| ==> Dense(Steps(cfg, START, events[..k]))) && Dense(Run(cfg, events))
  {
    StartIsDense();
    OrderlyIsDense(cfg, START, events);
    if Orderly(cfg, START, events) {
      assert events[..|events|] == events;
      DenseReachable(cfg, START, events, |events|);
      DenseAbandoned(cfg, Steps(cfg, START, events), ADAPTER_EOF);
    }
  }

  /**
   The reader's version: in every reachable state of an orderly turn the next index is the number of finished
   items, the k-th `added` frame and the k-th `done` frame carry index k and are about the k-th finished item,
   at most one further item is announced, at the next index, and every frame in between names the index and
   the id its item was added under.
   */
  lemma IndicesCountItems(cfg: Config, events: seq<Event>, k: nat)
    requires Orderly(cfg, START, events) && k <= |events|
    ensures
      var s := Steps(cfg, START, events[..k]);
      && s.outputIndex == |s.finished| == |Dones(s.frames)| <= |Adds(s.frames)| <= |s.finished| + 1
      && (forall i :: 0 <= i < |s.finished| ==>
            Adds(s.frames)[i] == (i, s.finished[i].id) && Dones(s.frames)[i] == (i, s.finished[i]))
      && (|Adds(s.frames)| > |s.finished| ==> Adds(s.frames)[|s.finished|].0 == s.outputIndex)
      && (forall f :: f in s.frames ==> RefersWell(f, Adds(s.frames)))
  {
    StartIsDense();
    DenseReachable(cfg, START, events, k);
    DenseMeaning(Steps(cfg, START, events[..k]));
  }

  lemma DenseMeaning(s: State)
    requires Dense(s)
    ensures s.outputIndex == |s.finished| == |Dones(s.frames)| <= |Adds(s.frames)| <= |s.finished| + 1
    ensures forall i :: 0 <= i < |s.finished| ==>
      Adds(s.frames)[i] == (i, s.finished[i].id) && Dones(s.frames)[i] == (i, s.finished[i])
    ensures |Adds(s.frames)| > |s.finished| ==> Adds(s.frames)[|s.finished|].0 == s.outputIndex
    ensures forall f :: f in s.frames ==> RefersWell(f, Adds(s.frames))
  {
  }
}
