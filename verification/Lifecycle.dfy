/**
 The life of every output item on the stream, in visible and hidden mode alike: announced once, fed only
 while open, finished once, with the text the deltas spelled.
 */
module Lifecycle {
  import opened Text
  import opened Responses
  import opened Translator
  import Freeform

  // ---- Reading one item's life off the frames ----

  datatype Life = Absent | Opened(text: Text) | Closed(text: Text, item: Item) | Broken

  /** The item a frame is about, if any. */
  function Subject(f: Frame): Option<nat> {
    match f
    case Added(_, id) => Some(id)
    case PartAdded(_, id, _) => Some(id)
    case Delta(_, id, _, _) => Some(id)
    case TextDone(_, id, _, _) => Some(id)
    case PartDone(_, id, _, _) => Some(id)
    case ItemDone(_, item) => Some(item.id)
    case _ => None
  }

  /** For messages and summaries the closing frames repeat the streamed text. */
  predicate RepeatsText(channel: Channel, text: Text, streamed: Text) {
    channel == OutputText || channel == SummaryText ==> text == streamed
  }

  function LifeStep(l: Life, f: Frame): Life {
    match f
    case Added(_, _) => if l.Absent? then Opened([]) else Broken
    case PartAdded(_, _, _) => if l == Opened([]) then l else Broken
    case Delta(_, _, _, delta) => if l.Opened? then Opened(l.text + delta) else Broken
    case TextDone(_, _, channel, text) => if l.Opened? && RepeatsText(channel, text, l.text) then l else Broken
    case PartDone(_, _, channel, text) => if l.Opened? && RepeatsText(channel, text, l.text) then l else Broken
    case ItemDone(_, item) => if l.Opened? then Closed(l.text, item) else Broken
    case _ => l
  }

  function LifeOf(fs: seq<Frame>, x: nat): Life {
    if fs == [] then Absent
    else
      var before := LifeOf(fs[..|fs| - 1], x);
      if Subject(fs[|fs| - 1]) == Some(x) then LifeStep(before, fs[|fs| - 1]) else before
  }

  lemma LifeAppend(fs: seq<Frame>, f: Frame, x: nat)
    ensures LifeOf(fs + [f], x) == if Subject(f) == Some(x) then LifeStep(LifeOf(fs, x), f) else LifeOf(fs, x)
  {
    assert (fs + [f])[..|fs|] == fs;
  }

  /** The text streamed for an item: all its deltas, in order. */
  function Streamed(fs: seq<Frame>, x: nat): Text {
    if fs == [] then []
    else
      var f := fs[|fs| - 1];
      Streamed(fs[..|fs| - 1], x) + (if f.Delta? && f.id == x then f.delta else [])
  }

  ghost predicate OnlyAddedAt(fs: seq<Frame>, x: nat, i: nat) {
    && i < |fs| && fs[i].Added? && fs[i].id == x
    && forall n :: 0 <= n < |fs| && Subject(fs[n]) == Some(x) && n != i ==> i < n && !fs[n].Added?
  }

  ghost predicate OnlyDoneAt(fs: seq<Frame>, x: nat, j: nat, item: Item) {
    && j < |fs| && fs[j].ItemDone? && fs[j].item == item && item.id == x
    && forall n :: 0 <= n < |fs| && Subject(fs[n]) == Some(x) && n != j ==> n < j && !fs[n].ItemDone?
  }

  /** What the automaton's verdict means in terms of positions in the stream. */
  lemma {:induction false} LifeMeaning(fs: seq<Frame>, x: nat)
    ensures LifeOf(fs, x).Absent? ==> forall n :: 0 <= n < |fs| ==> Subject(fs[n]) != Some(x)
    ensures LifeOf(fs, x).Opened? || LifeOf(fs, x).Closed? ==>
      LifeOf(fs, x).text == Streamed(fs, x) && exists i: nat :: OnlyAddedAt(fs, x, i)
    ensures LifeOf(fs, x).Opened? ==> forall n :: 0 <= n < |fs| && Subject(fs[n]) == Some(x) ==> !fs[n].ItemDone?
    ensures LifeOf(fs, x).Closed? ==> exists j: nat :: OnlyDoneAt(fs, x, j, LifeOf(fs, x).item)
    ensures LifeOf(fs, x).Absent? ==> Streamed(fs, x) == []
  {
    if fs != [] {
      var m := |fs| - 1;
      var front, f := fs[..m], fs[m];
      LifeMeaning(front, x);
      assert forall n :: 0 <= n < m ==> front[n] == fs[n];
      var l, l' := LifeOf(front, x), LifeOf(fs, x);
      if l'.Opened? || l'.Closed? {
        if l.Absent? {
          assert OnlyAddedAt(fs, x, m);
        } else {
          var i: nat :| OnlyAddedAt(front, x, i);
          assert OnlyAddedAt(fs, x, i);
        }
      }
      if l'.Closed? {
        if l.Closed? {
          var j: nat :| OnlyDoneAt(front, x, j, l.item);
          assert OnlyDoneAt(fs, x, j, l'.item);
        } else {
          assert OnlyDoneAt(fs, x, m, l'.item);
        }
      }
    }
  }

  // ---- What a finished item owes to its stream ----

  /** For calls only that some arguments explain both; which ones is the business of `Calls`. */
  ghost predicate Agrees(cfg: Config, streamed: Text, body: ItemBody) {
    match body
    case Message(text, _, _) => streamed == text
    case Reasoning(summary, content, _) =>
      streamed == if summary.Some? then summary.value else if content.Some? then content.value else []
    case FunctionCall(_, name, _, arguments, completed, _) =>
      if completed
      then exists n :: RealName(cfg, n) == name
             && arguments == OrEmptyObject(CoerceUnder(cfg, StreamSchema(cfg, n, name), streamed))
      else arguments == OrEmptyObject(streamed)
    case CustomToolCall(_, name, _, input, completed) =>
      exists n, args :: RealName(cfg, n) == name && streamed == Freeform.Shown(args)
        && input == FreeformInput(cfg, if completed then CoerceUnder(cfg, StreamSchema(cfg, n, name), args) else args)
    case ToolSearchCall(_, _) => streamed == []
    case WebSearchCall(_, _, _) => streamed == []
    case Compaction(_) => false
  }

  // ---- The ledger of open items ----

  /** `open` maps each unfinished item to the text streamed for it, or to None while unannounced. */
  datatype Ledger = Ledger(frames: seq<Frame>, nextId: nat, open: map<nat, Option<Text>>, finished: seq<Item>)

  ghost predicate Accounted(cfg: Config, l: Ledger, x: nat) {
    if x in l.open then
      LifeOf(l.frames, x) == if l.open[x].Some? then Opened(l.open[x].value) else Absent
    else if x < l.nextId then
      var life := LifeOf(l.frames, x);
      life.Closed? && life.item in l.finished && Agrees(cfg, life.text, life.item.body)
    else LifeOf(l.frames, x).Absent?
  }

  ghost predicate LedgerOk(cfg: Config, l: Ledger) {
    && (forall x :: x in l.open ==> x < l.nextId)
    && forall x: nat :: Accounted(cfg, l, x)
  }

  /** A frame about another item changes nothing for `x`. */
  lemma AccountedElsewhere(cfg: Config, l: Ledger, l': Ledger, f: Frame, x: nat)
    requires Accounted(cfg, l, x) && l'.frames == l.frames + [f] && Subject(f) != Some(x)
    requires x in l.open <==> x in l'.open
    requires x in l.open ==> l.open[x] == l'.open[x]
    requires x < l.nextId <==> x < l'.nextId
    requires l'.finished == l.finished
    ensures Accounted(cfg, l', x)
  {
    LifeAppend(l.frames, f, x);
  }

  lemma LedgerAdd(cfg: Config, l: Ledger, f: Frame)
    requires LedgerOk(cfg, l) && f.Added?
    requires f.id == l.nextId || (f.id in l.open && l.open[f.id].None?)
    ensures LedgerOk(cfg, Ledger(l.frames + [f], if f.id == l.nextId then l.nextId + 1 else l.nextId,
                                 l.open[f.id := Some([])], l.finished))
  {
    var l' := Ledger(l.frames + [f], if f.id == l.nextId then l.nextId + 1 else l.nextId,
                     l.open[f.id := Some([])], l.finished);
    forall x: nat ensures Accounted(cfg, l', x) {
      assert Accounted(cfg, l, x);
      if x == f.id {
        LifeAppend(l.frames, f, x);
      } else {
        AccountedElsewhere(cfg, l, l', f, x);
      }
    }
  }

  lemma LedgerReserve(cfg: Config, l: Ledger)
    requires LedgerOk(cfg, l)
    ensures LedgerOk(cfg, l.(nextId := l.nextId + 1, open := l.open[l.nextId := None]))
  {
    var l' := l.(nextId := l.nextId + 1, open := l.open[l.nextId := None]);
    forall x: nat ensures Accounted(cfg, l', x) {
      assert Accounted(cfg, l, x);
    }
  }

  /** Any frame that leaves its item open with the text `text`. */
  lemma LedgerFeed(cfg: Config, l: Ledger, f: Frame, id: nat, text: Text)
    requires LedgerOk(cfg, l) && Subject(f) == Some(id)
    requires id in l.open && l.open[id].Some?
    requires LifeStep(Opened(l.open[id].value), f) == Opened(text)
    ensures LedgerOk(cfg, l.(frames := l.frames + [f], open := l.open[id := Some(text)]))
  {
    var l' := l.(frames := l.frames + [f], open := l.open[id := Some(text)]);
    assert Accounted(cfg, l, id);
    forall x: nat ensures Accounted(cfg, l', x) {
      assert Accounted(cfg, l, x);
      LifeAppend(l.frames, f, x);
    }
  }

  lemma LedgerDone(cfg: Config, l: Ledger, index: nat, item: Item)
    requires LedgerOk(cfg, l) && item.id in l.open && l.open[item.id].Some?
    requires Agrees(cfg, l.open[item.id].value, item.body)
    ensures LedgerOk(cfg, Ledger(l.frames + [ItemDone(index, item)], l.nextId, l.open - {item.id}, l.finished + [item]))
  {
    var f := ItemDone(index, item);
    var l' := Ledger(l.frames + [f], l.nextId, l.open - {item.id}, l.finished + [item]);
    assert Accounted(cfg, l, item.id);
    forall x: nat ensures Accounted(cfg, l', x) {
      assert Accounted(cfg, l, x);
      LifeAppend(l.frames, f, x);
    }
  }

  lemma LedgerOther(cfg: Config, l: Ledger, f: Frame)
    requires LedgerOk(cfg, l) && Subject(f).None?
    ensures LedgerOk(cfg, l.(frames := l.frames + [f]))
  {
    var l' := l.(frames := l.frames + [f]);
    forall x: nat ensures Accounted(cfg, l', x) {
      assert Accounted(cfg, l, x);
      LifeAppend(l.frames, f, x);
    }
  }

  // ---- The invariant of the bridge ----

  /** At most one of message, summary, raw reasoning and tool call is open; a search may be open beside it. */
  predicate AtMostOneOpen(s: State) {
    && (s.msg.Some? ==> s.summary.None? && s.raw.None? && s.call.None?)
    && (s.summary.Some? ==> s.raw.None? && s.call.None?)
    && (s.raw.Some? ==> s.call.None?)
  }

  function MainOpen(s: State): map<nat, Option<Text>> {
    if s.msg.Some? then map[s.msg.value.id := Some(s.msg.value.text)]
    else if s.summary.Some? then map[s.summary.value.id := Some(s.summary.value.text)]
    else if s.raw.Some? then map[s.raw.value.id := Some(s.raw.value.text)]
    else if s.call.Some? then
      var c := s.call.value;
      map[c.id := if c.toolSearch then None else if c.freeform then Some(c.inputEmitted) else Some(c.args)]
    else map[]
  }

  function SearchOpen(s: State): map<nat, Option<Text>> {
    if s.search.Some? then map[s.search.value.id := Some([])] else map[]
  }

  function LedgerOf(s: State): Ledger {
    Ledger(s.frames, s.nextId, MainOpen(s) + SearchOpen(s), s.finished)
  }

  ghost predicate CallOk(cfg: Config, s: State) {
    s.call.Some? ==>
      var c := s.call.value;
      && c.name == RealName(cfg, c.schemaName)
      && (c.toolSearch ==> Concat(c.argumentDeltas) == c.args)
      && (c.freeform ==> c.inputEmitted == Freeform.Shown(c.args) && !c.toolSearch)
  }

  ghost predicate Lively(cfg: Config, s: State) {
    && AtMostOneOpen(s) && CallOk(cfg, s)
    && MainOpen(s).Keys !! SearchOpen(s).Keys
    && LedgerOk(cfg, LedgerOf(s))
  }

  // ---- Closing ----

  /** Finishing the main open item, whose ledger entry holds `text`. */
  lemma FinishMain(cfg: Config, s: State, s': State, fs: seq<Frame>, index: nat, item: Item)
    requires Lively(cfg, s) && MainOpen(s).Keys == {item.id} && MainOpen(s)[item.id].Some?
    requires LedgerOk(cfg, LedgerOf(s).(frames := fs))
    requires Agrees(cfg, MainOpen(s)[item.id].value, item.body)
    requires s'.msg.None? && s'.summary.None? && s'.raw.None? && s'.call.None? && s'.search == s.search
    requires s'.frames == fs + [ItemDone(index, item)] && s'.finished == s.finished + [item] && s'.nextId == s.nextId
    ensures Lively(cfg, s')
  {
    LedgerDone(cfg, LedgerOf(s).(frames := fs), index, item);
    assert MainOpen(s') + SearchOpen(s') == LedgerOf(s).open - {item.id};
  }

  lemma FeedMain(cfg: Config, s: State, fs: seq<Frame>, f: Frame, id: nat)
    requires MainOpen(s).Keys == {id} && MainOpen(s)[id].Some? && MainOpen(s).Keys !! SearchOpen(s).Keys
    requires LedgerOk(cfg, LedgerOf(s).(frames := fs))
    requires Subject(f) == Some(id) && LifeStep(Opened(MainOpen(s)[id].value), f) == Opened(MainOpen(s)[id].value)
    ensures LedgerOk(cfg, LedgerOf(s).(frames := fs + [f]))
  {
    var l := LedgerOf(s).(frames := fs);
    LedgerFeed(cfg, l, f, id, MainOpen(s)[id].value);
    assert l.open[id := Some(MainOpen(s)[id].value)] == l.open;
  }

  lemma LivelyCloseMessage(cfg: Config, s: State, inferred: Option<Phase>)
    requires Lively(cfg, s)
    ensures Lively(cfg, CloseMessage(s, inferred))
  {
    if s.msg.Some? {
      var m, s' := s.msg.value, CloseMessage(s, inferred);
      assert LedgerOf(s).(frames := s.frames) == LedgerOf(s);
      FeedMain(cfg, s, s.frames, TextDone(m.index, m.id, OutputText, m.text), m.id);
      var fs1 := s.frames + [TextDone(m.index, m.id, OutputText, m.text)];
      FeedMain(cfg, s, fs1, PartDone(m.index, m.id, OutputText, m.text), m.id);
      FinishMain(cfg, s, s', fs1 + [PartDone(m.index, m.id, OutputText, m.text)], m.index, s'.finished[|s.finished|]);
    }
  }

  lemma LivelyCloseSummary(cfg: Config, s: State)
    requires Lively(cfg, s)
    ensures Lively(cfg, CloseSummary(s))
  {
    if s.summary.Some? {
      var m, s' := s.summary.value, CloseSummary(s);
      assert LedgerOf(s).(frames := s.frames) == LedgerOf(s);
      FeedMain(cfg, s, s.frames, TextDone(m.index, m.id, SummaryText, m.text), m.id);
      var fs1 := s.frames + [TextDone(m.index, m.id, SummaryText, m.text)];
      FeedMain(cfg, s, fs1, PartDone(m.index, m.id, SummaryText, m.text), m.id);
      FinishMain(cfg, s, s', fs1 + [PartDone(m.index, m.id, SummaryText, m.text)], m.index, s'.finished[|s.finished|]);
    }
  }

  lemma LivelyCloseRaw(cfg: Config, s: State)
    requires Lively(cfg, s)
    ensures Lively(cfg, CloseRaw(s))
  {
    if s.raw.Some? {
      var m, s' := s.raw.value, CloseRaw(s);
      assert LedgerOf(s).(frames := s.frames) == LedgerOf(s);
      FinishMain(cfg, s, s', s.frames, m.index, s'.finished[|s.finished|]);
    }
  }

  lemma CompletedCallAgrees(cfg: Config, s: State)
    requires s.call.Some? && CallOk(cfg, s)
    ensures
      var c := s.call.value;
      var args := CoerceUnder(cfg, StreamSchema(cfg, c.schemaName, c.name), c.args);
      Agrees(cfg, if c.toolSearch then [] else if c.freeform then c.inputEmitted else c.args, CompletedCall(cfg, c, args))
  {
    var c := s.call.value;
    assert RealName(cfg, c.schemaName) == c.name;
    assert c.freeform ==> c.inputEmitted == Freeform.Shown(c.args);
  }

  lemma LivelyCloseToolSearch(cfg: Config, s: State)
    requires Lively(cfg, s) && s.call.Some? && s.call.value.toolSearch
    ensures Lively(cfg, CloseCall(cfg, s))
  {
    var c, s', l := s.call.value, CloseCall(cfg, s), LedgerOf(s);
    var item := s'.finished[|s.finished|];
    var f := s'.frames[|s.frames|];
    CompletedCallAgrees(cfg, s);
    assert s'.frames == s.frames + [f] + [ItemDone(c.index, item)];
    LedgerAdd(cfg, l, f);
    var l1 := Ledger(l.frames + [f], l.nextId, l.open[c.id := Some([])], l.finished);
    LedgerDone(cfg, l1, c.index, item);
    assert MainOpen(s') + SearchOpen(s') == l1.open - {c.id};
  }

  lemma LivelyCloseCall(cfg: Config, s: State)
    requires Lively(cfg, s)
    ensures Lively(cfg, CloseCall(cfg, s))
  {
    if s.call.Some? {
      if s.call.value.toolSearch {
        LivelyCloseToolSearch(cfg, s);
      } else {
        var c, s', l := s.call.value, CloseCall(cfg, s), LedgerOf(s);
        var item := s'.finished[|s.finished|];
        var f := s'.frames[|s.frames|];
        CompletedCallAgrees(cfg, s);
        assert s'.frames == s.frames + [f] + [ItemDone(c.index, item)];
        assert l.(frames := s.frames) == l;
        FeedMain(cfg, s, s.frames, f, c.id);
        FinishMain(cfg, s, s', s.frames + [f], c.index, item);
      }
    }
  }

  lemma {:induction false} LedgerReplay(cfg: Config, l: Ledger, c: OpenCall, deltas: seq<Text>)
    requires LedgerOk(cfg, l) && c.id in l.open && l.open[c.id] == Some([])
    ensures LedgerOk(cfg, l.(frames := l.frames + Replay(c, deltas), open := l.open[c.id := Some(Concat(deltas))]))
  {
    if deltas == [] {
      assert l.frames + Replay(c, []) == l.frames && l.open[c.id := Some([])] == l.open;
    } else {
      var front, last := deltas[..|deltas| - 1], deltas[|deltas| - 1];
      LedgerReplay(cfg, l, c, front);
      var l1 := l.(frames := l.frames + Replay(c, front), open := l.open[c.id := Some(Concat(front))]);
      var f := Delta(c.index, c.id, CallArguments, last);
      LedgerFeed(cfg, l1, f, c.id, Concat(deltas));
      assert l1.frames + [f] == l.frames + Replay(c, deltas);
      assert l1.open[c.id := Some(Concat(deltas))] == l.open[c.id := Some(Concat(deltas))];
    }
  }

  lemma LivelyFailToolSearch(cfg: Config, s: State)
    requires Lively(cfg, s) && s.call.Some? && s.call.value.toolSearch
    ensures Lively(cfg, FailCall(cfg, s))
  {
    var c, s', l := s.call.value, FailCall(cfg, s), LedgerOf(s);
    var item := s'.finished[|s.finished|];
    LedgerAdd(cfg, l, Added(c.index, c.id));
    var l1 := Ledger(l.frames + [Added(c.index, c.id)], l.nextId, l.open[c.id := Some([])], l.finished);
    LedgerReplay(cfg, l1, c, c.argumentDeltas);
    var l2 := l1.(frames := l1.frames + Replay(c, c.argumentDeltas), open := l1.open[c.id := Some(c.args)]);
    LedgerDone(cfg, l2, c.index, item);
    assert MainOpen(s') + SearchOpen(s') == l2.open - {c.id};
  }

  lemma LivelyFailCall(cfg: Config, s: State)
    requires Lively(cfg, s)
    ensures Lively(cfg, FailCall(cfg, s))
  {
    if s.call.Some? {
      if s.call.value.toolSearch {
        LivelyFailToolSearch(cfg, s);
      } else {
        var c, s', l := s.call.value, FailCall(cfg, s), LedgerOf(s);
        var item := s'.finished[|s.finished|];
        assert Agrees(cfg, MainOpen(s)[c.id].value, item.body) by {
          assert RealName(cfg, c.schemaName) == c.name;
          assert c.freeform ==> c.inputEmitted == Freeform.Shown(c.args);
        }
        assert l.(frames := s.frames) == l;
        FinishMain(cfg, s, s', s.frames, c.index, item);
      }
    }
  }

  lemma LivelyCloseSearch(cfg: Config, s: State, status: SearchStatus, queries: seq<string>, sources: seq<Citation>)
    requires Lively(cfg, s)
    ensures Lively(cfg, CloseSearch(s, status, queries, sources))
  {
    if s.search.Some? {
      var w, s' := s.search.value, CloseSearch(s, status, queries, sources);
      LedgerDone(cfg, LedgerOf(s), w.index, s'.finished[|s.finished|]);
      assert MainOpen(s') + SearchOpen(s') == LedgerOf(s).open - {w.id};
    }
  }

  // ---- Items that open and finish at once ----

  lemma LivelyEnvelopeItem(cfg: Config, s: State, e: Envelope)
    requires Lively(cfg, s)
    ensures Lively(cfg, EnvelopeItem(s, e))
  {
    var l, s' := LedgerOf(s), EnvelopeItem(s, e);
    var f := Added(s.outputIndex, s.nextId);
    LedgerAdd(cfg, l, f);
    var l1 := Ledger(l.frames + [f], l.nextId + 1, l.open[s.nextId := Some([])], l.finished);
    LedgerDone(cfg, l1, s.outputIndex, s'.finished[|s.finished|]);
    assert l1.open - {s.nextId} == l.open;
  }

  lemma LivelyFlushEnvelope(cfg: Config, s: State)
    requires Lively(cfg, s)
    ensures Lively(cfg, FlushHiddenEnvelope(s))
  {
    var dropped := s.(hiddenThinking := []);
    assert LedgerOf(dropped) == LedgerOf(s);
    if HasEnvelope(s) {
      assert LedgerOf(DropEnvelope(dropped)) == LedgerOf(s);
      LivelyEnvelopeItem(cfg, DropEnvelope(dropped), TakenEnvelope(s, s.hiddenThinking).value);
    }
  }

  lemma LivelyFlushRaw(cfg: Config, s: State)
    requires Lively(cfg, s)
    ensures Lively(cfg, FlushHiddenRaw(s))
  {
    if s.hiddenRaw != [] {
      assert LedgerOf(s.(hiddenRaw := [])) == LedgerOf(s);
      LivelyEnvelopeItem(cfg, s.(hiddenRaw := []), Envelope([], [], s.hiddenRaw, []));
    }
  }

  lemma LivelyFlushKiro(cfg: Config, s: State)
    requires Lively(cfg, s)
    ensures Lively(cfg, FlushKiro(s))
  {
    if s.kiro != [] {
      assert LedgerOf(s.(kiro := [])) == LedgerOf(s);
      LivelyEnvelopeItem(cfg, s.(kiro := []), Envelope([], [], [], s.kiro));
    }
  }

  // ---- Opening ----

  lemma LivelyOpenMain(cfg: Config, s: State, s': State, extra: seq<Frame>)
    requires Lively(cfg, s) && MainOpen(s) == map[]
    requires s'.frames == s.frames + [Added(s.outputIndex, s.nextId)] + extra
    requires |extra| <= 1 && forall f :: f in extra ==> f.PartAdded? && f.id == s.nextId
    requires AtMostOneOpen(s') && s'.call.None? && MainOpen(s') == map[s.nextId := Some([])]
    requires s'.search == s.search && s'.nextId == s.nextId + 1 && s'.finished == s.finished
    ensures Lively(cfg, s')
  {
    var l, f := LedgerOf(s), Added(s.outputIndex, s.nextId);
    LedgerAdd(cfg, l, f);
    var l1 := Ledger(l.frames + [f], l.nextId + 1, l.open[s.nextId := Some([])], l.finished);
    assert LedgerOf(s').open == l1.open;
    assert s.nextId in l1.open && l1.open[s.nextId] == Some([]);
    if extra == [] {
      assert s'.frames == l1.frames;
    } else {
      assert extra[0] in extra;
      LedgerFeed(cfg, l1, extra[0], s.nextId, []);
      assert l1.open[s.nextId := Some([])] == l1.open;
      assert s'.frames == l1.frames + [extra[0]];
    }
  }

  lemma LivelyOpenSearch(cfg: Config, s: State, eventId: string)
    requires Lively(cfg, s) && s.search.None?
    ensures Lively(cfg, OpenSearchItem(s, eventId))
  {
    var l, s' := LedgerOf(s), OpenSearchItem(s, eventId);
    LedgerAdd(cfg, l, Added(s.outputIndex, s.nextId));
    assert LedgerOf(s').open == l.open[s.nextId := Some([])];
  }

  lemma LivelyOpenCall(cfg: Config, s: State, callId: string, name: string)
    requires Lively(cfg, s) && MainOpen(s) == map[] && s.call.None?
    requires s.msg.None? && s.summary.None? && s.raw.None?
    ensures Lively(cfg, OpenCallItem(cfg, s, callId, name))
  {
    var l, s' := LedgerOf(s), OpenCallItem(cfg, s, callId, name);
    assert Freeform.Shown([]) == [];
    if IsToolSearch(cfg, name) {
      LedgerReserve(cfg, l);
      assert LedgerOf(s').open == l.open[s.nextId := None];
    } else {
      LedgerAdd(cfg, l, Added(s.outputIndex, s.nextId));
      assert LedgerOf(s').open == l.open[s.nextId := Some([])];
    }
  }

  // ---- Appending ----

  /** A delta for the main open item. */
  lemma LivelyFeed(cfg: Config, s: State, s': State, id: nat, f: Frame)
    requires Lively(cfg, s) && MainOpen(s).Keys == {id} && MainOpen(s)[id].Some?
    requires f.Delta? && f.id == id && s'.frames == s.frames + [f]
    requires AtMostOneOpen(s') && CallOk(cfg, s') && s'.search == s.search
    requires MainOpen(s') == map[id := Some(MainOpen(s)[id].value + f.delta)]
    requires s'.nextId == s.nextId && s'.finished == s.finished
    ensures Lively(cfg, s')
  {
    LedgerFeed(cfg, LedgerOf(s), f, id, MainOpen(s)[id].value + f.delta);
    assert LedgerOf(s').open == LedgerOf(s).open[id := Some(MainOpen(s)[id].value + f.delta)];
  }

  lemma LivelyAppendMessage(cfg: Config, s: State, text: Text)
    requires Lively(cfg, s) && s.msg.Some?
    ensures Lively(cfg, AppendMessage(s, text))
  {
    var m := s.msg.value;
    LivelyFeed(cfg, s, AppendMessage(s, text), m.id, Delta(m.index, m.id, OutputText, text));
  }

  lemma LivelyAppendSummary(cfg: Config, s: State, text: Text)
    requires Lively(cfg, s) && s.msg.None? && s.raw.None? && s.call.None?
    ensures Lively(cfg, AppendSummary(s, text))
  {
    if s.summary.None? {
      LivelyOpenMain(cfg, s, OpenSummaryItem(s), [PartAdded(s.outputIndex, s.nextId, SummaryText)]);
    }
    var o := if s.summary.None? then OpenSummaryItem(s) else s;
    var r := o.summary.value;
    LivelyFeed(cfg, o, AppendSummary(s, text), r.id, Delta(r.index, r.id, SummaryText, text));
  }

  lemma LivelyAppendRaw(cfg: Config, s: State, text: Text)
    requires Lively(cfg, s) && s.msg.None? && s.summary.None? && s.call.None?
    ensures Lively(cfg, AppendRaw(s, text))
  {
    if s.raw.None? {
      LivelyOpenMain(cfg, s, OpenRawItem(s), []);
    }
    var o := if s.raw.None? then OpenRawItem(s) else s;
    var r := o.raw.value;
    LivelyFeed(cfg, o, AppendRaw(s, text), r.id, Delta(r.index, r.id, RawText, text));
  }

  /** One argument delta; for a freeform call the frames keep spelling exactly what should be shown. */
  lemma LivelyCallDelta(cfg: Config, s: State, delta: Text)
    requires Lively(cfg, s)
    ensures Lively(cfg, OnCallDelta(s, delta))
  {
    if s.call.Some? {
      var c, s' := s.call.value, OnCallDelta(s, delta);
      if c.toolSearch {
        ConcatSnoc(c.argumentDeltas, delta);
        assert LedgerOf(s') == LedgerOf(s);
      } else if !c.freeform {
        LivelyFeed(cfg, s, s', c.id, Delta(c.index, c.id, CallArguments, delta));
      } else {
        LivelyFreeformDelta(cfg, s, delta);
      }
    }
  }

  lemma LivelyFreeformDelta(cfg: Config, s: State, delta: Text)
    requires Lively(cfg, s) && s.call.Some? && s.call.value.freeform
    ensures Lively(cfg, OnCallDelta(s, delta))
  {
    var c := s.call.value;
    Freeform.DueIsShown(c.args, delta);
    var due := Freeform.Due(c.args + delta, c.inputEmitted);
    if due == c.inputEmitted {
      assert LedgerOf(OnCallDelta(s, delta)) == LedgerOf(s);
    } else {
      var f := Delta(c.index, c.id, CallInput, due[|c.inputEmitted|..]);
      FreeformDeltaSends(s, delta, f);
      LivelyFeed(cfg, s, OnCallDelta(s, delta), c.id, f);
    }
  }

  lemma FreeformDeltaSends(s: State, delta: Text, f: Frame)
    requires AtMostOneOpen(s) && s.call.Some? && s.call.value.freeform && !s.call.value.toolSearch
    requires var c := s.call.value;
      var due := Freeform.Due(c.args + delta, c.inputEmitted);
      due != c.inputEmitted && f == Delta(c.index, c.id, CallInput, due[|c.inputEmitted|..])
    ensures var s' := OnCallDelta(s, delta);
      && s'.frames == s.frames + [f] && AtMostOneOpen(s')
      && MainOpen(s') == map[s.call.value.id := Some(s.call.value.inputEmitted + f.delta)]
  {
    var c := s.call.value;
    var due := Freeform.Due(c.args + delta, c.inputEmitted);
    assert c.inputEmitted + due[|c.inputEmitted|..] == due;
  }

  lemma LivelyEnd(cfg: Config, s: State, o: Outcome)
    requires Lively(cfg, s)
    ensures Lively(cfg, EndWith(s, o))
  {
    LedgerOther(cfg, LedgerOf(s), Terminal(o, s.finished));
  }

  // ---- One event ----

  predicate MainClosed(s: State) {
    s.msg.None? && s.summary.None? && s.raw.None? && s.call.None?
  }

  /** Message, summary and raw reasoning close, with the hidden flush the switch puts between them. */
  lemma LivelyCloseText(cfg: Config, s: State, inferred: Option<Phase>)
    requires Lively(cfg, s)
    ensures Lively(cfg, FlushHiddenRaw(CloseRaw(CloseSummary(CloseMessage(s, inferred)))))
    ensures Lively(cfg, FlushHiddenRaw(CloseRaw(FlushHiddenEnvelope(CloseSummary(CloseMessage(s, inferred))))))
  {
    LivelyCloseMessage(cfg, s, inferred);
    LivelyCloseSummary(cfg, CloseMessage(s, inferred));
    var s2 := CloseSummary(CloseMessage(s, inferred));
    LivelyCloseRaw(cfg, s2);
    LivelyFlushRaw(cfg, CloseRaw(s2));
    LivelyFlushEnvelope(cfg, s2);
    LivelyCloseRaw(cfg, FlushHiddenEnvelope(s2));
    LivelyFlushRaw(cfg, CloseRaw(FlushHiddenEnvelope(s2)));
  }

  lemma LivelyText(cfg: Config, s: State, text: Text, phase: Option<Phase>)
    requires Lively(cfg, s)
    ensures Lively(cfg, OnText(cfg, s, text, phase))
  {
    LivelyCloseSummary(cfg, s);
    LivelyFlushEnvelope(cfg, CloseSummary(s));
    var s1 := FlushHiddenEnvelope(CloseSummary(s));
    LivelyCloseRaw(cfg, s1);
    LivelyFlushRaw(cfg, CloseRaw(s1));
    var s2 := FlushHiddenRaw(CloseRaw(s1));
    LivelyCloseCall(cfg, s2);
    var s3 := CloseBeforeText(cfg, s);
    assert s3 == CloseCall(cfg, s2);
    LivelyCloseMessage(cfg, s3, Some(Commentary));
    LivelySay(cfg, if PhaseChanges(s3, phase) then CloseMessage(s3, Some(Commentary)) else s3, text, phase);
  }

  lemma LivelySay(cfg: Config, s: State, text: Text, phase: Option<Phase>)
    requires Lively(cfg, s) && s.summary.None? && s.raw.None? && s.call.None?
    ensures Lively(cfg, AppendMessage(if s.msg.None? then OpenMessageItem(s, phase) else s, text))
  {
    if s.msg.None? {
      LivelyOpenMain(cfg, s, OpenMessageItem(s, phase), [PartAdded(s.outputIndex, s.nextId, OutputText)]);
    }
    LivelyAppendMessage(cfg, if s.msg.None? then OpenMessageItem(s, phase) else s, text);
  }

  lemma LivelyThinking(cfg: Config, s: State, thinking: Text)
    requires Lively(cfg, s)
    ensures Lively(cfg, OnThinking(cfg, s, thinking))
  {
    if cfg.hideThinking {
      LivelyFlushRaw(cfg, s);
      assert LedgerOf(OnThinking(cfg, s, thinking)) == LedgerOf(FlushHiddenRaw(s));
    } else {
      LivelyCloseMessage(cfg, s, Some(Commentary));
      var s1 := CloseMessage(s, Some(Commentary));
      LivelyCloseRaw(cfg, s1);
      LivelyFlushRaw(cfg, CloseRaw(s1));
      var s2 := FlushHiddenRaw(CloseRaw(s1));
      LivelyCloseCall(cfg, s2);
      LivelyAppendSummary(cfg, CloseCall(cfg, s2), thinking);
    }
  }

  lemma LivelySignature(cfg: Config, s: State, signature: Text)
    requires Lively(cfg, s)
    ensures Lively(cfg, OnSignature(s, signature))
  {
    var s1 := s.(signature := signature);
    assert LedgerOf(s1) == LedgerOf(s);
    LivelyCloseSummary(cfg, s1);
    LivelyFlushEnvelope(cfg, s1);
  }

  lemma LivelyRawReasoning(cfg: Config, s: State, text: Text, asSummary: bool)
    requires Lively(cfg, s)
    ensures Lively(cfg, OnRawReasoning(cfg, s, text, asSummary))
  {
    if cfg.hideThinking {
      assert LedgerOf(OnRawReasoning(cfg, s, text, asSummary)) == LedgerOf(s);
    } else {
      LivelyCloseMessage(cfg, s, Some(Commentary));
      LivelyCloseCall(cfg, CloseMessage(s, Some(Commentary)));
      var s1 := CloseCall(cfg, CloseMessage(s, Some(Commentary)));
      if asSummary {
        LivelyCloseRaw(cfg, s1);
        LivelyAppendSummary(cfg, CloseRaw(s1), text);
      } else {
        LivelyCloseSummary(cfg, s1);
        LivelyAppendRaw(cfg, CloseSummary(s1), text);
      }
    }
  }

  lemma LivelyBoundary(cfg: Config, s: State)
    requires Lively(cfg, s)
    ensures Lively(cfg, OnBoundary(cfg, s))
  {
    LivelyCloseText(cfg, s, Some(Commentary));
    var s1 := FlushHiddenRaw(CloseRaw(CloseSummary(CloseMessage(s, Some(Commentary)))));
    LivelyCloseCall(cfg, s1);
    LivelyFlushEnvelope(cfg, CloseCall(cfg, s1));
  }

  lemma LivelyCallStart(cfg: Config, s: State, callId: string, name: string)
    requires Lively(cfg, s)
    ensures Lively(cfg, OnCallStart(cfg, s, callId, name))
  {
    LivelyCloseText(cfg, s, Some(Commentary));
    var s1 := FlushHiddenRaw(CloseRaw(FlushHiddenEnvelope(CloseSummary(CloseMessage(s, Some(Commentary))))));
    LivelyCloseCall(cfg, s1);
    ClosedForCall(cfg, s);
    LivelyOpenCall(cfg, CloseCall(cfg, s1), callId, name);
  }

  lemma ClosedForCall(cfg: Config, s: State)
    ensures MainClosed(CloseCall(cfg, FlushHiddenRaw(CloseRaw(FlushHiddenEnvelope(CloseSummary(
              CloseMessage(s, Some(Commentary))))))))
  {
  }

  lemma LivelyCallEnd(cfg: Config, s: State)
    requires Lively(cfg, s)
    ensures Lively(cfg, OnCallEnd(cfg, s))
    // Malformed arguments end the turn, and the only thing that may stay open is a search.
    ensures CallIsMalformed(cfg, s) ==> MainClosed(OnCallEnd(cfg, s)) && OnCallEnd(cfg, s).search == s.search
  {
    if CallIsMalformed(cfg, s) {
      LivelyFailCall(cfg, s);
      LivelyEnd(cfg, FailCall(cfg, s), MALFORMED);
    } else {
      LivelyCloseCall(cfg, s);
    }
  }

  lemma LivelySearchBegin(cfg: Config, s: State, eventId: string)
    requires Lively(cfg, s)
    ensures Lively(cfg, OnSearchBegin(cfg, s, eventId))
  {
    LivelyCloseText(cfg, s, Some(Commentary));
    var s1 := FlushHiddenRaw(CloseRaw(CloseSummary(CloseMessage(s, Some(Commentary)))));
    LivelyCloseCall(cfg, s1);
    LivelyCloseSearch(cfg, CloseCall(cfg, s1), SearchCompleted, [], []);
    LivelyOpenSearch(cfg, CloseSearch(CloseCall(cfg, s1), SearchCompleted, [], []), eventId);
  }

  lemma LivelyEnsureSearch(cfg: Config, s: State, eventId: string)
    requires Lively(cfg, s)
    ensures Lively(cfg, EnsureSearch(s, eventId))
  {
    LivelyCloseSearch(cfg, s, SearchCompleted, [], []);
    if EnsureSearch(s, eventId) != s {
      LivelyOpenSearch(cfg, CloseSearch(s, SearchCompleted, [], []), eventId);
    }
  }

  lemma LivelySearchEnd(cfg: Config, s: State, e: Event)
    requires Lively(cfg, s) && e.WebSearchEnd?
    ensures Lively(cfg, OnSearchEnd(s, e))
  {
    LivelyEnsureSearch(cfg, s, e.id);
    var s1 := EnsureSearch(s, e.id);
    var status := if e.searchStatus.Some? then e.searchStatus.value else SearchCompleted;
    LivelyCloseSearch(cfg, s1, status, e.queries, OrNothing(e.sources));
    assert LedgerOf(OnSearchEnd(s, e)) == LedgerOf(CloseSearch(s1, status, e.queries, OrNothing(e.sources)));
  }

  lemma LivelyAbandon(cfg: Config, s: State)
    requires Lively(cfg, s)
    ensures Lively(cfg, Abandon(cfg, s))
  {
    LivelyCloseText(cfg, s, None);
    var s1 := FlushHiddenRaw(CloseRaw(CloseSummary(CloseMessage(s, None))));
    LivelyFailCall(cfg, s1);
    LivelyCloseSearch(cfg, FailCall(cfg, s1), SearchFailed, [], []);
  }

  lemma LivelyCloseOut(cfg: Config, s: State, inferred: Option<Phase>)
    requires Lively(cfg, s)
    ensures Lively(cfg, CloseOut(cfg, s, inferred))
  {
    LivelyCloseText(cfg, s, inferred);
    var s1 := FlushHiddenRaw(CloseRaw(CloseSummary(CloseMessage(s, inferred))));
    LivelyCloseCall(cfg, s1);
    var s2 := CloseSearch(CloseCall(cfg, s1), SearchCompleted, [], []);
    LivelyCloseSearch(cfg, CloseCall(cfg, s1), SearchCompleted, [], []);
    LivelyFlushEnvelope(cfg, s2);
    LivelyFlushKiro(cfg, FlushHiddenEnvelope(s2));
    assert CloseOut(cfg, s, inferred) == FlushKiro(FlushHiddenEnvelope(s2));
  }

  /** Neither a normal nor an abnormal end leaves anything open. */
  lemma EndsCloseEverything(cfg: Config, s: State, inferred: Option<Phase>)
    ensures AllClosed(CloseOut(cfg, s, inferred)) && AllClosed(Abandon(cfg, s))
  {
  }

  predicate AllClosed(s: State) {
    MainClosed(s) && s.search.None?
  }

  lemma LivelyDone(cfg: Config, s: State, e: Event)
    requires Lively(cfg, s) && !cfg.compaction && e.Done?
    ensures Lively(cfg, OnDone(cfg, s, e)) && AllClosed(OnDone(cfg, s, e))
  {
    var inferred := if e.stopReason.None? || e.stopReason == Some("") then Some(FinalAnswer) else None;
    EndsCloseEverything(cfg, s, inferred);
    LivelyCloseOut(cfg, s, inferred);
    LivelyEnd(cfg, CloseOut(cfg, s, inferred), DoneOutcome(e));
  }

  lemma LivelyIncomplete(cfg: Config, s: State, e: Event)
    requires Lively(cfg, s) && e.Incomplete?
    ensures Lively(cfg, OnIncomplete(cfg, s, e)) && AllClosed(OnIncomplete(cfg, s, e))
  {
    EndsCloseEverything(cfg, s, None);
    LivelyAbandon(cfg, s);
    LivelyFlushEnvelope(cfg, Abandon(cfg, s));
    LivelyEnd(cfg, FlushHiddenEnvelope(Abandon(cfg, s)), IncompleteOutcome(e));
  }

  lemma LivelyTerminal(cfg: Config, s: State, e: Event)
    requires Lively(cfg, s) && !cfg.compaction && IsTerminal(e) && !IsLimitError(e)
    ensures Lively(cfg, StepTerminal(cfg, s, e)) && AllClosed(StepTerminal(cfg, s, e))
  {
    match e
    case Done(_, _) => LivelyDone(cfg, s, e);
    case Incomplete(_, _, _, _) => LivelyIncomplete(cfg, s, e);
    case Error(_, _, _, _, _) =>
      EndsCloseEverything(cfg, s, None);
      LivelyAbandon(cfg, s);
      LivelyEnd(cfg, Abandon(cfg, s), ErrorOutcome(e));
  }

  lemma LivelyToolEvent(cfg: Config, s: State, e: Event)
    requires Lively(cfg, s) && IsToolEvent(e)
    ensures Lively(cfg, StepTool(cfg, s, e))
  {
    match e
    case ToolCallStart(id, name) => LivelyCallStart(cfg, s, id, name);
    case ToolCallDelta(arguments) => LivelyCallDelta(cfg, s, arguments);
    case ToolCallEnd => LivelyCallEnd(cfg, s);
    case WebSearchBegin(id) => LivelySearchBegin(cfg, s, id);
    case WebSearchEnd(_, _, _, _) => LivelySearchEnd(cfg, s, e);
  }

  lemma LivelyContentEvent(cfg: Config, s: State, e: Event)
    requires Lively(cfg, s) && !IsTerminal(e) && !IsToolEvent(e)
    ensures Lively(cfg, StepContent(cfg, s, e))
  {
    match e
    case Heartbeat =>
    case TextDelta(text, phase) => LivelyText(cfg, s, text, phase);
    case ThinkingDelta(thinking) => LivelyThinking(cfg, s, thinking);
    case ThinkingSignature(signature) => LivelySignature(cfg, s, signature);
    case RedactedThinking(data) => assert LedgerOf(StepContent(cfg, s, e)) == LedgerOf(s);
    case KiroRedactedReasoning(data) => assert LedgerOf(StepContent(cfg, s, e)) == LedgerOf(s);
    case ReasoningRawDelta(text, asSummary) => LivelyRawReasoning(cfg, s, text, asSummary);
    case AssistantBoundary => LivelyBoundary(cfg, s);
  }

  // ---- Whole turns ----

  /** No compaction and no translation overflow. */
  ghost predicate Ordinary(cfg: Config, events: seq<Event>) {
    !cfg.compaction && forall e :: e in events ==> !IsLimitError(e)
  }

  /** When the terminal frame goes out nothing is open, but for a search cut off by malformed arguments. */
  predicate CleanEnd(s: State) {
    s.outcome.Some? ==> AllClosed(s) || (s.outcome.value == MALFORMED && MainClosed(s))
  }

  lemma LivelyStep(cfg: Config, s: State, e: Event)
    requires Lively(cfg, s) && s.outcome.None? && !cfg.compaction && !IsLimitError(e)
    ensures Lively(cfg, Step(cfg, s, e)) && CleanEnd(Step(cfg, s, e))
  {
    if IsTerminal(e) {
      LivelyTerminal(cfg, s, e);
      assert Step(cfg, s, e) == StepTerminal(cfg, s, e);
    } else if IsToolEvent(e) {
      LivelyToolEvent(cfg, s, e);
      assert Step(cfg, s, e) == StepTool(cfg, s, e);
      OnlyMalformedEnds(cfg, s, e);
    } else {
      LivelyContentEvent(cfg, s, e);
      assert Step(cfg, s, e) == StepContent(cfg, s, e);
      ContentNeverEnds(cfg, s, e);
    }
  }

  lemma OnlyMalformedEnds(cfg: Config, s: State, e: Event)
    requires Lively(cfg, s) && s.outcome.None? && IsToolEvent(e)
    ensures StepTool(cfg, s, e).outcome.None? || (e.ToolCallEnd? && CallIsMalformed(cfg, s))
    ensures StepTool(cfg, s, e).outcome.Some? ==> CleanEnd(StepTool(cfg, s, e))
  {
    if e.ToolCallEnd? {
      LivelyCallEnd(cfg, s);
    }
  }

  lemma ContentNeverEnds(cfg: Config, s: State, e: Event)
    requires s.outcome.None? && !IsTerminal(e) && !IsToolEvent(e)
    ensures StepContent(cfg, s, e).outcome.None?
  {
  }

  lemma {:induction false} LivelyReachable(cfg: Config, s: State, events: seq<Event>, k: nat)
    requires Lively(cfg, s) && CleanEnd(s) && Ordinary(cfg, events) && k <= |events|
    ensures Lively(cfg, Steps(cfg, s, events[..k])) && CleanEnd(Steps(cfg, s, events[..k]))
    decreases k
  {
    if k > 0 && s.outcome.None? {
      LivelyStep(cfg, s, events[0]);
      assert events[..k][1..] == events[1..][..k - 1];
      LivelyReachable(cfg, Step(cfg, s, events[0]), events[1..], k - 1);
    }
  }

  lemma StartIsLively(cfg: Config)
    ensures Lively(cfg, START)
  {
    forall x: nat ensures Accounted(cfg, LedgerOf(START), x) {
      LifeAppend([], Created, x);
      assert [] + [Created] == [Created];
    }
  }

  /** Every reachable state accounts for every item, and the end of the turn leaves none behind. */
  lemma ItemsLiveProperly(cfg: Config, events: seq<Event>, k: nat)
    requires Ordinary(cfg, events) && k <= |events|
    ensures Lively(cfg, Steps(cfg, START, events[..k]))
    ensures Lively(cfg, Run(cfg, events)) && CleanEnd(Run(cfg, events))
  {
    StartIsLively(cfg);
    LivelyReachable(cfg, START, events, k);
    assert events[..|events|] == events;
    LivelyReachable(cfg, START, events, |events|);
    var last := Steps(cfg, START, events);
    if last.outcome.None? {
      LivelyAbandon(cfg, last);
      EndsCloseEverything(cfg, last, None);
      LivelyEnd(cfg, Abandon(cfg, last), ADAPTER_EOF);
    }
  }

  lemma RunEnds(cfg: Config, events: seq<Event>)
    ensures Run(cfg, events).outcome.Some?
  {
  }
}
