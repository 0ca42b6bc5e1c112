/**
 What the reasoning items of a turn carry, in visible and in hidden mode: read off the list of events alone, they
 are the thinking, the raw reasoning, the signatures and the deferred blocks since the item before, in order.
 */
module Reasonings {
  import opened Text
  import opened Responses
  import opened Translator
  import R = Refinement

  // ---- Reading the events ----

  /** The events behind the last one that ends a stretch. */
  function Since(ends: Event -> bool, es: seq<Event>): seq<Event> {
    if es == [] then []
    else if ends(es[|es| - 1]) then []
    else Since(ends, es[..|es| - 1]) + [es[|es| - 1]]
  }

  function ThinkingOf(e: Event): Text {
    if e.ThinkingDelta? then e.thinking else []
  }

  function RawOf(e: Event): Text {
    if e.ReasoningRawDelta? then e.text else []
  }

  /** Shown as a summary: thinking, and raw reasoning that asks for it. */
  predicate IsShown(e: Event) {
    e.ThinkingDelta? || (e.ReasoningRawDelta? && e.asSummary)
  }

  predicate IsRaw(e: Event) {
    e.ReasoningRawDelta? && !e.asSummary
  }

  function ShownOf(e: Event): Text {
    if IsShown(e) then ThinkingOf(e) + RawOf(e) else []
  }

  function UnshownOf(e: Event): Text {
    if IsRaw(e) then e.text else []
  }

  /** The concatenation of what each event contributes. */
  function Told(part: Event -> Text, es: seq<Event>): Text {
    if es == [] then [] else Told(part, es[..|es| - 1]) + part(es[|es| - 1])
  }

  function RedactedOf(e: Event): seq<Text> {
    if e.RedactedThinking? then [e.data] else []
  }

  function LastKiro(es: seq<Event>): Text {
    if es == [] then []
    else if es[|es| - 1].KiroRedactedReasoning? then es[|es| - 1].data
    else LastKiro(es[..|es| - 1])
  }

  // ---- Where a stretch ends ----

  /** What was thought goes out, or is forgotten if it was not signed. */
  predicate EndsThought(e: Event) {
    e.TextDelta? || e.ThinkingSignature? || e.AssistantBoundary? || e.ToolCallStart? || e.Done? || e.Incomplete?
  }

  predicate EndsSaid(e: Event) {
    e.TextDelta? || e.ThinkingDelta? || e.AssistantBoundary? || e.ToolCallStart? || e.WebSearchBegin? || IsTerminal(e)
  }

  predicate EndsShown(e: Event) {
    || e.TextDelta? || e.ThinkingSignature? || IsRaw(e) || e.AssistantBoundary? || e.ToolCallStart?
    || e.WebSearchBegin? || IsTerminal(e)
  }

  predicate EndsRaw(e: Event) {
    || e.TextDelta? || IsShown(e) || e.AssistantBoundary? || e.ToolCallStart? || e.WebSearchBegin? || IsTerminal(e)
  }

  // ---- What is waiting to be told ----

  /** The hidden thinking and the hidden raw reasoning. */
  function Thought(cfg: Config, es: seq<Event>): Text {
    if cfg.hideThinking then Told(ThinkingOf, Since(EndsThought, es)) else []
  }

  function Said(cfg: Config, es: seq<Event>): Text {
    if cfg.hideThinking then Told(RawOf, Since(EndsSaid, es)) else []
  }

  /** What the events that matter tell, if there is one. */
  function Spoken(matters: Event -> bool, part: Event -> Text, es: seq<Event>): Option<Text> {
    if exists e :: e in es && matters(e) then Some(Told(part, es)) else None
  }

  /** The summary and the raw reasoning that the client is watching. */
  function Shown(cfg: Config, es: seq<Event>): Option<Text> {
    if cfg.hideThinking then None else Spoken(IsShown, ShownOf, Since(EndsShown, es))
  }

  function Raw(cfg: Config, es: seq<Event>): Option<Text> {
    if cfg.hideThinking then None else Spoken(IsRaw, UnshownOf, Since(EndsRaw, es))
  }

  /** The redacted blocks that no item carries yet: a visible summary takes them too. */
  function Untaken(cfg: Config, es: seq<Event>): seq<Text> {
    if es == [] then []
    else
      var (front, e) := (es[..|es| - 1], es[|es| - 1]);
      if EndsThought(e) || (EndsShown(e) && Shown(cfg, front).Some?) then []
      else Untaken(cfg, front) + RedactedOf(e)
  }

  /** What is waiting, and the reasoning items that have gone out. */
  datatype Registers = Registers(
    items: seq<ItemBody>, signature: Text, redacted: seq<Text>, thinking: Text, said: Text, kiro: Text,
    shown: Option<Text>, raw: Option<Text>)

  function Waiting(cfg: Config, es: seq<Event>): Registers {
    Registers([], [], Untaken(cfg, es), Thought(cfg, es), Said(cfg, es), LastKiro(es), Shown(cfg, es), Raw(cfg, es))
  }

  // ---- The items ----

  function EnvelopeOf(sig: Text, red: seq<Text>): Option<Envelope> {
    if sig == [] && red == [] then None else Some(Envelope(sig, red, [], []))
  }

  /** The summary, signed if a signature or redacted blocks came with it. */
  function SummaryItem(w: Registers, sig: Text): seq<ItemBody> {
    if w.shown.None? then [] else [Reasoning(w.shown, None, EnvelopeOf(sig, w.redacted))]
  }

  /** Without a summary the signature and the blocks get an item of their own, with the hidden thinking. */
  function SignedItem(w: Registers, sig: Text): seq<ItemBody> {
    if w.shown.Some? || (sig == [] && w.redacted == []) then []
    else [Reasoning(None, None, Some(Envelope(sig, w.redacted, w.thinking, [])))]
  }

  function RawItem(w: Registers): seq<ItemBody> {
    if w.raw.None? then [] else [Reasoning(None, w.raw, None)]
  }

  function HiddenRawItem(w: Registers): seq<ItemBody> {
    if w.said == [] then [] else [Reasoning(None, None, Some(Envelope([], [], w.said, [])))]
  }

  function KiroItem(w: Registers): seq<ItemBody> {
    if w.kiro == [] then [] else [Reasoning(None, None, Some(Envelope([], [], [], w.kiro)))]
  }

  /** What an abnormal end, or the start of a search, makes of what is waiting. */
  function TextItems(w: Registers): seq<ItemBody> {
    SummaryItem(w, []) + RawItem(w) + HiddenRawItem(w)
  }

  /** The items that go out when `e` comes while `w` is waiting. */
  function ItemsAt(w: Registers, e: Event): seq<ItemBody> {
    match e
    case TextDelta(_, _) => SummaryItem(w, []) + SignedItem(w, []) + RawItem(w) + HiddenRawItem(w)
    case ToolCallStart(_, _) => SummaryItem(w, []) + SignedItem(w, []) + RawItem(w) + HiddenRawItem(w)
    case ThinkingDelta(_) => RawItem(w) + HiddenRawItem(w)
    case ThinkingSignature(signature) => SummaryItem(w, signature) + SignedItem(w, signature)
    case ReasoningRawDelta(_, asSummary) => if asSummary then RawItem(w) else SummaryItem(w, [])
    case AssistantBoundary => TextItems(w) + SignedItem(w, [])
    case WebSearchBegin(_) => TextItems(w)
    case Done(_, _) => TextItems(w) + SignedItem(w, []) + KiroItem(w)
    case Incomplete(_, _, _, _) => TextItems(w) + SignedItem(w, [])
    case Error(_, _, _, _, _) => if IsLimitError(e) then [] else TextItems(w)
    case _ => []
  }

  /** All reasoning items that a list of events makes. */
  function Items(cfg: Config, es: seq<Event>): seq<ItemBody> {
    if es == [] then [] else Items(cfg, es[..|es| - 1]) + ItemsAt(Waiting(cfg, es[..|es| - 1]), es[|es| - 1])
  }

  /** The reasoning items among the finished ones. */
  function ReasoningBodies(items: seq<Item>): seq<ItemBody> {
    if items == [] then []
    else
      var body := items[|items| - 1].body;
      ReasoningBodies(items[..|items| - 1]) + (if body.Reasoning? then [body] else [])
  }

  lemma BodiesSnoc(items: seq<Item>, item: Item)
    ensures ReasoningBodies(items + [item]) == ReasoningBodies(items) + (if item.body.Reasoning? then [item.body] else [])
  {
    assert (items + [item])[..|items|] == items;
  }

  // ---- The registers of the bridge that matter ----

  function TextOf(r: Option<OpenReasoning>): Option<Text> {
    if r.None? then None else Some(r.value.text)
  }

  function RegistersOf(s: State): Registers {
    Registers(ReasoningBodies(s.finished), s.signature, s.redacted, s.hiddenThinking, s.hiddenRaw, s.kiro,
              TextOf(s.summary), TextOf(s.raw))
  }

  function Memory(cfg: Config, es: seq<Event>): Registers {
    Waiting(cfg, es).(items := Items(cfg, es))
  }

  function SummaryOut(r: Registers): Registers {
    if r.shown.None? then r
    else r.(items := r.items + [Reasoning(r.shown, None, EnvelopeOf(r.signature, r.redacted))],
            signature := [], redacted := [], shown := None)
  }

  function SignedOut(r: Registers): Registers {
    if r.signature == [] && r.redacted == [] then r.(thinking := [])
    else r.(items := r.items + [Reasoning(None, None, Some(Envelope(r.signature, r.redacted, r.thinking, [])))],
            signature := [], redacted := [], thinking := [])
  }

  function RawOut(r: Registers): Registers {
    if r.raw.None? then r else r.(items := r.items + [Reasoning(None, r.raw, None)], raw := None)
  }

  function SaidOut(r: Registers): Registers {
    if r.said == [] then r
    else r.(items := r.items + [Reasoning(None, None, Some(Envelope([], [], r.said, [])))], said := [])
  }

  function KiroOut(r: Registers): Registers {
    if r.kiro == [] then r
    else r.(items := r.items + [Reasoning(None, None, Some(Envelope([], [], [], r.kiro)))], kiro := [])
  }

  lemma MessageRegisters(s: State, inferred: Option<Phase>)
    ensures RegistersOf(CloseMessage(s, inferred)) == RegistersOf(s)
  {
    if s.msg.Some? { BodiesSnoc(s.finished, CloseMessage(s, inferred).finished[|s.finished|]); }
  }

  lemma SummaryRegisters(s: State)
    ensures RegistersOf(CloseSummary(s)) == SummaryOut(RegistersOf(s))
  {
    if s.summary.Some? { BodiesSnoc(s.finished, CloseSummary(s).finished[|s.finished|]); }
  }

  lemma RawRegisters(s: State)
    ensures RegistersOf(CloseRaw(s)) == RawOut(RegistersOf(s))
  {
    if s.raw.Some? { BodiesSnoc(s.finished, CloseRaw(s).finished[|s.finished|]); }
  }

  lemma CallClosedRegisters(cfg: Config, s: State)
    ensures RegistersOf(CloseCall(cfg, s)) == RegistersOf(s)
  {
    if s.call.Some? { BodiesSnoc(s.finished, CloseCall(cfg, s).finished[|s.finished|]); }
  }

  lemma CallFailedRegisters(cfg: Config, s: State)
    ensures RegistersOf(FailCall(cfg, s)) == RegistersOf(s)
  {
    if s.call.Some? { BodiesSnoc(s.finished, FailCall(cfg, s).finished[|s.finished|]); }
  }

  lemma CallRegisters(cfg: Config, s: State)
    ensures RegistersOf(CloseCall(cfg, s)) == RegistersOf(s) == RegistersOf(FailCall(cfg, s))
  {
    CallClosedRegisters(cfg, s);
    CallFailedRegisters(cfg, s);
  }

  lemma SearchRegisters(s: State, status: SearchStatus, queries: seq<string>, sources: seq<Citation>)
    ensures RegistersOf(CloseSearch(s, status, queries, sources)) == RegistersOf(s)
  {
    if s.search.Some? { BodiesSnoc(s.finished, CloseSearch(s, status, queries, sources).finished[|s.finished|]); }
  }

  lemma ItemRegisters(s: State, e: Envelope)
    ensures RegistersOf(EnvelopeItem(s, e))
         == RegistersOf(s).(items := RegistersOf(s).items + [Reasoning(None, None, Some(e))])
  {
    BodiesSnoc(s.finished, Item(s.nextId, Reasoning(None, None, Some(e))));
  }

  lemma SignedRegisters(s: State)
    ensures RegistersOf(FlushHiddenEnvelope(s)) == SignedOut(RegistersOf(s))
  {
    if HasEnvelope(s) {
      ItemRegisters(DropEnvelope(s.(hiddenThinking := [])), TakenEnvelope(s, s.hiddenThinking).value);
    }
  }

  lemma SaidRegisters(s: State)
    ensures RegistersOf(FlushHiddenRaw(s)) == SaidOut(RegistersOf(s))
  {
    if s.hiddenRaw != [] { ItemRegisters(s.(hiddenRaw := []), Envelope([], [], s.hiddenRaw, [])); }
  }

  lemma KiroRegisters(s: State)
    ensures RegistersOf(FlushKiro(s)) == KiroOut(RegistersOf(s))
  {
    if s.kiro != [] { ItemRegisters(s.(kiro := []), Envelope([], [], [], s.kiro)); }
  }

  // ---- What each handler does to them ----

  function TextOut(r: Registers): Registers {
    SaidOut(RawOut(SummaryOut(r)))
  }

  lemma CloseTextRegisters(s: State, inferred: Option<Phase>)
    ensures RegistersOf(FlushHiddenRaw(CloseRaw(CloseSummary(CloseMessage(s, inferred))))) == TextOut(RegistersOf(s))
  {
    MessageRegisters(s, inferred);
    SummaryRegisters(CloseMessage(s, inferred));
    RawRegisters(CloseSummary(CloseMessage(s, inferred)));
    SaidRegisters(CloseRaw(CloseSummary(CloseMessage(s, inferred))));
  }

  lemma TextRegisters(cfg: Config, s: State, text: Text, phase: Option<Phase>)
    ensures RegistersOf(OnText(cfg, s, text, phase)) == SaidOut(RawOut(SignedOut(SummaryOut(RegistersOf(s)))))
  {
    SettledRegisters(s);
    CallRegisters(cfg, FlushHiddenRaw(CloseRaw(FlushHiddenEnvelope(CloseSummary(s)))));
    SayRegisters(cfg, s, text, phase);
  }

  lemma SayRegisters(cfg: Config, s: State, text: Text, phase: Option<Phase>)
    ensures RegistersOf(OnText(cfg, s, text, phase)) == RegistersOf(CloseBeforeText(cfg, s))
  {
    MessageRegisters(CloseBeforeText(cfg, s), Some(Commentary));
  }

  lemma AppendSummaryRegisters(s: State, text: Text)
    ensures var r := RegistersOf(s);
            RegistersOf(AppendSummary(s, text)) == r.(shown := Some((if r.shown.Some? then r.shown.value else []) + text))
  {
  }

  lemma AppendRawRegisters(s: State, text: Text)
    ensures var r := RegistersOf(s);
            RegistersOf(AppendRaw(s, text)) == r.(raw := Some((if r.raw.Some? then r.raw.value else []) + text))
  {
  }

  lemma ThinkingRegisters(cfg: Config, s: State, thinking: Text)
    ensures RegistersOf(OnThinking(cfg, s, thinking)) ==
      if cfg.hideThinking
      then SaidOut(RegistersOf(s)).(thinking := s.hiddenThinking + thinking)
      else
        var r := SaidOut(RawOut(RegistersOf(s)));
        r.(shown := Some((if r.shown.Some? then r.shown.value else []) + thinking))
  {
    if cfg.hideThinking {
      SaidRegisters(s);
    } else {
      var s1 := CloseMessage(s, Some(Commentary));
      MessageRegisters(s, Some(Commentary));
      RawRegisters(s1);
      SaidRegisters(CloseRaw(s1));
      CallRegisters(cfg, FlushHiddenRaw(CloseRaw(s1)));
      AppendSummaryRegisters(CloseCall(cfg, FlushHiddenRaw(CloseRaw(s1))), thinking);
    }
  }

  lemma RawReasoningRegisters(cfg: Config, s: State, text: Text, asSummary: bool)
    requires !cfg.hideThinking
    ensures RegistersOf(OnRawReasoning(cfg, s, text, asSummary)) ==
      if asSummary then
        var r := RawOut(RegistersOf(s));
        r.(shown := Some((if r.shown.Some? then r.shown.value else []) + text))
      else
        var r := SummaryOut(RegistersOf(s));
        r.(raw := Some((if r.raw.Some? then r.raw.value else []) + text))
  {
    var s1 := CloseMessage(s, Some(Commentary));
    MessageRegisters(s, Some(Commentary));
    CallRegisters(cfg, s1);
    var s2 := CloseCall(cfg, s1);
    if asSummary {
      RawRegisters(s2);
      AppendSummaryRegisters(CloseRaw(s2), text);
    } else {
      SummaryRegisters(s2);
      AppendRawRegisters(CloseSummary(s2), text);
    }
  }

  lemma SignatureRegisters(s: State, signature: Text)
    ensures
      var r := RegistersOf(s).(signature := signature);
      RegistersOf(OnSignature(s, signature)) == if r.shown.Some? then SummaryOut(r) else SignedOut(r)
  {
    SummaryRegisters(s.(signature := signature));
    SignedRegisters(s.(signature := signature));
  }

  lemma BoundaryRegisters(cfg: Config, s: State)
    ensures RegistersOf(OnBoundary(cfg, s)) == SignedOut(TextOut(RegistersOf(s)))
  {
    CloseTextRegisters(s, Some(Commentary));
    var s1 := FlushHiddenRaw(CloseRaw(CloseSummary(CloseMessage(s, Some(Commentary)))));
    CallRegisters(cfg, s1);
    SignedRegisters(CloseCall(cfg, s1));
  }

  lemma CallStartRegisters(cfg: Config, s: State, callId: string, name: string)
    ensures RegistersOf(OnCallStart(cfg, s, callId, name)) == SaidOut(RawOut(SignedOut(SummaryOut(RegistersOf(s)))))
  {
    var s1 := CloseMessage(s, Some(Commentary));
    MessageRegisters(s, Some(Commentary));
    SettledRegisters(s1);
    var s2 := FlushHiddenRaw(CloseRaw(FlushHiddenEnvelope(CloseSummary(s1))));
    CallRegisters(cfg, s2);
    OpenCallRegisters(cfg, CloseCall(cfg, s2), callId, name);
  }

  lemma SettledRegisters(s: State)
    ensures RegistersOf(FlushHiddenRaw(CloseRaw(FlushHiddenEnvelope(CloseSummary(s)))))
         == SaidOut(RawOut(SignedOut(SummaryOut(RegistersOf(s)))))
  {
    SummaryRegisters(s);
    SignedRegisters(CloseSummary(s));
    RawRegisters(FlushHiddenEnvelope(CloseSummary(s)));
    SaidRegisters(CloseRaw(FlushHiddenEnvelope(CloseSummary(s))));
  }

  lemma OpenCallRegisters(cfg: Config, s: State, callId: string, name: string)
    ensures RegistersOf(OpenCallItem(cfg, s, callId, name)) == RegistersOf(s)
  {
  }

  lemma SearchBeginRegisters(cfg: Config, s: State, eventId: string)
    ensures RegistersOf(OnSearchBegin(cfg, s, eventId)) == TextOut(RegistersOf(s))
  {
    CloseTextRegisters(s, Some(Commentary));
    var s1 := FlushHiddenRaw(CloseRaw(CloseSummary(CloseMessage(s, Some(Commentary)))));
    CallRegisters(cfg, s1);
    SearchRegisters(CloseCall(cfg, s1), SearchCompleted, [], []);
  }

  lemma SearchEndRegisters(s: State, e: Event)
    requires e.WebSearchEnd?
    ensures RegistersOf(OnSearchEnd(s, e)) == RegistersOf(s)
  {
    SearchRegisters(s, SearchCompleted, [], []);
    var status := if e.searchStatus.Some? then e.searchStatus.value else SearchCompleted;
    SearchRegisters(EnsureSearch(s, e.id), status, e.queries, OrNothing(e.sources));
  }

  lemma CallDeltaRegisters(s: State, delta: Text)
    ensures RegistersOf(OnCallDelta(s, delta)) == RegistersOf(s)
  {
  }

  lemma CallEndRegisters(cfg: Config, s: State)
    ensures RegistersOf(OnCallEnd(cfg, s)) == RegistersOf(s)
  {
    CallRegisters(cfg, s);
  }

  lemma AbandonRegisters(cfg: Config, s: State)
    ensures RegistersOf(Abandon(cfg, s)) == TextOut(RegistersOf(s))
  {
    CloseTextRegisters(s, None);
    var s1 := FlushHiddenRaw(CloseRaw(CloseSummary(CloseMessage(s, None))));
    CallRegisters(cfg, s1);
    SearchRegisters(FailCall(cfg, s1), SearchFailed, [], []);
  }

  lemma CloseOutRegisters(cfg: Config, s: State, inferred: Option<Phase>)
    ensures RegistersOf(CloseOut(cfg, s, inferred)) == KiroOut(SignedOut(TextOut(RegistersOf(s))))
  {
    CloseTextRegisters(s, inferred);
    var s1 := FlushHiddenRaw(CloseRaw(CloseSummary(CloseMessage(s, inferred))));
    CallRegisters(cfg, s1);
    SearchRegisters(CloseCall(cfg, s1), SearchCompleted, [], []);
    var s2 := CloseSearch(CloseCall(cfg, s1), SearchCompleted, [], []);
    SignedRegisters(s2);
    KiroRegisters(FlushHiddenEnvelope(s2));
  }

  // ---- One more event ----

  function Longer(before: Option<Text>, more: Text): Option<Text> {
    Some((if before.Some? then before.value else []) + more)
  }

  /** What one more event does to what is waiting. */
  function Next(hidden: bool, r: Registers, e: Event): Registers {
    Registers(
      r.items + ItemsAt(r, e),
      [],
      if EndsThought(e) || (EndsShown(e) && r.shown.Some?) then [] else r.redacted + RedactedOf(e),
      if !hidden || EndsThought(e) then [] else r.thinking + ThinkingOf(e),
      if !hidden || EndsSaid(e) then [] else r.said + RawOf(e),
      if e.KiroRedactedReasoning? then e.data else r.kiro,
      if hidden || EndsShown(e) then None else if IsShown(e) then Longer(r.shown, ShownOf(e)) else r.shown,
      if hidden || EndsRaw(e) then None else if IsRaw(e) then Longer(r.raw, UnshownOf(e)) else r.raw)
  }

  lemma SinceSnoc(ends: Event -> bool, es: seq<Event>, e: Event)
    ensures Since(ends, es + [e]) == if ends(e) then [] else Since(ends, es) + [e]
  {
    assert (es + [e])[..|es|] == es;
  }

  lemma ToldSnoc(part: Event -> Text, es: seq<Event>, e: Event)
    ensures Told(part, es + [e]) == Told(part, es) + part(e)
  {
    assert (es + [e])[..|es|] == es;
  }

  lemma {:induction false} NothingTold(part: Event -> Text, es: seq<Event>)
    requires forall e :: e in es ==> part(e) == []
    ensures Told(part, es) == []
  {
    if es != [] {
      NothingTold(part, es[..|es| - 1]);
    }
  }

  lemma SpokenSnoc(matters: Event -> bool, part: Event -> Text, es: seq<Event>, e: Event)
    requires forall x :: !matters(x) ==> part(x) == []
    ensures Spoken(matters, part, es + [e])
         == if matters(e) then Longer(Spoken(matters, part, es), part(e)) else Spoken(matters, part, es)
  {
    ToldSnoc(part, es, e);
    assert forall x :: x in es + [e] <==> x in es || x == e;
    assert Told(part, es) + [] == Told(part, es);
    if Spoken(matters, part, es).None? { NothingTold(part, es); }
  }

  lemma ShownSnoc(cfg: Config, es: seq<Event>, e: Event)
    ensures Shown(cfg, es + [e]) ==
      if cfg.hideThinking || EndsShown(e) then None
      else if IsShown(e) then Longer(Shown(cfg, es), ShownOf(e)) else Shown(cfg, es)
  {
    SinceSnoc(EndsShown, es, e);
    SpokenSnoc(IsShown, ShownOf, Since(EndsShown, es), e);
  }

  lemma RawSnoc(cfg: Config, es: seq<Event>, e: Event)
    ensures Raw(cfg, es + [e]) ==
      if cfg.hideThinking || EndsRaw(e) then None
      else if IsRaw(e) then Longer(Raw(cfg, es), UnshownOf(e)) else Raw(cfg, es)
  {
    SinceSnoc(EndsRaw, es, e);
    SpokenSnoc(IsRaw, UnshownOf, Since(EndsRaw, es), e);
  }

  lemma HiddenSnoc(cfg: Config, es: seq<Event>, e: Event)
    ensures Thought(cfg, es + [e])
         == if !cfg.hideThinking || EndsThought(e) then [] else Thought(cfg, es) + ThinkingOf(e)
    ensures Said(cfg, es + [e]) == if !cfg.hideThinking || EndsSaid(e) then [] else Said(cfg, es) + RawOf(e)
  {
    SinceSnoc(EndsThought, es, e);
    ToldSnoc(ThinkingOf, Since(EndsThought, es), e);
    SinceSnoc(EndsSaid, es, e);
    ToldSnoc(RawOf, Since(EndsSaid, es), e);
  }

  lemma UntakenSnoc(cfg: Config, es: seq<Event>, e: Event)
    ensures Untaken(cfg, es + [e]) ==
      if EndsThought(e) || (EndsShown(e) && Shown(cfg, es).Some?) then [] else Untaken(cfg, es) + RedactedOf(e)
  {
    assert (es + [e])[..|es|] == es;
  }

  lemma KiroSnoc(es: seq<Event>, e: Event)
    ensures LastKiro(es + [e]) == if e.KiroRedactedReasoning? then e.data else LastKiro(es)
  {
    assert (es + [e])[..|es|] == es;
  }

  lemma ItemsSnoc(cfg: Config, es: seq<Event>, e: Event)
    ensures Items(cfg, es + [e]) == Items(cfg, es) + ItemsAt(Waiting(cfg, es), e)
  {
    assert (es + [e])[..|es|] == es;
  }

  lemma MemorySnoc(cfg: Config, es: seq<Event>, e: Event)
    ensures Memory(cfg, es + [e]) == Next(cfg.hideThinking, Memory(cfg, es), e)
  {
    ItemsSnoc(cfg, es, e);
    SameItems(Waiting(cfg, es), Items(cfg, es), e);
    ShownSnoc(cfg, es, e);
    RawSnoc(cfg, es, e);
    HiddenSnoc(cfg, es, e);
    UntakenSnoc(cfg, es, e);
    KiroSnoc(es, e);
  }

  lemma SameParts(w: Registers, items: seq<ItemBody>, sig: Text)
    ensures var v := w.(items := items);
      && SummaryItem(v, sig) == SummaryItem(w, sig) && SignedItem(v, sig) == SignedItem(w, sig)
      && RawItem(v) == RawItem(w) && HiddenRawItem(v) == HiddenRawItem(w) && KiroItem(v) == KiroItem(w)
  {
  }

  lemma SameText(w: Registers, items: seq<ItemBody>)
    ensures TextItems(w.(items := items)) == TextItems(w)
  {
    SameParts(w, items, []);
  }

  lemma SameItems(w: Registers, items: seq<ItemBody>, e: Event)
    ensures ItemsAt(w.(items := items), e) == ItemsAt(w, e)
  {
    SameParts(w, items, []);
    SameText(w, items);
    if e.ThinkingSignature? { SameParts(w, items, e.signature); }
  }

  // ---- The bridge remembers exactly that ----

  ghost predicate Remembers(cfg: Config, s: State, es: seq<Event>) {
    RegistersOf(s) == Memory(cfg, es)
  }

  /** What the mode keeps empty. */
  predicate Fits(hidden: bool, r: Registers) {
    r.signature == [] && (if hidden then r.shown.None? && r.raw.None? else r.thinking == [] && r.said == [])
  }

  lemma SettledNext(hidden: bool, r: Registers, e: Event)
    requires Fits(hidden, r) && (e.TextDelta? || e.ToolCallStart?)
    ensures SaidOut(RawOut(SignedOut(SummaryOut(r)))) == Next(hidden, r, e)
  {
    SignedShape(r);
    assert Next(hidden, r, e).items == r.items + (SummaryItem(r, []) + SignedItem(r, []) + RawItem(r) + HiddenRawItem(r));
  }

  lemma SignedShape(r: Registers)
    requires r.signature == []
    ensures SignedOut(SummaryOut(r))
         == r.(items := r.items + (SummaryItem(r, []) + SignedItem(r, [])), redacted := [], thinking := [], shown := None)
  {
  }

  lemma BoundaryNext(hidden: bool, r: Registers)
    requires Fits(hidden, r)
    ensures SignedOut(TextOut(r)) == Next(hidden, r, AssistantBoundary)
  {
  }

  lemma SearchBeginNext(hidden: bool, r: Registers, id: string)
    requires Fits(hidden, r)
    ensures TextOut(r) == Next(hidden, r, WebSearchBegin(id))
  {
  }

  lemma ThinkingNext(r: Registers, t: Text)
    requires Fits(false, r)
    ensures var r1 := SaidOut(RawOut(r));
            r1.(shown := Longer(r1.shown, t)) == Next(false, r, ThinkingDelta(t))
  {
    assert t + [] == t;
  }

  lemma HiddenThinkingNext(r: Registers, t: Text)
    requires Fits(true, r)
    ensures SaidOut(r).(thinking := r.thinking + t) == Next(true, r, ThinkingDelta(t))
  {
  }

  lemma RawNext(r: Registers, t: Text, asSummary: bool)
    requires Fits(false, r)
    ensures
      var r1 := if asSummary then RawOut(r) else SummaryOut(r);
      (if asSummary then r1.(shown := Longer(r1.shown, t)) else r1.(raw := Longer(r1.raw, t)))
        == Next(false, r, ReasoningRawDelta(t, asSummary))
  {
    assert [] + t == t;
  }

  lemma HiddenRawNext(r: Registers, t: Text, asSummary: bool)
    requires Fits(true, r)
    ensures r.(said := r.said + t) == Next(true, r, ReasoningRawDelta(t, asSummary))
  {
  }

  lemma SignatureNext(hidden: bool, r: Registers, signature: Text)
    requires Fits(hidden, r)
    ensures
      var r1 := r.(signature := signature);
      (if r1.shown.Some? then SummaryOut(r1) else SignedOut(r1)) == Next(hidden, r, ThinkingSignature(signature))
  {
  }

  predicate IsQuiet(e: Event) {
    e.Heartbeat? || e.ToolCallDelta? || e.ToolCallEnd? || e.WebSearchEnd?
  }

  lemma QuietNext(hidden: bool, r: Registers, e: Event)
    requires Fits(hidden, r) && IsQuiet(e)
    ensures Next(hidden, r, e) == r
  {
  }

  lemma BlockNext(hidden: bool, r: Registers, e: Event)
    requires Fits(hidden, r) && (e.RedactedThinking? || e.KiroRedactedReasoning?)
    ensures Next(hidden, r, e)
         == if e.RedactedThinking? then r.(redacted := r.redacted + [e.data]) else r.(kiro := e.data)
  {
  }

  lemma TextShape(r: Registers)
    requires r.signature == []
    ensures TextOut(r) == r.(items := r.items + TextItems(r), said := [], shown := None, raw := None,
                             redacted := if r.shown.Some? then [] else r.redacted)
  {
  }

  lemma SignedItems(r: Registers)
    requires r.signature == []
    ensures SignedOut(TextOut(r)).items == r.items + (TextItems(r) + SignedItem(r, []))
    ensures SignedOut(TextOut(r)).kiro == r.kiro
  {
    TextShape(r);
  }

  lemma DoneItems(r: Registers)
    requires r.signature == []
    ensures KiroOut(SignedOut(TextOut(r))).items == r.items + (TextItems(r) + SignedItem(r, []) + KiroItem(r))
  {
    SignedItems(r);
    KiroShape(SignedOut(TextOut(r)), r);
  }

  lemma EndItems(t: Registers, r: Registers, e: Event)
    requires r.signature == []
    requires (e.Done? && t == KiroOut(SignedOut(TextOut(r)))) || (e.Incomplete? && t == SignedOut(TextOut(r)))
    ensures t.items == r.items + ItemsAt(r, e)
  {
    SignedItems(r);
    DoneItems(r);
  }

  lemma KiroShape(r: Registers, before: Registers)
    requires r.kiro == before.kiro
    ensures KiroOut(r).items == r.items + KiroItem(before)
  {
  }

  lemma AbandonedItems(r: Registers)
    requires r.signature == []
    ensures TextOut(r).items == r.items + TextItems(r)
  {
  }

  // ---- Every step of a run ----

  lemma ToolStep(cfg: Config, s: State, e: Event)
    requires IsToolEvent(e) && Fits(cfg.hideThinking, RegistersOf(s))
    ensures RegistersOf(StepTool(cfg, s, e)) == Next(cfg.hideThinking, RegistersOf(s), e)
  {
    var r := RegistersOf(s);
    match e
    case ToolCallStart(id, name) =>
      CallStartRegisters(cfg, s, id, name);
      SettledNext(cfg.hideThinking, r, e);
    case ToolCallDelta(arguments) =>
      CallDeltaRegisters(s, arguments);
      QuietNext(cfg.hideThinking, r, e);
    case ToolCallEnd =>
      CallEndRegisters(cfg, s);
      QuietNext(cfg.hideThinking, r, e);
    case WebSearchBegin(id) =>
      SearchBeginRegisters(cfg, s, id);
      SearchBeginNext(cfg.hideThinking, r, id);
    case WebSearchEnd(_, _, _, _) =>
      SearchEndRegisters(s, e);
      QuietNext(cfg.hideThinking, r, e);
  }

  lemma ThinkingStep(cfg: Config, s: State, thinking: Text)
    requires Fits(cfg.hideThinking, RegistersOf(s))
    ensures RegistersOf(OnThinking(cfg, s, thinking)) == Next(cfg.hideThinking, RegistersOf(s), ThinkingDelta(thinking))
  {
    ThinkingRegisters(cfg, s, thinking);
    if cfg.hideThinking { HiddenThinkingNext(RegistersOf(s), thinking); } else { ThinkingNext(RegistersOf(s), thinking); }
  }

  lemma RawStep(cfg: Config, s: State, e: Event)
    requires e.ReasoningRawDelta? && Fits(cfg.hideThinking, RegistersOf(s))
    ensures RegistersOf(OnRawReasoning(cfg, s, e.text, e.asSummary)) == Next(cfg.hideThinking, RegistersOf(s), e)
  {
    if cfg.hideThinking {
      HiddenRawNext(RegistersOf(s), e.text, e.asSummary);
    } else {
      RawReasoningRegisters(cfg, s, e.text, e.asSummary);
      RawNext(RegistersOf(s), e.text, e.asSummary);
    }
  }

  lemma ContentStep(cfg: Config, s: State, e: Event)
    requires !IsTerminal(e) && !IsToolEvent(e) && Fits(cfg.hideThinking, RegistersOf(s))
    ensures RegistersOf(StepContent(cfg, s, e)) == Next(cfg.hideThinking, RegistersOf(s), e)
  {
    var r := RegistersOf(s);
    match e
    case Heartbeat => QuietNext(cfg.hideThinking, r, e);
    case TextDelta(text, phase) =>
      TextRegisters(cfg, s, text, phase);
      SettledNext(cfg.hideThinking, r, e);
    case ThinkingDelta(thinking) => ThinkingStep(cfg, s, thinking);
    case ThinkingSignature(signature) =>
      SignatureRegisters(s, signature);
      SignatureNext(cfg.hideThinking, r, signature);
    case RedactedThinking(_) => BlockNext(cfg.hideThinking, r, e);
    case KiroRedactedReasoning(_) => BlockNext(cfg.hideThinking, r, e);
    case ReasoningRawDelta(_, _) => RawStep(cfg, s, e);
    case AssistantBoundary =>
      BoundaryRegisters(cfg, s);
      BoundaryNext(cfg.hideThinking, r);
  }

  lemma EndRegisters(s: State, o: Outcome)
    ensures RegistersOf(EndWith(s, o)) == RegistersOf(s)
  {
  }

  lemma DoneRegisters(cfg: Config, s: State, e: Event)
    requires !cfg.compaction && e.Done?
    ensures RegistersOf(OnDone(cfg, s, e)) == KiroOut(SignedOut(TextOut(RegistersOf(s))))
  {
    var inferred := if e.stopReason.None? || e.stopReason == Some("") then Some(FinalAnswer) else None;
    CloseOutRegisters(cfg, s, inferred);
    EndRegisters(CloseOut(cfg, s, inferred), DoneOutcome(e));
  }

  lemma DoneStep(cfg: Config, s: State, e: Event)
    requires !cfg.compaction && e.Done? && RegistersOf(s).signature == []
    ensures RegistersOf(OnDone(cfg, s, e)).items == RegistersOf(s).items + ItemsAt(RegistersOf(s), e)
  {
    DoneRegisters(cfg, s, e);
    EndItems(RegistersOf(OnDone(cfg, s, e)), RegistersOf(s), e);
  }

  lemma IncompleteRegisters(cfg: Config, s: State, e: Event)
    requires e.Incomplete?
    ensures RegistersOf(OnIncomplete(cfg, s, e)) == SignedOut(TextOut(RegistersOf(s)))
  {
    AbandonRegisters(cfg, s);
    SignedRegisters(Abandon(cfg, s));
    EndRegisters(FlushHiddenEnvelope(Abandon(cfg, s)), IncompleteOutcome(e));
  }

  lemma IncompleteStep(cfg: Config, s: State, e: Event)
    requires e.Incomplete? && RegistersOf(s).signature == []
    ensures RegistersOf(OnIncomplete(cfg, s, e)).items == RegistersOf(s).items + ItemsAt(RegistersOf(s), e)
  {
    IncompleteRegisters(cfg, s, e);
    EndItems(RegistersOf(OnIncomplete(cfg, s, e)), RegistersOf(s), e);
  }

  lemma ErrorRegisters(cfg: Config, s: State, e: Event)
    requires e.Error?
    ensures RegistersOf(OnError(cfg, s, e)).items
         == if IsLimitError(e) then RegistersOf(s).items else TextOut(RegistersOf(s)).items
  {
    if IsLimitError(e) {
      EndRegisters(s.(call := None, search := None), OVERFLOW);
    } else {
      AbandonRegisters(cfg, s);
      EndRegisters(Abandon(cfg, s), ErrorOutcome(e));
    }
  }

  lemma ErrorItems(items: seq<ItemBody>, r: Registers, e: Event)
    requires r.signature == [] && e.Error? && items == if IsLimitError(e) then r.items else TextOut(r).items
    ensures items == r.items + ItemsAt(r, e)
  {
    AbandonedItems(r);
  }

  lemma ErrorStep(cfg: Config, s: State, e: Event)
    requires e.Error? && RegistersOf(s).signature == []
    ensures RegistersOf(OnError(cfg, s, e)).items == RegistersOf(s).items + ItemsAt(RegistersOf(s), e)
  {
    ErrorRegisters(cfg, s, e);
    ErrorItems(RegistersOf(OnError(cfg, s, e)).items, RegistersOf(s), e);
  }

  lemma TerminalStep(cfg: Config, s: State, e: Event)
    requires !cfg.compaction && IsTerminal(e) && RegistersOf(s).signature == []
    ensures StepTerminal(cfg, s, e).outcome.Some?
    ensures RegistersOf(StepTerminal(cfg, s, e)).items == RegistersOf(s).items + ItemsAt(RegistersOf(s), e)
  {
    match e
    case Done(_, _) => DoneStep(cfg, s, e);
    case Incomplete(_, _, _, _) => IncompleteStep(cfg, s, e);
    case Error(_, _, _, _, _) => ErrorStep(cfg, s, e);
  }

  lemma MemoryFits(cfg: Config, es: seq<Event>)
    ensures Fits(cfg.hideThinking, Memory(cfg, es))
  {
  }

  lemma StepRemembers(cfg: Config, s: State, es: seq<Event>, e: Event)
    requires !cfg.compaction && Remembers(cfg, s, es) && !IsTerminal(e)
    ensures Remembers(cfg, Step(cfg, s, e), es + [e])
  {
    MemoryFits(cfg, es);
    MemorySnoc(cfg, es, e);
    if IsToolEvent(e) { ToolStep(cfg, s, e); } else { ContentStep(cfg, s, e); }
  }

  lemma StepEnds(cfg: Config, s: State, es: seq<Event>, e: Event)
    requires !cfg.compaction && Remembers(cfg, s, es) && IsTerminal(e)
    ensures Step(cfg, s, e).outcome.Some? && ReasoningBodies(Step(cfg, s, e).finished) == Items(cfg, es + [e])
  {
    MemoryFits(cfg, es);
    TerminalStep(cfg, s, e);
    ItemsSnoc(cfg, es, e);
    SameItems(Waiting(cfg, es), Items(cfg, es), e);
  }

  /** A bridge that is running remembers all it heard; one that is over has told it. */
  ghost predicate Accounts(cfg: Config, s: State, heard: seq<Event>) {
    if s.outcome.None? then Remembers(cfg, s, heard) else ReasoningBodies(s.finished) == Items(cfg, heard)
  }

  lemma StepAccounts(cfg: Config, s: State, es: seq<Event>, e: Event)
    requires !cfg.compaction && Remembers(cfg, s, es)
    ensures Accounts(cfg, Step(cfg, s, e), es + [e])
  {
    if IsTerminal(e) { StepEnds(cfg, s, es, e); } else { StepRemembers(cfg, s, es, e); }
  }

  /** What the bridge holds after the events it has taken in, `es` before and `more` now. */
  lemma {:induction false} StepsAccount(cfg: Config, s: State, es: seq<Event>, more: seq<Event>)
    requires !cfg.compaction && Accounts(cfg, s, es)
    ensures Accounts(cfg, Steps(cfg, s, more), es + more[..R.Consumed(cfg, s, more)])
    decreases |more|
  {
    if s.outcome.Some? || more == [] {
      R.TakesNothing(cfg, s, es, more);
    } else {
      StepAccounts(cfg, s, es, more[0]);
      StepsAccount(cfg, Step(cfg, s, more[0]), es + [more[0]], more[1..]);
      R.TakesOne(cfg, s, es, more);
    }
  }

  lemma TakenIn(cfg: Config, events: seq<Event>)
    requires !cfg.compaction
    ensures Accounts(cfg, Steps(cfg, START, events), events[..R.Consumed(cfg, START, events)])
  {
    assert Accounts(cfg, START, []);
    StepsAccount(cfg, START, [], events);
    var heard := events[..R.Consumed(cfg, START, events)];
    assert [] + heard == heard;
  }

  /** A turn that is broken off while it runs, by the end of the input, a stall or an exception, tells what is text. */
  lemma BrokenOffIsTold(cfg: Config, events: seq<Event>, o: Outcome)
    requires !cfg.compaction && Steps(cfg, START, events).outcome.None?
    ensures var heard := events[..R.Consumed(cfg, START, events)];
      ReasoningBodies(EndWith(Abandon(cfg, Steps(cfg, START, events)), o).finished)
        == Items(cfg, heard) + TextItems(Waiting(cfg, heard))
  {
    var heard, s := events[..R.Consumed(cfg, START, events)], Steps(cfg, START, events);
    TakenIn(cfg, events);
    AbandonRegisters(cfg, s);
    MemoryFits(cfg, heard);
    AbandonedItems(RegistersOf(s));
    EndRegisters(Abandon(cfg, s), o);
    SameText(Waiting(cfg, heard), Items(cfg, heard));
  }

  /**
   The reasoning items of a turn, in order, are those its events tell: each carries the thinking, the raw reasoning,
   the signature and the deferred blocks since the item before, hidden in an envelope or shown, whichever way the
   turn ends.
   */
  lemma ReasoningIsTold(cfg: Config, events: seq<Event>)
    requires !cfg.compaction
    ensures var heard := events[..R.Consumed(cfg, START, events)];
      ReasoningBodies(Run(cfg, events).finished)
        == Items(cfg, heard)
         + if Steps(cfg, START, events).outcome.None? then TextItems(Waiting(cfg, heard)) else []
  {
    TakenIn(cfg, events);
    if Steps(cfg, START, events).outcome.None? { BrokenOffIsTold(cfg, events, ADAPTER_EOF); }
  }
}
