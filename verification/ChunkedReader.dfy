/**
 Reading a byte stream chunk by chunk up to a decisive event, for any decoder, delimiter and judgement of events
 that obey the laws below. The laws are what makes the chunk boundaries invisible.
 */
module ChunkedReader {
  import T = Text
  import opened Utf8

  type Chars = seq<Scalar>

  const MAX_RESPONSE: nat := 4194304

  datatype Usage = Usage(input: T.Option<int>, output: T.Option<int>, cached: T.Option<int>, reasoning: T.Option<int>)

  /** What an event comes to: not terminal, an error, or the completed response with its usage. */
  datatype Verdict = Skip | Refuse | Complete(usage: Usage)

  /** Events judged in order: undecided after the first `at` characters, or decided, the event ending at `end`. */
  datatype Scanned = More(at: nat) | Stopped | Finished(end: nat, usage: Usage)

  /** An event and its delimiter at the front of a text: `text[..event]` and `text[event..next]`. */
  datatype Cut = NoCut | Cut(event: nat, next: nat)

  datatype Result = Missing | TooLarge | Undecodable | Rejected | Accepted(bytes: Bytes, usage: Usage)

  /** `size` is the number of bytes a text is encoded in. */
  datatype Reader = Reader(
    decode: Bytes -> Decoded,
    size: Chars -> nat,
    cut: Chars -> Cut,
    judge: Chars -> Verdict,
    scan: Chars -> Scanned)

  function Shift(s: Scanned, n: nat): Scanned {
    match s
    case More(at) => More(n + at)
    case Stopped => Stopped
    case Finished(end, u) => Finished(n + end, u)
  }

  /** Decoding goes on with what comes next. */
  function Onward(d: Decoded, next: Decoded): Decoded {
    if d.Bad? || next.Bad? then Bad else Good(d.text + next.text, next.held)
  }

  predicate DecodesInPieces(r: Reader, a: Bytes, b: Bytes) {
    r.decode(a).Good? ==> r.decode(a + b) == Onward(r.decode(a), r.decode(r.decode(a).held + b))
  }

  predicate BadStaysBad(r: Reader, a: Bytes, b: Bytes) {
    r.decode(a).Bad? ==> r.decode(a + b).Bad?
  }

  predicate SizesAdd(r: Reader, a: Chars, b: Chars) {
    r.size(a + b) == r.size(a) + r.size(b)
  }

  predicate SizeFits(r: Reader, bytes: Bytes, k: nat) {
    r.decode(bytes).Good? && k <= |r.decode(bytes).text| ==> r.size(r.decode(bytes).text[..k]) <= |bytes|
  }

  predicate ScansOn(r: Reader, t: Chars, u: Chars) {
    var s := r.scan(t);
    && (s.More? ==> s.at <= |t|)
    && r.scan(t + u) == if s.More? then Shift(r.scan(t[s.at..] + u), s.at) else s
  }

  /** Scanning takes the first complete event, if there is one. */
  predicate ScansEvents(r: Reader, t: Chars) {
    match r.cut(t)
    case NoCut => r.scan(t) == More(0)
    case Cut(event, next) =>
      && event < next <= |t|
      && r.scan(t) == match r.judge(t[..event])
                      case Skip => Shift(r.scan(t[next..]), next)
                      case Refuse => Stopped
                      case Complete(u) => Finished(next, u)
  }

  /** The first event is the same in every prefix that holds it. */
  predicate CutsPrefixes(r: Reader, t: Chars, k: nat) {
    r.cut(t).Cut? && r.cut(t).next <= k <= |t| ==> r.cut(t[..k]) == r.cut(t)
  }

  /** The first `size` bytes are just the characters they encode. */
  predicate CutsWholeCharacters(r: Reader, bytes: Bytes, k: nat) {
    var d := r.decode(bytes);
    d.Good? && k <= |d.text| && r.size(d.text[..k]) <= |bytes| ==>
      r.decode(bytes[..r.size(d.text[..k])]) == Good(d.text[..k], [])
  }

  ghost predicate Lawful(r: Reader) {
    && r.decode([]) == Good([], []) && r.size([]) == 0
    && (forall a, b :: DecodesInPieces(r, a, b))
    && (forall a, b :: BadStaysBad(r, a, b))
    && (forall a, b :: SizesAdd(r, a, b))
    && (forall bytes, k :: SizeFits(r, bytes, k))
    && (forall t, u :: ScansOn(r, t, u))
    && (forall t :: ScansEvents(r, t))
    && (forall t, k :: CutsPrefixes(r, t, k))
    && (forall bytes, k :: CutsWholeCharacters(r, bytes, k))
  }

  // ---- The stream as one piece ----

  predicate Sound(r: Reader, bytes: Bytes) {
    |bytes| <= MAX_RESPONSE && r.decode(bytes).Good?
  }

  /** The answer a stream deserves, as one piece of bytes. */
  function Whole(r: Reader, bytes: Bytes): Result {
    if |bytes| > MAX_RESPONSE then TooLarge
    else match r.decode(bytes)
      case Bad => Undecodable
      case Good(text, _) =>
        match r.scan(text)
        case More(_) => Missing
        case Stopped => Rejected
        case Finished(end, u) =>
          if end <= |text| && r.size(text[..end]) <= |bytes| then Accepted(bytes[..r.size(text[..end])], u) else Missing
  }

  function Joined(chunks: seq<Bytes>): Bytes {
    if chunks == [] then [] else Joined(chunks[..|chunks| - 1]) + chunks[|chunks| - 1]
  }

  lemma JoinedSnoc(chunks: seq<Bytes>, k: nat)
    requires k < |chunks|
    ensures Joined(chunks[..k + 1]) == Joined(chunks[..k]) + chunks[k]
  {
    assert chunks[..k + 1][..k] == chunks[..k];
  }

  /** What reading chunk by chunk answers: the first chunk end that is faulty or decided settles it. */
  function Piecewise(r: Reader, chunks: seq<Bytes>, k: nat): Result
    requires k <= |chunks|
    decreases |chunks| - k
  {
    if k == |chunks| then Missing
    else
      var here := Whole(r, Joined(chunks[..k + 1]));
      if here.Missing? then Piecewise(r, chunks, k + 1) else here
  }

  // ---- The loops ----

  function Found(verdict: Verdict, at: nat): Scanned {
    match verdict
    case Skip => More(at)
    case Refuse => Stopped
    case Complete(u) => Finished(at, u)
  }

  /** The events that are complete in `t`, up to the first decisive one; `rest` is what follows. */
  method Events(r: Reader, t: Chars) returns (verdict: Verdict, rest: Chars, used: nat, ghost at: nat)
    requires Lawful(r)
    ensures at <= |t| && rest == t[at..] && used == r.size(t[..at])
    ensures r.scan(t) == Found(verdict, at)
  {
    at, rest, used, verdict := 0, t, 0, Skip;
    assert t[..0] == [];
    var cut := r.cut(rest);
    while cut.Cut?
      invariant cut == r.cut(rest)
      invariant at <= |t| && rest == t[at..]
      invariant used == r.size(t[..at])
      invariant verdict.Skip? && r.scan(t) == Shift(r.scan(rest), at)
      decreases |rest|
    {
      assert ScansEvents(r, rest);
      assert SizesAdd(r, t[..at], rest[..cut.next]);
      assert t[..at] + rest[..cut.next] == t[..at + cut.next];
      verdict := r.judge(rest[..cut.event]);
      used := used + r.size(rest[..cut.next]);
      at := at + cut.next;
      rest := rest[cut.next..];
      if !verdict.Skip? { return; }
      cut := r.cut(rest);
    }
    assert ScansEvents(r, rest);
  }

  /** One more chunk, seen from what was undecided before it. */
  lemma Advance(r: Reader, all: Bytes, chunk: Bytes, done: Chars, pending: Chars, held: Bytes)
    requires Lawful(r)
    requires r.decode(all) == Good(done + pending, held) && r.scan(done + pending) == More(|done|)
    ensures var more := r.decode(held + chunk);
            if more.Bad? then r.decode(all + chunk).Bad?
            else
              && r.decode(all + chunk) == Good(done + (pending + more.text), more.held)
              && r.scan(done + (pending + more.text)) == Shift(r.scan(pending + more.text), |done|)
  {
    assert DecodesInPieces(r, all, chunk);
    var more := r.decode(held + chunk);
    if more.Good? {
      assert ScansOn(r, done + pending, more.text);
      assert (done + pending)[|done|..] == pending;
      assert (done + pending) + more.text == done + (pending + more.text);
    }
  }

  /** The whole stream so far, once its new text is scanned. */
  lemma Outcome(r: Reader, all: Bytes, done: Chars, t: Chars, held: Bytes, verdict: Verdict, at: nat)
    requires Lawful(r)
    requires |all| <= MAX_RESPONSE && r.decode(all) == Good(done + t, held)
    requires r.scan(done + t) == Shift(r.scan(t), |done|)
    requires at <= |t| && r.scan(t) == Found(verdict, at)
    ensures r.size(done) + r.size(t[..at]) == r.size(done + t[..at]) <= |all|
    ensures done + t == (done + t[..at]) + t[at..]
    ensures Whole(r, all) == match verdict
                             case Skip => Missing
                             case Refuse => Rejected
                             case Complete(u) => Accepted(all[..r.size(done + t[..at])], u)
  {
    assert (done + t)[..|done| + at] == done + t[..at];
    assert SizesAdd(r, done, t[..at]);
    assert SizeFits(r, all, |done| + at);
  }

  /** `terminalResponse`, once the headers are accepted. */
  method TerminalResponse(r: Reader, chunks: seq<Bytes>) returns (result: Result)
    requires Lawful(r)
    ensures result == Piecewise(r, chunks, 0)
  {
    var all: Bytes, held: Bytes, pending: Chars := [], [], [];
    ghost var done: Chars := [];
    var size, consumed := 0, 0;
    var k := 0;
    assert ScansEvents(r, []);
    while k < |chunks|
      invariant k <= |chunks| && all == Joined(chunks[..k])
      invariant size == |all|
      invariant r.decode(all) == Good(done + pending, held)
      invariant consumed == r.size(done)
      invariant r.scan(done + pending) == More(|done|)
      invariant Piecewise(r, chunks, 0) == Piecewise(r, chunks, k)
    {
      JoinedSnoc(chunks, k);
      size := size + |chunks[k]|;
      if size > MAX_RESPONSE { return TooLarge; }
      Advance(r, all, chunks[k], done, pending, held);
      all := all + chunks[k];
      var more := r.decode(held + chunks[k]);
      if more.Bad? { return Undecodable; }
      held := more.held;
      var t := pending + more.text;
      var verdict, rest, used, at := Events(r, t);
      Outcome(r, all, done, t, held, verdict, at);
      consumed := consumed + used;
      if verdict.Refuse? { return Rejected; }
      if verdict.Complete? { return Accepted(all[..consumed], verdict.usage); }
      pending, done := rest, done + t[..at];
      k := k + 1;
    }
    result := Missing;
  }

  // ---- Chunk boundaries do not matter ----

  lemma PrefixIsSound(r: Reader, a: Bytes, b: Bytes)
    requires Lawful(r) && Sound(r, a + b)
    ensures Sound(r, a)
  {
    assert BadStaysBad(r, a, b);
  }

  /** A decision, once there, is the same for every longer sound stream, down to the bytes returned. */
  lemma DecisionsStay(r: Reader, a: Bytes, b: Bytes)
    requires Lawful(r) && Sound(r, a + b) && !Whole(r, a).Missing?
    ensures Whole(r, a + b) == Whole(r, a)
  {
    PrefixIsSound(r, a, b);
    assert DecodesInPieces(r, a, b);
    var text := r.decode(a).text;
    var more := r.decode(r.decode(a).held + b).text;
    assert ScansOn(r, text, more);
    var s := r.scan(text);
    if s.Finished? {
      assert (text + more)[..s.end] == text[..s.end];
      assert (a + b)[..r.size(text[..s.end])] == a[..r.size(text[..s.end])];
    }
  }

  lemma {:induction false} JoinedPrefix(chunks: seq<Bytes>, k: nat)
    requires k <= |chunks|
    ensures Joined(chunks[..k]) <= Joined(chunks)
    decreases |chunks| - k
  {
    if k < |chunks| {
      JoinedSnoc(chunks, k);
      JoinedPrefix(chunks, k + 1);
    } else {
      assert chunks[..k] == chunks;
    }
  }

  lemma Split(a: Bytes, whole: Bytes)
    requires a <= whole
    ensures whole == a + whole[|a|..]
  {
  }

  lemma {:induction false} PiecewiseFrom(r: Reader, chunks: seq<Bytes>, k: nat)
    requires Lawful(r) && Sound(r, Joined(chunks)) && k <= |chunks|
    requires Whole(r, Joined(chunks[..k])).Missing?
    ensures Piecewise(r, chunks, k) == Whole(r, Joined(chunks))
    decreases |chunks| - k
  {
    if k == |chunks| {
      assert chunks[..k] == chunks;
    } else {
      var here := Joined(chunks[..k + 1]);
      JoinedPrefix(chunks, k + 1);
      Split(here, Joined(chunks));
      if Whole(r, here).Missing? {
        PiecewiseFrom(r, chunks, k + 1);
      } else {
        DecisionsStay(r, here, Joined(chunks)[|here|..]);
      }
    }
  }

  /** On a stream that decodes within the size bound, the answer depends on the concatenation of chunks alone. */
  lemma ChunkIndependence(r: Reader, chunks: seq<Bytes>)
    requires Lawful(r) && Sound(r, Joined(chunks))
    ensures Piecewise(r, chunks, 0) == Whole(r, Joined(chunks))
  {
    assert ScansEvents(r, []);
    assert chunks[..0] == [];
    PiecewiseFrom(r, chunks, 0);
  }

  /**
   On any stream, sound or not: it is accepted or rejected exactly if some chunk end falls after the deciding
   event and before the first fault, and then the answer is what the bytes up to any such chunk end deserve.
   */
  lemma {:induction false} DecidedAtSomeChunkEnd(r: Reader, chunks: seq<Bytes>, k: nat)
    requires Lawful(r) && k <= |chunks|
    ensures var result := Piecewise(r, chunks, k);
            (result.Accepted? || result.Rejected?)
            <==> exists j :: k < j <= |chunks| && Sound(r, Joined(chunks[..j])) && !Whole(r, Joined(chunks[..j])).Missing?
    ensures forall j :: k < j <= |chunks| && Sound(r, Joined(chunks[..j])) && !Whole(r, Joined(chunks[..j])).Missing? ==>
              Piecewise(r, chunks, k) == Whole(r, Joined(chunks[..j]))
    decreases |chunks| - k
  {
    if k < |chunks| {
      var here := Joined(chunks[..k + 1]);
      if !Sound(r, here) {
        forall j | k < j <= |chunks| ensures !Sound(r, Joined(chunks[..j])) {
          assert chunks[..j][..k + 1] == chunks[..k + 1];
          JoinedPrefix(chunks[..j], k + 1);
          Split(here, Joined(chunks[..j]));
          if Sound(r, Joined(chunks[..j])) {
            PrefixIsSound(r, here, Joined(chunks[..j])[|here|..]);
          }
        }
      } else if Whole(r, here).Missing? {
        DecidedAtSomeChunkEnd(r, chunks, k + 1);
      } else {
        forall j | k < j <= |chunks| && Sound(r, Joined(chunks[..j]))
          ensures Whole(r, Joined(chunks[..j])) == Whole(r, here)
        {
          assert chunks[..j][..k + 1] == chunks[..k + 1];
          JoinedPrefix(chunks[..j], k + 1);
          Split(here, Joined(chunks[..j]));
          DecisionsStay(r, here, Joined(chunks[..j])[|here|..]);
        }
      }
    }
  }

  /** Such a stream has two answers: a fault after the decision is seen only if it comes in the same chunk. */
  lemma LateFaultDependsOnChunks(r: Reader, a: Bytes, b: Bytes)
    requires Lawful(r) && Sound(r, a) && !Whole(r, a).Missing? && !Sound(r, a + b)
    ensures Piecewise(r, [a, b], 0) == Whole(r, a)
    ensures Piecewise(r, [a + b], 0).TooLarge? || Piecewise(r, [a + b], 0).Undecodable?
  {
    JoinedSnoc([a, b], 0);
    JoinedSnoc([a + b], 0);
    assert [a, b][..0] == [] && [a + b][..0] == [];
    assert Joined([a, b][..1]) == a && Joined([a + b][..1]) == a + b;
  }

  // ---- The bytes returned ----

  lemma SlicesOfPrefix(t: Chars, end: nat, i: nat, next: nat)
    requires i <= next <= end <= |t|
    ensures t[..end][..i] == t[..i]
    ensures t[..end][next..] == t[next..][..end - next]
  {
  }

  /** The decisive event needs nothing that follows it. */
  lemma {:induction false} FinishedWithin(r: Reader, t: Chars, end: nat, u: Usage)
    requires Lawful(r) && r.scan(t) == Finished(end, u)
    ensures end <= |t| && r.scan(t[..end]) == Finished(end, u)
    decreases |t|
  {
    assert ScansEvents(r, t);
    var cut := r.cut(t);
    if r.judge(t[..cut.event]).Skip? {
      FinishedWithin(r, t[cut.next..], end - cut.next, u);
    }
    assert CutsPrefixes(r, t, end);
    assert ScansEvents(r, t[..end]);
    SlicesOfPrefix(t, end, cut.event, cut.next);
  }

  /** Nothing shorter than what is accepted is decided at all. */
  lemma ShorterIsMissing(r: Reader, bytes: Bytes, n: nat)
    requires Lawful(r) && Whole(r, bytes).Accepted? && n < |Whole(r, bytes).bytes|
    ensures Whole(r, bytes[..n]).Missing?
  {
    Split(bytes[..n], bytes);
    if !Whole(r, bytes[..n]).Missing? {
      DecisionsStay(r, bytes[..n], bytes[n..]);
    }
  }

  /**
   The bytes returned are exactly the shortest prefix of the stream that is accepted: they decode to whole
   characters, are accepted themselves with the same usage, and nothing shorter is decided at all.
   */
  lemma AcceptsShortestPrefix(r: Reader, bytes: Bytes, n: nat)
    requires Lawful(r) && Whole(r, bytes).Accepted?
    ensures var p := Whole(r, bytes).bytes;
            && p <= bytes
            && Whole(r, p) == Whole(r, bytes)
            && r.decode(p).Good? && r.decode(p).held == [] && r.decode(p).text <= r.decode(bytes).text
            && (n < |p| ==> Whole(r, bytes[..n]).Missing?)
  {
    var text := r.decode(bytes).text;
    var s := r.scan(text);
    FinishedWithin(r, text, s.end, s.usage);
    assert CutsWholeCharacters(r, bytes, s.end);
    assert text[..s.end][..s.end] == text[..s.end];
    var p := bytes[..r.size(text[..s.end])];
    assert p[..|p|] == p;
    if n < |p| {
      ShorterIsMissing(r, bytes, n);
    }
  }
}
