/**
 Reading a server-sent event stream up to its terminal event. Chunks arrive cut anywhere, even inside a character
 or a delimiter; the JSON reading of an event's data is the parameter `read`.
 */
module SseFraming {
  import T = Text
  import opened Utf8
  import opened ChunkedReader
  import opened EventScan

  const CR: Scalar := 13
  const LF: Scalar := 10
  const BOM: Scalar := 0xFEFF
  const DATA: Chars := [0x64, 0x61, 0x74, 0x61, 0x3A]
  const DONE: Chars := [0x5B, 0x44, 0x4F, 0x4E, 0x45, 0x5D]

  // ---- Events ----

  /** The length of the line end `\r?\n` at `i`, 0 if there is none. */
  function Newline(t: Chars, i: nat): nat {
    if i < |t| && t[i] == LF then 1
    else if i + 1 < |t| && t[i] == CR && t[i + 1] == LF then 2
    else 0
  }

  /** The length of the delimiter `\r?\n\r?\n` at `i`, 0 if there is none. */
  function Delimiter(t: Chars, i: nat): (n: nat)
    ensures n > 0 ==> 2 <= n <= 4 && i + n <= |t| && t[i + n - 1] == LF
  {
    var a := Newline(t, i);
    var b := Newline(t, i + a);
    if a > 0 && b > 0 then a + b else 0
  }

  /** The first delimiter from `i` on. */
  function Find(t: Chars, i: nat): (r: T.Option<nat>)
    requires i <= |t|
    ensures r.Some? ==> i <= r.value && Delimiter(t, r.value) > 0
    decreases |t| - i
  {
    if i == |t| then T.None
    else if Delimiter(t, i) > 0 then T.Some(i)
    else Find(t, i + 1)
  }

  lemma {:induction false} FindIsFirst(t: Chars, i: nat, j: nat)
    requires i <= j < |t| && (Find(t, i).Some? ==> j < Find(t, i).value)
    ensures Delimiter(t, j) == 0
    decreases |t| - i
  {
    if i < j {
      FindIsFirst(t, i + 1, j);
    }
  }

  lemma {:induction false} FindFinds(t: Chars, i: nat, k: nat)
    requires i <= k < |t| && Delimiter(t, k) > 0
    requires forall j :: i <= j < k ==> Delimiter(t, j) == 0
    ensures Find(t, i) == T.Some(k)
    decreases k - i
  {
    if i < k {
      FindFinds(t, i + 1, k);
    }
  }

  /** `event.split(/\r?\n/)`, for the line that began at `start`. */
  function Lines(t: Chars, start: nat, i: nat): seq<Chars>
    requires start <= i <= |t|
    decreases |t| - i
  {
    if i == |t| then [t[start..]]
    else
      var n := Newline(t, i);
      if n > 0 then [t[start..i]] + Lines(t, i + n, i + n) else Lines(t, start, i + 1)
  }

  function TrimStart(t: Chars): Chars {
    if t != [] && t[0] < 0x1_0000 && T.IsSpace(t[0]) then TrimStart(t[1..]) else t
  }

  /** The `data:` lines without their field name, joined by line feeds. */
  function Data(lines: seq<Chars>): Chars {
    if lines == [] then []
    else if DATA <= lines[0] then
      var rest := lines[1..];
      TrimStart(lines[0][|DATA|..]) + (if exists l :: l in rest && DATA <= l then [LF] + Data(rest) else [])
    else Data(lines[1..])
  }

  function Judging(read: Chars -> Verdict): Chars -> Verdict {
    (event: Chars) => Judge(read, event)
  }

  function Judge(read: Chars -> Verdict, event: Chars): Verdict {
    if BOM in event then Refuse
    else
      var data := Data(Lines(event, 0, 0));
      if data == [] || data == DONE then Skip else read(data)
  }

  /** A delimiter that is all there stays the first one, whatever follows. */
  lemma FindIsStable(t: Chars, u: Chars)
    requires Find(t, 0).Some?
    ensures Find(t + u, 0) == Find(t, 0)
    ensures Delimiter(t + u, Find(t, 0).value) == Delimiter(t, Find(t, 0).value)
  {
    var i := Find(t, 0).value;
    var w := t + u;
    assert forall j :: 0 <= j < |t| ==> w[j] == t[j];
    forall j | 0 <= j < i ensures Delimiter(w, j) == 0 {
      FindIsFirst(t, 0, j);
    }
    FindFinds(w, 0, i);
  }

  lemma NoNewDelimiter(t: Chars, e: nat, j: nat)
    requires e <= |t| && Delimiter(t, j) == 0
    ensures Delimiter(t[..e], j) == 0
  {
  }

  lemma FindInPrefix(t: Chars, e: nat)
    requires Find(t, 0).Some? && Find(t, 0).value + Delimiter(t, Find(t, 0).value) <= e <= |t|
    ensures Find(t[..e], 0) == Find(t, 0)
    ensures Delimiter(t[..e], Find(t, 0).value) == Delimiter(t, Find(t, 0).value)
  {
    var i := Find(t, 0).value;
    forall j | 0 <= j < i ensures Delimiter(t[..e], j) == 0 {
      FindIsFirst(t, 0, j);
      NoNewDelimiter(t, e, j);
    }
    FindFinds(t[..e], 0, i);
  }

  // ---- The reader of this stream ----

  function FirstEvent(t: Chars): Cut {
    match Find(t, 0)
    case None => NoCut
    case Some(i) => Cut(i, i + Delimiter(t, i))
  }

  function FirstEventOf(): Chars -> Cut {
    (t: Chars) => FirstEvent(t)
  }

  lemma FirstEventCutsWell()
    ensures CutsWell(FirstEventOf())
  {
    forall t: Chars, u: Chars ensures CutsStay(FirstEventOf(), t, u) {
      if Find(t, 0).Some? {
        FindIsStable(t, u);
      }
    }
  }

  /** UTF-8, the blank-line delimiter, and events judged by their data. */
  function Sse(read: Chars -> Verdict): Reader {
    Reader(
      (bytes: Bytes) => Decode(bytes),
      (text: Chars) => |Encode(text)|,
      FirstEventOf(),
      Judging(read),
      (text: Chars) => Scan(FirstEventOf(), Judging(read), text))
  }

  lemma EncodePrefix(bytes: Bytes, k: nat)
    requires Decode(bytes).Good? && k <= |Decode(bytes).text|
    ensures Encode(Decode(bytes).text[..k]) <= bytes
  {
    DecodeLosesNothing(bytes);
    EncodeTextPrefix(Decode(bytes).text, k);
    PrefixOf(Encode(Decode(bytes).text[..k]), Encode(Decode(bytes).text), Decode(bytes).held, bytes);
  }

  lemma TakeDrop(text: Chars, k: nat)
    requires k <= |text|
    ensures text[..k] + text[k..] == text
  {
  }

  lemma EncodeTextPrefix(text: Chars, k: nat)
    requires k <= |text|
    ensures Encode(text[..k]) <= Encode(text)
  {
    TakeDrop(text, k);
    EncodePrefixOf(text[..k], text[k..], text);
  }

  lemma EncodePrefixOf(a: Chars, b: Chars, text: Chars)
    requires a + b == text
    ensures Encode(a) <= Encode(text)
  {
    EncodeInPieces(a, b);
  }

  lemma PrefixOf(a: Bytes, b: Bytes, rest: Bytes, whole: Bytes)
    requires a <= b && b + rest == whole
    ensures a <= whole
  {
  }

  /** UTF-8 and the delimiter obey the laws: no chunk boundary shows, wherever it falls. */
  lemma SseIsLawful(read: Chars -> Verdict)
    ensures Lawful(Sse(read))
  {
    var r := Sse(read);
    forall a: Bytes, b: Bytes ensures DecodesInPieces(r, a, b) && BadStaysBad(r, a, b) {
      DecodeInPieces(a, b);
    }
    forall a: Chars, b: Chars ensures SizesAdd(r, a, b) {
      EncodeInPieces(a, b);
    }
    forall bytes: Bytes, k: nat ensures SizeFits(r, bytes, k) {
      if r.decode(bytes).Good? && k <= |r.decode(bytes).text| {
        EncodePrefix(bytes, k);
      }
    }
    forall bytes: Bytes, k: nat ensures CutsWholeCharacters(r, bytes, k) {
      if Decode(bytes).Good? && k <= |Decode(bytes).text| {
        EncodePrefix(bytes, k);
        EncodeDecodes(Decode(bytes).text[..k]);
        assert bytes[..|Encode(Decode(bytes).text[..k])|] == Encode(Decode(bytes).text[..k]);
      }
    }
    forall t: Chars, k: nat ensures CutsPrefixes(r, t, k) {
      if Find(t, 0).Some? && FirstEvent(t).next <= k <= |t| {
        FindInPrefix(t, k);
      }
    }
    FirstEventCutsWell();
    forall t: Chars, u: Chars ensures ScansOn(r, t, u) {
      ScanIsStable(FirstEventOf(), Judging(read), t, u);
    }
    forall t: Chars ensures ScansEvents(r, t) {
      assert CutsInside(FirstEventOf(), t);
    }
  }

  /** `terminalResponse`, once the headers are accepted. */
  method ReadTerminal(read: Chars -> Verdict, chunks: seq<Bytes>) returns (result: Result)
    ensures Sound(Sse(read), Joined(chunks)) ==> result == Whole(Sse(read), Joined(chunks))
    ensures result == Piecewise(Sse(read), chunks, 0)
  {
    SseIsLawful(read);
    result := TerminalResponse(Sse(read), chunks);
    if Sound(Sse(read), Joined(chunks)) {
      ChunkIndependence(Sse(read), chunks);
    }
  }

  // ---- A late fault ----

  lemma LateByteIsBad(bytes: Bytes)
    requires Decode(bytes).Good?
    ensures Decode(bytes + [0xFF]).Bad?
  {
    DecodeInPieces(bytes, [0xFF]);
    var held := Decode(bytes).held;
    var w := held + [0xFF];
    DecodeLosesNothing(bytes);
    HeldStarts(bytes);
    if held != [] {
      assert w[0] == held[0] && !Continues(w[0], |held|, w[|held|]);
    }
    assert !Starts(w);
  }

  lemma {:induction false} HeldStarts(bytes: Bytes)
    requires Decode(bytes).Good?
    ensures var held := Decode(bytes).held; held != [] ==> |held| < Length(held[0])
    decreases |bytes|
  {
    if bytes != [] && |bytes| >= Length(bytes[0]) {
      HeldStarts(bytes[Length(bytes[0])..]);
    }
  }

  /** A decided stream, followed by a byte that no character contains: two chunkings, two answers. */
  lemma LateByteDependsOnChunks(read: Chars -> Verdict, a: Bytes)
    requires Sound(Sse(read), a) && !Whole(Sse(read), a).Missing?
    ensures Piecewise(Sse(read), [a, [0xFF]], 0) == Whole(Sse(read), a)
    ensures var late := Piecewise(Sse(read), [a + [0xFF]], 0); late.Undecodable? || late.TooLarge?
  {
    SseIsLawful(read);
    LateByteIsBad(a);
    LateFaultDependsOnChunks(Sse(read), a, [0xFF]);
  }

  lemma {:induction false} OneLine(t: Chars, i: nat)
    requires i <= |t| && LF !in t
    ensures Lines(t, 0, i) == [t]
    decreases |t| - i
  {
    if i < |t| {
      OneLine(t, i + 1);
    }
  }

  const ONE_EVENT: Chars := DATA + [0x78, LF, LF]

  lemma OneEventData(event: Chars)
    requires event == DATA + [0x78]
    ensures Data(Lines(event, 0, 0)) == [0x78]
  {
    OneLine(event, 0);
    var lines: seq<Chars> := [event];
    assert DATA <= event && event[|DATA|..] == [0x78] && |lines[1..]| == 0;
    assert TrimStart([0x78]) + [] == [0x78];
  }

  lemma OneEventIsTaken(read: Chars -> Verdict)
    requires read([0x78]).Complete?
    ensures Scan(FirstEventOf(), Judging(read), ONE_EVENT) == Finished(8, read([0x78]).usage)
  {
    var t := ONE_EVENT;
    assert t == [0x64, 0x61, 0x74, 0x61, 0x3A, 0x78, 10, 10];
    FindFinds(t, 0, 6);
    assert FirstEvent(t) == Cut(6, 8);
    assert t[..6] == DATA + [0x78];
    OneEventData(t[..6]);
    assert Judging(read)(t[..6]) == read([0x78]);
  }

  lemma {:induction false} EncodeIsShort(text: Chars)
    ensures |Encode(text)| <= 4 * |text|
  {
    if text != [] {
      EncodeIsShort(text[1..]);
    }
  }

  lemma OneEventIsWhole(read: Chars -> Verdict)
    requires read([0x78]).Complete?
    ensures var a := Encode(ONE_EVENT);
            Sound(Sse(read), a) && Whole(Sse(read), a) == Accepted(a, read([0x78]).usage) && |a| <= 32
  {
    EncodeDecodes(ONE_EVENT);
    EncodeIsShort(ONE_EVENT);
    OneEventIsTaken(read);
    FinishedIsAccepted(Sse(read), Encode(ONE_EVENT), ONE_EVENT, read([0x78]).usage);
  }

  lemma FinishedIsAccepted(r: Reader, bytes: Bytes, text: Chars, u: Usage)
    requires |bytes| <= MAX_RESPONSE && r.decode(bytes) == Good(text, []) && r.scan(text) == Finished(|text|, u)
    requires r.size(text) == |bytes|
    ensures Whole(r, bytes) == Accepted(bytes, u)
  {
    assert text[..|text|] == text && bytes[..|bytes|] == bytes;
  }

  lemma ShortIsNotTooLarge(r: Reader, bytes: Bytes)
    requires |bytes| <= MAX_RESPONSE
    ensures !Piecewise(r, [bytes], 0).TooLarge?
  {
    JoinedSnoc([bytes], 0);
    assert [bytes][..0] == [] && Joined([bytes][..0]) == [] && [] + bytes == bytes;
    assert Piecewise(r, [bytes], 1) == Missing;
  }

  /** The event `data:x` completes the stream; with `0xFF` behind it in the same chunk it is not seen. */
  lemma LateByteExample(read: Chars -> Verdict)
    requires read([0x78]).Complete?
    ensures ONE_EVENT == [0x64, 0x61, 0x74, 0x61, 0x3A, 0x78, 10, 10]
    ensures Piecewise(Sse(read), [Encode(ONE_EVENT), [0xFF]], 0) == Accepted(Encode(ONE_EVENT), read([0x78]).usage)
    ensures Piecewise(Sse(read), [Encode(ONE_EVENT) + [0xFF]], 0) == Undecodable
  {
    OneEventIsWhole(read);
    LateByteDependsOnChunks(read, Encode(ONE_EVENT));
    ShortIsNotTooLarge(Sse(read), Encode(ONE_EVENT) + [0xFF]);
  }
}
