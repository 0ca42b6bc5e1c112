/**
 What the delimiters, the lines and the data of an event stream are, said by slices of the text: the event-stream
 reader cuts, splits and joins exactly so.
 */
module SseEvents {
  import T = Text
  import opened Utf8
  import opened ChunkedReader
  import opened SseFraming

  // ---- Delimiters ----

  predicate StartsAt(t: Chars, i: nat, d: Chars) {
    i + |d| <= |t| && t[i..i + |d|] == d
  }

  /** Two line ends, each a line feed or a carriage return with one. */
  predicate IsDelimiter(d: Chars) {
    d == [10, 10] || d == [10, 13, 10] || d == [13, 10, 10] || d == [13, 10, 13, 10]
  }

  lemma DelimiterAt(t: Chars, i: nat, d: Chars)
    requires IsDelimiter(d) && StartsAt(t, i, d)
    ensures Delimiter(t, i) == |d|
  {
    var s := t[i..i + |d|];
    assert t[i] == s[0] == d[0] && t[i + 1] == s[1] == d[1];
    if |d| > 2 { assert t[i + 2] == s[2] == d[2]; }
    if |d| > 3 { assert t[i + 3] == s[3] == d[3]; }
  }

  lemma DelimiterMeans(t: Chars, i: nat)
    requires Delimiter(t, i) > 0
    ensures IsDelimiter(t[i..i + Delimiter(t, i)])
  {
    var n := Delimiter(t, i);
    var s := t[i..i + n];
    if n == 2 {
      assert s == [t[i], t[i + 1]];
    } else if n == 3 {
      assert s == [t[i], t[i + 1], t[i + 2]];
    } else {
      assert s == [t[i], t[i + 1], t[i + 2], t[i + 3]];
    }
  }

  /** The first event ends where the first delimiter starts, and the next one begins right behind it. */
  lemma FirstEventExactly(t: Chars)
    ensures match FirstEvent(t)
            case NoCut => forall i: nat, d :: IsDelimiter(d) ==> !StartsAt(t, i, d)
            case Cut(event, next) =>
              && event <= next <= |t| && IsDelimiter(t[event..next])
              && forall i: nat, d :: i < event && IsDelimiter(d) ==> !StartsAt(t, i, d)
  {
    var first := Find(t, 0);
    forall i: nat, d | IsDelimiter(d) && (first.Some? ==> i < first.value) ensures !StartsAt(t, i, d) {
      if StartsAt(t, i, d) {
        DelimiterAt(t, i, d);
        FindIsFirst(t, 0, i);
      }
    }
    if first.Some? { DelimiterMeans(t, first.value); }
  }

  // ---- Lines ----

  predicate IsLineEnd(e: Chars) {
    e == [10] || e == [13, 10]
  }

  /** Lines hold no line feed; one before a bare line feed does not end in the carriage return that would belong to it. */
  predicate AreLines(lines: seq<Chars>, ends: seq<Chars>) {
    && |lines| == |ends| + 1
    && (forall k :: 0 <= k < |lines| ==> 10 !in lines[k])
    && (forall k :: 0 <= k < |ends| ==>
          IsLineEnd(ends[k]) && (ends[k] == [10] && lines[k] != [] ==> lines[k][|lines[k]| - 1] != 13))
  }

  function Unsplit(lines: seq<Chars>, ends: seq<Chars>): Chars
    requires |lines| == |ends| + 1
  {
    if ends == [] then lines[0] else lines[0] + ends[0] + Unsplit(lines[1..], ends[1..])
  }

  lemma NoEndInside(t: Chars, i: nat, k: nat, line: Chars, rest: Chars)
    requires k < |line| && i + |line| - k + |rest| == |t| && t[i..] == line[k..] + rest && 10 !in line
    requires rest != [] ==> IsLineEnd(rest[..1]) || (|rest| > 1 && IsLineEnd(rest[..2]))
    requires rest != [] && rest[0] == 10 ==> line[|line| - 1] != 13
    ensures Newline(t, i) == 0
  {
    assert t[i] == t[i..][0] == line[k];
    if i + 1 < |t| {
      assert t[i + 1] == t[i..][1];
      if k + 1 < |line| { assert t[i + 1] == line[k + 1]; } else { assert t[i + 1] == rest[0]; }
    }
  }

  lemma EndAt(t: Chars, i: nat, end: Chars, rest: Chars)
    requires i <= |t| && t[i..] == end + rest && IsLineEnd(end)
    ensures Newline(t, i) == |end| && i + |end| <= |t| && t[i + |end|..] == rest
  {
    assert |t| - i == |end| + |rest|;
    assert forall k :: 0 <= k < |end| ==> t[i + k] == t[i..][k] == end[k];
    assert t[i + |end|..] == t[i..][|end|..];
  }

  lemma LineHead(t: Chars, start: nat, k: nat, line: Chars, rest: Chars)
    requires start <= |t| && t[start..] == line + rest && k <= |line|
    ensures start + k <= |t| && |t| - start == |line| + |rest| && t[start + k..] == line[k..] + rest
    ensures t[start..start + |line|] == line
  {
    assert |t[start..]| == |t| - start;
    assert t[start + k..] == t[start..][k..];
    assert t[start..start + |line|] == t[start..][..|line|];
  }

  lemma {:induction false} LastLine(t: Chars, start: nat, k: nat, line: Chars)
    requires start <= |t| && t[start..] == line && 10 !in line && k <= |line|
    ensures start + k <= |t| && Lines(t, start, start + k) == [line]
    decreases |line| - k
  {
    assert |t| - start == |line|;
    if k < |line| {
      LineHead(t, start, k, line, []);
      NoEndInside(t, start + k, k, line, []);
      LastLine(t, start, k + 1, line);
    }
  }

  /** From inside the first line, of which `k` characters are behind. */
  lemma {:induction false} WalkLine(t: Chars, start: nat, k: nat, lines: seq<Chars>, ends: seq<Chars>, rest: Chars)
    requires AreLines(lines, ends) && ends != [] && rest == ends[0] + Unsplit(lines[1..], ends[1..])
    requires start <= |t| && k <= |lines[0]| && t[start..] == lines[0] + rest
    ensures start + k <= |t| && Lines(t, start, start + k) == lines
    decreases |t| - start, 1, |lines[0]| - k
  {
    LineHead(t, start, k, lines[0], rest);
    if k < |lines[0]| {
      RestStarts(ends[0], rest);
      NoEndInside(t, start + k, k, lines[0], rest);
      WalkLine(t, start, k + 1, lines, ends, rest);
    } else {
      NextLine(t, start, lines, ends);
    }
  }

  lemma {:induction false} WalkLines(t: Chars, start: nat, lines: seq<Chars>, ends: seq<Chars>)
    requires AreLines(lines, ends) && start <= |t| && t[start..] == Unsplit(lines, ends)
    ensures Lines(t, start, start) == lines
    decreases |t| - start, 2
  {
    if ends == [] {
      LastLine(t, start, 0, lines[0]);
    } else {
      var rest := ends[0] + Unsplit(lines[1..], ends[1..]);
      assert t[start..] == lines[0] + rest;
      WalkLine(t, start, 0, lines, ends, rest);
    }
  }

  lemma RestStarts(end: Chars, rest: Chars)
    requires IsLineEnd(end) && end <= rest
    ensures rest[0] == end[0] && (IsLineEnd(rest[..1]) || (|rest| > 1 && IsLineEnd(rest[..2])))
  {
    assert rest[..|end|] == end;
  }

  lemma {:induction false} NextLine(t: Chars, start: nat, lines: seq<Chars>, ends: seq<Chars>)
    requires AreLines(lines, ends) && ends != [] && start + |lines[0]| <= |t| && t[start..start + |lines[0]|] == lines[0]
    requires t[start + |lines[0]|..] == ends[0] + Unsplit(lines[1..], ends[1..])
    ensures Lines(t, start, start + |lines[0]|) == lines
    decreases |t| - start, 0, 0
  {
    var i := start + |lines[0]|;
    EndAt(t, i, ends[0], Unsplit(lines[1..], ends[1..]));
    WalkLines(t, i + |ends[0]|, lines[1..], ends[1..]);
  }

  /** Splitting undoes joining, with whichever line ends. */
  lemma LinesExactly(lines: seq<Chars>, ends: seq<Chars>)
    requires AreLines(lines, ends)
    ensures Lines(Unsplit(lines, ends), 0, 0) == lines
  {
    WalkLines(Unsplit(lines, ends), 0, lines, ends);
  }

  /** One more character in front of lines. */
  lemma InFrontOf(c: Scalar, lines: seq<Chars>, ends: seq<Chars>)
    requires AreLines(lines, ends) && c != 10 && (c == 13 && ends != [] && lines[0] == [] ==> ends[0] != [10])
    ensures AreLines(lines[0 := [c] + lines[0]], ends)
    ensures Unsplit(lines[0 := [c] + lines[0]], ends) == [c] + Unsplit(lines, ends)
  {
    var more := lines[0 := [c] + lines[0]];
    assert more[1..] == lines[1..];
    if ends != [] { assert [c] + lines[0] + ends[0] + Unsplit(lines[1..], ends[1..]) == [c] + Unsplit(lines, ends); }
  }

  lemma FeedInFrontOf(lines: seq<Chars>, ends: seq<Chars>)
    requires AreLines(lines, ends)
    ensures AreLines([[]] + lines, [[10]] + ends) && Unsplit([[]] + lines, [[10]] + ends) == [10] + Unsplit(lines, ends)
  {
    var (more, all) := ([[]] + lines, [[10]] + ends);
    assert more[1..] == lines && all[1..] == ends;
    forall k | 0 <= k < |all| ensures IsLineEnd(all[k]) && (all[k] == [10] && more[k] != [] ==> more[k][|more[k]| - 1] != 13) {
      assert k > 0 ==> all[k] == ends[k - 1] && more[k] == lines[k - 1];
    }
  }

  lemma ReturnInFrontOf(lines: seq<Chars>, ends: seq<Chars>)
    requires AreLines(lines, ends) && lines[0] == [] && ends != [] && ends[0] == [10]
    ensures AreLines(lines, ends[0 := [13, 10]]) && Unsplit(lines, ends[0 := [13, 10]]) == [13] + Unsplit(lines, ends)
  {
    var all := ends[0 := [13, 10]];
    assert all[1..] == ends[1..];
    assert [13, 10] == [13] + [10];
  }

  /** Every text is made of lines. */
  lemma {:induction false} HasLines(t: Chars) returns (lines: seq<Chars>, ends: seq<Chars>)
    ensures AreLines(lines, ends) && Unsplit(lines, ends) == t
    ensures t != [] && t[0] == 10 ==> lines[0] == [] && ends != [] && ends[0] == [10]
    decreases |t|
  {
    if t == [] { return [[]], []; }
    lines, ends := HasLines(t[1..]);
    assert t == [t[0]] + t[1..];
    if t[0] == 10 {
      FeedInFrontOf(lines, ends);
      lines, ends := [[]] + lines, [[10]] + ends;
    } else if t[0] == 13 && |t| > 1 && t[1] == 10 {
      ReturnInFrontOf(lines, ends);
      ends := ends[0 := [13, 10]];
    } else {
      if ends != [] && lines[0] == [] && ends[0] == [10] { FirstLine(t[1..], lines, ends); }
      InFrontOf(t[0], lines, ends);
      lines := lines[0 := [t[0]] + lines[0]];
    }
  }

  /** A first line that is empty before a line feed means the text begins with one. */
  lemma FirstLine(t: Chars, lines: seq<Chars>, ends: seq<Chars>)
    requires AreLines(lines, ends) && Unsplit(lines, ends) == t && lines[0] == [] && ends != [] && ends[0] == [10]
    ensures t != [] && t[0] == 10
  {
  }

  // ---- Data ----

  /** It starts with `data:`. */
  predicate IsDataLine(line: Chars) {
    |line| >= 5 && line[..5] == [0x64, 0x61, 0x74, 0x61, 0x3A]
  }

  function Fields(lines: seq<Chars>): seq<Chars> {
    if lines == [] then [] else (if IsDataLine(lines[0]) then [lines[0][5..]] else []) + Fields(lines[1..])
  }

  function JoinedByFeeds(parts: seq<Chars>): Chars {
    if parts == [] then [] else if |parts| == 1 then parts[0] else parts[0] + [10] + JoinedByFeeds(parts[1..])
  }

  predicate IsWhite(c: Scalar) {
    c < 0x1_0000 && T.IsSpace(c)
  }

  /** `r` is `t` from its first character on that is not white space. */
  predicate TrimsTo(t: Chars, r: Chars) {
    && |r| <= |t| && t[|t| - |r|..] == r
    && (forall k :: 0 <= k < |t| - |r| ==> IsWhite(t[k]))
    && (r != [] ==> !IsWhite(r[0]))
  }

  predicate AllTrimTo(fields: seq<Chars>, parts: seq<Chars>) {
    |parts| == |fields| && forall k :: 0 <= k < |fields| ==> TrimsTo(fields[k], parts[k])
  }

  lemma {:induction false} TrimExactly(t: Chars, r: Chars)
    ensures TrimsTo(t, r) <==> r == TrimStart(t)
  {
    if t != [] && IsWhite(t[0]) {
      TrimExactly(t[1..], r);
      if TrimsTo(t, r) {
        assert t[0..] == t;
        assert t[1..][|t| - 1 - |r|..] == r;
      }
      if TrimsTo(t[1..], r) {
        assert t[|t| - |r|..] == r;
        assert forall k :: 0 < k < |t| - |r| ==> t[k] == t[1..][k - 1];
      }
    } else if TrimsTo(t, r) {
      assert |r| == |t|;
      assert t[0..] == t;
    }
  }

  lemma InFront(lines: seq<Chars>)
    requires lines != []
    ensures (exists l :: l in lines && DATA <= l) <==> DATA <= lines[0] || exists l :: l in lines[1..] && DATA <= l
  {
    if l :| l in lines && DATA <= l {
      assert l == lines[0] || l in lines[1..];
    }
    if l :| l in lines[1..] && DATA <= l {
      assert l in lines;
    }
    assert lines[0] in lines;
  }

  lemma {:induction false} FieldsExist(lines: seq<Chars>)
    ensures Fields(lines) != [] <==> exists l :: l in lines && DATA <= l
  {
    if lines != [] {
      FieldsExist(lines[1..]);
      assert IsDataLine(lines[0]) <==> DATA <= lines[0];
      assert lines[0] in lines;
      assert Fields(lines) != [] <==> IsDataLine(lines[0]) || Fields(lines[1..]) != [];
      InFront(lines);
    }
  }

  /** The data of an event is its `data:` lines without the field name and the space behind it, joined by line feeds. */
  lemma {:induction false} DataExactly(lines: seq<Chars>, parts: seq<Chars>)
    requires AllTrimTo(Fields(lines), parts)
    ensures Data(lines) == JoinedByFeeds(parts)
  {
    if lines != [] {
      FieldsExist(lines[1..]);
      assert IsDataLine(lines[0]) <==> DATA <= lines[0];
      if IsDataLine(lines[0]) {
        assert Fields(lines)[1..] == Fields(lines[1..]);
        assert forall k :: 0 <= k < |Fields(lines[1..])| ==> Fields(lines)[k + 1] == Fields(lines[1..])[k];
        TrimExactly(Fields(lines)[0], parts[0]);
        DataExactly(lines[1..], parts[1..]);
      } else {
        assert Fields(lines) == Fields(lines[1..]);
        DataExactly(lines[1..], parts);
      }
    }
  }

  /** How an event of any lines, whatever ends them, is judged. */
  lemma EventIsJudged(read: Chars -> Verdict, lines: seq<Chars>, ends: seq<Chars>, parts: seq<Chars>)
    requires AreLines(lines, ends) && AllTrimTo(Fields(lines), parts)
    ensures var event, data := Unsplit(lines, ends), JoinedByFeeds(parts);
            Sse(read).judge(event) ==
              if 0xFEFF in event then Refuse
              else if data == [] || data == [0x5B, 0x44, 0x4F, 0x4E, 0x45, 0x5D] then Skip
              else read(data)
  {
    LinesExactly(lines, ends);
    DataExactly(lines, parts);
  }

  ghost predicate NoneBefore(t: Chars, end: nat) {
    forall i: nat, d :: i < end && IsDelimiter(d) ==> !StartsAt(t, i, d)
  }

  /** So the stream is read event by event: the text up to the first delimiter is judged, and what follows is next. */
  lemma EventsAreTaken(read: Chars -> Verdict, t: Chars, event: nat, next: nat)
    requires event <= next <= |t| && IsDelimiter(t[event..next]) && NoneBefore(t, event)
    ensures Sse(read).scan(t) == match Sse(read).judge(t[..event])
                                 case Skip => Shift(Sse(read).scan(t[next..]), next)
                                 case Refuse => Stopped
                                 case Complete(u) => Finished(next, u)
  {
    FirstEventExactly(t);
    assert StartsAt(t, event, t[event..next]);
    DelimiterAt(t, event, t[event..next]);
    var c := FirstEvent(t);
    if c.Cut? && c.event < event { assert StartsAt(t, c.event, t[c.event..c.next]); }
    assert c == Cut(event, next);
  }

  lemma NothingIsTaken(read: Chars -> Verdict, t: Chars)
    requires NoneBefore(t, |t|)
    ensures Sse(read).scan(t) == More(0)
  {
    FirstEventExactly(t);
    var c := FirstEvent(t);
    if c.Cut? { assert StartsAt(t, c.event, t[c.event..c.next]); }
  }
}
