/**
 Live preview of a freeform tool call. The model wraps the tool body as `{"input":"..."}`; the
 bridge unwraps the partial buffer and streams only the decoded suffix it has not sent yet.
 */
module Freeform {
  import opened Text

  /** The code units of `{"input":"`. */
  const WRAP: Text := [0x7B, 0x22, 0x69, 0x6E, 0x70, 0x75, 0x74, 0x22, 0x3A, 0x22]

  predicate IsHex(c: CodeUnit) {
    0x30 <= c <= 0x39 || 0x41 <= c <= 0x46 || 0x61 <= c <= 0x66
  }

  function HexValue(c: CodeUnit): (v: int)
    requires IsHex(c)
    ensures 0 <= v < 16
  {
    if c <= 0x39 then c - 0x30 else if c <= 0x46 then c - 0x41 + 10 else c - 0x61 + 10
  }

  predicate IsHex4(h: Text) {
    |h| == 4 && IsHex(h[0]) && IsHex(h[1]) && IsHex(h[2]) && IsHex(h[3])
  }

  function Hex4Value(h: Text): CodeUnit
    requires IsHex4(h)
  {
    ((HexValue(h[0]) * 16 + HexValue(h[1])) * 16 + HexValue(h[2])) * 16 + HexValue(h[3])
  }

  /** What a two-character escape contributes to the preview; `\b` and `\f` are not special. */
  function ShortEscape(n: CodeUnit): CodeUnit {
    if n == 0x6E then 0x0A else if n == 0x74 then 0x09 else if n == 0x72 then 0x0D else n
  }

  /** The decoded part of a wrapper body, up to its closing quote or its first incomplete escape. */
  function DecodeBody(body: Text): Text {
    if body == [] || body[0] == QUOTE then []
    else if body[0] != BACKSLASH then [body[0]] + DecodeBody(body[1..])
    else if |body| == 1 then []
    else if body[1] != 0x75 then [ShortEscape(body[1])] + DecodeBody(body[2..])
    else if |body| >= 6 && IsHex4(body[2..6]) then [Hex4Value(body[2..6])] + DecodeBody(body[6..])
    else []
  }

  function PartialInput(args: Text): Text {
    if WRAP <= args then DecodeBody(args[|WRAP|..]) else args
  }

  /** The source's index loop over the wrapper body. */
  method FreeformPartialInput(args: Text) returns (out: Text)
    ensures out == PartialInput(args)
  {
    if !(WRAP <= args) {
      return args;
    }
    var body := args[|WRAP|..];
    out := [];
    var i := 0;
    assert body[0..] == body;
    while i < |body|
      invariant 0 <= i <= |body|
      invariant SoFar(body, i, out)
    {
      var unit, n := UnitAt(body, i);
      if n == 0 {
        break;
      }
      Further(body, i, out, unit, n);
      out := out + [unit];
      i := i + n;
    }
  }

  predicate SoFar(body: Text, i: nat, out: Text) {
    i <= |body| && out + DecodeBody(body[i..]) == DecodeBody(body)
  }

  predicate Takes(body: Text, i: nat, unit: CodeUnit, n: nat) {
    i + n <= |body| && DecodeBody(body[i..]) == [unit] + DecodeBody(body[i..][n..])
  }

  lemma Further(body: Text, i: nat, out: Text, unit: CodeUnit, n: nat)
    requires SoFar(body, i, out) && Takes(body, i, unit, n)
    ensures SoFar(body, i + n, out + [unit])
  {
    assert body[i..][n..] == body[i + n..];
    Glue(out, unit, DecodeBody(body[i + n..]), DecodeBody(body));
  }

  lemma Glue(out: Text, unit: CodeUnit, rest: Text, whole: Text)
    requires out + ([unit] + rest) == whole
    ensures (out + [unit]) + rest == whole
  {
  }

  /** One round of the loop: the unit at `i` and the length of its spelling, 0 at the end. */
  method UnitAt(body: Text, i: nat) returns (unit: CodeUnit, n: nat)
    requires i < |body|
    ensures i + n <= |body|
    ensures n == 0 ==> DecodeBody(body[i..]) == []
    ensures n > 0 ==> Takes(body, i, unit, n)
  {
    unit, n := body[i], 1;
    if body[i] == QUOTE {
      n := 0;
    } else if body[i] == BACKSLASH {
      unit, n := EscapeAt(body, i);
    }
  }

  /** The escape at `i` and its length, 0 while it is incomplete or malformed. */
  method EscapeAt(body: Text, i: nat) returns (unit: CodeUnit, n: nat)
    requires i < |body| && body[i] == BACKSLASH
    ensures i + n <= |body|
    ensures n == 0 ==> DecodeBody(body[i..]) == []
    ensures n > 0 ==> Takes(body, i, unit, n)
  {
    ghost var rest := body[i..];
    unit, n := 0, 0;
    if i + 1 == |body| {
      return;
    }
    var c := body[i + 1];
    if c == 0x75 {
      var hex := body[i + 2..if i + 6 <= |body| then i + 6 else |body|];
      assert |rest| >= 6 ==> hex == rest[2..6];
      if IsHex4(hex) {
        unit, n := Hex4Value(hex), 6;
      }
    } else {
      unit, n := ShortEscape(c), 2;
    }
  }

  // ---- Prefix monotonicity: why the preview never has to rewind ----

  lemma {:induction false} DecodeBodyMonotone(a: Text, b: Text)
    ensures DecodeBody(a) <= DecodeBody(a + b)
  {
    if a == [] || a[0] == QUOTE {
    } else if a[0] != BACKSLASH {
      assert (a + b)[1..] == a[1..] + b;
      DecodeBodyMonotone(a[1..], b);
    } else if |a| == 1 {
    } else if a[1] != 0x75 {
      assert (a + b)[2..] == a[2..] + b;
      DecodeBodyMonotone(a[2..], b);
    } else if |a| >= 6 && IsHex4(a[2..6]) {
      assert (a + b)[2..6] == a[2..6] && (a + b)[6..] == a[6..] + b;
      DecodeBodyMonotone(a[6..], b);
    }
  }

  /** While the buffer is a prefix of the wrapper it is not known yet which mode applies. */
  predicate Ambiguous(args: Text) {
    args <= WRAP
  }

  /** Growing a buffer whose mode is settled only ever extends its preview. */
  lemma PartialInputMonotone(args: Text, more: Text)
    requires !Ambiguous(args)
    ensures !Ambiguous(args + more)
    ensures PartialInput(args) <= PartialInput(args + more)
  {
    if WRAP <= args {
      assert (args + more)[|WRAP|..] == args[|WRAP|..] + more;
      DecodeBodyMonotone(args[|WRAP|..], more);
    }
  }

  // ---- The preview state machine of one call ----

  datatype Preview = Preview(args: Text, emitted: Text, deltas: seq<Text>)

  /** What is to have been sent of a buffer: hold while ambiguous, otherwise the preview, if it goes on from before. */
  function Due(args: Text, emitted: Text): (due: Text)
    ensures emitted <= due
  {
    if Ambiguous(args) || !(emitted <= PartialInput(args)) then emitted else PartialInput(args)
  }

  /** One argument delta: only the new decoded suffix is sent. */
  function Feed(p: Preview, delta: Text): Preview {
    var args := p.args + delta;
    var due := Due(args, p.emitted);
    if due == p.emitted then p.(args := args) else Preview(args, due, p.deltas + [due[|p.emitted|..]])
  }

  function FeedAll(p: Preview, chunks: seq<Text>): Preview {
    if chunks == [] then p
    else Feed(FeedAll(p, chunks[..|chunks| - 1]), chunks[|chunks| - 1])
  }

  const FRESH := Preview([], [], [])

  /** What the client has been shown of a buffer, however it arrived. */
  function Shown(args: Text): Text {
    if Ambiguous(args) then [] else PartialInput(args)
  }

  ghost predicate InStep(p: Preview) {
    p.emitted == Shown(p.args) && Concat(p.deltas) == p.emitted
  }

  /** What is due goes on from what was shown, and is then all that is to be shown. */
  lemma DueIsShown(args: Text, delta: Text)
    ensures Shown(args) <= Shown(args + delta) == Due(args + delta, Shown(args))
  {
    if Ambiguous(args + delta) {
      assert args <= args + delta;
      assert Ambiguous(args);
    } else if !Ambiguous(args) {
      PartialInputMonotone(args, delta);
    }
  }

  lemma FeedKeepsInStep(p: Preview, delta: Text)
    requires InStep(p)
    ensures InStep(Feed(p, delta))
    ensures Feed(p, delta).args == p.args + delta
    // The source's `full.startsWith(emitted)` guard never rejects.
    ensures !Ambiguous(p.args + delta) ==> p.emitted <= PartialInput(p.args + delta)
  {
    DueIsShown(p.args, delta);
    var due := Due(p.args + delta, p.emitted);
    ConcatSnoc(p.deltas, due[|p.emitted|..]);
    assert p.emitted + due[|p.emitted|..] == due;
  }

  /** Chunking invariance: the deltas sent depend, concatenated, only on the whole argument text. */
  lemma {:induction false} PreviewIsChunkingInvariant(chunks: seq<Text>)
    ensures FeedAll(FRESH, chunks).args == Concat(chunks)
    ensures Concat(FeedAll(FRESH, chunks).deltas) == Shown(Concat(chunks))
    ensures InStep(FeedAll(FRESH, chunks))
  {
    if chunks == [] {
      assert Ambiguous([]);
    } else {
      var front, last := chunks[..|chunks| - 1], chunks[|chunks| - 1];
      PreviewIsChunkingInvariant(front);
      FeedKeepsInStep(FeedAll(FRESH, front), last);
    }
  }

  // ---- Round trip against the string grammar of section 7 of RFC 8259 ----

  /** One element of a JSON string: a literal code unit, a two-character escape, or `\uXXXX`. */
  datatype Token = Literal(c: CodeUnit) | Short(n: CodeUnit) | Hex(h: Text)

  predicate ValidToken(t: Token) {
    match t
    case Literal(c) => c >= 0x20 && c != QUOTE && c != BACKSLASH
    case Short(n) => n in {0x22, 0x5C, 0x2F, 0x62, 0x66, 0x6E, 0x72, 0x74}
    case Hex(h) => IsHex4(h)
  }

  /** The code unit the token stands for according to RFC 8259. */
  function Meaning(t: Token): CodeUnit
    requires ValidToken(t)
  {
    match t
    case Literal(c) => c
    case Short(n) =>
      if n == 0x62 then 0x08 else if n == 0x66 then 0x0C else if n == 0x6E then 0x0A
      else if n == 0x72 then 0x0D else if n == 0x74 then 0x09 else n
    case Hex(h) => Hex4Value(h)
  }

  function Spelling(t: Token): Text {
    match t
    case Literal(c) => [c]
    case Short(n) => [BACKSLASH, n]
    case Hex(h) => [BACKSLASH, 0x75] + h
  }

  ghost predicate ValidTokens(ts: seq<Token>) {
    forall i :: 0 <= i < |ts| ==> ValidToken(ts[i])
  }

  function Denote(ts: seq<Token>): Text
    requires ValidTokens(ts)
  {
    if ts == [] then [] else [Meaning(ts[0])] + Denote(ts[1..])
  }

  function Spell(ts: seq<Token>): Text {
    if ts == [] then [] else Spelling(ts[0]) + Spell(ts[1..])
  }

  /** The two short escapes the preview does not know. */
  predicate Misread(t: Token) {
    t == Short(0x62) || t == Short(0x66)
  }

  function DecodeToken(t: Token): CodeUnit
    requires ValidToken(t)
  {
    if t.Short? then ShortEscape(t.n) else Meaning(t)
  }

  lemma DecodeOneToken(t: Token, rest: Text)
    requires ValidToken(t)
    ensures DecodeBody(Spelling(t) + rest) == [DecodeToken(t)] + DecodeBody(rest)
    ensures DecodeToken(t) == Meaning(t) <==> !Misread(t)
  {
    var s := Spelling(t) + rest;
    match t
    case Literal(c) => assert s[1..] == rest;
    case Short(n) => assert s[2..] == rest;
    case Hex(h) => assert s[2..6] == h && s[6..] == rest;
  }

  /** Decoding yields one code unit a token, each the right one unless it spells `\b` or `\f`. */
  lemma {:induction false} DecodeSpelling(ts: seq<Token>, tail: Text)
    requires ValidTokens(ts)
    requires tail == [] || tail[0] == QUOTE
    ensures |DecodeBody(Spell(ts) + tail)| == |Denote(ts)| == |ts|
    ensures DecodeBody(Spell(ts) + tail) == Denote(ts) <==> ReadRight(ts)
  {
    if ts == [] {
      assert Spell(ts) + tail == tail;
    } else {
      var rest := Spell(ts[1..]) + tail;
      assert Spell(ts) + tail == Spelling(ts[0]) + rest;
      DecodeOneToken(ts[0], rest);
      DecodeSpelling(ts[1..], tail);
      ReadRightCons(ts);
      HeadsAndTails(DecodeToken(ts[0]), DecodeBody(rest), Meaning(ts[0]), Denote(ts[1..]));
    }
  }

  ghost predicate ReadRight(ts: seq<Token>) {
    forall i :: 0 <= i < |ts| ==> !Misread(ts[i])
  }

  lemma ReadRightCons(ts: seq<Token>)
    requires ts != []
    ensures ReadRight(ts) <==> !Misread(ts[0]) && ReadRight(ts[1..])
  {
    assert forall i :: 1 <= i < |ts| ==> ts[i] == ts[1..][i - 1];
  }

  lemma HeadsAndTails(a: CodeUnit, x: Text, b: CodeUnit, y: Text)
    ensures [a] + x == [b] + y <==> a == b && x == y
  {
    assert ([a] + x)[0] == a && ([b] + y)[0] == b;
    assert ([a] + x)[1..] == x && ([b] + y)[1..] == y;
  }

  /**
   The whole wrapper `{"input":"..."}`, its string spelled in any way RFC 8259 allows, decodes to the
   string it denotes exactly when no `\b` or `\f` escape occurs; every truncation of it that keeps the
   wrapper prefix decodes to a prefix of the same text.
   */
  lemma WrapperRoundTrip(ts: seq<Token>, cut: nat)
    requires ValidTokens(ts)
    requires |WRAP| <= cut <= |WRAP + Spell(ts) + [QUOTE, 0x7D]|
    ensures PartialInput(WRAP + Spell(ts) + [QUOTE, 0x7D]) == Denote(ts)
        <==> ReadRight(ts)
    ensures PartialInput((WRAP + Spell(ts) + [QUOTE, 0x7D])[..cut])
         <= PartialInput(WRAP + Spell(ts) + [QUOTE, 0x7D])
  {
    var body := Spell(ts) + [QUOTE, 0x7D];
    assert (WRAP + Spell(ts) + [QUOTE, 0x7D])[|WRAP|..] == body;
    DecodeSpelling(ts, [QUOTE, 0x7D]);
    TruncatedIsPrefix(WRAP + Spell(ts) + [QUOTE, 0x7D], cut);
  }

  lemma TruncatedIsPrefix(whole: Text, cut: nat)
    requires WRAP <= whole && |WRAP| <= cut <= |whole|
    ensures PartialInput(whole[..cut]) <= PartialInput(whole)
  {
    var part := whole[..cut];
    assert WRAP <= part;
    assert whole[|WRAP|..] == part[|WRAP|..] + whole[cut..];
    DecodeBodyMonotone(part[|WRAP|..], whole[cut..]);
  }

  // ---- The escaper the model's own serializer uses (`JSON.stringify`) ----

  function HexDigit(v: int): CodeUnit
    requires 0 <= v < 16
  {
    if v < 10 then 0x30 + v else 0x61 + v - 10
  }

  lemma HexDigitValue(v: int)
    requires 0 <= v < 16
    ensures IsHex(HexDigit(v)) && HexValue(HexDigit(v)) == v
  {
  }

  lemma HexParts(c: int)
    requires 0 <= c < 0x1_0000
    ensures 0 <= c / 4096 < 16 && 0 <= c / 256 % 16 < 16 && 0 <= c / 16 % 16 < 16
    ensures ((c / 4096 * 16 + c / 256 % 16) * 16 + c / 16 % 16) * 16 + c % 16 == c
  {
    var a, b := c / 256, c / 16;
    assert b == c / 16 && a == b / 16 && c / 4096 == a / 16;
  }

  function HexSpelling(c: CodeUnit): (h: Text)
    ensures IsHex4(h) && Hex4Value(h) == c
  {
    HexParts(c);
    var (a, b, d, e) := (c / 4096, c / 256 % 16, c / 16 % 16, c % 16);
    HexDigitValue(a); HexDigitValue(b); HexDigitValue(d); HexDigitValue(e);
    [HexDigit(a), HexDigit(b), HexDigit(d), HexDigit(e)]
  }

  /** The token `JSON.stringify` writes for a code unit; `lone` says it is an unpaired surrogate. */
  function Stringified(c: CodeUnit, lone: bool): (t: Token)
    ensures ValidToken(t) && Meaning(t) == c
    ensures Misread(t) <==> c == 0x08 || c == 0x0C
  {
    if c == QUOTE || c == BACKSLASH then Short(c)
    else if c == 0x08 then Short(0x62)
    else if c == 0x0C then Short(0x66)
    else if c == 0x0A then Short(0x6E)
    else if c == 0x0D then Short(0x72)
    else if c == 0x09 then Short(0x74)
    else if c < 0x20 || (0xD800 <= c <= 0xDFFF && lone) then Hex(HexSpelling(c))
    else Literal(c)
  }

  predicate LoneSurrogateAt(s: Text, i: nat)
    requires i < |s|
  {
    (0xD800 <= s[i] <= 0xDBFF && !(i + 1 < |s| && 0xDC00 <= s[i + 1] <= 0xDFFF))
    || (0xDC00 <= s[i] <= 0xDFFF && !(i > 0 && 0xD800 <= s[i - 1] <= 0xDBFF))
  }

  function Stringify(s: Text): (ts: seq<Token>)
    ensures |ts| == |s| && ValidTokens(ts)
  {
    seq(|s|, i requires 0 <= i < |s| => Stringified(s[i], LoneSurrogateAt(s, i)))
  }

  lemma {:induction false} DenoteIsPointwise(ts: seq<Token>, s: Text)
    requires ValidTokens(ts) && |ts| == |s|
    requires forall i :: 0 <= i < |s| ==> Meaning(ts[i]) == s[i]
    ensures Denote(ts) == s
  {
    if ts != [] {
      DenoteIsPointwise(ts[1..], s[1..]);
      assert s == [s[0]] + s[1..];
    }
  }

  /** Serializing and previewing gives the text back exactly when it has no U+0008 and no U+000C. */
  lemma StringifyRoundTrip(s: Text)
    ensures PartialInput(WRAP + Spell(Stringify(s)) + [QUOTE, 0x7D]) == s
        <==> forall i :: 0 <= i < |s| ==> s[i] != 0x08 && s[i] != 0x0C
  {
    var ts := Stringify(s);
    DenoteIsPointwise(ts, s);
    WrapperRoundTrip(ts, |WRAP|);
    assert forall i :: 0 <= i < |s| ==> (Misread(ts[i]) <==> s[i] == 0x08 || s[i] == 0x0C);
  }
}
