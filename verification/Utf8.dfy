/** UTF-8 as a fatal streaming decoder sees it, keeping a started sequence for the next chunk. */
module Utf8 {
  type Byte = b: int | 0 <= b < 0x100

  type Bytes = seq<Byte>

  /** Unicode scalar values. */
  type Scalar = c: int | 0 <= c < 0xD800 || 0xE000 <= c < 0x11_0000

  /** The text decoded so far and the bytes of a sequence that is started but not complete. */
  datatype Decoded = Bad | Good(text: seq<Scalar>, held: Bytes)

  function Encode1(c: Scalar): (bytes: Bytes)
    ensures 1 <= |bytes| <= 4
  {
    if c < 0x80 then [c]
    else if c < 0x800 then [0xC0 + c / 0x40, 0x80 + c % 0x40]
    else if c < 0x1_0000 then [0xE0 + c / 0x1000, 0x80 + c / 0x40 % 0x40, 0x80 + c % 0x40]
    else [0xF0 + c / 0x4_0000, 0x80 + c / 0x1000 % 0x40, 0x80 + c / 0x40 % 0x40, 0x80 + c % 0x40]
  }

  function Encode(text: seq<Scalar>): Bytes {
    if text == [] then [] else Encode1(text[0]) + Encode(text[1..])
  }

  /** How many bytes a sequence with this first byte has; 0 if none starts so. */
  function Length(first: Byte): nat {
    if first < 0x80 then 1
    else if first < 0xC2 then 0
    else if first < 0xE0 then 2
    else if first < 0xF0 then 3
    else if first < 0xF5 then 4
    else 0
  }

  /** Whether `b` may be the byte number `k` of a sequence with this first byte. */
  predicate Continues(first: Byte, k: nat, b: Byte) {
    if k == 1 && first == 0xE0 then 0xA0 <= b <= 0xBF
    else if k == 1 && first == 0xED then 0x80 <= b <= 0x9F
    else if k == 1 && first == 0xF0 then 0x90 <= b <= 0xBF
    else if k == 1 && first == 0xF4 then 0x80 <= b <= 0x8F
    else 0x80 <= b <= 0xBF
  }

  function Min(a: nat, b: nat): nat {
    if a < b then a else b
  }

  /** The bytes start a well-formed sequence, as far as they go. */
  predicate Starts(bytes: Bytes)
    requires bytes != []
  {
    && Length(bytes[0]) > 0
    && forall k :: 1 <= k < Min(Length(bytes[0]), |bytes|) ==> Continues(bytes[0], k, bytes[k])
  }

  function Decode1(bytes: Bytes): Scalar
    requires bytes != [] && Starts(bytes) && |bytes| == Length(bytes[0])
  {
    var a: int := bytes[0];
    if |bytes| == 1 then a
    else
      assert Continues(a, 1, bytes[1]);
      var b: int := bytes[1] - 0x80;
      if |bytes| == 2 then (a - 0xC0) * 0x40 + b
      else
        assert Continues(a, 2, bytes[2]);
        var c: int := bytes[2] - 0x80;
        if |bytes| == 3 then (a - 0xE0) * 0x1000 + b * 0x40 + c
        else
          assert Continues(a, 3, bytes[3]);
          (a - 0xF0) * 0x4_0000 + b * 0x1000 + c * 0x40 + (bytes[3] - 0x80)
  }

  function Decode(bytes: Bytes): Decoded
    decreases |bytes|
  {
    if bytes == [] then Good([], [])
    else if !Starts(bytes) then Bad
    else
      var n := Length(bytes[0]);
      if |bytes| < n then Good([], bytes)
      else
        assert Starts(bytes[..n]);
        After(Decode1(bytes[..n]), Decode(bytes[n..]))
  }

  /** One scalar decoded before the rest. */
  function After(c: Scalar, rest: Decoded): Decoded {
    match rest
    case Bad => Bad
    case Good(text, held) => Good([c] + text, held)
  }

  lemma Digits(a: int, b: int)
    requires 0 <= b < 0x40
    ensures (a * 0x40 + b) / 0x40 == a && (a * 0x40 + b) % 0x40 == b
  {
  }

  lemma ThreeDigits(a: int, b: int, c: int)
    requires 0 <= a && 0 <= b < 0x40 && 0 <= c < 0x40
    ensures var x := a * 0x1000 + b * 0x40 + c;
            x / 0x1000 == a && x / 0x40 % 0x40 == b && x % 0x40 == c
  {
    Digits(a * 0x40 + b, c);
    Digits(a, b);
  }

  /** Encoding gives back the bytes of the sequence. */
  lemma Encode1Decode1(bytes: Bytes)
    requires bytes != [] && Starts(bytes) && |bytes| == Length(bytes[0])
    ensures Encode1(Decode1(bytes)) == bytes
  {
    var a: int := bytes[0];
    if |bytes| > 1 {
      assert Continues(a, 1, bytes[1]);
      var b: int := bytes[1] - 0x80;
      if |bytes| == 2 {
        Digits(a - 0xC0, b);
      } else {
        assert Continues(a, 2, bytes[2]);
        var c: int := bytes[2] - 0x80;
        if |bytes| == 3 {
          ThreeDigits(a - 0xE0, b, c);
        } else {
          assert Continues(a, 3, bytes[3]);
          FourBytes(bytes);
        }
      }
    }
  }

  lemma FourBytes(bytes: Bytes)
    requires |bytes| == 4 && Length(bytes[0]) == 4 && Starts(bytes)
    ensures Encode1(Decode1(bytes)) == bytes
  {
    var a: int := bytes[0];
    assert Continues(a, 1, bytes[1]) && Continues(a, 2, bytes[2]) && Continues(a, 3, bytes[3]);
    var b: int, c: int, d: int := bytes[1] - 0x80, bytes[2] - 0x80, bytes[3] - 0x80;
    var high := (a - 0xF0) * 0x40 + b;
    ThreeDigits(high, c, d);
    Digits(a - 0xF0, b);
    assert Decode1(bytes) == high * 0x1000 + c * 0x40 + d;
    assert high / 0x40 == Decode1(bytes) / 0x4_0000;
  }

  /** What was decoded, encoded again, and what is held are exactly the bytes. */
  lemma {:induction false} DecodeLosesNothing(bytes: Bytes)
    requires Decode(bytes).Good?
    ensures Encode(Decode(bytes).text) + Decode(bytes).held == bytes
    decreases |bytes|
  {
    if bytes != [] {
      var n := Length(bytes[0]);
      if |bytes| >= n {
        assert Starts(bytes[..n]);
        DecodeLosesNothing(bytes[n..]);
        Encode1Decode1(bytes[..n]);
        var rest := Decode(bytes[n..]);
        assert Decode(bytes).text[1..] == rest.text;
        assert bytes == bytes[..n] + bytes[n..];
      }
    }
  }

  lemma StartsOfPrefix(a: Bytes, b: Bytes)
    requires a != []
    ensures Starts(a + b) ==> Starts(a)
    ensures |a| >= Length(a[0]) ==> (Starts(a + b) <==> Starts(a))
  {
    forall k | 1 <= k < Min(Length(a[0]), |a|) ensures (a + b)[k] == a[k] {
    }
  }

  lemma AfterContinued(c: Scalar, d: Decoded, more: Bytes)
    ensures Continued(After(c, d), more) == After(c, Continued(d, more))
  {
    if d.Good? && Decode(d.held + more).Good? {
      var rest := Decode(d.held + more).text;
      assert ([c] + d.text) + rest == [c] + (d.text + rest);
    }
  }

  lemma DecodeStep(bytes: Bytes)
    requires bytes != [] && Starts(bytes) && |bytes| >= Length(bytes[0])
    ensures Starts(bytes[..Length(bytes[0])])
    ensures Decode(bytes) == After(Decode1(bytes[..Length(bytes[0])]), Decode(bytes[Length(bytes[0])..]))
  {
  }

  /** A stream decodes the same in one piece or two, the held bytes carried over. */
  lemma {:induction false} DecodeInPieces(a: Bytes, b: Bytes)
    ensures Decode(a + b) == Continued(Decode(a), b)
    decreases |a|
  {
    if a == [] {
      assert a + b == b;
    } else {
      StartsOfPrefix(a, b);
      var n := Length(a[0]);
      if Starts(a) && |a| >= n {
        DecodeInPieces(a[n..], b);
        assert (a + b)[..n] == a[..n] && (a + b)[n..] == a[n..] + b;
        DecodeStep(a);
        DecodeStep(a + b);
        AfterContinued(Decode1(a[..n]), Decode(a[n..]), b);
      } else if Starts(a) {
        assert Decode(a) == Good([], a);
        assert Continued(Decode(a), b) == Decode(a + b) by {
          if Decode(a + b).Good? {
            assert [] + Decode(a + b).text == Decode(a + b).text;
          }
        }
      }
    }
  }

  /** Decoding goes on with `more` bytes. */
  function Continued(d: Decoded, more: Bytes): Decoded {
    match d
    case Bad => Bad
    case Good(text, held) =>
      match Decode(held + more)
      case Bad => Bad
      case Good(text', held') => Good(text + text', held')
  }

  predicate Inverts(c: Scalar, bytes: Bytes) {
    bytes != [] && Starts(bytes) && |bytes| == Length(bytes[0]) && Decode1(bytes) == c
  }

  lemma TwoByteScalar(c: Scalar)
    requires 0x80 <= c < 0x800
    ensures Inverts(c, Encode1(c))
  {
    assert 2 <= c / 0x40 < 0x20;
  }

  lemma ThreeByteScalar(c: Scalar)
    requires 0x800 <= c < 0x1_0000
    ensures Inverts(c, Encode1(c))
  {
    var high, mid, low := c / 0x1000, c / 0x40 % 0x40, c % 0x40;
    assert c == high * 0x1000 + mid * 0x40 + low;
    var bytes := Encode1(c);
    assert bytes[0] == 0xE0 + high && bytes[1] == 0x80 + mid && bytes[2] == 0x80 + low;
    assert Continues(bytes[0], 1, bytes[1]) && Continues(bytes[0], 2, bytes[2]);
  }

  lemma FourByteScalar(c: Scalar)
    requires 0x1_0000 <= c
    ensures Inverts(c, Encode1(c))
  {
    var top, high, mid, low := c / 0x4_0000, c / 0x1000 % 0x40, c / 0x40 % 0x40, c % 0x40;
    assert c == top * 0x4_0000 + high * 0x1000 + mid * 0x40 + low;
    var bytes := Encode1(c);
    assert bytes[0] == 0xF0 + top && bytes[1] == 0x80 + high && bytes[2] == 0x80 + mid && bytes[3] == 0x80 + low;
    assert Continues(bytes[0], 1, bytes[1]) && Continues(bytes[0], 2, bytes[2]) && Continues(bytes[0], 3, bytes[3]);
  }

  lemma Decode1Encode1(c: Scalar)
    ensures Inverts(c, Encode1(c))
  {
    if c < 0x80 {
    } else if c < 0x800 {
      TwoByteScalar(c);
    } else if c < 0x1_0000 {
      ThreeByteScalar(c);
    } else {
      FourByteScalar(c);
    }
  }

  /** Every text is what its encoding decodes to, with nothing held. */
  lemma {:induction false} EncodeDecodes(text: seq<Scalar>)
    ensures Decode(Encode(text)) == Good(text, [])
  {
    if text != [] {
      var bytes, n := Encode(text), |Encode1(text[0])|;
      Decode1Encode1(text[0]);
      EncodeDecodes(text[1..]);
      assert bytes[..n] == Encode1(text[0]) && bytes[n..] == Encode(text[1..]);
      assert Starts(bytes) by {
        forall k | 1 <= k < Min(Length(bytes[0]), |bytes|) ensures Continues(bytes[0], k, bytes[k]) {
          assert bytes[k] == Encode1(text[0])[k];
        }
      }
      DecodeStep(bytes);
      assert [text[0]] + text[1..] == text;
    }
  }

  lemma {:induction false} EncodeInPieces(a: seq<Scalar>, b: seq<Scalar>)
    ensures Encode(a + b) == Encode(a) + Encode(b)
  {
    if a == [] {
      assert a + b == b;
    } else {
      assert (a + b)[0] == a[0] && (a + b)[1..] == a[1..] + b;
      EncodeInPieces(a[1..], b);
      assert Encode(a + b) == Encode1(a[0]) + (Encode(a[1..]) + Encode(b));
    }
  }
}
