/** The escaping of a scheduled task's values, and the single-pass decoding they are compared after. */
module TaskXml {
  import opened Text

  const AMP: CodeUnit := 0x26
  const LT: CodeUnit := 0x3C
  const GT: CodeUnit := 0x3E
  const APOS: CodeUnit := 0x27

  const AMP_ENTITY: Text := [0x26, 0x61, 0x6D, 0x70, 0x3B]
  const LT_ENTITY: Text := [0x26, 0x6C, 0x74, 0x3B]
  const GT_ENTITY: Text := [0x26, 0x67, 0x74, 0x3B]
  const QUOT_ENTITY: Text := [0x26, 0x71, 0x75, 0x6F, 0x74, 0x3B]
  const APOS_ENTITY: Text := [0x26, 0x61, 0x70, 0x6F, 0x73, 0x3B]

  /** `s.replace(/c/g, sub)`. */
  function Replace(s: Text, c: CodeUnit, sub: Text): Text {
    if s == [] then [] else (if s[0] == c then sub else [s[0]]) + Replace(s[1..], c, sub)
  }

  /** `taskXmlString`: five replacements, one after the other. */
  function Escape(s: Text): Text {
    Replace(Replace(Replace(Replace(Replace(s, AMP, AMP_ENTITY), LT, LT_ENTITY), GT, GT_ENTITY), QUOTE, QUOT_ENTITY),
            APOS, APOS_ENTITY)
  }

  function Entity(c: CodeUnit): Text {
    if c == AMP then AMP_ENTITY
    else if c == LT then LT_ENTITY
    else if c == GT then GT_ENTITY
    else if c == QUOTE then QUOT_ENTITY
    else if c == APOS then APOS_ENTITY
    else [c]
  }

  /** Every character on its own. */
  function EscapeEach(s: Text): Text {
    if s == [] then [] else Entity(s[0]) + EscapeEach(s[1..])
  }

  /** `taskXmlDecodeEntities`: one pass over the leftmost entities. */
  function Decode(s: Text): Text {
    if s == [] then []
    else if AMP_ENTITY <= s then [AMP] + Decode(s[5..])
    else if LT_ENTITY <= s then [LT] + Decode(s[4..])
    else if GT_ENTITY <= s then [GT] + Decode(s[4..])
    else if QUOT_ENTITY <= s then [QUOTE] + Decode(s[6..])
    else if APOS_ENTITY <= s then [APOS] + Decode(s[6..])
    else [s[0]] + Decode(s[1..])
  }

  lemma {:induction false} ReplaceInPieces(a: Text, b: Text, c: CodeUnit, sub: Text)
    ensures Replace(a + b, c, sub) == Replace(a, c, sub) + Replace(b, c, sub)
  {
    if a == [] {
      assert a + b == b;
    } else {
      assert (a + b)[0] == a[0] && (a + b)[1..] == a[1..] + b;
      ReplaceInPieces(a[1..], b, c, sub);
      var head := if a[0] == c then sub else [a[0]];
      assert head + (Replace(a[1..], c, sub) + Replace(b, c, sub)) == (head + Replace(a[1..], c, sub)) + Replace(b, c, sub);
    }
  }

  lemma {:induction false} ReplaceAbsent(s: Text, c: CodeUnit, sub: Text)
    requires c !in s
    ensures Replace(s, c, sub) == s
  {
    if s != [] {
      ReplaceAbsent(s[1..], c, sub);
    }
  }

  /** One pass over what one character has become: it changes only the character itself. */
  lemma OnePass(t: Text, c: CodeUnit, d: CodeUnit, sub: Text)
    requires t == [c] || d !in t
    ensures Replace(t, d, sub) == if t == [c] && c == d then sub else t
  {
    if t == [c] && c == d {
      assert t[1..] == [];
      assert sub + [] == sub;
    } else {
      ReplaceAbsent(t, d, sub);
    }
  }

  lemma EscapeInPieces(a: Text, b: Text)
    ensures Escape(a + b) == Escape(a) + Escape(b)
  {
    ReplaceInPieces(a, b, AMP, AMP_ENTITY);
    var a1, b1 := Replace(a, AMP, AMP_ENTITY), Replace(b, AMP, AMP_ENTITY);
    ReplaceInPieces(a1, b1, LT, LT_ENTITY);
    var a2, b2 := Replace(a1, LT, LT_ENTITY), Replace(b1, LT, LT_ENTITY);
    ReplaceInPieces(a2, b2, GT, GT_ENTITY);
    var a3, b3 := Replace(a2, GT, GT_ENTITY), Replace(b2, GT, GT_ENTITY);
    ReplaceInPieces(a3, b3, QUOTE, QUOT_ENTITY);
    ReplaceInPieces(Replace(a3, QUOTE, QUOT_ENTITY), Replace(b3, QUOTE, QUOT_ENTITY), APOS, APOS_ENTITY);
  }

  /** The five passes over one character, in order. */
  lemma Passes(c: CodeUnit, t1: Text, t2: Text, t3: Text, t4: Text, t5: Text)
    requires t1 == (if c == AMP then AMP_ENTITY else [c]) && (t1 == [c] || LT !in t1)
    requires t2 == (if t1 == [c] && c == LT then LT_ENTITY else t1) && (t2 == [c] || GT !in t2)
    requires t3 == (if t2 == [c] && c == GT then GT_ENTITY else t2) && (t3 == [c] || QUOTE !in t3)
    requires t4 == (if t3 == [c] && c == QUOTE then QUOT_ENTITY else t3) && (t4 == [c] || APOS !in t4)
    requires t5 == (if t4 == [c] && c == APOS then APOS_ENTITY else t4)
    ensures Escape([c]) == t5
  {
    OnePass([c], c, AMP, AMP_ENTITY);
    OnePass(t1, c, LT, LT_ENTITY);
    OnePass(t2, c, GT, GT_ENTITY);
    OnePass(t3, c, QUOTE, QUOT_ENTITY);
    OnePass(t4, c, APOS, APOS_ENTITY);
  }

  /** What the five passes make of one character. */
  lemma EscapeOne(c: CodeUnit)
    ensures Escape([c]) == Entity(c)
  {
    var e := Entity(c);
    assert |e| == 1 <==> e == [c];
    if c == AMP {
      Passes(c, e, e, e, e, e);
    } else if c == LT {
      Passes(c, [c], e, e, e, e);
    } else if c == GT {
      Passes(c, [c], [c], e, e, e);
    } else if c == QUOTE {
      Passes(c, [c], [c], [c], e, e);
    } else {
      Passes(c, [c], [c], [c], [c], e);
    }
  }

  /** The five passes come to one character-wise map: no later pass touches what an earlier one wrote. */
  lemma {:induction false} EscapeIsEach(s: Text)
    ensures Escape(s) == EscapeEach(s)
  {
    if s != [] {
      assert s == [s[0]] + s[1..];
      EscapeInPieces([s[0]], s[1..]);
      EscapeOne(s[0]);
      EscapeIsEach(s[1..]);
    }
  }

  /** No markup character is left. */
  lemma {:induction false} EscapedHasNoMarkup(s: Text)
    ensures LT !in Escape(s) && GT !in Escape(s) && QUOTE !in Escape(s) && APOS !in Escape(s)
  {
    EscapeIsEach(s);
    if s != [] {
      EscapedHasNoMarkup(s[1..]);
      EscapeIsEach(s[1..]);
      var e := Entity(s[0]);
      assert LT !in e && GT !in e && QUOTE !in e && APOS !in e;
    }
  }

  lemma DecodeEntity(c: CodeUnit, rest: Text)
    ensures Decode(Entity(c) + rest) == [c] + Decode(rest)
  {
    var s := Entity(c) + rest;
    assert s[|Entity(c)|..] == rest;
    assert s[0] == Entity(c)[0];
    if c == AMP {
      assert AMP_ENTITY <= s;
    } else if c == LT {
      assert LT_ENTITY <= s && s[1] == 0x6C;
    } else if c == GT {
      assert GT_ENTITY <= s && s[1] == 0x67;
    } else if c == QUOTE {
      assert QUOT_ENTITY <= s && s[1] == 0x71;
    } else if c == APOS {
      assert APOS_ENTITY <= s && s[2] == 0x70;
    }
  }

  /** Decoding what was escaped gives the value back, whatever it holds. */
  lemma {:induction false} DecodeEscaped(s: Text)
    ensures Decode(Escape(s)) == s
  {
    EscapeIsEach(s);
    if s != [] {
      EscapeIsEach(s[1..]);
      DecodeEscaped(s[1..]);
      DecodeEntity(s[0], EscapeEach(s[1..]));
    }
  }

  /** So two values are escaped alike only if they are the same. */
  lemma EscapeIsInjective(a: Text, b: Text)
    ensures Escape(a) == Escape(b) <==> a == b
  {
    DecodeEscaped(a);
    DecodeEscaped(b);
  }

  /** Why one pass: decoding twice takes an escaped entity for the character it names. */
  lemma DecodingTwiceLosesValues()
    ensures Decode(Decode(Escape(QUOT_ENTITY))) == [QUOTE] != QUOT_ENTITY
  {
    DecodeEscaped(QUOT_ENTITY);
    assert Entity(QUOTE) + [] == QUOT_ENTITY;
    DecodeEntity(QUOTE, []);
  }
}
