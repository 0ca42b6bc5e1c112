/** Taking the complete events off a text one by one, for any way of cutting the first event and judging it. */
module EventScan {
  import opened ChunkedReader

  /** The complete events of a text, judged in order. */
  function Scan(cut: Chars -> Cut, judge: Chars -> Verdict, t: Chars): Scanned
    decreases |t|
  {
    var c := cut(t);
    if c.NoCut? || !(c.event < c.next <= |t|) then More(0)
    else match judge(t[..c.event])
      case Skip => Shift(Scan(cut, judge, t[c.next..]), c.next)
      case Refuse => Stopped
      case Complete(u) => Finished(c.next, u)
  }

  predicate CutsInside(cut: Chars -> Cut, t: Chars) {
    cut(t).Cut? ==> cut(t).event < cut(t).next <= |t|
  }

  /** A first event that is all there stays the first one, whatever follows. */
  predicate CutsStay(cut: Chars -> Cut, t: Chars, u: Chars) {
    cut(t).Cut? ==> cut(t + u) == cut(t)
  }

  ghost predicate CutsWell(cut: Chars -> Cut) {
    && (forall t: Chars :: CutsInside(cut, t))
    && (forall t: Chars, u: Chars :: CutsStay(cut, t, u))
  }

  /** What is decided on a prefix stays decided; otherwise scanning goes on where it stopped. */
  lemma {:induction false} ScanIsStable(cut: Chars -> Cut, judge: Chars -> Verdict, t: Chars, u: Chars)
    requires CutsWell(cut)
    ensures var s := Scan(cut, judge, t);
            && (s.More? ==> s.at <= |t|)
            && Scan(cut, judge, t + u) == if s.More? then Shift(Scan(cut, judge, t[s.at..] + u), s.at) else s
    decreases |t|
  {
    assert CutsInside(cut, t) && CutsStay(cut, t, u);
    var c := cut(t);
    if c.Cut? {
      SlicesOfAppend(t, u, t + u, c.event, c.next);
      if judge(t[..c.event]).Skip? {
        ScanIsStable(cut, judge, t[c.next..], u);
        var s := Scan(cut, judge, t[c.next..]);
        assert s.More? ==> t[c.next..][s.at..] == t[c.next + s.at..];
      }
    } else {
      assert t[0..] == t;
    }
  }

  lemma SlicesOfAppend(t: Chars, u: Chars, w: Chars, i: nat, next: nat)
    requires w == t + u && i <= next <= |t|
    ensures w[..i] == t[..i] && w[next..] == t[next..] + u
  {
  }
}
