/**
 Aligning two time series of memory samples: a cursor that never moves back finds, for each sample taken by the
 operating system, the nearest sample of the process itself.
 */
module Alignment {
  datatype Row = Row(wallMs: int, rss: real)

  datatype Verdict = Aligned | AlignmentMissing | TelemetryIntegrity

  const MIB: real := 1048576.0

  predicate Sorted(rows: seq<Row>) {
    forall i, j :: 0 <= i < j < |rows| ==> rows[i].wallMs <= rows[j].wallMs
  }

  function Gap(a: Row, b: Row): nat {
    if a.wallMs < b.wallMs then b.wallMs - a.wallMs else a.wallMs - b.wallMs
  }

  function AbsReal(x: real): real {
    if x < 0.0 then -x else x
  }

  /** The two samples disagree by more than 8 MiB and more than a percent. */
  predicate Off(own: Row, os: Row) {
    AbsReal(own.rss - os.rss) > (if own.rss * 0.01 > 8.0 * MIB then own.rss * 0.01 else 8.0 * MIB)
  }

  // ---- By brute force ----

  /** The last index, among the first `n`, with the least gap. */
  function Nearest(own: seq<Row>, n: nat, os: Row): (k: nat)
    requires 0 < n <= |own|
    ensures k < n
    ensures forall j :: 0 <= j < n ==> Gap(own[k], os) <= Gap(own[j], os)
    ensures forall j :: k < j < n ==> Gap(own[k], os) < Gap(own[j], os)
  {
    if n == 1 then 0
    else
      var k := Nearest(own, n - 1, os);
      if Gap(own[n - 1], os) <= Gap(own[k], os) then n - 1 else k
  }

  /** The verdict on the samples from `k` on, after `bad` bad ones in a row. */
  function Judge(own: seq<Row>, os: seq<Row>, k: nat, bad: nat): Verdict
    requires k <= |os|
    decreases |os| - k
  {
    if k == |os| then Aligned
    else if own == [] then AlignmentMissing
    else
      var sample := own[Nearest(own, |own|, os[k])];
      if Gap(sample, os[k]) > 600 then AlignmentMissing
      else
        var worse := if Off(sample, os[k]) then bad + 1 else 0;
        if worse >= 3 then TelemetryIntegrity else Judge(own, os, k + 1, worse)
  }

  // ---- The cursor loop ----

  /** No sample before `cursor` is nearer to `os`, nor will be to any later sample. */
  predicate Passed(own: seq<Row>, cursor: nat, os: Row)
    requires cursor < |own|
  {
    forall j :: 0 <= j < cursor ==>
      own[j].wallMs == own[cursor].wallMs || own[j].wallMs + own[cursor].wallMs <= 2 * os.wallMs
  }

  /** The cursor as far as the inner loop takes it. */
  method Advance(own: seq<Row>, start: nat, os: Row) returns (cursor: nat)
    requires Sorted(own) && start < |own| && Passed(own, start, os)
    ensures start <= cursor < |own| && Passed(own, cursor, os)
    ensures cursor == Nearest(own, |own|, os)
  {
    cursor := start;
    while cursor + 1 < |own| && Gap(own[cursor + 1], os) <= Gap(own[cursor], os)
      invariant start <= cursor < |own| && Passed(own, cursor, os)
    {
      cursor := cursor + 1;
    }
    ghost var k := Nearest(own, |own|, os);
    assert !(k < cursor) && !(cursor < k);
  }

  /** The alignment check of one run. */
  method Align(own: seq<Row>, os: seq<Row>) returns (verdict: Verdict)
    requires Sorted(own) && Sorted(os)
    ensures verdict == Judge(own, os, 0, 0)
  {
    var cursor, bad, k := 0, 0, 0;
    while k < |os|
      invariant k <= |os| && (own != [] ==> cursor < |own|)
      invariant own != [] && k < |os| ==> Passed(own, cursor, os[k])
      invariant Judge(own, os, k, bad) == Judge(own, os, 0, 0)
    {
      if own == [] { return AlignmentMissing; }
      cursor := Advance(own, cursor, os[k]);
      var sample := own[cursor];
      if Gap(sample, os[k]) > 600 { return AlignmentMissing; }
      bad := if Off(sample, os[k]) then bad + 1 else 0;
      if bad >= 3 { return TelemetryIntegrity; }
      k := k + 1;
    }
    verdict := Aligned;
  }
}
