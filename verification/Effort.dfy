/** Reasoning effort: the ladder of tiers, the tiers a model supports, and the tier a request ends up with. */
module Effort {
  import opened Text

  const LADDER: seq<string> := ["low", "medium", "high", "xhigh", "max", "ultra"]

  /** `CODEX_REASONING_ORDER.indexOf(effort)`. */
  function Rank(effort: string): (r: int)
    ensures -1 <= r < |LADDER|
    ensures r >= 0 <==> effort in LADDER
    ensures r >= 0 ==> LADDER[r] == effort
    ensures forall k :: 0 <= k < |LADDER| && LADDER[k] == effort ==> r == k
  {
    if effort == "low" then 0
    else if effort == "medium" then 1
    else if effort == "high" then 2
    else if effort == "xhigh" then 3
    else if effort == "max" then 4
    else if effort == "ultra" then 5
    else -1
  }

  // ---- Sanitizing a configured list ----

  predicate Ascending(rank: string -> int, efforts: seq<string>) {
    forall j, k :: 0 <= j < k < |efforts| ==> rank(efforts[j]) < rank(efforts[k])
  }

  /** Strictly ascending on the ladder: sorted and free of duplicates. */
  predicate SubLadder(efforts: seq<string>) {
    && (forall k :: 0 <= k < |efforts| ==> efforts[k] in LADDER)
    && Ascending((e: string) => Rank(e), efforts)
  }

  /** The tiers from rank `k` on that are listed. */
  function Listed(efforts: seq<string>, k: nat): (out: seq<string>)
    requires k <= |LADDER|
    ensures SubLadder(out)
    ensures forall e :: e in out <==> e in efforts && Rank(e) >= k
    decreases |LADDER| - k
  {
    if k == |LADDER| then []
    else if LADDER[k] in efforts then [LADDER[k]] + Listed(efforts, k + 1)
    else Listed(efforts, k + 1)
  }

  /** Ascending lists of the same tiers are the same list. */
  lemma {:induction false} SubLaddersAreDetermined(a: seq<string>, b: seq<string>)
    requires SubLadder(a) && SubLadder(b) && forall e :: e in a <==> e in b
    ensures a == b
    decreases |a|
  {
    if |b| > 0 {
      assert b[0] in b && b[0] in a;
    }
    if a != [] {
      assert a[0] in b;
      assert a[0] == b[0];
      forall e ensures e in a[1..] <==> e in b[1..] {
        assert e in a <==> e == a[0] || e in a[1..];
        assert e in b <==> e == b[0] || e in b[1..];
      }
      SubLaddersAreDetermined(a[1..], b[1..]);
      assert a == [a[0]] + a[1..] && b == [b[0]] + b[1..];
    }
  }

  /** Where a tier belongs in an ascending list. */
  method Place(out: seq<string>, effort: string) returns (k: nat)
    requires SubLadder(out)
    ensures k <= |out|
    ensures forall j :: 0 <= j < k ==> Rank(out[j]) < Rank(effort)
    ensures forall j :: k <= j < |out| ==> Rank(out[j]) >= Rank(effort)
  {
    k := 0;
    while k < |out| && Rank(out[k]) < Rank(effort)
      invariant k <= |out|
      invariant forall j :: 0 <= j < k ==> Rank(out[j]) < Rank(effort)
    {
      k := k + 1;
    }
  }

  lemma InsertAscending(rank: string -> int, out: seq<string>, at: nat, effort: string)
    requires Ascending(rank, out) && at <= |out|
    requires forall j :: 0 <= j < at ==> rank(out[j]) < rank(effort)
    requires forall j :: at <= j < |out| ==> rank(effort) < rank(out[j])
    ensures Ascending(rank, out[..at] + [effort] + out[at..])
  {
  }

  /** The tier takes its place in the order. */
  method Insert(out: seq<string>, effort: string) returns (more: seq<string>)
    requires SubLadder(out) && effort in LADDER && effort !in out
    ensures SubLadder(more)
    ensures forall e :: e in more <==> e in out || e == effort
  {
    var at := Place(out, effort);
    more := out[..at] + [effort] + out[at..];
    assert out == out[..at] + out[at..];
    ghost var rank := (e: string) => Rank(e);
    forall j | at <= j < |out| ensures rank(effort) < rank(out[j]) {
      assert out[j] in out;
    }
    InsertAscending(rank, out, at, effort);
  }

  /** The library sort, by rank. */
  method Sort(efforts: seq<string>) returns (out: seq<string>)
    requires forall k :: 0 <= k < |efforts| ==> efforts[k] in LADDER && efforts[k] !in efforts[..k]
    ensures SubLadder(out)
    ensures forall e :: e in out <==> e in efforts
  {
    out := [];
    var k := 0;
    while k < |efforts|
      invariant k <= |efforts|
      invariant SubLadder(out)
      invariant forall e :: e in out <==> e in efforts[..k]
    {
      out := Insert(out, efforts[k]);
      assert efforts[..k + 1] == efforts[..k] + [efforts[k]];
      k := k + 1;
    }
    assert efforts[..k] == efforts;
  }

  /** `sanitizeCodexReasoningEfforts`: exactly the ladder's tiers that are listed, in the ladder's order. */
  method Sanitize(efforts: seq<string>) returns (out: seq<string>)
    ensures out == Listed(efforts, 0) && SubLadder(out)
    ensures forall e :: e in out <==> e in efforts && e in LADDER
  {
    var seen: set<string> := {};
    out := [];
    var k := 0;
    while k < |efforts|
      invariant k <= |efforts|
      invariant forall e :: e in out <==> e in efforts[..k] && e in LADDER
      invariant forall e :: e in seen <==> e in out
      invariant forall j :: 0 <= j < |out| ==> out[j] in LADDER && out[j] !in out[..j]
    {
      var effort := efforts[k];
      assert efforts[..k + 1] == efforts[..k] + [effort];
      k := k + 1;
      if effort !in LADDER || effort in seen { continue; }
      seen := seen + {effort};
      assert forall j :: 0 <= j < |out| ==> (out + [effort])[..j] == out[..j];
      assert (out + [effort])[..|out|] == out;
      out := out + [effort];
    }
    assert efforts[..k] == efforts;
    out := Sort(out);
    SubLaddersAreDetermined(out, Listed(efforts, 0));
  }

  // ---- Clamping a request ----

  function Requested(requested: string): Option<string> {
    if requested == "none" then None
    else if requested == "minimal" then Some("low")
    else if requested in LADDER then Some(requested)
    else None
  }

  /** The best supported tier for a tier of the ladder: the highest not above it, else the lowest of all. */
  predicate Serves(best: string, tier: string, supported: seq<string>) {
    && best in supported
    && (if exists e :: e in supported && Rank(e) <= Rank(tier)
        then Rank(best) <= Rank(tier) && forall e :: e in supported && Rank(e) <= Rank(tier) ==> Rank(e) <= Rank(best)
        else forall e :: e in supported ==> Rank(best) <= Rank(e))
  }

  /** `clampToSupportedCodexEffort`. */
  method Clamp(requested: string, supported: seq<string>) returns (r: Option<string>)
    requires SubLadder(supported)
    ensures r.None? <==> supported == [] || Requested(requested).None?
    ensures r.Some? ==> Serves(r.value, Requested(requested).value, supported)
  {
    if supported == [] { return None; }
    var codex := Requested(requested);
    if codex.None? { return None; }
    if codex.value in supported { return codex; }
    var limit := Rank(codex.value);
    var best, bestRank, k := supported[0], Rank(supported[0]), 0;
    while k < |supported|
      invariant k <= |supported|
      invariant best in supported && bestRank == Rank(best)
      invariant bestRank <= limit || best == supported[0]
      invariant forall j :: 0 <= j < k && Rank(supported[j]) <= limit ==> Rank(supported[j]) <= bestRank <= limit
    {
      var rank := Rank(supported[k]);
      if rank <= limit && rank >= bestRank {
        best, bestRank := supported[k], rank;
      }
      k := k + 1;
    }
    r := Some(best);
  }

  /** A higher request never gets a lower tier. */
  lemma ClampIsMonotone(supported: seq<string>, low: string, high: string, a: string, b: string)
    requires SubLadder(supported) && Rank(low) <= Rank(high)
    requires Serves(a, low, supported) && Serves(b, high, supported)
    ensures Rank(a) <= Rank(b)
  {
    if exists e :: e in supported && Rank(e) <= Rank(low) {
      assert Rank(a) <= Rank(high);
    }
  }

  // ---- The wire value ----

  /** What a provider says about a model: no reasoning at all, its alias map, its configured tiers. */
  datatype Provider = Provider(noReasoning: bool, aliases: Option<map<string, string>>, efforts: Option<seq<string>>)

  function Alias(p: Provider, tier: string): Option<string> {
    if p.aliases.Some? && tier in p.aliases.value then Some(p.aliases.value[tier]) else None
  }

  function Wire(p: Provider, tier: string): string {
    if Alias(p, tier).Some? then Alias(p, tier).value else tier
  }

  /** `ultra` never crosses the boundary to a provider. */
  function Boundary(effort: string): string {
    if effort == "ultra" then "max" else effort
  }

  predicate Asks(p: Provider, requested: Option<string>) {
    requested.Some? && requested.value != "" && !p.noReasoning
  }

  /** `mapReasoningEffort`: an alias of the request first, else the tier that serves it, by its alias if it has one. */
  method MapEffort(p: Provider, requested: Option<string>) returns (wire: Option<string>)
    ensures !Asks(p, requested) ==> wire.None?
    ensures Asks(p, requested) ==>
      var boundary := Boundary(requested.value);
      if Alias(p, boundary).Some? then wire == Alias(p, boundary)
      else if Requested(boundary).None? || (p.efforts.Some? && Listed(p.efforts.value, 0) == []) then wire.None?
      else if p.efforts.None? then wire == Some(Wire(p, Requested(boundary).value))
      else exists tier ::
        Serves(tier, Requested(boundary).value, Listed(p.efforts.value, 0)) && wire == Some(Wire(p, Boundary(tier)))
    ensures wire.Some? && p.aliases.None? ==> wire.value in LADDER && wire.value != "ultra"
  {
    if !Asks(p, requested) { return None; }
    var boundary := Boundary(requested.value);
    if Alias(p, boundary).Some? { return Alias(p, boundary); }
    var tier := Requested(boundary);
    if p.efforts.Some? {
      var supported := Sanitize(p.efforts.value);
      tier := Clamp(boundary, supported);
    }
    if tier.None? { return None; }
    wire := Some(Wire(p, Boundary(tier.value)));
  }
}
