/** The controller object: each method does to its fields what the budget's operation says. */
module PilotBudgetObject {
  import opened Text
  import opened PilotBudget

  class Budget {
    const manifest: Manifest
    const deadline: int
    var stopReason: Option<Stop>
    var active: Option<Generation>
    var sendPending: bool
    var activeSends: nat
    var direct: nat
    var commander: nat
    var sends: nat
    var reservedCredits: real
    ghost var journal: seq<Mark>

    constructor (m: Manifest, now: int)
      ensures View() == Fresh() && manifest == m && deadline == now + m.wallTimeMs
    {
      manifest, deadline := m, now + m.wallTimeMs;
      stopReason, active, sendPending := None, None, false;
      activeSends, direct, commander, sends := 0, 0, 0, 0;
      reservedCredits, journal := 0.0, [];
    }

    ghost function View(): State
      reads this
    {
      State(stopReason, active, sendPending, activeSends, direct, commander, sends, reservedCredits, journal)
    }

    /** `stop`: the first reason stays. */
    method Halt(why: Stop)
      modifies `stopReason
      ensures View() == Stopped(old(View()), why)
    {
      if stopReason.None? {
        stopReason := Some(why);
      }
    }

    /** `check`. */
    method Check(now: int, same: bool) returns (ok: bool)
      modifies `stopReason
      ensures var trouble := Trouble(manifest, deadline, now, same);
              && ok == (old(stopReason).None? && trouble.None?)
              && View() == if trouble.Some? then Stopped(old(View()), trouble.value) else old(View())
    {
      ok := false;
      if stopReason.Some? {
      } else if now >= deadline {
        Halt(Deadline);
      } else if now < manifest.verifiedAt || now - manifest.verifiedAt > DAY_MS {
        Halt(RateBasisExpired);
      } else if !same {
        Halt(IdentityChanged);
      } else {
        ok := true;
      }
    }

    method BeginGeneration(arm: Arm, now: int, same: bool) returns (ok: bool)
      modifies this
      ensures (View(), ok) == BeginOp(manifest, deadline, old(View()), arm, now, same)
    {
      ok := Check(now, same);
      if !ok { return; }
      var starts := if arm.Direct? then direct else commander;
      if active.Some? || starts >= 3 || direct + commander >= manifest.generationStarts {
        Halt(GenerationBound);
        return false;
      }
      if arm.Direct? {
        direct := direct + 1;
      } else {
        commander := commander + 1;
      }
      active := Some(Generation(arm, starts + 1));
      activeSends := 0;
    }

    /** `dispatch` up to the send. */
    method Reserve(g: Generation, kind: Kind, now: int, same: bool) returns (ok: bool)
      modifies this
      ensures (View(), ok) == AdmitOp(manifest, deadline, old(View()), g, kind, now, same)
    {
      ok := Check(now, same);
      if !ok { return; }
      if active != Some(g) || sendPending { Halt(ConcurrencyBound); return false; }
      if kind.Retry? { Halt(UnexpectedRetry); return false; }
      var reserve := PilotBudget.Reserve(manifest);
      if sends >= manifest.dispatches || Exceeds(reservedCredits + reserve, manifest.estimate) {
        Halt(ReserveExhausted);
        return false;
      }
      sends := sends + 1;
      activeSends := activeSends + 1;
      reservedCredits := reservedCredits + reserve;
      sendPending := true;
      journal := journal + [Out(g)];
    }

    /** `dispatch` from the send's end, or the stop that overtook it. */
    method Receive(sent: Sent, now: int, same: bool) returns (ok: bool)
      requires sendPending && active.Some?
      modifies this
      ensures (View(), ok) == SettleOp(manifest, deadline, old(View()), sent, now, same)
    {
      var g := active.value;
      sendPending := false;
      if stopReason.Some? {
        journal := journal + [In(g, 0.0)];
        return false;
      }
      var verdict := Verdict(manifest, deadline, sent, now, same);
      if verdict.Some? {
        journal := journal + [In(g, 0.0)];
        Halt(verdict.value);
        return false;
      }
      journal := journal + [In(g, Cost(manifest, sent.input, sent.output))];
      ok := true;
    }

    method EndGeneration(g: Generation) returns (ok: bool)
      modifies this
      ensures (View(), ok) == EndOp(old(View()), g)
    {
      if stopReason.Some? { return false; }
      if active != Some(g) || sendPending || activeSends == 0 {
        Halt(GenerationIncomplete);
        return false;
      }
      active := None;
      ok := true;
    }
  }

  /** The constructor's refusal of an unqualified manifest. */
  method Launch(m: Manifest, now: int) returns (b: Budget?)
    ensures b == null <==> !Qualified(m, now)
    ensures b != null ==> fresh(b) && b.View() == Fresh() && b.manifest == m && b.deadline == now + m.wallTimeMs
  {
    b := null;
    if Qualified(m, now) {
      b := new Budget(m, now);
    }
  }
}
