/**
 Creating the configuration file if it is missing, with any number of processes trying at once. The state
 machine takes one file-system or lock operation of one process per step; any of them may fail, any process may
 crash anywhere, and nobody outside the protocol deletes the file.
 */
module ConfigInit {
  import opened Text

  type Pid = nat

  datatype Reason = CandidateInvalid | ExistingInvalid | ExistingInaccessible | ExistingUnsafe | CoordinationUnavailable

  datatype Answer = Created | Existing | Refused(reason: Reason)

  /** What the configuration path holds. */
  datatype Entry = Absent | Irregular | Unreadable | Regular(bytes: Text)

  datatype Probe = NoEntry | ValidEntry | Bad(reason: Reason)

  datatype Phase =
    | Idle                                            // candidate not validated yet
    | Root                                            // before the first look at the directory
    | First                                           // before the first look at the file
    | Owning(invalid: bool)                           // recording the path as owned
    | Waiting(fallback: Reason, last: Option<Reason>) // polling for somebody else's file
    | Contending(last: Option<Reason>)                // trying for the lock
    | Locked                                          // lock held, before the decisive look
    | Opening                                         // before the exclusive open
    | Losing                                          // somebody else's file appeared
    | Writing(n: nat)                                 // `n` units of the bytes are written
    | Unlinking                                       // the write failed
    | Published                                       // file complete, before the commit
    | Answered(answer: Answer)
    | Crashed

  datatype Params = Params(valid: Text -> bool, candidateOk: Pid -> bool, bytes: Pid -> Text)

  datatype Told = Told(pid: Pid, answer: Answer, entry: Entry)

  /** `maker` is who created the entry, if one of the processes did; `told` logs the answers. */
  datatype State = State(entry: Entry, maker: Option<Pid>, lock: Option<Pid>, phase: seq<Phase>, told: seq<Told>)

  /** What the checks of the directory and of its ownership refuse with. */
  type Trouble = r: Reason | r.ExistingInaccessible? || r.ExistingUnsafe? witness ExistingUnsafe

  /** Luck of one step: whether its operation and the directory check succeed, and whether time is up. */
  datatype Choice = Crash | Go(ok: bool, root: bool, late: bool, reason: Trouble)

  /** `probeConfigEntry`. */
  function Look(p: Params, e: Entry): Probe {
    match e
    case Absent => NoEntry
    case Irregular => Bad(ExistingUnsafe)
    case Unreadable => Bad(ExistingInaccessible)
    case Regular(bytes) => if p.valid(bytes) then ValidEntry else Bad(ExistingInvalid)
  }

  predicate HoldsLock(f: Phase) {
    f.Locked? || f.Opening? || f.Losing? || f.Writing? || f.Unlinking? || f.Published?
  }

  function Move(s: State, i: Pid, f: Phase): State
    requires i < |s.phase|
  {
    s.(phase := s.phase[i := f])
  }

  function Tell(s: State, i: Pid, a: Answer): State
    requires i < |s.phase|
  {
    s.(phase := s.phase[i := Answered(a)],
       lock := if HoldsLock(s.phase[i]) then None else s.lock,
       told := s.told + [Told(i, a, s.entry)])
  }

  /** Leaving the transaction with an answer: a failing commit replaces it. */
  function Commit(s: State, i: Pid, a: Answer, ok: bool): State
    requires i < |s.phase|
  {
    Tell(s, i, if ok then a else Refused(CoordinationUnavailable))
  }

  /** One poll of a process without the lock. */
  function Poll(
      p: Params, s: State, i: Pid, last: Option<Reason>, fallback: Reason, late: bool,
      again: Option<Reason> -> Phase): State
    requires i < |s.phase|
  {
    var seen := Look(p, s.entry);
    if seen.ValidEntry? then Tell(s, i, Existing)
    else
      var worst := if seen.Bad? then Some(seen.reason) else last;
      if late then Tell(s, i, Refused(if worst.Some? then worst.value else fallback))
      else Move(s, i, again(worst))
  }

  function Act(p: Params, s: State, i: Pid, c: Choice): State
    requires i < |s.phase| && c.Go?
  {
    match s.phase[i]
    case Idle => if p.candidateOk(i) then Move(s, i, Root) else Tell(s, i, Refused(CandidateInvalid))
    case Root => if c.root then Move(s, i, First) else Tell(s, i, Refused(c.reason))
    case First =>
      (match Look(p, s.entry)
       case ValidEntry => Tell(s, i, Existing)
       case NoEntry => Move(s, i, Owning(false))
       case Bad(r) => if r == ExistingInvalid then Move(s, i, Owning(true)) else Tell(s, i, Refused(r)))
    case Owning(invalid) =>
      if !c.root then Tell(s, i, Refused(c.reason))
      else if c.ok then Move(s, i, Contending(None))
      else if invalid then Tell(s, i, Refused(ExistingInvalid))
      else Move(s, i, Waiting(c.reason, None))
    case Waiting(fallback, last) => Poll(p, s, i, last, fallback, c.late, (r: Option<Reason>) => Waiting(fallback, r))
    case Contending(last) =>
      if c.ok && s.lock.None? then Move(s, i, Locked).(lock := Some(i))
      else Poll(p, s, i, last, CoordinationUnavailable, c.late, (r: Option<Reason>) => Contending(r))
    case Locked =>
      (match Look(p, s.entry)
       case ValidEntry => Commit(s, i, Existing, c.ok)
       case Bad(r) => Commit(s, i, Refused(r), c.ok)
       case NoEntry => Move(s, i, Opening))
    case Opening =>
      if !c.ok then Tell(s, i, Refused(CoordinationUnavailable))
      else if s.entry.Absent? then Move(s, i, Writing(0)).(entry := Regular([]), maker := Some(i))
      else Move(s, i, Losing)
    case Losing =>
      (match Look(p, s.entry)
       case ValidEntry => Commit(s, i, Existing, c.ok)
       case Bad(r) => Commit(s, i, Refused(r), c.ok)
       case NoEntry => Commit(s, i, Refused(CoordinationUnavailable), c.ok))
    case Writing(n) =>
      if !c.ok then Move(s, i, Unlinking)
      else if n < |p.bytes(i)| then Move(s, i, Writing(n + 1)).(entry := Regular(p.bytes(i)[..n + 1]))
      else Move(s, i, Published)
    case Unlinking =>
      Tell(if c.ok then s.(entry := Absent, maker := None) else s, i, Refused(CoordinationUnavailable))
    case Published => Commit(s, i, Created, c.ok)
    case _ => s
  }

  function Step(p: Params, s: State, i: Pid, c: Choice): State
    requires i < |s.phase|
  {
    if c.Go? then Act(p, s, i, c)
    else if s.phase[i].Answered? then s
    else Move(s, i, Crashed).(lock := if HoldsLock(s.phase[i]) then None else s.lock)
  }

  function Start(n: nat, entry: Entry): State {
    State(entry, None, None, seq(n, _ => Idle), [])
  }

  function Run(p: Params, s: State, schedule: seq<(Pid, Choice)>): (r: State)
    ensures |r.phase| == |s.phase|
    decreases |schedule|
  {
    if schedule == [] then s
    else
      var (i, c) := schedule[0];
      Run(p, if i < |s.phase| then Step(p, s, i, c) else s, schedule[1..])
  }

  // ---- Invariant ----

  /** The process answers for the entry on disk. */
  predicate Makes(f: Phase) {
    f.Writing? || f.Unlinking? || f.Published? || f == Answered(Created)
  }

  predicate FileAsPhase(p: Params, s: State, i: Pid)
    requires i < |s.phase|
  {
    var f := s.phase[i];
    && (Makes(f) ==> s.maker == Some(i))
    && (f.Writing? ==> f.n <= |p.bytes(i)| && s.entry == Regular(p.bytes(i)[..f.n]))
    && (f.Published? || f == Answered(Created) ==> s.entry == Regular(p.bytes(i)))
    && (HoldsLock(f) <==> s.lock == Some(i))
  }

  predicate GoodLog(p: Params, s: State, t: Told) {
    && t.pid < |s.phase| && s.phase[t.pid] == Answered(t.answer)
    && (t.answer == Existing ==> Look(p, t.entry).ValidEntry?)
    && (t.answer == Created ==> t.entry == Regular(p.bytes(t.pid)))
  }

  predicate Inv(p: Params, s: State, initial: Entry) {
    && (s.maker.None? ==> s.entry == initial)
    && (s.maker.Some? ==> initial.Absent? && s.entry.Regular?)
    && (forall i :: 0 <= i < |s.phase| ==> FileAsPhase(p, s, i))
    && (forall t :: t in s.told ==> GoodLog(p, s, t))
  }

  /** A process changes phase, lock, file or maker; what the others know is still so. */
  lemma MoveKeeps(p: Params, s: State, initial: Entry, i: Pid, f: Phase, t: State)
    requires Inv(p, s, initial) && i < |s.phase| && !s.phase[i].Answered?
    requires t.phase == s.phase[i := f] && t.told == s.told
    requires (t.maker == s.maker && t.entry == s.entry)
          || (s.maker == Some(i) && t.maker.None? && t.entry == initial)
          || ((s.entry.Absent? || s.maker == Some(i)) && t.maker == Some(i) && t.entry.Regular?)
    requires t.lock == s.lock || s.lock == None || s.lock == Some(i)
    requires t.lock.Some? ==> t.lock == s.lock || t.lock == Some(i)
    requires FileAsPhase(p, t, i)
    ensures Inv(p, t, initial)
  {
    assert FileAsPhase(p, s, i);
    forall j | 0 <= j < |t.phase| ensures FileAsPhase(p, t, j) {
      assert FileAsPhase(p, s, j);
    }
    forall u | u in t.told ensures GoodLog(p, t, u) {
      assert GoodLog(p, s, u);
    }
  }

  lemma TellKeeps(p: Params, s: State, initial: Entry, i: Pid, a: Answer)
    requires Inv(p, s, initial) && i < |s.phase| && !s.phase[i].Answered?
    requires a == Existing ==> Look(p, s.entry).ValidEntry?
    requires a == Created ==> s.phase[i].Published?
    ensures Inv(p, Tell(s, i, a), initial)
  {
    assert FileAsPhase(p, s, i);
    var t := Tell(s, i, a).(told := s.told);
    assert FileAsPhase(p, t, i);
    MoveKeeps(p, s, initial, i, Answered(a), t);
    forall u | u in Tell(s, i, a).told ensures GoodLog(p, Tell(s, i, a), u) {
      assert u in s.told ==> GoodLog(p, t, u);
    }
    forall j | 0 <= j < |t.phase| ensures FileAsPhase(p, Tell(s, i, a), j) {
      assert FileAsPhase(p, t, j);
    }
  }

  lemma PollKeeps(p: Params, s: State, initial: Entry, i: Pid, c: Choice)
    requires Inv(p, s, initial) && i < |s.phase| && c.Go?
    requires s.phase[i].Waiting? || s.phase[i].Contending?
    ensures Inv(p, Act(p, s, i, c), initial)
  {
    var t := Act(p, s, i, c);
    assert FileAsPhase(p, s, i);
    if Look(p, s.entry).ValidEntry? && !(s.phase[i].Contending? && c.ok && s.lock.None?) {
      TellKeeps(p, s, initial, i, Existing);
    } else if t.phase[i].Answered? {
      TellKeeps(p, s, initial, i, t.phase[i].answer);
    } else {
      MoveKeeps(p, s, initial, i, t.phase[i], t);
    }
  }

  lemma LookKeeps(p: Params, s: State, initial: Entry, i: Pid, c: Choice)
    requires Inv(p, s, initial) && i < |s.phase| && c.Go?
    requires s.phase[i].Idle? || s.phase[i].Root? || s.phase[i].First? || s.phase[i].Owning?
          || s.phase[i].Locked? || s.phase[i].Losing?
    ensures Inv(p, Act(p, s, i, c), initial)
  {
    var t := Act(p, s, i, c);
    assert FileAsPhase(p, s, i);
    if t.phase[i].Answered? {
      TellKeeps(p, s, initial, i, t.phase[i].answer);
    } else {
      MoveKeeps(p, s, initial, i, t.phase[i], t);
    }
  }

  lemma WriteKeeps(p: Params, s: State, initial: Entry, i: Pid, c: Choice)
    requires Inv(p, s, initial) && i < |s.phase| && c.Go?
    requires s.phase[i].Opening? || s.phase[i].Writing? || s.phase[i].Published?
    ensures Inv(p, Act(p, s, i, c), initial)
  {
    var t := Act(p, s, i, c);
    assert FileAsPhase(p, s, i);
    if t.phase[i].Answered? {
      TellKeeps(p, s, initial, i, t.phase[i].answer);
    } else {
      MoveKeeps(p, s, initial, i, t.phase[i], t);
    }
  }

  lemma UnlinkKeeps(p: Params, s: State, initial: Entry, i: Pid, c: Choice)
    requires Inv(p, s, initial) && i < |s.phase| && c.Go? && s.phase[i].Unlinking?
    ensures Inv(p, Act(p, s, i, c), initial)
  {
    assert FileAsPhase(p, s, i);
    if c.ok {
      var t := Move(s, i, Root).(entry := Absent, maker := None, lock := None);
      MoveKeeps(p, s, initial, i, Root, t);
      TellKeeps(p, t, initial, i, Refused(CoordinationUnavailable));
      assert Act(p, s, i, c) == Tell(t, i, Refused(CoordinationUnavailable));
    } else {
      TellKeeps(p, s, initial, i, Refused(CoordinationUnavailable));
    }
  }

  lemma StepKeepsInv(p: Params, s: State, initial: Entry, i: Pid, c: Choice)
    requires Inv(p, s, initial) && i < |s.phase|
    ensures Inv(p, Step(p, s, i, c), initial)
  {
    assert FileAsPhase(p, s, i);
    if c.Crash? {
      if !s.phase[i].Answered? {
        MoveKeeps(p, s, initial, i, Crashed, Step(p, s, i, c));
      }
    } else if s.phase[i].Waiting? || s.phase[i].Contending? {
      PollKeeps(p, s, initial, i, c);
    } else if s.phase[i].Opening? || s.phase[i].Writing? || s.phase[i].Published? {
      WriteKeeps(p, s, initial, i, c);
    } else if s.phase[i].Unlinking? {
      UnlinkKeeps(p, s, initial, i, c);
    } else if !s.phase[i].Answered? && !s.phase[i].Crashed? {
      LookKeeps(p, s, initial, i, c);
    }
  }

  lemma {:induction false} RunKeepsInv(p: Params, s: State, initial: Entry, schedule: seq<(Pid, Choice)>)
    requires Inv(p, s, initial)
    ensures Inv(p, Run(p, s, schedule), initial)
    decreases |schedule|
  {
    if schedule != [] {
      var (i, c) := schedule[0];
      if i < |s.phase| {
        StepKeepsInv(p, s, initial, i, c);
        RunKeepsInv(p, Step(p, s, i, c), initial, schedule[1..]);
      } else {
        RunKeepsInv(p, s, initial, schedule[1..]);
      }
    }
  }

  // ---- Safety over every schedule ----

  predicate Winner(s: State, i: Pid) {
    i < |s.phase| && s.phase[i] == Answered(Created)
  }

  /** At most one process is told it created the file, and what is on disk is then that process's configuration. */
  lemma AtMostOneCreates(p: Params, n: nat, initial: Entry, schedule: seq<(Pid, Choice)>, i: Pid, j: Pid)
    ensures var s := Run(p, Start(n, initial), schedule);
            && (Winner(s, i) && Winner(s, j) ==> i == j)
            && (Winner(s, i) ==> s.entry == Regular(p.bytes(i)))
  {
    RunKeepsInv(p, Start(n, initial), initial, schedule);
    var s := Run(p, Start(n, initial), schedule);
    assert i < n ==> FileAsPhase(p, s, i);
    assert j < n ==> FileAsPhase(p, s, j);
  }

  /** A file that was there before is never touched, and nobody is told they created one. */
  lemma PreexistingFileIsKept(p: Params, n: nat, initial: Entry, schedule: seq<(Pid, Choice)>, i: Pid)
    requires !initial.Absent?
    ensures Run(p, Start(n, initial), schedule).entry == initial
    ensures !Winner(Run(p, Start(n, initial), schedule), i)
  {
    RunKeepsInv(p, Start(n, initial), initial, schedule);
    var s := Run(p, Start(n, initial), schedule);
    assert i < n ==> FileAsPhase(p, s, i);
  }

  /** Whoever is told the file exists saw a valid one on disk at that moment. */
  lemma ExistingMeansValid(p: Params, n: nat, initial: Entry, schedule: seq<(Pid, Choice)>, t: Told)
    requires t in Run(p, Start(n, initial), schedule).told && t.answer == Existing
    ensures t.entry.Regular? && p.valid(t.entry.bytes)
  {
    RunKeepsInv(p, Start(n, initial), initial, schedule);
    assert GoodLog(p, Run(p, Start(n, initial), schedule), t);
  }

  /** The lock of the model excludes: two processes are never both in a phase that holds it. */
  lemma LockExcludes(p: Params, n: nat, initial: Entry, schedule: seq<(Pid, Choice)>, i: Pid, j: Pid)
    requires i < n && j < n
    ensures var s := Run(p, Start(n, initial), schedule);
            HoldsLock(s.phase[i]) && HoldsLock(s.phase[j]) ==> i == j
  {
    RunKeepsInv(p, Start(n, initial), initial, schedule);
    var s := Run(p, Start(n, initial), schedule);
    assert FileAsPhase(p, s, i) && FileAsPhase(p, s, j);
  }

  /** Once created the file stays: later schedules neither change it nor make another winner. */
  lemma CreatedStays(p: Params, n: nat, initial: Entry, first: seq<(Pid, Choice)>, later: seq<(Pid, Choice)>, i: Pid)
    requires Winner(Run(p, Start(n, initial), first), i)
    ensures var s := Run(p, Run(p, Start(n, initial), first), later);
            Winner(s, i) && s.entry == Regular(p.bytes(i)) && forall j :: Winner(s, j) ==> j == i
  {
    RunKeepsInv(p, Start(n, initial), initial, first);
    var s := Run(p, Start(n, initial), first);
    RunKeepsInv(p, s, initial, later);
    AnswersAreFinal(p, s, later, i);
    var t := Run(p, s, later);
    assert FileAsPhase(p, t, i);
    forall j | Winner(t, j) ensures j == i {
      assert FileAsPhase(p, t, j);
    }
  }

  lemma StepKeepsAnswer(p: Params, s: State, j: Pid, c: Choice, i: Pid)
    requires i < |s.phase| && j < |s.phase| && s.phase[i].Answered?
    ensures Step(p, s, j, c).phase[i] == s.phase[i]
  {
    if c.Go? {
      if j == i { AnsweredRests(p, s, i, c); } else { OthersRest(p, s, j, c, i); }
    }
  }

  lemma AnsweredRests(p: Params, s: State, i: Pid, c: Choice)
    requires i < |s.phase| && s.phase[i].Answered? && c.Go?
    ensures Act(p, s, i, c) == s
  {
  }

  lemma OthersRest(p: Params, s: State, j: Pid, c: Choice, i: Pid)
    requires i < |s.phase| && j < |s.phase| && j != i && c.Go?
    ensures Act(p, s, j, c).phase[i] == s.phase[i]
  {
  }

  lemma {:induction false} AnswersAreFinal(p: Params, s: State, schedule: seq<(Pid, Choice)>, i: Pid)
    requires i < |s.phase| && s.phase[i].Answered?
    ensures Run(p, s, schedule).phase[i] == s.phase[i]
    decreases |schedule|
  {
    if schedule != [] {
      var (j, c) := schedule[0];
      if j < |s.phase| {
        StepKeepsAnswer(p, s, j, c, i);
        AnswersAreFinal(p, Step(p, s, j, c), schedule[1..], i);
      } else {
        AnswersAreFinal(p, s, schedule[1..], i);
      }
    }
  }

  // ---- Who may create ----

  predicate BlamesCandidate(r: Option<Reason>) {
    r == Some(CandidateInvalid)
  }

  /** An invalid candidate does not get past the first check, and nobody else hears of it. */
  predicate Vetted(p: Params, i: Pid, f: Phase) {
    if !p.candidateOk(i) then f.Idle? || f.Crashed? || f == Answered(Refused(CandidateInvalid))
    else
      && f != Answered(Refused(CandidateInvalid))
      && (f.Waiting? ==> !f.fallback.CandidateInvalid? && !BlamesCandidate(f.last))
      && (f.Contending? ==> !BlamesCandidate(f.last))
  }

  predicate AllVetted(p: Params, s: State) {
    && (s.maker.Some? ==> p.candidateOk(s.maker.value))
    && forall i :: 0 <= i < |s.phase| ==> Vetted(p, i, s.phase[i])
  }

  lemma PollVets(p: Params, s: State, i: Pid, c: Choice)
    requires i < |s.phase| && Vetted(p, i, s.phase[i]) && c.Go? && (s.phase[i].Waiting? || s.phase[i].Contending?)
    ensures Vetted(p, i, Act(p, s, i, c).phase[i]) && Act(p, s, i, c).maker == s.maker
  {
  }

  lemma ActVets(p: Params, s: State, i: Pid, c: Choice)
    requires i < |s.phase| && Vetted(p, i, s.phase[i]) && c.Go? && !s.phase[i].Waiting? && !s.phase[i].Contending?
    ensures Vetted(p, i, Act(p, s, i, c).phase[i])
    ensures Act(p, s, i, c).maker in {s.maker, None} || (Act(p, s, i, c).maker == Some(i) && p.candidateOk(i))
  {
  }

  lemma StepVets(p: Params, s: State, i: Pid, c: Choice)
    requires i < |s.phase| && AllVetted(p, s)
    ensures AllVetted(p, Step(p, s, i, c))
  {
    assert Vetted(p, i, s.phase[i]);
    if c.Go? {
      if s.phase[i].Waiting? || s.phase[i].Contending? { PollVets(p, s, i, c); } else { ActVets(p, s, i, c); }
    }
    forall j | 0 <= j < |s.phase| ensures Vetted(p, j, Step(p, s, i, c).phase[j]) {
      if j != i {
        assert Vetted(p, j, s.phase[j]);
        if c.Go? { OthersRest(p, s, i, c, j); }
      }
    }
  }

  lemma {:induction false} RunVets(p: Params, s: State, schedule: seq<(Pid, Choice)>)
    requires AllVetted(p, s)
    ensures AllVetted(p, Run(p, s, schedule))
    decreases |schedule|
  {
    if schedule != [] {
      var (i, c) := schedule[0];
      if i < |s.phase| {
        StepVets(p, s, i, c);
        RunVets(p, Step(p, s, i, c), schedule[1..]);
      } else {
        RunVets(p, s, schedule[1..]);
      }
    }
  }

  /**
   Whatever the schedule, only a valid candidate gets on disk or is told it was created; the process of an invalid
   one is told just that and touches nothing, and no other process is.
   */
  lemma OnlyValidCandidates(p: Params, n: nat, initial: Entry, schedule: seq<(Pid, Choice)>, i: Pid, c: Choice)
    requires i < n
    ensures var s := Run(p, Start(n, initial), schedule);
      && (Winner(s, i) || s.maker == Some(i) ==> p.candidateOk(i))
      && (s.phase[i] == Answered(Refused(CandidateInvalid)) ==> !p.candidateOk(i))
      && (!p.candidateOk(i) && s.phase[i].Answered? ==> s.phase[i] == Answered(Refused(CandidateInvalid)))
      && (forall t :: t in s.told && t.pid == i ==> (t.answer == Refused(CandidateInvalid) <==> !p.candidateOk(i)))
      && (!p.candidateOk(i) ==>
            var t := Step(p, s, i, c);
            && t.entry == s.entry && t.maker == s.maker && t.lock == s.lock
            && forall j :: 0 <= j < n && j != i ==> t.phase[j] == s.phase[j])
  {
    RunVets(p, Start(n, initial), schedule);
    RunKeepsInv(p, Start(n, initial), initial, schedule);
    var s := Run(p, Start(n, initial), schedule);
    assert Vetted(p, i, s.phase[i]) && FileAsPhase(p, s, i);
    forall t | t in s.told && t.pid == i ensures t.answer == Refused(CandidateInvalid) <==> !p.candidateOk(i) {
      assert GoodLog(p, s, t);
    }
  }

  // ---- One process alone, with luck ----

  /** `k` steps of the process `i` in a row. */
  function Alone(p: Params, s: State, i: Pid, c: Choice, k: nat): (t: State)
    requires i < |s.phase|
    ensures |t.phase| == |s.phase|
    decreases k
  {
    if k == 0 then s else Alone(p, Step(p, s, i, c), i, c, k - 1)
  }

  predicate Lucky(c: Choice) {
    c.Go? && c.ok && c.root
  }

  lemma {:induction false} AnsweredAlone(p: Params, s: State, i: Pid, c: Choice, k: nat)
    requires i < |s.phase| && s.phase[i].Answered?
    ensures Alone(p, s, i, c, k) == s
    decreases k
  {
    if k > 0 {
      assert s.phase[i := s.phase[i]] == s.phase;
      AnsweredAlone(p, s, i, c, k - 1);
    }
  }

  /** Once it is writing it takes one step a unit, and two more to publish and commit. */
  lemma {:induction false} WritesAlone(p: Params, s: State, i: Pid, c: Choice, n: nat)
    requires Lucky(c) && i < |s.phase| && n <= |p.bytes(i)|
    requires s.phase[i] == Writing(n) && s.entry == Regular(p.bytes(i)[..n])
    ensures var t := Alone(p, s, i, c, |p.bytes(i)| - n + 2);
            t.phase[i] == Answered(Created) && t.entry == Regular(p.bytes(i))
    decreases |p.bytes(i)| - n
  {
    var t := Step(p, s, i, c);
    if n < |p.bytes(i)| {
      WritesAlone(p, t, i, c, n + 1);
    } else {
      assert p.bytes(i)[..n] == p.bytes(i);
      var u := Step(p, t, i, c);
      assert u.phase[i] == Answered(Created);
      assert Alone(p, s, i, c, 2) == Alone(p, t, i, c, 1) == Alone(p, u, i, c, 0);
    }
  }

  lemma AloneStep(p: Params, s: State, i: Pid, c: Choice, k: nat)
    requires i < |s.phase| && k > 0
    ensures Alone(p, s, i, c, k) == Alone(p, Step(p, s, i, c), i, c, k - 1)
  {
  }

  /** On a missing file it creates its configuration. */
  lemma AloneOnNothing(p: Params, s: State, i: Pid, c: Choice)
    requires Lucky(c) && i < |s.phase| && s.phase[i].Idle? && s.lock.None? && p.candidateOk(i) && s.entry.Absent?
    ensures var t := Alone(p, s, i, c, 9 + |p.bytes(i)|);
            t.phase[i] == Answered(Created) && t.entry == Regular(p.bytes(i))
  {
    var n := |p.bytes(i)|;
    var s1 := Step(p, s, i, c);
    var s2 := Step(p, s1, i, c);
    var s3 := Step(p, s2, i, c);
    var s4 := Step(p, s3, i, c);
    var s5 := Step(p, s4, i, c);
    var s6 := Step(p, s5, i, c);
    var s7 := Step(p, s6, i, c);
    assert s1.phase[i].Root? && s2.phase[i].First? && s3.phase[i] == Owning(false) && s4.phase[i].Contending?;
    assert s5.phase[i].Locked? && s6.phase[i].Opening? && s7.phase[i] == Writing(0);
    AloneStep(p, s, i, c, n + 9);
    AloneStep(p, s1, i, c, n + 8);
    AloneStep(p, s2, i, c, n + 7);
    AloneStep(p, s3, i, c, n + 6);
    AloneStep(p, s4, i, c, n + 5);
    AloneStep(p, s5, i, c, n + 4);
    AloneStep(p, s6, i, c, n + 3);
    assert p.bytes(i)[..0] == [];
    WritesAlone(p, s7, i, c, 0);
  }

  /** On a file that is there it answers by what it is, and leaves it alone. */
  lemma AloneOnSomething(p: Params, s: State, i: Pid, c: Choice)
    requires Lucky(c) && i < |s.phase| && s.phase[i].Idle? && s.lock.None? && p.candidateOk(i) && !s.entry.Absent?
    ensures var t := Alone(p, s, i, c, 6);
            && t.entry == s.entry
            && t.phase[i] == Answered(if Look(p, s.entry).ValidEntry? then Existing else Refused(Look(p, s.entry).reason))
  {
    var s1 := Step(p, s, i, c);
    var s2 := Step(p, s1, i, c);
    var s3 := Step(p, s2, i, c);
    AloneStep(p, s, i, c, 6);
    AloneStep(p, s1, i, c, 5);
    AloneStep(p, s2, i, c, 4);
    if Look(p, s.entry) == Bad(ExistingInvalid) {
      var s4 := Step(p, s3, i, c);
      var s5 := Step(p, s4, i, c);
      var s6 := Step(p, s5, i, c);
      assert s3.phase[i] == Owning(true) && s4.phase[i].Contending? && s5.phase[i].Locked?;
      AloneStep(p, s3, i, c, 3);
      AloneStep(p, s4, i, c, 2);
      AloneStep(p, s5, i, c, 1);
    } else {
      AnsweredAlone(p, s3, i, c, 3);
    }
  }

  // ---- When an answer is durable ----

  /** Nobody is still writing the file, or about to remove it. */
  predicate Settled(s: State) {
    s.maker.None? || s.maker.value >= |s.phase|
    || !(s.phase[s.maker.value].Writing? || s.phase[s.maker.value].Unlinking?)
  }

  lemma SettledStep(p: Params, s: State, initial: Entry, i: Pid, c: Choice)
    requires Inv(p, s, initial) && !s.entry.Absent? && Settled(s) && i < |s.phase|
    ensures Step(p, s, i, c).entry == s.entry && Settled(Step(p, s, i, c))
  {
    assert FileAsPhase(p, s, i);
  }

  lemma {:induction false} SettledStays(p: Params, s: State, initial: Entry, later: seq<(Pid, Choice)>)
    requires Inv(p, s, initial) && !s.entry.Absent? && Settled(s)
    ensures Run(p, s, later).entry == s.entry
    decreases |later|
  {
    if later != [] {
      var (i, c) := later[0];
      if i < |s.phase| {
        SettledStep(p, s, initial, i, c);
        StepKeepsInv(p, s, initial, i, c);
        SettledStays(p, Step(p, s, i, c), initial, later[1..]);
      } else {
        SettledStays(p, s, initial, later[1..]);
      }
    }
  }

  const GOOD: Choice := Go(true, true, false, ExistingUnsafe)
  const BAD: Choice := Go(false, true, false, ExistingUnsafe)

  lemma RunCons(p: Params, s: State, i: Pid, c: Choice, rest: seq<(Pid, Choice)>)
    requires i < |s.phase|
    ensures Run(p, s, [(i, c)] + rest) == Run(p, Step(p, s, i, c), rest)
  {
    assert ([(i, c)] + rest)[1..] == rest;
  }

  /** What the maker does to remove the file: fail, unless it has, and unlink. */
  function Removal(s: State): seq<(Pid, Choice)>
    requires s.maker.Some?
  {
    var i := s.maker.value;
    if i < |s.phase| && s.phase[i].Unlinking? then [(i, GOOD)] else [(i, BAD), (i, GOOD)]
  }

  lemma UnsettledVanishes(p: Params, s: State)
    requires !Settled(s)
    ensures Run(p, s, Removal(s)).entry.Absent?
  {
    var i := s.maker.value;
    assert [(i, GOOD)] + [] == [(i, GOOD)];
    if s.phase[i].Unlinking? {
      RunCons(p, s, i, GOOD, []);
    } else {
      var t := Step(p, s, i, BAD);
      assert t.phase[i] == Unlinking && |t.phase| == |s.phase|;
      assert [(i, BAD)] + [(i, GOOD)] == [(i, BAD), (i, GOOD)];
      RunCons(p, s, i, BAD, [(i, GOOD)]);
      RunCons(p, t, i, GOOD, []);
    }
  }

  /**
   In every state of every run with a file on disk, the file is there for good, if and only if its maker, if one
   of the processes is, is neither writing it nor removing it.
   */
  lemma DurableExactly(p: Params, n: nat, initial: Entry, schedule: seq<(Pid, Choice)>)
    requires !Run(p, Start(n, initial), schedule).entry.Absent?
    ensures var s := Run(p, Start(n, initial), schedule);
            && ((forall later :: Run(p, s, later).entry == s.entry) <==> Settled(s))
            && ((forall later :: !Run(p, s, later).entry.Absent?) <==> Settled(s))
  {
    var s := Run(p, Start(n, initial), schedule);
    RunKeepsInv(p, Start(n, initial), initial, schedule);
    if Settled(s) {
      forall later ensures Run(p, s, later).entry == s.entry {
        SettledStays(p, s, initial, later);
      }
    } else {
      UnsettledVanishes(p, s);
      assert Run(p, s, Removal(s)).entry.Absent?;
    }
  }

  // ---- A refusal for an invalid file ----

  /** Nothing this process does fails, and its time is never up. */
  predicate Patient(schedule: seq<(Pid, Choice)>, i: Pid) {
    forall k :: 0 <= k < |schedule| && schedule[k].0 == i ==> Lucky(schedule[k].1) && !schedule[k].1.late
  }

  predicate ForGood(p: Params, s: State, i: Pid) {
    i < |s.phase| && s.phase[i] == Answered(Refused(ExistingInvalid)) ==>
      Settled(s) && Look(p, s.entry) == Bad(ExistingInvalid)
  }

  lemma PatientStep(p: Params, s: State, initial: Entry, i: Pid, j: Pid, c: Choice)
    requires Inv(p, s, initial) && ForGood(p, s, i) && i < |s.phase| && j < |s.phase|
    requires j == i ==> Lucky(c) && !c.late
    ensures ForGood(p, Step(p, s, j, c), i)
  {
    assert FileAsPhase(p, s, i);
    if s.phase[i] == Answered(Refused(ExistingInvalid)) {
      SettledStep(p, s, initial, j, c);
    } else if j != i {
      if c.Go? { OthersRest(p, s, j, c, i); }
    } else if HoldsLock(s.phase[i]) && s.maker.Some? && s.maker.value < |s.phase| {
      assert FileAsPhase(p, s, s.maker.value);
    }
  }

  lemma {:induction false} PatientRun(p: Params, s: State, initial: Entry, i: Pid, schedule: seq<(Pid, Choice)>)
    requires Inv(p, s, initial) && ForGood(p, s, i) && i < |s.phase| && Patient(schedule, i)
    ensures ForGood(p, Run(p, s, schedule), i)
    decreases |schedule|
  {
    if schedule != [] {
      var (j, c) := schedule[0];
      assert Patient(schedule[1..], i);
      if j < |s.phase| {
        PatientStep(p, s, initial, i, j, c);
        StepKeepsInv(p, s, initial, j, c);
        PatientRun(p, Step(p, s, j, c), initial, i, schedule[1..]);
      } else {
        PatientRun(p, s, initial, i, schedule[1..]);
      }
    }
  }

  /**
   A process is not refused because of somebody else's half-written file: whoever is told that the file is invalid,
   with nothing failing and no time running out, is told of a file that stays as it is, whatever comes later.
   */
  lemma InvalidIsForGood(
      p: Params, n: nat, initial: Entry, schedule: seq<(Pid, Choice)>, later: seq<(Pid, Choice)>, i: Pid)
    requires i < n && Patient(schedule, i)
    requires Run(p, Start(n, initial), schedule).phase[i] == Answered(Refused(ExistingInvalid))
    ensures Look(p, Run(p, Run(p, Start(n, initial), schedule), later).entry) == Bad(ExistingInvalid)
  {
    RunKeepsInv(p, Start(n, initial), initial, schedule);
    PatientRun(p, Start(n, initial), initial, i, schedule);
    SettledStays(p, Run(p, Start(n, initial), schedule), initial, later);
  }

  // ---- A run in which `existing` is not ----

  lemma {:induction false} RunsCompose(p: Params, s: State, a: seq<(Pid, Choice)>, b: seq<(Pid, Choice)>)
    ensures Run(p, s, a + b) == Run(p, Run(p, s, a), b)
    decreases |a|
  {
    if a == [] {
      assert a + b == b;
    } else {
      var (i, c) := a[0];
      assert (a + b)[0] == a[0] && (a + b)[1..] == a[1..] + b;
      RunsCompose(p, if i < |s.phase| then Step(p, s, i, c) else s, a[1..], b);
    }
  }

  function Times(i: Pid, c: Choice, k: nat): seq<(Pid, Choice)> {
    if k == 0 then [] else [(i, c)] + Times(i, c, k - 1)
  }

  lemma {:induction false} TimesIsAlone(p: Params, s: State, i: Pid, c: Choice, k: nat)
    requires i < |s.phase|
    ensures Run(p, s, Times(i, c, k)) == Alone(p, s, i, c, k)
    decreases k
  {
    if k > 0 {
      RunCons(p, s, i, c, Times(i, c, k - 1));
      TimesIsAlone(p, Step(p, s, i, c), i, c, k - 1);
    }
  }

  lemma {:induction false} WritesOn(p: Params, s: State, i: Pid, n: nat, k: nat)
    requires i < |s.phase| && n + k <= |p.bytes(i)|
    requires s.phase[i] == Writing(n) && s.entry == Regular(p.bytes(i)[..n])
    ensures var t := Alone(p, s, i, GOOD, k);
            && t.phase == s.phase[i := Writing(n + k)] && t.entry == Regular(p.bytes(i)[..n + k])
            && t.maker == s.maker && t.lock == s.lock && t.told == s.told
    decreases k
  {
    if k > 0 {
      WritesOn(p, Step(p, s, i, GOOD), i, n + 1, k - 1);
    } else {
      assert s.phase[i := Writing(n)] == s.phase;
    }
  }

  lemma FirstContends(p: Params, k: nat)
    requires p.candidateOk(0)
    ensures Alone(p, Start(2, Absent), 0, GOOD, k + 4)
         == Alone(p, State(Absent, None, None, [Contending(None), Idle], []), 0, GOOD, k)
  {
    var s := Start(2, Absent);
    assert s.phase == [Idle, Idle];
    var s1 := Step(p, s, 0, GOOD);
    assert s1.phase == [Root, Idle];
    var s2 := Step(p, s1, 0, GOOD);
    assert s2.phase == [First, Idle];
    var s3 := Step(p, s2, 0, GOOD);
    assert s3.phase == [Owning(false), Idle];
    var s4 := Step(p, s3, 0, GOOD);
    assert s4.phase == [Contending(None), Idle];
    AloneStep(p, s, 0, GOOD, k + 4);
    AloneStep(p, s1, 0, GOOD, k + 3);
    AloneStep(p, s2, 0, GOOD, k + 2);
    AloneStep(p, s3, 0, GOOD, k + 1);
  }

  lemma FirstOpens(p: Params, k: nat)
    ensures Alone(p, State(Absent, None, None, [Contending(None), Idle], []), 0, GOOD, k + 3)
         == Alone(p, State(Regular([]), Some(0), Some(0), [Writing(0), Idle], []), 0, GOOD, k)
  {
    var s4 := State(Absent, None, None, [Contending(None), Idle], []);
    var s5 := Step(p, s4, 0, GOOD);
    assert s5.phase == [Locked, Idle];
    var s6 := Step(p, s5, 0, GOOD);
    assert s6.phase == [Opening, Idle];
    var s7 := Step(p, s6, 0, GOOD);
    assert s7.phase == [Writing(0), Idle];
    AloneStep(p, s4, 0, GOOD, k + 3);
    AloneStep(p, s5, 0, GOOD, k + 2);
    AloneStep(p, s6, 0, GOOD, k + 1);
  }

  /** The first of two processes, up to the point where all its bytes are down but not yet synced. */
  lemma FirstWritesAll(p: Params)
    requires p.candidateOk(0)
    ensures var t := Alone(p, Start(2, Absent), 0, GOOD, 7 + |p.bytes(0)|);
            && t.phase == [Writing(|p.bytes(0)|), Idle] && t.entry == Regular(p.bytes(0)) && t.maker == Some(0)
  {
    var n := |p.bytes(0)|;
    FirstContends(p, n + 3);
    FirstOpens(p, n);
    assert p.bytes(0)[..0] == [] && p.bytes(0)[..n] == p.bytes(0);
    WritesOn(p, State(Regular([]), Some(0), Some(0), [Writing(0), Idle], []), 0, 0, n);
    assert [Writing(0), Idle][0 := Writing(n)] == [Writing(n), Idle];
  }

  /** The second one looks then, and the first fails and removes its file. */
  lemma SecondLooksFirstFails(p: Params, s: State)
    requires p.candidateOk(1) && p.valid(p.bytes(0))
    requires s.phase == [Writing(|p.bytes(0)|), Idle] && s.entry == Regular(p.bytes(0)) && s.maker == Some(0)
    ensures var t := Run(p, s, [(1, GOOD), (1, GOOD), (1, GOOD), (0, BAD), (0, GOOD)]);
            t.phase[1] == Answered(Existing) && t.entry.Absent?
  {
    var n := |p.bytes(0)|;
    var s1 := Step(p, s, 1, GOOD);
    assert s1.phase == [Writing(n), Root];
    var s2 := Step(p, s1, 1, GOOD);
    assert s2.phase == [Writing(n), First];
    var s3 := Step(p, s2, 1, GOOD);
    assert s3.phase == [Writing(n), Answered(Existing)] && s3.maker == Some(0);
    var s4 := Step(p, s3, 0, BAD);
    assert s4.phase == [Unlinking, Answered(Existing)];
    var s5 := Step(p, s4, 0, GOOD);
    assert [(0, GOOD)] + [] == [(0, GOOD)];
    assert [(0, BAD)] + [(0, GOOD)] == [(0, BAD), (0, GOOD)];
    assert [(1, GOOD)] + [(0, BAD), (0, GOOD)] == [(1, GOOD), (0, BAD), (0, GOOD)];
    assert [(1, GOOD)] + [(1, GOOD), (0, BAD), (0, GOOD)] == [(1, GOOD), (1, GOOD), (0, BAD), (0, GOOD)];
    assert [(1, GOOD)] + [(1, GOOD), (1, GOOD), (0, BAD), (0, GOOD)] == [(1, GOOD), (1, GOOD), (1, GOOD), (0, BAD), (0, GOOD)];
    RunCons(p, s, 1, GOOD, [(1, GOOD), (1, GOOD), (0, BAD), (0, GOOD)]);
    RunCons(p, s1, 1, GOOD, [(1, GOOD), (0, BAD), (0, GOOD)]);
    RunCons(p, s2, 1, GOOD, [(0, BAD), (0, GOOD)]);
    RunCons(p, s3, 0, BAD, [(0, GOOD)]);
    RunCons(p, s4, 0, GOOD, []);
  }

  /**
   So `existing` may be told of a file that is not there for good: two processes on a missing file, the second
   of which looks when the first has all its bytes down and is about to fail on syncing them.
   */
  lemma ExistingIsNotDurable(p: Params)
    requires p.candidateOk(0) && p.candidateOk(1) && p.valid(p.bytes(0))
    ensures var schedule := Times(0, GOOD, 7 + |p.bytes(0)|) + [(1, GOOD), (1, GOOD), (1, GOOD), (0, BAD), (0, GOOD)];
            var t := Run(p, Start(2, Absent), schedule);
            t.phase[1] == Answered(Existing) && t.entry.Absent?
  {
    var write, rest := Times(0, GOOD, 7 + |p.bytes(0)|), [(1, GOOD), (1, GOOD), (1, GOOD), (0, BAD), (0, GOOD)];
    RunsCompose(p, Start(2, Absent), write, rest);
    TimesIsAlone(p, Start(2, Absent), 0, GOOD, 7 + |p.bytes(0)|);
    FirstWritesAll(p);
    SecondLooksFirstFails(p, Run(p, Start(2, Absent), write));
  }
}
