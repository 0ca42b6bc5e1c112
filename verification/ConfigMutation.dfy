/**
 Patching the configuration file while other writers ignore the lock: the callback is rerun on the newest bytes
 and the result is committed only if two reads around it saw the same bytes. Writers act between any two reads,
 but not between the last check and the write.
 */
module ConfigMutation {
  import opened Text
  import opened Merge

  type Fields = map<string, Json>

  /** What a read of the path finds. */
  datatype File = Missing | Unreadable | Raw(bytes: Text)

  datatype Mutation = Mutation(changed: bool, value: Json, config: Fields)

  /** `mutate` also gets the number of its call: it may consult state outside the file. */
  datatype Codec = Codec(
    parse: Text -> Option<Fields>,
    serialize: Fields -> Text,
    valid: Fields -> bool,
    mutate: (nat, Fields) -> Mutation)

  datatype Reason = NoFile | Invalid | Conflict

  datatype Outcome = Committed(value: Json) | Unchanged(value: Json) | Unavailable(reason: Reason) | Threw

  const MAX_REBASE_ATTEMPTS: nat := 3

  function Config(p: Codec, f: File): Option<Fields> {
    if f.Raw? then p.parse(f.bytes) else None
  }

  function WhyNot(f: File): Reason {
    if f.Missing? then NoFile else Invalid
  }

  // ---- The loop ----

  /** `seen(i)` is what the other writers made of the file by the time of the read number `i`. */
  class Store {
    var file: File
    var looks: nat
    var calls: nat
    const codec: Codec
    const seen: nat -> File

    constructor (codec: Codec, seen: nat -> File, file: File)
      ensures this.codec == codec && this.seen == seen && this.file == file && looks == 0 && calls == 0
    {
      this.codec, this.seen, this.file, looks, calls := codec, seen, file, 0, 0;
    }

    /** `readConfigFileSnapshot`. */
    method Read() returns (f: File)
      modifies `file, `looks
      ensures f == file == seen(old(looks)) && looks == old(looks) + 1
    {
      file := seen(looks);
      f := file;
      looks := looks + 1;
    }

    /** `mutate(structuredClone(config))`. */
    method Mutate(config: Fields) returns (m: Mutation)
      modifies `calls
      ensures m == codec.mutate(old(calls), config) && calls == old(calls) + 1
    {
      m := codec.mutate(calls, config);
      calls := calls + 1;
    }

    /** `persistConfigUnlocked`: equal bytes are not written again. */
    method Persist(config: Fields) returns (threw: bool)
      modifies `file
      ensures threw == !codec.valid(config)
      ensures file == if threw then old(file) else Raw(codec.serialize(config))
    {
      if !codec.valid(config) { return true; }
      var bytes := codec.serialize(config);
      if file != Raw(bytes) {
        file := Raw(bytes);
      }
      threw := false;
    }

    ghost function Now(o: Outcome): End
      reads this
    {
      End(o, file, looks, calls)
    }

    /** One attempt: it ends the procedure, or leaves the newest bytes as the next base. */
    method Attempt(base: File, ghost left: nat) returns (o: Option<Outcome>, next: File)
      requires left > 0 && looks > 0 && base == file == seen(looks - 1)
      modifies this
      ensures o.Some? ==> Now(o.value) == Attempts(codec, seen, old(looks), old(calls), left)
      ensures o.None? ==>
        && looks > 0 && next == file == seen(looks - 1)
        && Attempts(codec, seen, looks, calls, left - 1) == Attempts(codec, seen, old(looks), old(calls), left)
    {
      next := base;
      if Config(codec, base).None? { return Some(Unavailable(WhyNot(base))), base; }
      var tentative := Mutate(Config(codec, base).value);
      if !tentative.changed { return Some(Unchanged(tentative.value)), base; }
      var latest := Read();
      if Config(codec, latest).None? { return Some(Unavailable(WhyNot(latest))), latest; }
      if latest != base { return None, latest; }
      o, next := Confirmation(latest, left);
    }

    /** The second half: rerun the callback, look again, and write. */
    method Confirmation(latest: File, ghost left: nat) returns (o: Option<Outcome>, next: File)
      requires left > 0 && looks > 1 && calls > 0 && latest == file == seen(looks - 1) && Config(codec, latest).Some?
      modifies this
      ensures o.Some? ==> Now(o.value) == Confirm(codec, seen, old(looks) - 1, old(calls) - 1, left)
      ensures o.None? ==>
        && looks > 0 && next == file == seen(looks - 1)
        && Attempts(codec, seen, looks, calls, left - 1) == Confirm(codec, seen, old(looks) - 1, old(calls) - 1, left)
    {
      var confirmed := Mutate(Config(codec, latest).value);
      if !confirmed.changed { return Some(Unchanged(confirmed.value)), latest; }
      var commitBase := Read();
      if Config(codec, commitBase).None? { return Some(Unavailable(WhyNot(commitBase))), commitBase; }
      if commitBase != latest { return None, commitBase; }
      var threw := Persist(confirmed.config);
      return Some(if threw then Threw else Committed(confirmed.value)), commitBase;
    }

    /** `mutatePersistedConfig`. */
    method MutatePersisted() returns (o: Outcome)
      requires looks == 0 && calls == 0
      modifies this
      ensures Now(o) == Whole(codec, seen)
    {
      var observed := Read();
      if Config(codec, observed).None? { return Unavailable(WhyNot(observed)); }
      var base := Read();
      var attempt := 0;
      while attempt < MAX_REBASE_ATTEMPTS
        invariant 0 <= attempt <= MAX_REBASE_ATTEMPTS
        invariant looks > 0 && base == file == seen(looks - 1)
        invariant Attempts(codec, seen, looks, calls, MAX_REBASE_ATTEMPTS - attempt) == Whole(codec, seen)
      {
        var ended: Option<Outcome>;
        ended, base := Attempt(base, MAX_REBASE_ATTEMPTS - attempt);
        if ended.Some? { return ended.value; }
        attempt := attempt + 1;
      }
      return Unavailable(Conflict);
    }
  }

  // ---- The run as a function of what the reads see ----

  datatype End = End(outcome: Outcome, file: File, looks: nat, calls: nat)

  function Stop(seen: nat -> File, r: nat, m: nat, o: Outcome): End
    requires r > 0
  {
    End(o, seen(r - 1), r, m)
  }

  function Whole(p: Codec, seen: nat -> File): (e: End) {
    if Config(p, seen(0)).None? then Stop(seen, 1, 0, Unavailable(WhyNot(seen(0))))
    else Attempts(p, seen, 2, 0, MAX_REBASE_ATTEMPTS)
  }

  /** `left` attempts to go, the last of `r` reads being the base. */
  function Attempts(p: Codec, seen: nat -> File, r: nat, m: nat, left: nat): (e: End)
    requires r > 0
    decreases left, 1
  {
    if left == 0 then Stop(seen, r, m, Unavailable(Conflict))
    else
      var base := Config(p, seen(r - 1));
      if base.None? then Stop(seen, r, m, Unavailable(WhyNot(seen(r - 1))))
      else
        var tentative := p.mutate(m, base.value);
        if !tentative.changed then Stop(seen, r, m + 1, Unchanged(tentative.value))
        else if Config(p, seen(r)).None? then Stop(seen, r + 1, m + 1, Unavailable(WhyNot(seen(r))))
        else if seen(r) != seen(r - 1) then Attempts(p, seen, r + 1, m + 1, left - 1)
        else Confirm(p, seen, r, m, left)
  }

  function Confirm(p: Codec, seen: nat -> File, r: nat, m: nat, left: nat): (e: End)
    requires left > 0 && Config(p, seen(r)).Some?
    decreases left, 0
  {
    var confirmed := p.mutate(m + 1, Config(p, seen(r)).value);
    if !confirmed.changed then Stop(seen, r + 1, m + 2, Unchanged(confirmed.value))
    else if Config(p, seen(r + 1)).None? then Stop(seen, r + 2, m + 2, Unavailable(WhyNot(seen(r + 1))))
    else if seen(r + 1) != seen(r) then Attempts(p, seen, r + 2, m + 2, left - 1)
    else if !p.valid(confirmed.config) then Stop(seen, r + 2, m + 2, Threw)
    else End(Committed(confirmed.value), Raw(p.serialize(confirmed.config)), r + 2, m + 2)
  }

  // ---- What the outcomes mean ----

  /** A committed mutation is one of exactly the bytes last read, which the two last reads agree on. */
  predicate CommitIsFaithful(p: Codec, seen: nat -> File, e: End) {
    e.outcome.Committed? ==>
      && e.looks >= 2 && e.calls >= 1
      && seen(e.looks - 1) == seen(e.looks - 2)
      && Config(p, seen(e.looks - 1)).Some?
      && var m := p.mutate(e.calls - 1, Config(p, seen(e.looks - 1)).value);
         m.changed && p.valid(m.config) && e.outcome.value == m.value && e.file == Raw(p.serialize(m.config))
  }

  /** Anything else leaves the file as the other writers left it, and says why. */
  predicate OthersAreUntouched(p: Codec, seen: nat -> File, e: End) {
    !e.outcome.Committed? ==>
      && e.looks >= 1
      && e.file == seen(e.looks - 1)
      && (e.outcome.Unavailable? && e.outcome.reason == NoFile ==> e.file.Missing?)
      && (e.outcome.Unavailable? && e.outcome.reason == Invalid ==> !e.file.Missing? && Config(p, e.file).None?)
      && (e.outcome.Unchanged? ==>
            && e.calls >= 1 && Config(p, e.file).Some?
            && !p.mutate(e.calls - 1, Config(p, e.file).value).changed
            && e.outcome.value == p.mutate(e.calls - 1, Config(p, e.file).value).value)
  }

  predicate Meant(p: Codec, seen: nat -> File, e: End) {
    CommitIsFaithful(p, seen, e) && OthersAreUntouched(p, seen, e)
  }

  lemma {:induction false} AttemptsMean(p: Codec, seen: nat -> File, r: nat, m: nat, left: nat)
    requires r > 0
    ensures Meant(p, seen, Attempts(p, seen, r, m, left))
    ensures Attempts(p, seen, r, m, left).looks <= r + 2 * left && Attempts(p, seen, r, m, left).calls <= m + 2 * left
    decreases left, 1
  {
    if left > 0 && Config(p, seen(r)).Some? {
      if seen(r) != seen(r - 1) {
        AttemptsMean(p, seen, r + 1, m + 1, left - 1);
      } else {
        ConfirmMeans(p, seen, r, m, left);
      }
    }
  }

  lemma {:induction false} ConfirmMeans(p: Codec, seen: nat -> File, r: nat, m: nat, left: nat)
    requires r > 0 && left > 0 && Config(p, seen(r)).Some?
    ensures Meant(p, seen, Confirm(p, seen, r, m, left))
    ensures Confirm(p, seen, r, m, left).looks <= r + 2 * left && Confirm(p, seen, r, m, left).calls <= m + 2 * left
    decreases left, 0
  {
    if seen(r + 1) != seen(r) {
      AttemptsMean(p, seen, r + 2, m + 2, left - 1);
    }
  }

  lemma OutcomesMean(p: Codec, seen: nat -> File)
    ensures Meant(p, seen, Whole(p, seen))
    ensures Whole(p, seen).looks <= 2 + 2 * MAX_REBASE_ATTEMPTS && Whole(p, seen).calls <= 2 * MAX_REBASE_ATTEMPTS
  {
    AttemptsMean(p, seen, 2, 0, MAX_REBASE_ATTEMPTS);
  }

  /** How often the bytes differed from the read before, over the reads `a..b`. */
  function Changes(seen: nat -> File, a: nat, b: nat): nat
    requires 0 < a
    decreases b
  {
    if b <= a then 0
    else Changes(seen, a, b - 1) + (if seen(b - 1) != seen(b - 2) then 1 else 0)
  }

  lemma {:induction false} ChangesCompose(seen: nat -> File, a: nat, b: nat, c: nat)
    requires 0 < a <= b <= c
    ensures Changes(seen, a, c) == Changes(seen, a, b) + Changes(seen, b, c)
    decreases c
  {
    if b < c {
      ChangesCompose(seen, a, b, c - 1);
    }
  }

  /** The end of a run with `left` attempts to go after the read `r`, seen from the changes since. */
  predicate ConflictIff(p: Codec, seen: nat -> File, e: End, r: nat, left: nat)
    requires r > 0
  {
    && e.looks >= r
    && Changes(seen, r, e.looks) <= left
    && (e.outcome == Unavailable(Conflict)
        <==> Changes(seen, r, e.looks) == left && Config(p, seen(e.looks - 1)).Some?)
  }

  lemma {:induction false} ConflictTakesChanges(p: Codec, seen: nat -> File, r: nat, m: nat, left: nat)
    requires r > 0 && (left == 0 ==> Config(p, seen(r - 1)).Some?)
    ensures ConflictIff(p, seen, Attempts(p, seen, r, m, left), r, left)
    decreases left, 1
  {
    if left > 0 && Config(p, seen(r)).Some? {
      if seen(r) != seen(r - 1) {
        ConflictTakesChanges(p, seen, r + 1, m + 1, left - 1);
        ChangesCompose(seen, r, r + 1, Attempts(p, seen, r + 1, m + 1, left - 1).looks);
      } else {
        ConfirmTakesChanges(p, seen, r, m, left);
      }
    }
  }

  lemma {:induction false} ConfirmTakesChanges(p: Codec, seen: nat -> File, r: nat, m: nat, left: nat)
    requires r > 0 && left > 0 && Config(p, seen(r)).Some? && seen(r) == seen(r - 1)
    ensures ConflictIff(p, seen, Confirm(p, seen, r, m, left), r, left)
    decreases left, 0
  {
    assert Changes(seen, r, r + 1) == 0;
    if Config(p, seen(r + 1)).Some? && seen(r + 1) != seen(r) {
      ConflictTakesChanges(p, seen, r + 2, m + 2, left - 1);
      ChangesCompose(seen, r, r + 2, Attempts(p, seen, r + 2, m + 2, left - 1).looks);
    }
  }

  /** A conflict is reported exactly when three changes by other writers were seen, and the file is still valid. */
  lemma ConflictMeansThreeRebases(p: Codec, seen: nat -> File)
    ensures var e := Whole(p, seen);
            e.outcome == Unavailable(Conflict)
            <==> Changes(seen, 2, e.looks) == MAX_REBASE_ATTEMPTS && Config(p, seen(e.looks - 1)).Some?
  {
    ConflictTakesChanges(p, seen, 2, 0, MAX_REBASE_ATTEMPTS);
  }

  // ---- When it stops, read off the reads and the callback alone ----

  /** The last three of the first `n` reads saw the same bytes; the very first read only decides whether to begin. */
  predicate Settled(seen: nat -> File, n: nat) {
    n >= 4 && seen(n - 1) == seen(n - 2) == seen(n - 3)
  }

  /**
   What `n` reads decide, if anything: call `j` of the callback is always made on read `j + 1`. A file that is gone or
   broken, a third change, three reads that agree, or a callback with nothing to change.
   */
  function Verdict(p: Codec, seen: nat -> File, n: nat): Option<Outcome>
    requires n >= 2
  {
    var last := seen(n - 1);
    if last.Missing? then Some(Unavailable(NoFile))
    else if last.Unreadable? || p.parse(last.bytes).None? then Some(Unavailable(Invalid))
    else
      var config := p.parse(last.bytes).value;
      if Changes(seen, 2, n) == 3 then Some(Unavailable(Conflict))
      else if Settled(seen, n) then
        var m := p.mutate(n - 3, config);
        Some(if p.valid(m.config) then Committed(m.value) else Threw)
      else
        var m := p.mutate(n - 2, config);
        if m.changed then None else Some(Unchanged(m.value))
  }

  /** The run ends with the first reads that decide. */
  ghost predicate EndsFirst(p: Codec, seen: nat -> File, e: End, r: nat)
    requires r >= 2
  {
    && e.looks >= r
    && (forall n :: r <= n < e.looks ==> Verdict(p, seen, n).None?)
    && Verdict(p, seen, e.looks) == Some(e.outcome)
    && e.calls == (if e.outcome.Unchanged? then e.looks - 1 else e.looks - 2)
    && e.file == if !e.outcome.Committed? then seen(e.looks - 1)
                 else Raw(p.serialize(p.mutate(e.looks - 3, p.parse(seen(e.looks - 1).bytes).value).config))
  }

  /** A base that is the first read, or differs from the one before. */
  ghost predicate Starts(p: Codec, seen: nat -> File, r: nat, left: nat) {
    && r >= 2 && Changes(seen, 2, r) + left == 3 && (r > 2 ==> seen(r - 1) != seen(r - 2))
    && (left == 0 ==> Config(p, seen(r - 1)).Some?)
  }

  /** Nothing is left to try, the base is no config, or there is nothing to change. */
  lemma StopsAtBase(p: Codec, seen: nat -> File, r: nat, left: nat)
    requires Starts(p, seen, r, left)
    requires left == 0 || Config(p, seen(r - 1)).None? || !p.mutate(r - 2, Config(p, seen(r - 1)).value).changed
    ensures EndsFirst(p, seen, Attempts(p, seen, r, r - 2, left), r)
  {
  }

  lemma BaseIsTried(p: Codec, seen: nat -> File, r: nat, left: nat)
    requires Starts(p, seen, r, left) && left > 0
    requires Config(p, seen(r - 1)).Some? && p.mutate(r - 2, Config(p, seen(r - 1)).value).changed
    ensures Verdict(p, seen, r).None?
  {
  }

  /** The next read is no config. */
  lemma Breaks(p: Codec, seen: nat -> File, e: End, r: nat)
    requires r >= 2 && Verdict(p, seen, r).None? && Config(p, seen(r)).None?
    requires e == Stop(seen, r + 1, r - 1, Unavailable(WhyNot(seen(r))))
    ensures EndsFirst(p, seen, e, r)
  {
  }

  lemma EndsLater(p: Codec, seen: nat -> File, e: End, r: nat)
    requires r >= 2 && Verdict(p, seen, r).None? && EndsFirst(p, seen, e, r + 1)
    ensures EndsFirst(p, seen, e, r)
  {
  }

  lemma {:induction false} AttemptsEndFirst(p: Codec, seen: nat -> File, r: nat, left: nat)
    requires Starts(p, seen, r, left)
    ensures EndsFirst(p, seen, Attempts(p, seen, r, r - 2, left), r)
    decreases left, 1
  {
    if left == 0 || Config(p, seen(r - 1)).None? || !p.mutate(r - 2, Config(p, seen(r - 1)).value).changed {
      StopsAtBase(p, seen, r, left);
    } else {
      var e := Attempts(p, seen, r, r - 2, left);
      BaseIsTried(p, seen, r, left);
      if Config(p, seen(r)).None? {
        Breaks(p, seen, e, r);
      } else {
        if seen(r) != seen(r - 1) {
          AttemptsEndFirst(p, seen, r + 1, left - 1);
        } else {
          ConfirmEndsFirst(p, seen, r, left);
        }
        EndsLater(p, seen, e, r);
      }
    }
  }

  /** The callback has nothing to change on second thought. */
  lemma StopsConfirming(p: Codec, seen: nat -> File, r: nat, left: nat)
    requires Starts(p, seen, r, left) && left > 0 && Config(p, seen(r)).Some? && seen(r) == seen(r - 1)
    requires !p.mutate(r - 1, Config(p, seen(r)).value).changed
    ensures EndsFirst(p, seen, Confirm(p, seen, r, r - 2, left), r + 1)
  {
  }

  lemma ConfirmingIsTried(p: Codec, seen: nat -> File, r: nat, left: nat)
    requires Starts(p, seen, r, left) && left > 0 && Config(p, seen(r)).Some? && seen(r) == seen(r - 1)
    requires p.mutate(r - 1, Config(p, seen(r)).value).changed
    ensures Verdict(p, seen, r + 1).None?
  {
  }

  /** Three reads agree. */
  lemma Writes(p: Codec, seen: nat -> File, r: nat, left: nat)
    requires Starts(p, seen, r, left) && left > 0 && Config(p, seen(r)).Some? && seen(r) == seen(r - 1)
    requires p.mutate(r - 1, Config(p, seen(r)).value).changed && seen(r + 1) == seen(r)
    ensures EndsFirst(p, seen, Confirm(p, seen, r, r - 2, left), r + 2)
  {
    assert Changes(seen, 2, r + 1) == Changes(seen, 2, r);
    assert Changes(seen, 2, r + 2) == Changes(seen, 2, r + 1);
  }

  /** The last look sees other bytes: they are the next base. */
  lemma Rebases(p: Codec, seen: nat -> File, r: nat, left: nat)
    requires Starts(p, seen, r, left) && left > 0 && Config(p, seen(r)).Some? && seen(r) == seen(r - 1)
    requires p.mutate(r - 1, Config(p, seen(r)).value).changed
    requires Config(p, seen(r + 1)).Some? && seen(r + 1) != seen(r)
    ensures Starts(p, seen, r + 2, left - 1)
    ensures Confirm(p, seen, r, r - 2, left) == Attempts(p, seen, r + 2, r, left - 1)
  {
    assert Changes(seen, 2, r + 1) == Changes(seen, 2, r);
    assert Changes(seen, 2, r + 2) == Changes(seen, 2, r + 1) + 1;
  }

  lemma {:induction false} ConfirmEndsFirst(p: Codec, seen: nat -> File, r: nat, left: nat)
    requires Starts(p, seen, r, left) && left > 0 && Config(p, seen(r)).Some? && seen(r) == seen(r - 1)
    ensures EndsFirst(p, seen, Confirm(p, seen, r, r - 2, left), r + 1)
    decreases left, 0
  {
    if !p.mutate(r - 1, Config(p, seen(r)).value).changed {
      StopsConfirming(p, seen, r, left);
    } else {
      var e := Confirm(p, seen, r, r - 2, left);
      ConfirmingIsTried(p, seen, r, left);
      if Config(p, seen(r + 1)).None? {
        Breaks(p, seen, e, r + 1);
      } else {
        if seen(r + 1) != seen(r) {
          Rebases(p, seen, r, left);
          AttemptsEndFirst(p, seen, r + 2, left - 1);
        } else {
          Writes(p, seen, r, left);
        }
        EndsLater(p, seen, e, r + 1);
      }
    }
  }

  /** The whole procedure, whoever else writes: unless the first read already fails, it ends with the first verdict. */
  lemma EndsWithFirstVerdict(p: Codec, seen: nat -> File)
    ensures var e := Whole(p, seen);
      if seen(0).Missing? then e == End(Unavailable(NoFile), seen(0), 1, 0)
      else if seen(0).Unreadable? || p.parse(seen(0).bytes).None? then e == End(Unavailable(Invalid), seen(0), 1, 0)
      else EndsFirst(p, seen, e, 2)
  {
    if Config(p, seen(0)).Some? { AttemptsEndFirst(p, seen, 2, 3); }
  }

  /** It throws exactly when the last two reads agree on a config whose last mutation is a change to an invalid one. */
  lemma ThrowsExactly(p: Codec, seen: nat -> File)
    ensures var e := Whole(p, seen);
      e.outcome.Threw? <==>
        && e.looks >= 2 && seen(e.looks - 1) == seen(e.looks - 2) && Config(p, seen(e.looks - 1)).Some? && e.calls >= 1
        && var m := p.mutate(e.calls - 1, Config(p, seen(e.looks - 1)).value);
           m.changed && !p.valid(m.config)
  {
    EndsWithFirstVerdict(p, seen);
    OutcomesMean(p, seen);
    var e := Whole(p, seen);
    if e.looks >= 2 && e.outcome == Unavailable(Conflict) {
      assert Changes(seen, 2, e.looks) == 3;
      assert Verdict(p, seen, e.looks - 1).None?;
    }
    if e.outcome.Threw? { assert Verdict(p, seen, e.looks - 1).None?; }
  }

  /** The files all parse, and the callback always changes something, to a valid config. */
  ghost predicate Eager(p: Codec, seen: nat -> File) {
    && (forall m, c :: p.mutate(m, c).changed && p.valid(p.mutate(m, c).config))
    && (forall i :: Config(p, seen(i)).Some?)
  }

  /** Then the change is written, for the bytes last read, unless they changed three times while the procedure looked. */
  lemma PersistenceCommits(p: Codec, seen: nat -> File)
    requires Eager(p, seen)
    ensures var e := Whole(p, seen);
      && e.looks >= 2 && e.calls >= 1
      && (e.outcome.Committed? <==> Changes(seen, 2, e.looks) < MAX_REBASE_ATTEMPTS)
      && var m := p.mutate(e.calls - 1, Config(p, seen(e.looks - 1)).value);
         e.outcome.Committed? ==> e.outcome.value == m.value && e.file == Raw(p.serialize(m.config))
  {
    EndsWithFirstVerdict(p, seen);
    assert Config(p, seen(0)).Some?;
    var e := Whole(p, seen);
    assert Config(p, seen(e.looks - 1)).Some?;
    ConflictTakesChanges(p, seen, 2, 0, MAX_REBASE_ATTEMPTS);
    assert Config(p, seen(1)).Some? && Changes(seen, 2, 2) == 0;
    assert Verdict(p, seen, 2).None?;
  }

  lemma {:induction false} ChangesStop(seen: nat -> File, k: nat, n: nat)
    requires k >= 1 && forall i :: i >= k ==> seen(i) == seen(k)
    ensures Changes(seen, 2, n) <= Changes(seen, 2, k + 1)
    decreases n
  {
    if n > k + 1 {
      ChangesStop(seen, k, n - 1);
    } else if n >= 2 {
      ChangesCompose(seen, 2, n, k + 1);
    }
  }

  /** So it is written if the other writers stop before their third change. */
  lemma SettledFileIsPatched(p: Codec, seen: nat -> File, k: nat)
    requires Eager(p, seen) && k >= 1
    requires (forall i :: i >= k ==> seen(i) == seen(k)) && Changes(seen, 2, k + 1) < MAX_REBASE_ATTEMPTS
    ensures Whole(p, seen).outcome.Committed?
  {
    PersistenceCommits(p, seen);
    ChangesStop(seen, k, Whole(p, seen).looks);
  }

  /** With nobody interfering the first attempt decides, and it commits exactly what the callback wants twice. */
  lemma UndisturbedRun(p: Codec, seen: nat -> File)
    requires forall i: nat :: seen(i) == seen(0)
    requires Config(p, seen(0)).Some?
    ensures var c, e := Config(p, seen(0)).value, Whole(p, seen);
            && e.outcome == (if !p.mutate(0, c).changed then Unchanged(p.mutate(0, c).value)
                             else if !p.mutate(1, c).changed then Unchanged(p.mutate(1, c).value)
                             else if !p.valid(p.mutate(1, c).config) then Threw
                             else Committed(p.mutate(1, c).value))
            && e.file == (if e.outcome.Committed? then Raw(p.serialize(p.mutate(1, c).config)) else seen(0))
  {
    assert seen(1) == seen(0) && seen(2) == seen(0) && seen(3) == seen(0);
  }
}
