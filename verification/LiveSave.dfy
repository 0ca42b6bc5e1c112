/**
 Saving a long-lived configuration that somebody may edit by hand meanwhile. `claudeCode` and
 `clientIntegrations` are guarded: the server remembers, per instance, what they were when disk and memory last
 agreed. The listening address is guarded differently: once an async login has reconciled the file, the
 address on disk is the operator's and a save leaves it alone.

 A file is the record its reader gets from it; schema validation is the parameter `valid`.
 */
module LiveSave {
  import opened Text
  import opened Merge

  type Fields = map<string, Json>

  datatype Disk = Missing | Malformed | File(config: Fields)

  datatype Binding = Binding(port: Option<Json>, hostname: Option<Json>)

  /** `base` holds the armed baselines by key; a key that is not in it is not armed. */
  datatype World = World(live: Fields, base: map<string, Option<Json>>, binding: Option<Binding>, disk: Disk)

  /**
   How lock and file system treat a save: the lock is not had; reading the old file fails; writing the new one does;
   it is written but the generation cannot be bumped; only the commit at the very end fails; all goes well.
   */
  datatype How = NoLock | ReadFails | WriteFails | BumpFails | CommitFails | Lands

  /** `same`: a file that holds the candidate does so in the very bytes a save would write. */
  datatype Fate = Fate(how: How, same: bool)

  const LANDS := Fate(Lands, false)

  datatype Op = Arm | HandEdit(disk: Disk) | Mutate(live: Fields) | Reconcile(baseline: Fields) | Save(fate: Fate)

  datatype Result = Done | Threw

  function Guarded(): set<string> {
    {"claudeCode", "clientIntegrations"}
  }

  /** `config[key] = value`, where a missing value leaves no key. */
  function With(m: Fields, key: string, value: Option<Json>): Fields {
    if value.Some? then m[key := value.value] else m - {key}
  }

  function BindingOf(config: Fields): Binding {
    Binding(At(config, "port"), At(config, "hostname"))
  }

  // ---- Saving ----

  /** The file was edited under this key since the last rebase, and live was not. */
  predicate Adopts(w: World, key: string) {
    && key in w.base
    && w.disk.File?
    && !SameValue(At(w.disk.config, key), w.base[key])
    && SameValue(At(w.live, key), w.base[key])
  }

  function Adopt(w: World, key: string): Fields {
    if Adopts(w, key) then With(w.live, key, At(w.disk.config, key)) else w.live
  }

  function AdoptedLive(w: World): Fields {
    Adopt(w.(live := Adopt(w, "claudeCode")), "clientIntegrations")
  }

  /** The address a save writes, when one is recorded: the one on disk, if there is a file. */
  function SavedBinding(w: World): Option<Binding> {
    if w.binding.None? then None
    else if w.disk.File? then Some(BindingOf(w.disk.config))
    else w.binding
  }

  function Candidate(w: World): Fields {
    var live := AdoptedLive(w);
    match SavedBinding(w)
    case None => live
    case Some(b) => With(With(live, "port", b.port), "hostname", b.hostname)
  }

  function Rebase(w: World): map<string, Option<Json>> {
    map key | key in w.base :: At(w.live, key)
  }

  /** The file already has the bytes to be written: it is left alone, and the generation is not bumped. */
  predicate Unwritten(w: World, fate: Fate) {
    fate.same && w.disk == File(Candidate(w))
  }

  predicate WriteThrows(w: World, fate: Fate) {
    fate.how.ReadFails? || (fate.how.WriteFails? && !Unwritten(w, fate))
  }

  predicate BumpThrows(w: World, fate: Fate) {
    fate.how.BumpFails? && !Unwritten(w, fate)
  }

  /**
   A save that throws may already have adopted hand edits into the live configuration, and, when only the
   bookkeeping after the write fails, may have replaced the file.
   */
  function Saved(valid: Fields -> bool, fate: Fate, w: World): (World, Result) {
    if w.disk.Malformed? || fate.how.NoLock? then (w, Threw)
    else
      var adopted := w.(live := AdoptedLive(w));
      if !valid(Candidate(w)) || WriteThrows(w, fate) then (adopted, Threw)
      else
        var written := adopted.(disk := File(Candidate(w)));
        if BumpThrows(w, fate) then (written, Threw)
        else
          var rebased := written.(binding := SavedBinding(w), base := Rebase(adopted));
          (rebased, if fate.how.CommitFails? then Threw else Done)
  }

  // ---- Reconciling after an async disk commit ----

  function Skipped(w: World): set<string> {
    {"hostname", "port"} + w.base.Keys
  }

  predicate Pending(w: World, key: string)
    requires key in w.base
  {
    !SameValue(At(w.live, key), w.base[key])
  }

  /** A guarded key without a pending live edit takes what the file says, and that is the new baseline. */
  function Refresh(w: World, key: string): World
    requires w.disk.File?
  {
    if key in w.base && !Pending(w, key)
    then w.(live := With(w.live, key, At(w.disk.config, key)), base := w.base[key := At(w.disk.config, key)])
    else w
  }

  function Reconciled(w: World, baseline: Fields): (World, Result) {
    if !w.disk.File? then (w, Threw)
    else
      var merged := w.(live := MergeExcept(baseline, w.live, w.disk.config, Skipped(w)),
                       binding := Some(BindingOf(w.disk.config)));
      (Refresh(Refresh(merged, "claudeCode"), "clientIntegrations"), Done)
  }

  // ---- Runs ----

  function Armed(w: World): World {
    w.(base := map["claudeCode" := At(w.live, "claudeCode"), "clientIntegrations" := At(w.live, "clientIntegrations")])
  }

  function Step(valid: Fields -> bool, w: World, op: Op): (World, Result) {
    match op
    case Arm => (Armed(w), Done)
    case HandEdit(disk) => (w.(disk := disk), Done)
    case Mutate(live) => (w.(live := live), Done)
    case Reconcile(baseline) => Reconciled(w, baseline)
    case Save(fate) => Saved(valid, fate, w)
  }

  function Run(valid: Fields -> bool, w: World, ops: seq<Op>): World
    decreases |ops|
  {
    if ops == [] then w else Run(valid, Step(valid, w, ops[0]).0, ops[1..])
  }

  predicate OnlyGuarded(w: World) {
    w.base.Keys <= Guarded()
  }

  lemma {:induction false} BasesStayGuarded(valid: Fields -> bool, w: World, ops: seq<Op>)
    requires OnlyGuarded(w)
    ensures OnlyGuarded(Run(valid, w, ops))
    decreases |ops|
  {
    if ops != [] {
      BasesStayGuarded(valid, Step(valid, w, ops[0]).0, ops[1..]);
    }
  }

  // ---- What one save does ----

  lemma AdoptedAt(w: World, key: string)
    ensures At(AdoptedLive(w), key) == if key in Guarded() && Adopts(w, key) then At(w.disk.config, key) else At(w.live, key)
  {
  }

  lemma CandidateAt(w: World, key: string)
    requires key != "port" && key != "hostname"
    ensures At(Candidate(w), key) == At(AdoptedLive(w), key)
  {
  }

  /** File, memory and baseline say the same of every armed key, file and memory of every key but the address. */
  ghost predicate Agree(s: World) {
    && s.disk.File?
    && (forall key :: key in s.base ==> At(s.disk.config, key) == At(s.live, key) == s.base[key])
    && (forall key :: key != "port" && key != "hostname" ==> At(s.disk.config, key) == At(s.live, key))
  }

  /**
   After a successful save file, memory and baseline agree on every armed key; elsewhere the file is the live
   configuration, apart from the address.
   */
  lemma SaveRebases(valid: Fields -> bool, fate: Fate, w: World)
    requires OnlyGuarded(w) && Saved(valid, fate, w).1 == Done
    ensures var s := Saved(valid, fate, w).0;
            && Agree(s) && s.base.Keys == w.base.Keys
            && (w.binding.None? ==> s.disk.config == s.live)
  {
    var s := Saved(valid, fate, w).0;
    forall key | key != "port" && key != "hostname" ensures At(s.disk.config, key) == At(s.live, key) {
      CandidateAt(w, key);
    }
  }

  /** Which side a guarded key takes: the file's, exactly if the file changed and live did not. */
  lemma SaveResolves(valid: Fields -> bool, fate: Fate, w: World, key: string)
    requires OnlyGuarded(w) && key in w.base && w.disk.File? && Saved(valid, fate, w).1 == Done
    ensures At(Saved(valid, fate, w).0.disk.config, key)
         == if At(w.live, key) == w.base[key] then At(w.disk.config, key) else At(w.live, key)
  {
    SameValueIsEquality(At(w.disk.config, key), w.base[key]);
    SameValueIsEquality(At(w.live, key), w.base[key]);
    AdoptedAt(w, key);
    CandidateAt(w, key);
  }

  // ---- Key by key, against the world before ----

  /** A guarded key that only the file changed since the last rebase is the file's; every other key is live's. */
  function Settled(w: World, key: string): Option<Json> {
    if key in Guarded() && key in w.base && w.disk.File? && At(w.live, key) == w.base[key] then At(w.disk.config, key)
    else At(w.live, key)
  }

  /** The file gets the same, but for a recorded address: the one it had, or the one recorded if there is no file. */
  function Written(w: World, key: string): Option<Json> {
    if w.binding.None? || key !in {"port", "hostname"} then Settled(w, key)
    else if w.disk.File? then At(w.disk.config, key)
    else if key == "port" then w.binding.value.port
    else w.binding.value.hostname
  }

  /** What a successful save leaves: memory keeps its own address, and every baseline is what memory now says. */
  ghost predicate Leaves(w: World, s: World) {
    && (forall key :: At(s.live, key) == Settled(w, key))
    && s.disk.File? && (forall key :: At(s.disk.config, key) == Written(w, key))
    && s.base.Keys == w.base.Keys && (forall key :: key in s.base ==> s.base[key] == Settled(w, key))
    && s.binding == if w.binding.None? then None else Some(Binding(Written(w, "port"), Written(w, "hostname")))
  }

  lemma AdoptedIsSettled(w: World, key: string)
    ensures At(AdoptedLive(w), key) == Settled(w, key)
  {
    AdoptedAt(w, key);
    if key in w.base {
      SameValueIsEquality(At(w.live, key), w.base[key]);
      if w.disk.File? { SameValueIsEquality(At(w.disk.config, key), w.base[key]); }
    }
  }

  lemma CandidateIsWritten(w: World, key: string)
    ensures At(Candidate(w), key) == Written(w, key)
  {
    AdoptedIsSettled(w, key);
    if key != "port" && key != "hostname" { CandidateAt(w, key); }
  }

  /** A save, whether it succeeds or throws, seen from the world before: `file` is what it would write. */
  lemma SaveLeaves(valid: Fields -> bool, fate: Fate, w: World, file: Fields)
    requires forall key :: At(file, key) == Written(w, key)
    ensures
      var (s, r) := Saved(valid, fate, w);
      var began := !w.disk.Malformed? && !fate.how.NoLock?;
      var equal := fate.same && w.disk == File(file);
      var lands := began && valid(file) && !fate.how.ReadFails? && (equal || !fate.how.WriteFails?);
      var bumped := lands && (equal || !fate.how.BumpFails?);
      && (r == Done <==> bumped && !fate.how.CommitFails?)
      && (bumped ==> Leaves(w, s))
      && (forall key :: At(s.live, key) == if began then Settled(w, key) else At(w.live, key))
      && s.disk == (if lands then File(file) else w.disk)
      && (!bumped ==> s.base == w.base && s.binding == w.binding)
  {
    var s := Saved(valid, fate, w).0;
    forall key ensures At(AdoptedLive(w), key) == Settled(w, key) && At(Candidate(w), key) == At(file, key) {
      AdoptedIsSettled(w, key);
      CandidateIsWritten(w, key);
    }
    SameFields(Candidate(w), file);
  }

  lemma SaveMeets(valid: Fields -> bool, fate: Fate, w: World)
    ensures Saved(valid, fate, w).1 == Done ==> Leaves(w, Saved(valid, fate, w).0)
  {
    forall key ensures At(Candidate(w), key) == Written(w, key) { CandidateIsWritten(w, key); }
    SaveLeaves(valid, fate, w, Candidate(w));
  }

  /** A save throws exactly on a malformed file, an invalid candidate or a failing file system or lock. */
  lemma SaveFailures(valid: Fields -> bool, fate: Fate, w: World)
    ensures Saved(valid, fate, w).1 == Threw
       <==> || w.disk.Malformed? || !valid(Candidate(w)) || fate.how in {NoLock, ReadFails, CommitFails}
            || (fate.how in {WriteFails, BumpFails} && !Unwritten(w, fate))
    ensures Saved(valid, fate, w).1 == Threw ==>
      var s := Saved(valid, fate, w).0;
      var began := !w.disk.Malformed? && !fate.how.NoLock?;
      var wrote := began && valid(Candidate(w)) && !WriteThrows(w, fate);
      && s.live == (if began then AdoptedLive(w) else w.live)
      && s.disk == (if wrote then File(Candidate(w)) else w.disk)
      && s.base == (if wrote && fate.how.CommitFails? then Rebase(s) else w.base)
  {
  }

  lemma SameFields(a: Fields, b: Fields)
    requires forall key :: At(a, key) == At(b, key)
    ensures a == b
  {
    forall key | key in a || key in b ensures key in a && key in b && a[key] == b[key] {
      assert At(a, key) == At(b, key);
    }
  }

  /** Adopting again from a file whose guarded keys are what they were, or what was adopted, changes nothing. */
  lemma AdoptsOnce(w: World, v: World)
    requires v.live == AdoptedLive(w) && (v.disk == w.disk || v.disk == File(Candidate(w)))
    requires v.base == w.base || (v.base == Rebase(w.(live := AdoptedLive(w))) && v.disk == File(Candidate(w)))
    ensures AdoptedLive(v) == AdoptedLive(w)
  {
    forall key ensures At(AdoptedLive(v), key) == At(AdoptedLive(w), key) {
      AdoptedAt(w, key);
      AdoptedAt(v, key);
      if key in Guarded() {
        CandidateAt(w, key);
        if v.disk.File? && key in v.base {
          SameValueIsEquality(At(v.disk.config, key), v.base[key]);
          SameValueIsEquality(At(v.live, key), v.base[key]);
        }
        if w.disk.File? && key in w.base {
          SameValueIsEquality(At(w.disk.config, key), w.base[key]);
          SameValueIsEquality(At(w.live, key), w.base[key]);
        }
      }
    }
    SameFields(AdoptedLive(v), AdoptedLive(w));
  }

  /**
   A save that failed can be tried again: if nothing changes meanwhile, whatever the failed one did, the next one
   leaves exactly what it would have left without it.
   */
  lemma RetryIsTransparent(valid: Fields -> bool, fate: Fate, w: World)
    requires OnlyGuarded(w) && Saved(valid, LANDS, w).1 == Done
    ensures Saved(valid, LANDS, Saved(valid, fate, w).0) == Saved(valid, LANDS, w)
  {
    var v := Saved(valid, fate, w).0;
    if v != w {
      AdoptsOnce(w, v);
      RetryKeepsAddress(w, v);
      assert Rebase(v.(live := AdoptedLive(v))) == Rebase(w.(live := AdoptedLive(w)));
    }
  }

  lemma RetryKeepsAddress(w: World, v: World)
    requires AdoptedLive(v) == AdoptedLive(w) && (v.disk == w.disk || v.disk == File(Candidate(w)))
    requires v.binding == w.binding || (v.binding == SavedBinding(w) && v.disk == File(Candidate(w)))
    requires !w.disk.Malformed?
    ensures SavedBinding(v) == SavedBinding(w) && Candidate(v) == Candidate(w)
  {
  }

  /** After any run every successful save leaves file, memory and baselines in agreement; what was armed stays armed. */
  lemma EverySaveRebases(valid: Fields -> bool, fate: Fate, w: World, ops: seq<Op>)
    requires OnlyGuarded(w)
    ensures var v := Run(valid, w, ops);
            && OnlyGuarded(v)
            && (w.base.Keys == Guarded() ==> v.base.Keys == Guarded())
            && (Saved(valid, fate, v).1 == Done ==>
                  Agree(Saved(valid, fate, v).0) && Saved(valid, fate, v).0.base.Keys == v.base.Keys)
  {
    BasesStayGuarded(valid, w, ops);
    if w.base.Keys == Guarded() {
      StaysArmed(valid, w, ops);
    }
    var v := Run(valid, w, ops);
    if Saved(valid, fate, v).1 == Done {
      SaveRebases(valid, fate, v);
    }
  }

  lemma {:induction false} StaysArmed(valid: Fields -> bool, w: World, ops: seq<Op>)
    requires w.base.Keys == Guarded()
    ensures Run(valid, w, ops).base.Keys == Guarded()
    decreases |ops|
  {
    if ops != [] {
      StepStaysArmed(valid, w, ops[0]);
      StaysArmed(valid, Step(valid, w, ops[0]).0, ops[1..]);
    }
  }

  lemma StepStaysArmed(valid: Fields -> bool, w: World, op: Op)
    requires w.base.Keys == Guarded()
    ensures Step(valid, w, op).0.base.Keys == Guarded()
  {
  }

  // ---- Hand edits over a run ----

  /** Memory is what it was at the last rebase of this key. */
  predicate Clean(w: World, key: string) {
    key in w.base && At(w.live, key) == w.base[key]
  }

  /** The step does not move the live side of the key away from its baseline: by a live mutation, or by a save that
      adopts a hand edit and throws before it rebases. */
  predicate Quiet(valid: Fields -> bool, w: World, op: Op, key: string) {
    match op
    case Mutate(live) => At(live, key) == At(w.live, key)
    case Save(fate) =>
      !(w.disk.File? && At(w.disk.config, key) != At(w.live, key)
        && !fate.how.NoLock? && (!valid(Candidate(w)) || WriteThrows(w, fate) || BumpThrows(w, fate)))
    case _ => true
  }

  lemma QuietStepsStayClean(valid: Fields -> bool, w: World, op: Op, key: string)
    requires OnlyGuarded(w) && Clean(w, key)
    ensures Clean(Step(valid, w, op).0, key) <==> Quiet(valid, w, op, key)
  {
    SameValueIsEquality(At(w.live, key), w.base[key]);
    match op
    case Save(fate) =>
      if w.disk.File? {
        SameValueIsEquality(At(w.disk.config, key), w.base[key]);
      }
      AdoptedAt(w, key);
    case Reconcile(baseline) =>
      if w.disk.File? {
        RefreshedIsClean(w, baseline, key);
      }
    case _ =>
  }

  lemma RefreshedIsClean(w: World, baseline: Fields, key: string)
    requires OnlyGuarded(w) && w.disk.File? && Clean(w, key)
    ensures Clean(Reconciled(w, baseline).0, key)
  {
    var merged := w.(live := MergeExcept(baseline, w.live, w.disk.config, Skipped(w)),
                     binding := Some(BindingOf(w.disk.config)));
    MergeExceptAt(baseline, w.live, w.disk.config, Skipped(w), key);
    SameValueIsEquality(At(merged.live, key), merged.base[key]);
  }

  predicate AllQuiet(valid: Fields -> bool, w: World, ops: seq<Op>, key: string)
    decreases |ops|
  {
    ops == [] || (Quiet(valid, w, ops[0], key) && AllQuiet(valid, Step(valid, w, ops[0]).0, ops[1..], key))
  }

  lemma {:induction false} CleanRun(valid: Fields -> bool, w: World, ops: seq<Op>, key: string)
    requires OnlyGuarded(w) && Clean(w, key) && AllQuiet(valid, w, ops, key)
    ensures OnlyGuarded(Run(valid, w, ops)) && Clean(Run(valid, w, ops), key)
    decreases |ops|
  {
    if ops != [] {
      QuietStepsStayClean(valid, w, ops[0], key);
      CleanRun(valid, Step(valid, w, ops[0]).0, ops[1..], key);
    }
  }

  /**
   A hand edit of a guarded key is overridden only if the live side changed too: from any rebase, through any
   run in which the live side of the key stays quiet, a successful save leaves on disk what the file said.
   */
  lemma HandEditSurvives(valid: Fields -> bool, fate: Fate, w: World, ops: seq<Op>, key: string)
    requires OnlyGuarded(w) && Clean(w, key) && AllQuiet(valid, w, ops, key)
    ensures var v := Run(valid, w, ops);
            v.disk.File? && Saved(valid, fate, v).1 == Done ==>
              At(Saved(valid, fate, v).0.disk.config, key) == At(v.disk.config, key) == At(Saved(valid, fate, v).0.live, key)
  {
    CleanRun(valid, w, ops, key);
    var v := Run(valid, w, ops);
    if v.disk.File? && Saved(valid, fate, v).1 == Done {
      SaveResolves(valid, fate, v, key);
      SaveRebases(valid, fate, v);
    }
  }

  /** Every rebase starts such a run: arming, a successful save, a reconcile with no pending edit. */
  lemma RebasesAreClean(valid: Fields -> bool, fate: Fate, baseline: Fields, w: World, key: string)
    requires OnlyGuarded(w)
    ensures Armed(w) == w.(base := Armed(w).base) && Armed(w).base.Keys == Guarded()
    ensures key in Guarded() ==> Clean(Armed(w), key)
    ensures key in w.base && Saved(valid, fate, w).1 == Done ==> Clean(Saved(valid, fate, w).0, key)
    ensures key in w.base && w.disk.File? && !Pending(w, key) ==> Clean(Reconciled(w, baseline).0, key)
  {
    if key in w.base && w.disk.File? && !Pending(w, key) {
      SameValueIsEquality(At(w.live, key), w.base[key]);
      RefreshedIsClean(w, baseline, key);
    }
  }

  /**
   Without the proviso on saves that throw it is false: the save adopts the first hand edit, fails to write, and
   the next save takes the adopted value for a live change that overrides the second hand edit.
   */
  lemma FailedSaveLosesTheNextHandEdit(first: Json, second: Json)
    requires second != first
    ensures var valid: Fields -> bool := _ => true;
            var w := World(map[], map["claudeCode" := None, "clientIntegrations" := None], None,
                           File(map["claudeCode" := first]));
            var failed := Step(valid, w, Save(Fate(WriteFails, false))).0;
            var edited := Step(valid, failed, HandEdit(File(map["claudeCode" := second]))).0;
            var saved := Saved(valid, LANDS, edited);
            && Clean(w, "claudeCode") && !Quiet(valid, w, Save(Fate(WriteFails, false)), "claudeCode")
            && saved.1 == Done && At(saved.0.disk.config, "claudeCode") == Some(first)
  {
    var valid: Fields -> bool := _ => true;
    var w := World(map[], map["claudeCode" := None, "clientIntegrations" := None], None,
                   File(map["claudeCode" := first]));
    AdoptedAt(w, "claudeCode");
    var edited := w.(live := AdoptedLive(w), disk := File(map["claudeCode" := second]));
    AdoptedAt(edited, "claudeCode");
    CandidateAt(edited, "claudeCode");
  }

  /** The same when the save is refused on validation and the live configuration is repaired elsewhere. */
  lemma RefusedSaveLosesTheNextHandEdit()
    ensures var valid: Fields -> bool := config => "broken" !in config;
            var first, second := At(map["claudeCode" := Bool(true)], "claudeCode"), map["claudeCode" := Null];
            var w := World(map["broken" := Null], map["claudeCode" := None, "clientIntegrations" := None], None,
                           File(map["claudeCode" := Bool(true)]));
            var refused := Step(valid, w, Save(LANDS)).0;
            var repaired := Step(valid, refused, Mutate(refused.live - {"broken"})).0;
            var edited := Step(valid, repaired, HandEdit(File(second))).0;
            && Clean(w, "claudeCode")
            && Saved(valid, LANDS, w).1 == Threw
            && At(repaired.live, "claudeCode") == At(refused.live, "claudeCode") == first
            && Saved(valid, LANDS, edited).1 == Done
            && At(Saved(valid, LANDS, edited).0.disk.config, "claudeCode") == first != At(second, "claudeCode")
  {
    var valid: Fields -> bool := config => "broken" !in config;
    var w := World(map["broken" := Null], map["claudeCode" := None, "clientIntegrations" := None], None,
                   File(map["claudeCode" := Bool(true)]));
    AdoptedAt(w, "broken");
    AdoptedAt(w, "claudeCode");
    assert !valid(Candidate(w));
  }

  // ---- The address over a run ----

  lemma SaveKeepsBinding(valid: Fields -> bool, fate: Fate, w: World)
    requires w.binding.Some?
    ensures var saved := Saved(valid, fate, w).0;
            && saved.binding.Some?
            && (w.disk.File? ==> saved.disk.File? && BindingOf(saved.disk.config) == BindingOf(w.disk.config))
            && (w.disk.Missing? && saved.disk.File? ==> BindingOf(saved.disk.config) == w.binding.value)
  {
  }

  lemma StepKeepsBinding(valid: Fields -> bool, w: World, op: Op)
    requires w.binding.Some?
    ensures Step(valid, w, op).0.binding.Some?
  {
    if op.Save? { SaveKeepsBinding(valid, op.fate, w); }
  }

  /**
   Once recorded, an address stays recorded, and a save onto a file, whether it throws or not, leaves port and
   hostname of the file alone; onto a missing file it writes the recorded address or nothing.
   */
  lemma {:induction false} BindingIsKept(valid: Fields -> bool, fate: Fate, w: World, ops: seq<Op>)
    requires w.binding.Some?
    ensures var v := Run(valid, w, ops);
            var saved := Saved(valid, fate, v).0;
            && v.binding.Some?
            && (v.disk.File? ==> saved.disk.File? && BindingOf(saved.disk.config) == BindingOf(v.disk.config))
            && (v.disk.Missing? && saved.disk.File? ==> BindingOf(saved.disk.config) == v.binding.value)
    decreases |ops|
  {
    if ops == [] {
      SaveKeepsBinding(valid, fate, w);
    } else {
      StepKeepsBinding(valid, w, ops[0]);
      BindingIsKept(valid, fate, Step(valid, w, ops[0]).0, ops[1..]);
    }
  }

  // ---- What a reconcile does ----

  lemma RefreshAt(w: World, key: string, other: string)
    requires w.disk.File?
    ensures var v := Refresh(w, key);
            && (other != key ==> At(v.live, other) == At(w.live, other))
            && v.base.Keys == w.base.Keys && v.disk == w.disk && v.binding == w.binding
            && (other != key && other in w.base ==> v.base[other] == w.base[other])
            && (key in w.base ==>
                  && At(v.live, key) == (if At(w.live, key) == w.base[key] then At(w.disk.config, key) else At(w.live, key))
                  && v.base[key] == (if At(w.live, key) == w.base[key] then At(w.disk.config, key) else w.base[key]))
            && (key !in w.base ==> v == w)
  {
    if key in w.base {
      SameValueIsEquality(At(w.live, key), w.base[key]);
    }
  }

  /** Key by key: the address is live's, a guarded key is live's only with a pending edit, all else is merged. */
  lemma ReconcileAt(w: World, baseline: Fields, key: string)
    requires OnlyGuarded(w)
    ensures !w.disk.File? <==> Reconciled(w, baseline).1 == Threw
    ensures !w.disk.File? ==> Reconciled(w, baseline).0 == w
    ensures w.disk.File? ==>
            var v := Reconciled(w, baseline).0;
            && At(v.live, key) ==
               (if key == "port" || key == "hostname" then At(w.live, key)
                else if key in w.base then (if At(w.live, key) == w.base[key] then At(w.disk.config, key) else At(w.live, key))
                else Merge3(At(baseline, key), At(w.live, key), At(w.disk.config, key)))
            && v.base.Keys == w.base.Keys
            && (key in w.base ==> v.base[key] == if At(w.live, key) == w.base[key] then At(w.disk.config, key) else w.base[key])
            && v.binding == Some(Binding(At(w.disk.config, "port"), At(w.disk.config, "hostname"))) && v.disk == w.disk
  {
    if !w.disk.File? { return; }
    var merged := w.(live := MergeExcept(baseline, w.live, w.disk.config, Skipped(w)),
                     binding := Some(BindingOf(w.disk.config)));
    MergeExceptAt(baseline, w.live, w.disk.config, Skipped(w), key);
    RefreshAt(merged, "claudeCode", key);
    RefreshAt(Refresh(merged, "claudeCode"), "clientIntegrations", key);
  }
}
