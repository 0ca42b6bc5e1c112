/**
 The three-way merge of configuration trees: what an async disk commit and pending live edits come to, given
 the snapshot both started from. Trees are JSON values; a missing key is `None`.
 */
module Merge {
  import opened Text

  datatype Json =
    | Null
    | Bool(b: bool)
    | Number(n: real)
    | String(s: string)
    | Array(items: seq<Json>)
    | Object(fields: map<string, Json>)

  /** The structural compare of the source. */
  predicate DeepEqual(a: Json, b: Json) {
    match (a, b)
    case (Array(x), Array(y)) => |x| == |y| && forall i :: 0 <= i < |x| ==> DeepEqual(x[i], y[i])
    case (Object(x), Object(y)) =>
      forall k :: k in x.Keys + y.Keys ==> k in x && k in y && DeepEqual(x[k], y[k])
    case (_, _) => !a.Array? && !a.Object? && a == b
  }

  /** On trees without explicit `undefined`, whatever their key order, it is equality. */
  lemma {:induction false} DeepEqualIsEquality(a: Json, b: Json)
    ensures DeepEqual(a, b) <==> a == b
  {
    match (a, b)
    case (Array(x), Array(y)) =>
      if |x| == |y| {
        forall i | 0 <= i < |x| ensures DeepEqual(x[i], y[i]) <==> x[i] == y[i] {
          DeepEqualIsEquality(x[i], y[i]);
        }
        assert a == b <==> forall i :: 0 <= i < |x| ==> x[i] == y[i];
      }
    case (Object(x), Object(y)) =>
      forall k | k in x && k in y ensures DeepEqual(x[k], y[k]) <==> x[k] == y[k] {
        DeepEqualIsEquality(x[k], y[k]);
      }
      if DeepEqual(a, b) {
        assert forall k :: k in x ==> k in x.Keys + y.Keys;
        assert forall k :: k in y ==> k in x.Keys + y.Keys;
        assert x.Keys == y.Keys;
        assert forall k :: k in x ==> x[k] == y[k];
        assert x == y;
      }
    case (_, _) =>
  }

  predicate SameValue(a: Option<Json>, b: Option<Json>) {
    (a.None? && b.None?) || (a.Some? && b.Some? && DeepEqual(a.value, b.value))
  }

  function At(m: map<string, Json>, k: string): Option<Json> {
    if k in m then Some(m[k]) else None
  }

  predicate IsRecord(v: Option<Json>) {
    v.Some? && v.value.Object?
  }

  function FieldsOr(v: Option<Json>): map<string, Json> {
    if IsRecord(v) then v.value.fields else map[]
  }

  /** `reconcileConfigValue` as a function of the three values. */
  function Merge3(base: Option<Json>, live: Option<Json>, disk: Option<Json>): Option<Json>
    decreases live.Some?, if live.Some? then live.value else Null, 1
  {
    if SameValue(live, base) then
      if IsRecord(live) && IsRecord(disk)
      then Some(Object(MergeFields(FieldsOr(base), live.value.fields, disk.value.fields)))
      else disk
    else if SameValue(disk, base) then live
    else if IsRecord(live) && IsRecord(disk) && (base.None? || IsRecord(base))
    then Some(Object(MergeFields(FieldsOr(base), live.value.fields, disk.value.fields)))
    else live
  }

  /** `reconcileConfigRecord`: key by key, a merged value that is missing leaves no key. */
  function MergeFields(base: map<string, Json>, live: map<string, Json>, disk: map<string, Json>): map<string, Json>
    decreases true, Object(live), 0
  {
    map k | k in base.Keys + live.Keys + disk.Keys && Merge3(At(base, k), At(live, k), At(disk, k)).Some?
      :: Merge3(At(base, k), At(live, k), At(disk, k)).value
  }

  /** The record-level entry, with the keys the caller reconciles itself left alone. */
  function MergeExcept(
      base: map<string, Json>, live: map<string, Json>, disk: map<string, Json>, skipped: set<string>): map<string, Json> {
    map k | k in base.Keys + live.Keys + disk.Keys && MergeAt(base, live, disk, skipped, k).Some?
      :: MergeAt(base, live, disk, skipped, k).value
  }

  function MergeAt(
      base: map<string, Json>, live: map<string, Json>, disk: map<string, Json>, skipped: set<string>, k: string)
    : Option<Json> {
    if k in skipped then At(live, k) else Merge3(At(base, k), At(live, k), At(disk, k))
  }

  lemma MergeExceptNothing(base: map<string, Json>, live: map<string, Json>, disk: map<string, Json>)
    ensures MergeExcept(base, live, disk, {}) == MergeFields(base, live, disk)
  {
  }

  lemma MergeExceptAt(
      base: map<string, Json>, live: map<string, Json>, disk: map<string, Json>, skipped: set<string>, k: string)
    ensures At(MergeExcept(base, live, disk, skipped), k) == MergeAt(base, live, disk, skipped, k)
  {
    if k !in base.Keys + live.Keys + disk.Keys {
      assert k !in base && k !in live && k !in disk;
    }
  }

  lemma MergeFieldsAt(base: map<string, Json>, live: map<string, Json>, disk: map<string, Json>, k: string)
    ensures At(MergeFields(base, live, disk), k) == Merge3(At(base, k), At(live, k), At(disk, k))
  {
    if k !in base.Keys + live.Keys + disk.Keys {
      assert k !in base && k !in live && k !in disk;
    }
  }

  lemma SameFields(m: map<string, Json>, n: map<string, Json>)
    requires forall k :: At(m, k) == At(n, k)
    ensures m == n
  {
    forall k ensures k in m <==> k in n {
      assert At(m, k) == At(n, k);
    }
    forall k | k in m ensures m[k] == n[k] {
      assert At(m, k) == At(n, k);
    }
  }

  lemma SameValueIsEquality(a: Option<Json>, b: Option<Json>)
    ensures SameValue(a, b) <==> a == b
  {
    if a.Some? && b.Some? {
      DeepEqualIsEquality(a.value, b.value);
    }
  }

  // ---- The merge laws ----

  /** If live did not change, the disk wins outright. */
  lemma {:induction false} UnchangedLiveYieldsDisk(live: Option<Json>, disk: Option<Json>)
    ensures Merge3(live, live, disk) == disk
    decreases live.Some?, if live.Some? then live.value else Null
  {
    SameValueIsEquality(live, live);
    if IsRecord(live) && IsRecord(disk) {
      var l, d := live.value.fields, disk.value.fields;
      forall k ensures At(MergeFields(l, l, d), k) == At(d, k) {
        MergeFieldsAt(l, l, d, k);
        UnchangedLiveYieldsDisk(At(l, k), At(d, k));
      }
      SameFields(MergeFields(l, l, d), d);
    }
  }

  /** If the disk did not change, live stays. */
  lemma UnchangedDiskYieldsLive(base: Option<Json>, live: Option<Json>)
    ensures Merge3(base, live, base) == live
  {
    SameValueIsEquality(live, base);
    SameValueIsEquality(base, base);
    if live == base {
      UnchangedLiveYieldsDisk(live, base);
    }
  }

  /** A conflict that is not between two records (over a record or nothing) prefers live. */
  lemma LeafConflictYieldsLive(base: Option<Json>, live: Option<Json>, disk: Option<Json>)
    requires live != base && disk != base
    requires !(IsRecord(live) && IsRecord(disk) && (base.None? || IsRecord(base)))
    ensures Merge3(base, live, disk) == live
  {
    SameValueIsEquality(live, base);
    SameValueIsEquality(disk, base);
  }

  /** No lost update: the merge is the baseline only if neither side changed anything. */
  lemma {:induction false} NoLostUpdate(base: Option<Json>, live: Option<Json>, disk: Option<Json>)
    ensures Merge3(base, live, disk) == base <==> live == base && disk == base
    decreases live.Some?, if live.Some? then live.value else Null
  {
    SameValueIsEquality(live, base);
    SameValueIsEquality(disk, base);
    if live == base {
      UnchangedLiveYieldsDisk(live, disk);
    } else if disk != base && IsRecord(live) && IsRecord(disk) && IsRecord(base) {
      var b, l, d := base.value.fields, live.value.fields, disk.value.fields;
      if MergeFields(b, l, d) == b {
        forall k ensures At(l, k) == At(b, k) {
          MergeFieldsAt(b, l, d, k);
          NoLostUpdate(At(b, k), At(l, k), At(d, k));
        }
        SameFields(l, b);
      }
    }
  }

  /** Merging the same disk state in again changes nothing. */
  lemma {:induction false} MergeIsIdempotent(base: Option<Json>, live: Option<Json>, disk: Option<Json>)
    ensures Merge3(base, Merge3(base, live, disk), disk) == Merge3(base, live, disk)
    decreases live.Some?, if live.Some? then live.value else Null
  {
    var merged := Merge3(base, live, disk);
    SameValueIsEquality(live, base);
    SameValueIsEquality(disk, base);
    SameValueIsEquality(merged, base);
    if live == base {
      UnchangedLiveYieldsDisk(live, disk);
      DiskOverDisk(base, disk);
    } else if disk == base {
      UnchangedDiskYieldsLive(base, live);
    } else {
      NoLostUpdate(base, live, disk);
      if IsRecord(live) && IsRecord(disk) && (base.None? || IsRecord(base)) {
        var b, l, d := FieldsOr(base), live.value.fields, disk.value.fields;
        var m := MergeFields(b, l, d);
        forall k ensures At(MergeFields(b, m, d), k) == At(m, k) {
          MergeFieldsAt(b, l, d, k);
          MergeFieldsAt(b, m, d, k);
          MergeIsIdempotent(At(b, k), At(l, k), At(d, k));
        }
        SameFields(MergeFields(b, m, d), m);
      }
    }
  }

  lemma {:induction false} DiskOverDisk(base: Option<Json>, disk: Option<Json>)
    ensures Merge3(base, disk, disk) == disk
    decreases disk.Some?, if disk.Some? then disk.value else Null
  {
    SameValueIsEquality(disk, base);
    if disk == base {
      UnchangedLiveYieldsDisk(disk, disk);
    } else if IsRecord(disk) && (base.None? || IsRecord(base)) {
      var b, d := FieldsOr(base), disk.value.fields;
      forall k ensures At(MergeFields(b, d, d), k) == At(d, k) {
        MergeFieldsAt(b, d, d, k);
        DiskOverDisk(At(b, k), At(d, k));
      }
      SameFields(MergeFields(b, d, d), d);
    }
  }

  // ---- The merge seen along a path of keys ----

  function Lookup(v: Option<Json>, path: seq<string>): Option<Json>
    decreases path
  {
    if path == [] then v
    else if IsRecord(v) then Lookup(At(v.value.fields, path[0]), path[1..])
    else None
  }

  /** The values are records along the whole path, the baseline if it is there, so that edits below it are of one place. */
  predicate RecordsAlong(base: Option<Json>, live: Option<Json>, disk: Option<Json>, path: seq<string>)
    decreases path
  {
    path == []
    || ((base.None? || IsRecord(base)) && IsRecord(live) && IsRecord(disk)
        && RecordsAlong(At(FieldsOr(base), path[0]), At(live.value.fields, path[0]), At(disk.value.fields, path[0]),
                        path[1..]))
  }

  /** Merging commutes with walking down: each place is the merge of the three values at that place. */
  lemma {:induction false} MergeAlongPath(base: Option<Json>, live: Option<Json>, disk: Option<Json>, path: seq<string>)
    requires RecordsAlong(base, live, disk, path)
    ensures Lookup(Merge3(base, live, disk), path)
         == Merge3(Lookup(base, path), Lookup(live, path), Lookup(disk, path))
    decreases path
  {
    if path != [] {
      var b, l, d := FieldsOr(base), live.value.fields, disk.value.fields;
      SameValueIsEquality(live, base);
      SameValueIsEquality(disk, base);
      MergeFieldsAt(b, l, d, path[0]);
      MergeAlongPath(At(b, path[0]), At(l, path[0]), At(d, path[0]), path[1..]);
      if disk == base && live != base {
        UnchangedDiskYieldsLive(Lookup(base, path), Lookup(live, path));
      }
    }
  }

  /** Disjoint edits both survive: a place only one side edited carries that side's value. */
  lemma OneSidedEditSurvives(base: Option<Json>, live: Option<Json>, disk: Option<Json>, path: seq<string>)
    requires RecordsAlong(base, live, disk, path)
    ensures Lookup(disk, path) == Lookup(base, path) ==> Lookup(Merge3(base, live, disk), path) == Lookup(live, path)
    ensures Lookup(live, path) == Lookup(base, path) ==> Lookup(Merge3(base, live, disk), path) == Lookup(disk, path)
  {
    MergeAlongPath(base, live, disk, path);
    if Lookup(disk, path) == Lookup(base, path) {
      UnchangedDiskYieldsLive(Lookup(base, path), Lookup(live, path));
    }
    if Lookup(live, path) == Lookup(base, path) {
      UnchangedLiveYieldsDisk(Lookup(live, path), Lookup(disk, path));
    }
  }
}
