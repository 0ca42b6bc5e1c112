/**
 The merge as it runs: the live configuration is a tree of mutable records and arrays, held by reference all
 over the process, and is edited in place. Baseline and disk are plain snapshots.
 */
module ReconcileInPlace {
  import opened Text
  import opened Merge

  /** What a key of a live record holds: a scalar, or a reference to a record or an array. */
  datatype Val = Scalar(v: Json) | Ref(c: Cell)

  datatype Body = Items(items: seq<Json>) | Fields(fields: map<string, Val>)

  /**
   One mutable object. `view` is the JSON value of the tree below it, `repr` the objects of that tree, and
   `owner` says under which key each of the others lives, so that no two keys share one.
   */
  class Cell {
    var body: Body
    ghost var view: Json
    ghost var repr: set<object>
    ghost var owner: map<object, string>

    constructor (body: Body)
      requires body.Fields? ==> body.fields == map[]
      ensures Valid() && this.body == body && repr == {this}
      ensures view == if body.Fields? then Object(map[]) else Array(body.items)
    {
      this.body := body;
      view := if body.Fields? then Object(map[]) else Array(body.items);
      repr := {this};
      owner := map[];
    }

    ghost predicate Under(k: string, part: set<object>)
      reads this
    {
      forall o :: o in part ==> o in owner && owner[o] == k
    }

    /** The part `v` under the key `k` lies inside this tree. */
    ghost predicate Holds(k: string, v: Val)
      reads this, if v.Ref? then {v.c} else {}
    {
      && (v.Scalar? ==> !v.v.Object? && !v.v.Array?)
      && (v.Ref? ==> v.c in repr && v.c.repr <= repr && this !in v.c.repr && Under(k, v.c.repr))
    }

    /** A tree: every part is one, and lies inside. */
    ghost predicate Valid()
      reads this, repr
      decreases repr
    {
      && this in repr
      && match body
         case Items(xs) => view == Array(xs)
         case Fields(m) =>
           && view.Object?
           && view.fields.Keys == m.Keys
           && (forall k {:trigger Holds(k, m[k])} :: k in m ==>
                 && (m[k].Ref? ==> m[k].c in repr)
                 && Holds(k, m[k])
                 && view.fields[k] == Show(m[k])
                 && (m[k].Ref? ==> m[k].c.Valid()))
    }

    /** The same, apart from the part under the key `loose`. */
    ghost predicate ValidBut(loose: string)
      reads this, repr
    {
      && this in repr
      && body.Fields?
      && view.Object?
      && view.fields.Keys == body.fields.Keys
      && (forall k {:trigger Holds(k, body.fields[k])} :: k in body.fields && k != loose ==>
            && (body.fields[k].Ref? ==> body.fields[k].c in repr)
            && Holds(k, body.fields[k])
            && view.fields[k] == Show(body.fields[k])
            && (body.fields[k].Ref? ==> body.fields[k].c.Valid()))
    }

    /** The tree of a record. */
    ghost predicate Tree()
      reads this, repr
    {
      Valid() && body.Fields?
    }
  }

  ghost function Foot(v: Val): set<object>
    reads if v.Ref? then {v.c} else {}
  {
    if v.Ref? then v.c.repr else {}
  }

  ghost function Show(v: Val): Json
    reads if v.Ref? then {v.c} else {}
  {
    if v.Ref? then v.c.view else v.v
  }

  ghost function OptView(v: Option<Val>): Option<Json>
    reads if v.Some? && v.value.Ref? then {v.value.c} else {}
  {
    if v.Some? then Some(Show(v.value)) else None
  }

  ghost function OptFoot(v: Option<Val>): set<object>
    reads if v.Some? && v.value.Ref? then {v.value.c} else {}
  {
    if v.Some? then Foot(v.value) else {}
  }

  /** A value standing on its own. */
  ghost predicate Whole(v: Val)
    reads if v.Ref? then {v.c} else {}, Foot(v)
  {
    && (v.Scalar? ==> !v.v.Object? && !v.v.Array?)
    && (v.Ref? ==> v.c.Valid())
  }

  ghost predicate OptWhole(v: Option<Val>)
    reads if v.Some? && v.value.Ref? then {v.value.c} else {}, OptFoot(v)
  {
    v.Some? ==> Whole(v.value)
  }

  /** What `Valid` says of one key. */
  lemma Part(c: Cell, k: string)
    requires c.Tree() && k in c.body.fields
    ensures c.Holds(k, c.body.fields[k]) && Whole(c.body.fields[k]) && c.view.fields[k] == Show(c.body.fields[k])
  {
    assert c.Holds(k, c.body.fields[k]);
  }

  lemma Loosen(c: Cell, k: string)
    requires c.Tree()
    ensures c.ValidBut(k)
  {
    forall j | j in c.body.fields ensures c.Holds(j, c.body.fields[j]) {
      Part(c, j);
    }
  }

  ghost function Claim(k: string, part: set<object>): (m: map<object, string>)
    ensures m.Keys == part && forall o :: o in part ==> m[o] == k
  {
    map o | o in part :: k
  }

  /** The tree `x` becomes the one living under the key `k`. */
  ghost method TakeIn(live: Cell, k: string, x: Val)
    requires live.ValidBut(k) && Whole(x) && live !in Foot(x)
    requires forall o :: o in Foot(x) && o in live.owner ==> live.owner[o] == k
    modifies live`repr, live`owner
    ensures live.ValidBut(k) && live.Holds(k, x) && Whole(x) && live.body == old(live.body) && live.view == old(live.view)
    ensures live.repr == old(live.repr) + Foot(x)
  {
    ghost var m, w := live.body.fields - {k}, live.view.fields;
    live.repr := live.repr + Foot(x);
    live.owner := live.owner + Claim(k, Foot(x));
    forall j | j in m
      ensures live.Holds(j, m[j]) && Show(m[j]) == w[j] && Whole(m[j])
    {
      assert old(live.Holds(j, m[j]));
      if m[j].Ref? {
        assert old(m[j].c.Valid());
        assert m[j].c.Valid();
      }
    }
  }

  /** `live[key] = merged`. */
  method Put(live: Cell, k: string, x: Val)
    requires live.ValidBut(k) && Whole(x) && live !in Foot(x)
    requires forall o :: o in Foot(x) && o in live.owner ==> live.owner[o] == k
    modifies live
    ensures live.Tree()
    ensures live.repr == old(live.repr) + old(Foot(x))
    ensures live.view == Object(old(live.view.fields)[k := old(Show(x))])
  {
    TakeIn(live, k, x);
    label adopted:
    ghost var m := live.body.fields - {k};
    live.body := Fields(live.body.fields[k := x]);
    live.view := Object(live.view.fields[k := Show(x)]);
    forall j | j in m ensures live.Holds(j, m[j]) && Show(m[j]) == live.view.fields[j] && Whole(m[j]) {
      assert old@adopted(live.Holds(j, m[j]));
    }
    assert live.Holds(k, x);
  }

  /** `delete live[key]`. */
  method Delete(live: Cell, k: string)
    requires live.ValidBut(k)
    modifies live
    ensures live.Tree()
    ensures live.repr == old(live.repr)
    ensures live.view == Object(old(live.view.fields) - {k})
  {
    ghost var m := live.body.fields - {k};
    live.body := Fields(live.body.fields - {k});
    live.view := Object(live.view.fields - {k});
    forall j | j in m ensures live.Holds(j, m[j]) && Show(m[j]) == live.view.fields[j] && Whole(m[j]) {
      assert old(live.Holds(j, m[j]));
    }
  }

  method Store(live: Cell, k: string, merged: Option<Val>)
    requires live.ValidBut(k) && OptWhole(merged) && live !in OptFoot(merged)
    requires forall o :: o in OptFoot(merged) && o in live.owner ==> live.owner[o] == k
    modifies live
    ensures live.Tree()
    ensures live.repr == old(live.repr) + old(OptFoot(merged))
    ensures At(live.view.fields, k) == old(OptView(merged))
    ensures forall j :: j != k ==> At(live.view.fields, j) == At(old(live.view.fields), j)
  {
    if merged.None? {
      Delete(live, k);
    } else {
      Put(live, k, merged.value);
    }
  }

  /** `live.splice(0, live.length, ...copy)`. */
  method Fill(c: Cell, items: seq<Json>)
    requires c.Valid() && c.body.Items?
    modifies c
    ensures c.Valid() && c.view == Array(items) && c.repr == old(c.repr)
  {
    c.body := Items(items);
    c.view := Array(items);
  }

  /** `structuredClone`: a fresh tree with the same value. */
  method Clone(v: Json) returns (c: Val)
    ensures Whole(c) && Show(c) == v && fresh(Foot(c))
    decreases v, 1
  {
    match v
    case Array(items) =>
      var a := new Cell(Items(items));
      c := Ref(a);
    case Object(fields) =>
      var r := CloneFields(fields);
      c := Ref(r);
    case _ =>
      c := Scalar(v);
  }

  method CloneFields(fields: map<string, Json>) returns (r: Cell)
    ensures r.Valid() && r.view == Object(fields) && fresh(r.repr)
    decreases Object(fields), 0
  {
    r := new Cell(Fields(map[]));
    var keys := fields.Keys;
    while keys != {}
      invariant keys <= fields.Keys
      invariant r.Tree() && fresh(r.repr)
      invariant r.view == Object(fields - keys)
      decreases keys
    {
      var k :| k in keys;
      var x := Clone(fields[k]);
      Loosen(r, k);
      Put(r, k, x);
      keys := keys - {k};
    }
  }

  /** The value a key of the record `m` holds, if it holds any. */
  function Own(m: map<string, Val>, k: string): Option<Val> {
    if k in m then Some(m[k]) else None
  }

  /** `deepEqual` of a live value and a snapshot. */
  method SameAs(v: Val, j: Json) returns (same: bool)
    requires Whole(v)
    ensures same == DeepEqual(Show(v), j)
    decreases Show(v), 1
  {
    if v.Scalar? {
      return DeepEqual(v.v, j);
    }
    match v.c.body
    case Items(xs) => same := DeepEqual(Array(xs), j);
    case Fields(_) =>
      if j.Object? {
        same := SameFieldsAs(v.c, j.fields);
      } else {
        same := false;
      }
  }

  method SameFieldsAs(c: Cell, fields: map<string, Json>) returns (same: bool)
    requires c.Tree()
    ensures same == DeepEqual(c.view, Object(fields))
    decreases c.view, 0
  {
    var own := c.body.fields;
    var keys := own.Keys + fields.Keys;
    same := true;
    while keys != {} && same
      invariant keys <= own.Keys + fields.Keys
      invariant same ==> forall k :: k in own.Keys + fields.Keys && k !in keys ==>
                  k in own && k in fields && DeepEqual(c.view.fields[k], fields[k])
      invariant !same ==> !DeepEqual(c.view, Object(fields))
      decreases keys
    {
      var k :| k in keys;
      if k in own && k in fields {
        Part(c, k);
        same := SameAs(own[k], fields[k]);
      } else {
        same := false;
      }
      keys := keys - {k};
    }
  }

  method SameOption(v: Option<Val>, j: Option<Json>) returns (same: bool)
    requires OptWhole(v)
    ensures same == SameValue(OptView(v), j)
  {
    if v.Some? && j.Some? {
      same := SameAs(v.value, j.value);
    } else {
      same := v.None? && j.None?;
    }
  }

  method ReconcileValue(base: Option<Json>, live: Option<Val>, disk: Option<Json>) returns (merged: Option<Val>)
    requires OptWhole(live)
    modifies OptFoot(live)
    ensures OptWhole(merged) && OptView(merged) == Merge3(base, old(OptView(live)), disk)
    ensures merged == live || fresh(OptFoot(merged))
    ensures fresh(OptFoot(merged) - old(OptFoot(live)))
    ensures live.Some? && live.value.Ref? ==> old(OptFoot(live)) <= live.value.c.repr
    decreases live.Some?, if live.Some? then Show(live.value) else Null, 1
  {
    var liveIsRecord := live.Some? && live.value.Ref? && live.value.c.body.Fields?;
    var liveIsArray := live.Some? && live.value.Ref? && live.value.c.body.Items?;
    var liveSame := SameOption(live, base);
    if liveSame {
      if liveIsArray && disk.Some? && disk.value.Array? {
        Fill(live.value.c, disk.value.items);
        return live;
      }
      if liveIsRecord && IsRecord(disk) {
        ReconcileFields(live.value.c, FieldsOr(base), disk.value.fields);
        return live;
      }
      if disk.None? { return None; }
      var copy := Clone(disk.value);
      return Some(copy);
    }
    if SameValue(disk, base) { return live; }
    if liveIsRecord && IsRecord(disk) && (base.None? || IsRecord(base)) {
      ReconcileFields(live.value.c, FieldsOr(base), disk.value.fields);
    }
    return live;
  }

  /** The nested call: nothing skipped. */
  method ReconcileFields(live: Cell, base: map<string, Json>, disk: map<string, Json>)
    requires live.Tree()
    modifies live.repr
    ensures live.Tree()
    ensures live.view == Object(MergeFields(base, old(live.view.fields), disk))
    ensures old(live.repr) <= live.repr && fresh(live.repr - old(live.repr))
    decreases true, live.view, 0, 1
  {
    MergeExceptNothing(base, live.view.fields, disk);
    ReconcileRecord(live, base, disk, {});
  }

  /** One round of the loop over the keys. */
  method ReconcileKey(live: Cell, k: string, base: Option<Json>, disk: Option<Json>)
    requires live.Tree()
    modifies live.repr
    ensures live.Tree()
    ensures old(live.repr) <= live.repr && fresh(live.repr - old(live.repr))
    ensures At(live.view.fields, k) == Merge3(base, At(old(live.view.fields), k), disk)
    ensures forall j :: j != k ==> At(live.view.fields, j) == At(old(live.view.fields), j)
    decreases k in live.view.fields, if k in live.view.fields then live.view.fields[k] else Null, 2
  {
    ghost var m := live.body.fields - {k};
    ghost var w := live.view.fields;
    if k in live.body.fields {
      Part(live, k);
    }
    var own := Own(live.body.fields, k);
    var merged := ReconcileValue(base, own, disk);
    forall j | j in m
      ensures live.Holds(j, m[j]) && Show(m[j]) == w[j] && Whole(m[j])
    {
      assert old(live.Holds(j, m[j]));
      if m[j].Ref? {
        assert old(m[j].c.Valid());
        assert m[j].c.Valid();
      }
    }
    Store(live, k, merged);
  }

  method ReconcileRecord(live: Cell, base: map<string, Json>, disk: map<string, Json>, skipped: set<string>)
    requires live.Tree()
    modifies live.repr
    ensures live.Tree()
    ensures live.view == Object(MergeExcept(base, old(live.view.fields), disk, skipped))
    ensures old(live.repr) <= live.repr && fresh(live.repr - old(live.repr))
    decreases true, live.view, 0, 0
  {
    ghost var l := live.view.fields;
    var all := base.Keys + live.body.fields.Keys + disk.Keys;
    var keys := all;
    while keys != {}
      invariant live.Tree()
      invariant old(live.repr) <= live.repr && fresh(live.repr - old(live.repr))
      invariant keys <= all
      invariant forall k :: At(live.view.fields, k) == if k in keys then At(l, k) else MergeAt(base, l, disk, skipped, k)
      decreases keys
    {
      var k :| k in keys;
      if k !in skipped {
        ReconcileKey(live, k, At(base, k), At(disk, k));
      }
      keys := keys - {k};
    }
    forall k ensures At(live.view.fields, k) == At(MergeExcept(base, l, disk, skipped), k) {
      MergeExceptAt(base, l, disk, skipped, k);
    }
    SameFields(live.view.fields, MergeExcept(base, l, disk, skipped));
  }
}
