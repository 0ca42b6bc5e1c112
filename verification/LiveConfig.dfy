/**
 The operations on the live configuration object itself: arming, saving and reconciling, each proved to do to
 the mutable tree, the baselines and the file what `LiveSave` says.
 */
module LiveConfigObject {
  import opened Text
  import opened Merge
  import opened ReconcileInPlace
  import opened LiveSave

  /** The snapshot of a live value: `structuredClone` into plain data, or `JSON.stringify` for the file. */
  method Snapshot(v: Val) returns (j: Json)
    requires Whole(v)
    ensures j == Show(v)
    decreases Show(v), 1
  {
    if v.Scalar? { return v.v; }
    match v.c.body
    case Items(xs) => j := Array(xs);
    case Fields(_) =>
      var fields := SnapshotFields(v.c);
      j := Object(fields);
  }

  method SnapshotFields(c: Cell) returns (fields: map<string, Json>)
    requires c.Tree()
    ensures c.view == Object(fields)
    decreases c.view, 0
  {
    var own := c.body.fields;
    var keys := own.Keys;
    fields := map[];
    while keys != {}
      invariant keys <= own.Keys
      invariant fields == c.view.fields - keys
      decreases keys
    {
      var k :| k in keys;
      Part(c, k);
      var x := Snapshot(own[k]);
      fields := fields[k := x];
      keys := keys - {k};
    }
  }

  class LiveConfig {
    var root: Cell
    var base: map<string, Option<Json>>
    var binding: Option<Binding>
    var disk: Disk

    constructor (root: Cell, disk: Disk)
      requires root.Tree()
      ensures this.root == root && View() == World(root.view.fields, map[], None, disk)
    {
      this.root := root;
      base := map[];
      binding := None;
      this.disk := disk;
    }

    ghost predicate Valid()
      reads this, root, root.repr
    {
      root.Tree() && this !in root.repr
    }

    ghost function View(): World
      requires root.view.Object?
      reads this, root
    {
      World(root.view.fields, base, binding, disk)
    }

    /** `structuredClone(config[key])`. */
    method Read(key: string) returns (value: Option<Json>)
      requires Valid()
      ensures value == At(root.view.fields, key)
    {
      value := None;
      if key in root.body.fields {
        Part(root, key);
        var j := Snapshot(root.body.fields[key]);
        value := Some(j);
      }
    }

    /** `config[key] = structuredClone(value)`, or `delete config[key]`. */
    method Write(key: string, value: Option<Json>)
      requires Valid()
      modifies root
      ensures Valid() && fresh(root.repr - old(root.repr))
      ensures root.view.fields == With(old(root.view.fields), key, value)
    {
      Loosen(root, key);
      if value.None? {
        Delete(root, key);
      } else {
        var copy := Clone(value.value);
        Loosen(root, key);
        Put(root, key, copy);
      }
    }

    /** `armClaudeCodeBaseline`. */
    method Arm()
      requires Valid()
      modifies this`base
      ensures Valid() && View() == Armed(old(View()))
    {
      var claude := Read("claudeCode");
      var integrations := Read("clientIntegrations");
      base := map["claudeCode" := claude, "clientIntegrations" := integrations];
    }

    method AdoptKey(key: string)
      requires Valid()
      modifies root
      ensures Valid() && fresh(root.repr - old(root.repr))
      ensures View() == old(View()).(live := Adopt(old(View()), key))
    {
      if key in base && disk.File? {
        var ours := Read(key);
        var theirs := At(disk.config, key);
        var diskChanged := !SameValue(theirs, base[key]);
        var weChanged := !SameValue(ours, base[key]);
        if diskChanged && !weChanged {
          Write(key, theirs);
        }
      }
    }

    /** The object a save persists: a copy of the configuration with the recorded address. */
    method Persisted(saved: Option<Binding>) returns (config: Fields)
      requires Valid()
      ensures config == match saved case None => root.view.fields
                        case Some(b) => With(With(root.view.fields, "port", b.port), "hostname", b.hostname)
    {
      config := SnapshotFields(root);
      if saved.Some? {
        config := With(With(config, "port", saved.value.port), "hostname", saved.value.hostname);
      }
    }

    method RebaseAll()
      requires Valid() && OnlyGuarded(View())
      modifies this`base
      ensures Valid() && View() == old(View()).(base := Rebase(old(View())))
    {
      if "claudeCode" in base {
        var claude := Read("claudeCode");
        base := base["claudeCode" := claude];
      }
      if "clientIntegrations" in base {
        var integrations := Read("clientIntegrations");
        base := base["clientIntegrations" := integrations];
      }
      assert base == Rebase(old(View()));
    }

    /**
     `persistConfigUnlocked` and the bump of the generation; on failure they throw. Equal bytes are neither written
     nor followed by a bump.
     */
    method Persist(valid: Fields -> bool, fate: Fate, config: Fields) returns (threw: bool)
      modifies this`disk
      ensures var unwritten := fate.same && old(disk) == File(config);
              var tries := valid(config) && !fate.how.ReadFails? && !unwritten;
        && threw == (!valid(config) || fate.how.ReadFails? || (tries && fate.how in {WriteFails, BumpFails}))
        && disk == if tries && !fate.how.WriteFails? then File(config) else old(disk)
    {
      if !valid(config) { return true; }
      if fate.how.ReadFails? { return true; }
      if fate.same && disk == File(config) { return false; }
      if fate.how.WriteFails? { return true; }
      disk := File(config);
      threw := fate.how.BumpFails?;
    }

    /** `saveConfigPreservingClaudeCode`. */
    method Save(valid: Fields -> bool, fate: Fate) returns (r: Result)
      requires Valid() && OnlyGuarded(View())
      modifies this, root
      ensures root == old(root) && Valid() && (View(), r) == Saved(valid, fate, old(View()))
      ensures r == Done ==> Leaves(old(View()), View())
    {
      if disk.Malformed? || fate.how.NoLock? { return Threw; }
      AdoptKey("claudeCode");
      AdoptKey("clientIntegrations");
      var saved := if binding.Some? && disk.File? then Some(BindingOf(disk.config)) else binding;
      var config := Persisted(saved);
      var threw := Persist(valid, fate, config);
      if threw { return Threw; }
      binding := saved;
      RebaseAll();
      r := if fate.how.CommitFails? then Threw else Done;
      SaveMeets(valid, fate, old(View()));
    }

    method RefreshKey(key: string)
      requires Valid() && disk.File?
      modifies this`base, root
      ensures Valid() && View() == Refresh(old(View()), key)
    {
      if key in base {
        var ours := Read(key);
        if SameValue(ours, base[key]) {
          var theirs := At(disk.config, key);
          Write(key, theirs);
          base := base[key := theirs];
        }
      }
    }

    /** `reconcileLiveConfigFromDisk`. */
    method Reconcile(baseline: Fields) returns (r: Result)
      requires Valid()
      modifies this, root.repr
      ensures root == old(root) && Valid() && (View(), r) == Reconciled(old(View()), baseline)
    {
      if !disk.File? { return Threw; }
      binding := Some(BindingOf(disk.config));
      ReconcileRecord(root, baseline, disk.config, {"hostname", "port"} + base.Keys);
      RefreshKey("claudeCode");
      RefreshKey("clientIntegrations");
      r := Done;
    }
  }
}
