// All-or-nothing installation, or a durable record of what is left.
module InstallLaws {
  import opened Orders
  import opened Install
  import opened Wrappers

  // ---- Growing and shrinking tables ---------------------------------------

  /** `new` is `old` plus rows whose ids are listed. */
  ghost predicate Grew<R>(old': map<nat, R>, new': map<nat, R>, ids: seq<nat>) {
    && (forall id | id in old' :: id in new' && new'[id] == old'[id])
    && forall id | id in new' :: id in old' || id in ids
  }

  ghost predicate Shrunk<K, V>(old': map<K, V>, new': map<K, V>, ks: seq<K>) {
    && (forall k | k in new' :: k in old' && new'[k] == old'[k])
    && forall k | k in old' && k !in new' :: k in ks
  }

  function PackageIds(made: Created): seq<nat> { if made.package.Some? then [made.package.value] else [] }

  /** Rows added to `old'` are all listed in `made`; old rows are untouched. */
  ghost predicate DbGrew(old': Db, new': Db, made: Created) {
    && Grew(old'.packages, new'.packages, PackageIds(made))
    && Grew(old'.assets, new'.assets, made.assets)
    && Grew(old'.employees, new'.employees, made.employees)
    && Grew(old'.skills, new'.skills, made.skills)
    && Grew(old'.bindings, new'.bindings, made.bindings)
  }

  ghost predicate Below<V>(m: map<nat, V>, n: nat) { forall id | id in m :: id < n }

  /** The id generator never returns an id already in use. */
  ghost predicate IdsFresh(w: World) {
    && Below(w.db.packages, w.nextId) && Below(w.db.assets, w.nextId) && Below(w.db.employees, w.nextId)
    && Below(w.db.skills, w.nextId) && Below(w.db.bindings, w.nextId)
  }

  ghost predicate Range(ids: seq<nat>, lo: nat, hi: nat) { forall id | id in ids :: lo <= id < hi }

  ghost predicate IdsIn(made: Created, lo: nat, hi: nat) {
    Range(PackageIds(made), lo, hi) && Range(made.assets, lo, hi) && Range(made.employees, lo, hi)
    && Range(made.skills, lo, hi) && Range(made.bindings, lo, hi)
  }

  lemma {:induction false} GrewPut<R>(old': map<nat, R>, new': map<nat, R>, ids: seq<nat>, n: nat, id: nat, row: R)
    requires Grew(old', new', ids) && Below(old', n) && n <= id
    ensures Grew(old', new'[id := row], ids + [id])
  {
  }

  lemma {:induction false} GrewMore<R>(old': map<nat, R>, new': map<nat, R>, ids: seq<nat>, more: seq<nat>)
    requires Grew(old', new', ids)
    ensures Grew(old', new', ids + more)
  {
  }

  // ---- The writing path ---------------------------------------------------

  /** The tables other than skills. */
  ghost predicate OthersGrew(old': Db, new': Db, made: Created) {
    && Grew(old'.packages, new'.packages, PackageIds(made))
    && Grew(old'.assets, new'.assets, made.assets)
    && Grew(old'.employees, new'.employees, made.employees)
    && Grew(old'.bindings, new'.bindings, made.bindings)
  }

  ghost predicate SameRows(a: Created, b: Created) { a == b.(paths := a.paths) }

  ghost predicate RunShape(w0: World, r: Run) {
    && w0.nextId <= r.w.nextId
    && r.w.repair == w0.repair
    && IdsIn(r.partial, w0.nextId, r.w.nextId)
    && SameRows(r.made, r.partial)
    && OthersGrew(w0.db, r.w.db, r.partial)
  }

  ghost predicate OneStranded(w0: World, r: Run, x: nat) {
    x >= w0.nextId && Grew(w0.db.skills, r.w.db.skills, r.partial.skills + [x])
  }

  /** What holds all along the writing path, stopped or not. */
  ghost predicate RunOk(w0: World, r: Run) {
    && RunShape(w0, r)
    && (r.ok ==> Grew(w0.db.skills, r.w.db.skills, r.partial.skills))
    && exists x: nat :: OneStranded(w0, r, x)
  }

  lemma {:induction false} PackageStepOk(f: Faults, w0: World, plan: Plan)
    requires IdsFresh(w0)
    ensures RunOk(w0, PackageStep(f, Run(w0, NOTHING, NOTHING, [], true), plan))
  {
    var r := PackageStep(f, Run(w0, NOTHING, NOTHING, [], true), plan);
    GrewPut(w0.db.packages, w0.db.packages, [], w0.nextId, w0.nextId, PackageRow(plan.packageId, plan.version));
    assert [] + [w0.nextId] == [w0.nextId];
    assert OneStranded(w0, r, w0.nextId);
  }

  lemma {:induction false} AssetRowStepOk(f: Faults, w0: World, r: Run, package: nat, asset: Asset)
    requires IdsFresh(w0) && RunOk(w0, r) && r.ok
    ensures RunOk(w0, AssetRowStep(f, r, package, asset))
  {
    GrewPut(w0.db.assets, r.w.db.assets, r.partial.assets, w0.nextId, r.w.nextId, AssetRow(package, asset.id));
    var x: nat :| OneStranded(w0, r, x);
    assert OneStranded(w0, AssetRowStep(f, r, package, asset), x);
  }

  lemma {:induction false} EmployeeStepOk(f: Faults, w0: World, r: Run, asset: Asset)
    requires IdsFresh(w0) && RunOk(w0, r) && r.ok
    ensures RunOk(w0, EmployeeStep(f, r, asset))
  {
    GrewPut(w0.db.employees, r.w.db.employees, r.partial.employees, w0.nextId, r.w.nextId, EmployeeRow(asset.id));
    var x: nat :| OneStranded(w0, r, x);
    assert OneStranded(w0, EmployeeStep(f, r, asset), x);
  }

  /** Between the insert and the recording, exactly the new row is stranded. */
  lemma {:induction false} InsertSkill(f: Faults, w0: World, r: Run, row: SkillRow)
    requires IdsFresh(w0) && RunOk(w0, r) && r.ok
    ensures var id := r.w.nextId;
            var put := Put(f, r.(w := FreshId(r.w)), r.w.db.(skills := r.w.db.skills[id := row]));
            && RunShape(w0, put) && OneStranded(w0, put, id)
            && put.partial == r.partial && put.made == r.made && put.files == r.files && put.w.nextId == id + 1
  {
    GrewPut(w0.db.skills, r.w.db.skills, r.partial.skills, w0.nextId, r.w.nextId, row);
    GrewMore(w0.db.skills, r.w.db.skills, r.partial.skills, [r.w.nextId]);
  }

  lemma {:induction false} RecordSkill(w0: World, put: Run, t: Run, id: nat)
    requires RunShape(w0, put) && OneStranded(w0, put, id) && id < put.w.nextId
    requires t.w.db == put.w.db && t.w.nextId == put.w.nextId && t.w.repair == put.w.repair
    requires SameRows(t.partial, put.partial.(skills := put.partial.skills + [id]))
    requires SameRows(t.made, put.made.(skills := put.made.skills + [id]))
    ensures RunOk(w0, t)
  {
    assert t.partial.skills == put.partial.skills + [id];
    assert Range(t.partial.skills, w0.nextId, t.w.nextId);
    assert PackageIds(t.partial) == PackageIds(put.partial);
    assert Grew(w0.db.skills, t.w.db.skills, t.partial.skills);
    GrewMore(w0.db.skills, t.w.db.skills, t.partial.skills, [id]);
    assert OneStranded(w0, t, id);
    assert RunShape(w0, t);
  }

  lemma {:induction false} SkillStepOk(f: Faults, w0: World, r: Run, asset: Asset, deferred: bool, backend: Backend)
    requires IdsFresh(w0) && RunOk(w0, r) && r.ok
    ensures RunOk(w0, SkillStep(f, r, asset, deferred, backend))
  {
    var t := SkillStep(f, r, asset, deferred, backend);
    if !backend.skillRepo || (!deferred && !backend.vault) || asset.vaultPath.None? {
      var x: nat :| OneStranded(w0, r, x);
      assert OneStranded(w0, t, x);
    } else {
      var id, row := r.w.nextId, SkillRow(asset.id, asset.vaultPath.value);
      InsertSkill(f, w0, r, row);
      var put := Put(f, r.(w := FreshId(r.w)), r.w.db.(skills := r.w.db.skills[id := row]));
      if t.ok { RecordSkill(w0, put, t, id); } else { assert OneStranded(w0, t, id); }
    }
  }

  lemma {:induction false} AssetStepOk(f: Faults, w0: World, r: Run, package: nat, asset: Asset, deferred: bool, backend: Backend)
    requires IdsFresh(w0) && RunOk(w0, r)
    ensures RunOk(w0, AssetStep(f, r, package, asset, deferred, backend))
  {
    if r.ok && (asset.kind == Employee || asset.kind == Skill) {
      AssetRowStepOk(f, w0, r, package, asset);
      var row := AssetRowStep(f, r, package, asset);
      if row.ok {
        if asset.kind == Employee { EmployeeStepOk(f, w0, row, asset); } else { SkillStepOk(f, w0, row, asset, deferred, backend); }
      }
    } else if r.ok {
      var x: nat :| OneStranded(w0, r, x);
      assert OneStranded(w0, Stop(r), x);
    }
  }

  lemma {:induction false} AssetStepsOk(f: Faults, w0: World, r: Run, package: nat, assets: seq<Asset>, deferred: bool, backend: Backend)
    requires IdsFresh(w0) && RunOk(w0, r)
    ensures RunOk(w0, AssetSteps(f, r, package, assets, deferred, backend))
  {
    if assets == [] {
    } else {
      AssetStepsOk(f, w0, r, package, assets[..|assets| - 1], deferred, backend);
      AssetStepOk(f, w0, AssetSteps(f, r, package, assets[..|assets| - 1], deferred, backend), package,
                  assets[|assets| - 1], deferred, backend);
    }
  }

  lemma {:induction false} BindingStepOk(f: Faults, w0: World, r: Run, b: Binding, confirmed: set<string>)
    requires IdsFresh(w0) && RunOk(w0, r)
    ensures RunOk(w0, BindingStep(f, r, b, confirmed))
  {
    if r.ok {
      var asset := if r.made.assets == [] then None else Some(r.made.assets[0]);
      GrewPut(w0.db.bindings, r.w.db.bindings, r.partial.bindings, w0.nextId, r.w.nextId,
              BindingRow(asset, b.key, StatusOf(b, confirmed)));
      var x: nat :| OneStranded(w0, r, x);
      assert OneStranded(w0, BindingStep(f, r, b, confirmed), x);
    }
  }

  lemma {:induction false} BindingStepsOk(f: Faults, w0: World, r: Run, bs: seq<Binding>, confirmed: set<string>)
    requires IdsFresh(w0) && RunOk(w0, r)
    ensures RunOk(w0, BindingSteps(f, r, bs, confirmed))
  {
    if bs == [] {
    } else {
      BindingStepsOk(f, w0, r, bs[..|bs| - 1], confirmed);
      BindingStepOk(f, w0, BindingSteps(f, r, bs[..|bs| - 1], confirmed), bs[|bs| - 1], confirmed);
    }
  }

  lemma {:induction false} WriteAllOk(f: Faults, w: World, plan: Plan, confirmed: set<string>, deferred: bool, backend: Backend)
    requires IdsFresh(w)
    ensures RunOk(w, WriteAll(f, w, plan, confirmed, deferred, backend))
  {
    var start := PackageStep(f, Run(w, NOTHING, NOTHING, [], true), plan);
    PackageStepOk(f, w, plan);
    AssetStepsOk(f, w, start, w.nextId, Ordered(plan.assets), deferred, backend);
    BindingStepsOk(f, w, AssetSteps(f, start, w.nextId, Ordered(plan.assets), deferred, backend), plan.bindings, confirmed);
  }

  // ---- Vault: deferred writes touch nothing, skill-free plans neither -----

  function PathsOf(files: seq<File>): seq<string> {
    seq(|files|, i requires 0 <= i < |files| => files[i].path)
  }

  ghost predicate VaultQuiet(w0: World, r: Run) {
    r.w.vault == w0.vault && r.partial.paths == [] && r.made.paths == PathsOf(r.files)
  }

  lemma {:induction false} SkillQuiet(f: Faults, w0: World, r: Run, asset: Asset, backend: Backend)
    requires VaultQuiet(w0, r)
    ensures VaultQuiet(w0, SkillStep(f, r, asset, true, backend))
  {
    var t := SkillStep(f, r, asset, true, backend);
    if |t.files| > |r.files| { assert PathsOf(t.files) == PathsOf(r.files) + [t.files[|r.files|].path]; }
  }

  lemma {:induction false} RowsQuiet(f: Faults, w0: World, r: Run, package: nat, asset: Asset)
    requires VaultQuiet(w0, r)
    ensures VaultQuiet(w0, AssetRowStep(f, r, package, asset)) && AssetRowStep(f, r, package, asset).w.db.skills == r.w.db.skills
    ensures VaultQuiet(w0, EmployeeStep(f, r, asset)) && EmployeeStep(f, r, asset).w.db.skills == r.w.db.skills
  {
  }

  lemma {:induction false} AssetQuiet(f: Faults, w0: World, r: Run, package: nat, asset: Asset, deferred: bool, backend: Backend)
    requires VaultQuiet(w0, r) && (deferred || asset.kind != Skill)
    ensures VaultQuiet(w0, AssetStep(f, r, package, asset, deferred, backend))
    ensures asset.kind != Skill ==> AssetStep(f, r, package, asset, deferred, backend).w.db.skills == r.w.db.skills
  {
    var row := AssetRowStep(f, r, package, asset);
    RowsQuiet(f, w0, r, package, asset);
    RowsQuiet(f, w0, row, package, asset);
    if asset.kind == Skill { SkillQuiet(f, w0, row, asset, backend); }
  }

  lemma {:induction false} DeferredQuiet(f: Faults, w0: World, r: Run, package: nat, assets: seq<Asset>, backend: Backend)
    requires VaultQuiet(w0, r)
    ensures VaultQuiet(w0, AssetSteps(f, r, package, assets, true, backend))
  {
    if assets == [] {
    } else {
      var front, last := assets[..|assets| - 1], assets[|assets| - 1];
      DeferredQuiet(f, w0, r, package, front, backend);
      AssetQuiet(f, w0, AssetSteps(f, r, package, front, true, backend), package, last, true, backend);
    }
  }

  ghost predicate SkillFree(assets: seq<Asset>) { forall a | a in assets :: a.kind != Skill }

  lemma {:induction false} SkillFreeQuiet(f: Faults, w0: World, r: Run, package: nat, assets: seq<Asset>, deferred: bool, backend: Backend)
    requires VaultQuiet(w0, r) && SkillFree(assets)
    ensures VaultQuiet(w0, AssetSteps(f, r, package, assets, deferred, backend))
    ensures AssetSteps(f, r, package, assets, deferred, backend).w.db.skills == r.w.db.skills
  {
    if assets == [] {
    } else {
      var front, last := assets[..|assets| - 1], assets[|assets| - 1];
      SkillFreeQuiet(f, w0, r, package, front, deferred, backend);
      AssetQuiet(f, w0, AssetSteps(f, r, package, front, deferred, backend), package, last, deferred, backend);
    }
  }

  lemma {:induction false} BindingsQuiet(f: Faults, w0: World, r: Run, bs: seq<Binding>, confirmed: set<string>)
    requires VaultQuiet(w0, r)
    ensures VaultQuiet(w0, BindingSteps(f, r, bs, confirmed))
    ensures BindingSteps(f, r, bs, confirmed).w.db.skills == r.w.db.skills
  {
    if bs == [] {
    } else {
      BindingsQuiet(f, w0, r, bs[..|bs| - 1], confirmed);
    }
  }

  lemma {:induction false} WriteAllQuiet(f: Faults, w: World, plan: Plan, confirmed: set<string>, deferred: bool, backend: Backend)
    requires deferred || !HasSkill(plan)
    ensures VaultQuiet(w, WriteAll(f, w, plan, confirmed, deferred, backend))
    ensures !HasSkill(plan) ==> WriteAll(f, w, plan, confirmed, deferred, backend).w.db.skills == w.db.skills
  {
    var start := PackageStep(f, Run(w, NOTHING, NOTHING, [], true), plan);
    var assets := Ordered(plan.assets);
    SameElements(plan.assets, assets);
    if deferred { DeferredQuiet(f, w, start, w.nextId, assets, backend); }
    if !HasSkill(plan) {
      assert SkillFree(assets);
      SkillFreeQuiet(f, w, start, w.nextId, assets, deferred, backend);
    }
    BindingsQuiet(f, w, AssetSteps(f, start, w.nextId, assets, deferred, backend), plan.bindings, confirmed);
  }

  // ---- Rollback -----------------------------------------------------------

  ghost predicate Cleared<K, V>(old': map<K, V>, new': map<K, V>, ks: seq<K>, clean: bool) {
    Shrunk(old', new', ks) && (clean ==> new' == old' - set k | k in ks)
  }

  lemma {:induction false} ClearedDrop<K, V>(old': map<K, V>, mid: map<K, V>, ks: seq<K>, k: K, clean: bool)
    requires Cleared(old', mid, ks, clean)
    ensures Cleared(old', mid - {k}, ks + [k], clean)
    ensures Cleared(old', mid, ks + [k], false)
  {
    assert (set x | x in ks + [k]) == (set x | x in ks) + {k};
  }

  lemma {:induction false} DropBindingsLaw(f: Faults, u: Undo, ids: seq<nat>)
    ensures var v := DropBindings(f, u, ids);
            && v.errors >= u.errors && v.w.vault == u.w.vault && v.w.repair == u.w.repair
            && v.w.db == u.w.db.(bindings := v.w.db.bindings)
            && Cleared(u.w.db.bindings, v.w.db.bindings, ids, v.errors == u.errors)
  {
    if ids == [] {
    } else {
      DropBindingsLaw(f, u, ids[..|ids| - 1]);
      var m := DropBindings(f, u, ids[..|ids| - 1]);
      ClearedDrop(u.w.db.bindings, m.w.db.bindings, ids[..|ids| - 1], ids[|ids| - 1], m.errors == u.errors);
      assert ids == ids[..|ids| - 1] + [ids[|ids| - 1]];
    }
  }

  lemma {:induction false} DropAssetsLaw(f: Faults, u: Undo, ids: seq<nat>)
    ensures var v := DropAssets(f, u, ids);
            && v.errors >= u.errors && v.w.vault == u.w.vault && v.w.repair == u.w.repair
            && v.w.db == u.w.db.(assets := v.w.db.assets)
            && Cleared(u.w.db.assets, v.w.db.assets, ids, v.errors == u.errors)
  {
    if ids == [] {
    } else {
      DropAssetsLaw(f, u, ids[..|ids| - 1]);
      var m := DropAssets(f, u, ids[..|ids| - 1]);
      ClearedDrop(u.w.db.assets, m.w.db.assets, ids[..|ids| - 1], ids[|ids| - 1], m.errors == u.errors);
      assert ids == ids[..|ids| - 1] + [ids[|ids| - 1]];
    }
  }

  lemma {:induction false} DropEmployeesLaw(f: Faults, u: Undo, ids: seq<nat>)
    ensures var v := DropEmployees(f, u, ids);
            && v.errors >= u.errors && v.w.vault == u.w.vault && v.w.repair == u.w.repair
            && v.w.db == u.w.db.(employees := v.w.db.employees)
            && Cleared(u.w.db.employees, v.w.db.employees, ids, v.errors == u.errors)
  {
    if ids == [] {
    } else {
      DropEmployeesLaw(f, u, ids[..|ids| - 1]);
      var m := DropEmployees(f, u, ids[..|ids| - 1]);
      ClearedDrop(u.w.db.employees, m.w.db.employees, ids[..|ids| - 1], ids[|ids| - 1], m.errors == u.errors);
      assert ids == ids[..|ids| - 1] + [ids[|ids| - 1]];
    }
  }

  lemma {:induction false} DropSkillsLaw(f: Faults, u: Undo, ids: seq<nat>)
    ensures var v := DropSkills(f, u, ids);
            && v.errors >= u.errors && v.w.vault == u.w.vault && v.w.repair == u.w.repair
            && v.w.db == u.w.db.(skills := v.w.db.skills)
            && Cleared(u.w.db.skills, v.w.db.skills, ids, v.errors == u.errors)
  {
    if ids == [] {
    } else {
      DropSkillsLaw(f, u, ids[..|ids| - 1]);
      var m := DropSkills(f, u, ids[..|ids| - 1]);
      ClearedDrop(u.w.db.skills, m.w.db.skills, ids[..|ids| - 1], ids[|ids| - 1], m.errors == u.errors);
      assert ids == ids[..|ids| - 1] + [ids[|ids| - 1]];
    }
  }

  lemma {:induction false} RemoveFilesLaw(f: Faults, u: Undo, paths: seq<string>)
    ensures var v := RemoveFiles(f, u, paths);
            && v.errors >= u.errors && v.w.db == u.w.db && v.w.repair == u.w.repair
            && Cleared(u.w.vault, v.w.vault, paths, v.errors == u.errors)
  {
    if paths == [] {
    } else {
      RemoveFilesLaw(f, u, paths[..|paths| - 1]);
      var m := RemoveFiles(f, u, paths[..|paths| - 1]);
      ClearedDrop(u.w.vault, m.w.vault, paths[..|paths| - 1], paths[|paths| - 1], m.errors == u.errors);
      assert paths == paths[..|paths| - 1] + [paths[|paths| - 1]];
    }
  }

  /** Rollback only removes listed things, and removes them all unless it reports errors. */
  lemma {:induction false} RollbackLaw(f: Faults, w: World, made: Created)
    ensures var u := Rollback(f, w, made);
            var clean := u.errors == 0;
            && u.w.repair == w.repair
            && Cleared(w.db.bindings, u.w.db.bindings, made.bindings, clean)
            && Cleared(w.db.assets, u.w.db.assets, made.assets, clean)
            && Cleared(w.db.employees, u.w.db.employees, made.employees, clean)
            && Cleared(w.db.skills, u.w.db.skills, made.skills, clean)
            && Cleared(w.vault, u.w.vault, made.paths, clean)
            && Cleared(w.db.packages, u.w.db.packages, PackageIds(made), clean)
  {
    var b := DropBindings(f, Undo(w, 0), made.bindings);
    DropBindingsLaw(f, Undo(w, 0), made.bindings);
    var a := DropAssets(f, b, made.assets);
    DropAssetsLaw(f, b, made.assets);
    assert a.w.db == w.db.(bindings := b.w.db.bindings, assets := a.w.db.assets) && a.w.vault == w.vault;
    var e := DropEmployees(f, a, made.employees);
    DropEmployeesLaw(f, a, made.employees);
    var s := DropSkills(f, e, made.skills);
    DropSkillsLaw(f, e, made.skills);
    assert s.w.db == a.w.db.(employees := e.w.db.employees, skills := s.w.db.skills) && s.w.vault == w.vault;
    var v := RemoveFiles(f, s, made.paths);
    RemoveFilesLaw(f, s, made.paths);
    DropPackageLaw(f, v, made.package);
    var u := DropPackage(f, v, made.package);
    assert u == Rollback(f, w, made);
    Weaken(w.db.bindings, u.w.db.bindings, made.bindings, b.errors == 0, u.errors == 0);
    Weaken(w.db.assets, u.w.db.assets, made.assets, a.errors == b.errors, u.errors == 0);
    Weaken(w.db.employees, u.w.db.employees, made.employees, e.errors == a.errors, u.errors == 0);
    Weaken(w.db.skills, u.w.db.skills, made.skills, s.errors == e.errors, u.errors == 0);
    Weaken(w.vault, u.w.vault, made.paths, v.errors == s.errors, u.errors == 0);
  }

  lemma {:induction false} Weaken<K, V>(old': map<K, V>, new': map<K, V>, ks: seq<K>, c: bool, d: bool)
    requires Cleared(old', new', ks, c) && (d ==> c)
    ensures Cleared(old', new', ks, d)
  {
  }

  lemma {:induction false} DropPackageLaw(f: Faults, u: Undo, id: Option<nat>)
    ensures var v := DropPackage(f, u, id);
            && v.errors >= u.errors && v.w.vault == u.w.vault && v.w.repair == u.w.repair
            && v.w.db == u.w.db.(packages := v.w.db.packages)
            && Cleared(u.w.db.packages, v.w.db.packages, if id.Some? then [id.value] else [], v.errors == u.errors)
  {
    if id.Some? {
      assert (set k | k in [id.value]) == {id.value};
    } else {
      var none: seq<nat> := [];
      assert u.w.db.packages - (set k | k in none) == u.w.db.packages;
    }
  }

  lemma {:induction false} Restored<R>(old': map<nat, R>, grown: map<nat, R>, back: map<nat, R>, ids: seq<nat>,
                                       lo: nat, hi: nat, clean: bool)
    requires Grew(old', grown, ids) && Below(old', lo) && Range(ids, lo, hi) && Cleared(grown, back, ids, clean)
    ensures clean ==> back == old'
    ensures Grew(old', back, ids)
  {
    forall id | id in old' ensures id in back && back[id] == old'[id] {
      assert id in grown && id < lo;
      assert id !in ids;
    }
    if clean {
      assert back.Keys == old'.Keys;
    }
  }

  /** Undoing a grown database: exact when clean, otherwise only listed rows are left. */
  lemma {:induction false} RollbackRestores(f: Faults, w0: World, w: World, made: Created)
    requires IdsFresh(w0) && DbGrew(w0.db, w.db, made) && w0.nextId <= w.nextId && IdsIn(made, w0.nextId, w.nextId)
    ensures var u := Rollback(f, w, made);
            && (u.errors == 0 ==> u.w.db == w0.db)
            && DbGrew(w0.db, u.w.db, made)
  {
    var u := Rollback(f, w, made);
    RollbackLaw(f, w, made);
    var lo, hi, clean := w0.nextId, w.nextId, u.errors == 0;
    Restored(w0.db.packages, w.db.packages, u.w.db.packages, PackageIds(made), lo, hi, clean);
    Restored(w0.db.assets, w.db.assets, u.w.db.assets, made.assets, lo, hi, clean);
    Restored(w0.db.employees, w.db.employees, u.w.db.employees, made.employees, lo, hi, clean);
    Restored(w0.db.skills, w.db.skills, u.w.db.skills, made.skills, lo, hi, clean);
    Restored(w0.db.bindings, w.db.bindings, u.w.db.bindings, made.bindings, lo, hi, clean);
  }

  // ---- The flush ----------------------------------------------------------

  /** The vault after writing every file in order. */
  function Written(vault: map<string, string>, files: seq<File>): map<string, string> {
    if files == [] then vault
    else Written(vault, files[..|files| - 1])[files[|files| - 1].path := files[|files| - 1].content]
  }

  ghost predicate SameOff(a: map<string, string>, b: map<string, string>, paths: seq<string>) {
    forall p :: p !in paths ==> (p in a <==> p in b) && (p in a ==> a[p] == b[p])
  }

  lemma {:induction false} FlushLaw(f: Faults, w: World, files: seq<File>)
    ensures var (v, ok) := Flush(f, w, files);
            && v.db == w.db && v.repair == w.repair && v.nextId == w.nextId
            && SameOff(w.vault, v.vault, PathsOf(files))
            && (ok ==> v.vault == Written(w.vault, files))
  {
    if files == [] {
    } else {
      FlushLaw(f, w, files[..|files| - 1]);
      var front, last := files[..|files| - 1], files[|files| - 1];
      assert PathsOf(files) == PathsOf(front) + [last.path];
    }
  }

  lemma {:induction false} RemovedAgain(before: map<string, string>, written: map<string, string>, back: map<string,
                                        string>, paths: seq<string>, clean: bool)
    requires SameOff(before, written, paths) && Cleared(written, back, paths, clean)
    ensures SameOff(before, back, paths)
    ensures clean ==> back == before - set p | p in paths
  {
  }

  // ---- The three endings --------------------------------------------------

  /** Nothing but the id and fault counters changed. */
  ghost predicate Untouched(w: World, v: World) { v.db == w.db && v.vault == w.vault && v.repair == w.repair }

  /** Done, with every row and file; or taken back; or with leftovers all listed in a repair record. */
  ghost predicate EndsWell(f: Faults, w: World, plan: Plan, confirmed: set<string>, backend: Backend) {
    var o, r := AsyncSkillInstall(f, w, plan, confirmed, backend), WriteAll(f, w, plan, confirmed, true, backend);
    if o.made.Some? then
      r.ok && o.made == Some(r.made) && o.w.db == r.w.db && DbGrew(w.db, o.w.db, r.made)
      && r.made.paths == PathsOf(r.files) && o.w.vault == Written(w.vault, r.files) && o.w.repair == None
    else if o.w.repair == None then
      o.w.db == w.db && (o.w.vault == w.vault || o.w.vault == w.vault - set p | p in r.made.paths)
    else
      && o.w.repair.value.errors > 0 && o.w.repair.value.orphaned == r.made
      && DbGrew(w.db, o.w.db, r.made) && SameOff(w.vault, o.w.vault, r.made.paths)
  }

  /** A flush that fails: what was written is taken back, as far as the deletes go. */
  lemma {:induction false} FailedFlush(f: Faults, w: World, committed: World, files: seq<File>, made: Created)
    requires IdsFresh(w) && DbGrew(w.db, committed.db, made) && w.nextId <= committed.nextId && IdsIn(made, w.nextId, committed.nextId)
    requires committed.vault == w.vault && made.paths == PathsOf(files)
    ensures var flushed := Flush(f, committed, files).0;
            var u := Rollback(f, flushed, made);
            && (u.errors == 0 ==> u.w.db == w.db && u.w.vault == w.vault - set p | p in made.paths)
            && DbGrew(w.db, u.w.db, made) && SameOff(w.vault, u.w.vault, made.paths) && u.w.repair == committed.repair
  {
    FlushLaw(f, committed, files);
    var flushed := Flush(f, committed, files).0;
    RollbackRestores(f, w, flushed, made);
    RollbackLaw(f, flushed, made);
    var u := Rollback(f, flushed, made);
    RemovedAgain(w.vault, flushed.vault, u.w.vault, made.paths, u.errors == 0);
  }

  /** Once all rows are written, the rest ends well on every backend. */
  lemma {:induction false} WrittenEndsWell(f: Faults, w: World, plan: Plan, confirmed: set<string>, backend: Backend)
    requires IdsFresh(w) && w.repair == None && WriteAll(f, w, plan, confirmed, true, backend).ok
    ensures EndsWell(f, w, plan, confirmed, backend)
  {
    var r := WriteAll(f, w, plan, confirmed, true, backend);
    WriteAllOk(f, w, plan, confirmed, true, backend);
    WriteAllQuiet(f, w, plan, confirmed, true, backend);
    assert DbGrew(w.db, r.w.db, r.made);
    var committed := AsyncTransacted(f, w, Outcome(r.w, Some(r.made)), backend);
    if committed.made.Some? {
      FlushLaw(f, committed.w, r.files);
      FailedFlush(f, w, committed.w, r.files, r.made);
    }
  }

  /** A write that fails before that leaves the vault and the repair record alone. */
  lemma {:induction false} StoppedTouchesNoFile(f: Faults, w: World, plan: Plan, confirmed: set<string>, backend: Backend)
    requires IdsFresh(w) && !WriteAll(f, w, plan, confirmed, true, backend).ok
    ensures var r := WriteAll(f, w, plan, confirmed, true, backend);
            var back := Rollback(f, r.w, r.partial).w;
            back.vault == w.vault && back.repair == w.repair
  {
    var r := WriteAll(f, w, plan, confirmed, true, backend);
    WriteAllOk(f, w, plan, confirmed, true, backend);
    WriteAllQuiet(f, w, plan, confirmed, true, backend);
    RollbackLaw(f, r.w, r.partial);
    assert Cleared(w.vault, Rollback(f, r.w, r.partial).w.vault, [], false);
  }

  /**
   * A skill install over a real async transaction ends in one of three ways, whatever fails:
   * done; taken back (rows exact, and the vault too unless a path it wrote already existed); or
   * with leftovers that are all listed in a repair record whose writing was attempted.
   */
  lemma {:induction false} AsyncSkillInstallEndings(f: Faults, w: World, plan: Plan, confirmed: set<string>, backend: Backend)
    requires IdsFresh(w) && w.repair == None && backend.atomic
    ensures EndsWell(f, w, plan, confirmed, backend)
  {
    if WriteAll(f, w, plan, confirmed, true, backend).ok {
      WrittenEndsWell(f, w, plan, confirmed, backend);
    } else {
      StoppedTouchesNoFile(f, w, plan, confirmed, backend);
    }
  }

  /** With paths that were not in the vault before, an ending of the second kind leaves no trace at all. */
  lemma {:induction false} FreshPathsLeaveNoTrace(f: Faults, w: World, plan: Plan, confirmed: set<string>, backend: Backend)
    requires IdsFresh(w) && w.repair == None && backend.atomic
    requires forall p | p in WriteAll(f, w, plan, confirmed, true, backend).made.paths :: p !in w.vault
    ensures var o := AsyncSkillInstall(f, w, plan, confirmed, backend);
            o.made.None? && o.w.repair == None ==> Untouched(w, o.w)
  {
    AsyncSkillInstallEndings(f, w, plan, confirmed, backend);
    var paths := WriteAll(f, w, plan, confirmed, true, backend).made.paths;
    assert w.vault - (set p | p in paths) == w.vault;
  }

  /** A synchronous transaction, or an asynchronous one that is real. */
  predicate Transactional(backend: Backend) { backend.transact || (backend.asyncTransact && backend.atomic) }

  /** Without skills every transactional backend is all or nothing. */
  lemma {:induction false} TransactionalAllOrNothing(f: Faults, w: World, plan: Plan, confirmed: set<string>, backend: Backend)
    requires IdsFresh(w) && !HasSkill(plan) && Transactional(backend)
    ensures var o := Materialize(f, w, plan, confirmed, backend);
            var r := WriteAll(f, w, plan, confirmed, false, backend);
            if o.made.Some? then
              r.ok && o.made == Some(r.made) && o.w.db == r.w.db && DbGrew(w.db, o.w.db, r.made) && o.w.vault == w.vault
            else Untouched(w, o.w)
  {
    var r := WriteAll(f, w, plan, confirmed, false, backend);
    WriteAllOk(f, w, plan, confirmed, false, backend);
    WriteAllQuiet(f, w, plan, confirmed, false, backend);
    if !r.ok {
      RollbackLaw(f, r.w, r.partial);
      assert Rollback(f, r.w, r.partial).w.vault == w.vault;
    }
  }

  /**
   * Without skills and without a real transaction: exact when every delete succeeds, else only
   * recorded rows are left.
   */
  lemma {:induction false} FallbackSkillFree(f: Faults, w: World, plan: Plan, confirmed: set<string>, backend: Backend)
    requires IdsFresh(w) && !HasSkill(plan) && !Transactional(backend)
    ensures var o := Materialize(f, w, plan, confirmed, backend);
            var r := WriteAll(f, w, plan, confirmed, false, backend);
            && o.w.vault == w.vault
            && (o.made.Some? ==> o.made == Some(r.made) && DbGrew(w.db, o.w.db, r.made))
            && (o.made.None? ==>
                  && DbGrew(w.db, o.w.db, r.partial)
                  && (Rollback(f, r.w, r.partial).errors == 0 ==> o.w.db == w.db))
  {
    var r := WriteAll(f, w, plan, confirmed, false, backend);
    WriteAllOk(f, w, plan, confirmed, false, backend);
    WriteAllQuiet(f, w, plan, confirmed, false, backend);
    assert Grew(w.db.skills, r.w.db.skills, r.partial.skills);
    if !r.ok {
      RollbackRestores(f, w, r.w, r.partial);
      RollbackLaw(f, r.w, r.partial);
      assert Rollback(f, r.w, r.partial).w.vault == w.vault;
    }
  }

  /** The plain path with skills: besides what was recorded, at most one skill row is left over. */
  lemma {:induction false} FallbackStrandsAtMostOneSkill(f: Faults, w: World, plan: Plan, confirmed: set<string>, backend: Backend)
    requires IdsFresh(w) && !backend.transact && !backend.asyncTransact
    requires Materialize(f, w, plan, confirmed, backend).made.None?
    requires var r := WriteAll(f, w, plan, confirmed, false, backend);
             Rollback(f, r.w, r.partial).errors == 0
    ensures var o := Materialize(f, w, plan, confirmed, backend);
            && o.w.db == w.db.(skills := o.w.db.skills)
            && exists x: nat :: Grew(w.db.skills, o.w.db.skills, [x])
  {
    var r := WriteAll(f, w, plan, confirmed, false, backend);
    WriteAllOk(f, w, plan, confirmed, false, backend);
    RollbackLaw(f, r.w, r.partial);
    var u := Rollback(f, r.w, r.partial);
    var x: nat :| OneStranded(w, r, x);
    var lo, hi := w.nextId, r.w.nextId;
    Restored(w.db.packages, r.w.db.packages, u.w.db.packages, PackageIds(r.partial), lo, hi, true);
    Restored(w.db.assets, r.w.db.assets, u.w.db.assets, r.partial.assets, lo, hi, true);
    Restored(w.db.employees, r.w.db.employees, u.w.db.employees, r.partial.employees, lo, hi, true);
    Restored(w.db.bindings, r.w.db.bindings, u.w.db.bindings, r.partial.bindings, lo, hi, true);
    forall id | id in w.db.skills ensures id in u.w.db.skills && u.w.db.skills[id] == w.db.skills[id] {
      assert id < lo && id !in r.partial.skills;
    }
    forall id | id in u.w.db.skills ensures id in w.db.skills || id in [x] {
      assert id in r.w.db.skills && id !in r.partial.skills;
      assert id in r.partial.skills + [x] ==> id == x;
    }
    assert Grew(w.db.skills, u.w.db.skills, [x]);
  }
}
