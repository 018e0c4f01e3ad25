// materialize and rollback in their own form: repositories that change write by
// write, with a failure possible at each one.
module InstallRepos {
  import opened Orders
  import opened Install
  import opened Wrappers

  lemma {:induction false} AssetsStopped(f: Faults, start: Run, package: nat, assets: seq<Asset>, n: nat, deferred: bool, backend: Backend)
    requires n <= |assets| && !AssetSteps(f, start, package, assets[..n], deferred, backend).ok
    ensures AssetSteps(f, start, package, assets, deferred, backend) == AssetSteps(f, start, package, assets[..n], deferred, backend)
    decreases |assets|
  {
    if n < |assets| {
      assert assets[..|assets| - 1][..n] == assets[..n];
      AssetsStopped(f, start, package, assets[..|assets| - 1], n, deferred, backend);
    } else {
      assert assets[..n] == assets;
    }
  }

  lemma {:induction false} BindingsStopped(f: Faults, r: Run, bs: seq<Binding>, n: nat, confirmed: set<string>)
    requires n <= |bs| && !BindingSteps(f, r, bs[..n], confirmed).ok
    ensures BindingSteps(f, r, bs, confirmed) == BindingSteps(f, r, bs[..n], confirmed)
    decreases |bs|
  {
    if n < |bs| {
      assert bs[..|bs| - 1][..n] == bs[..n];
      BindingsStopped(f, r, bs[..|bs| - 1], n, confirmed);
    } else {
      assert bs[..n] == bs;
    }
  }

  lemma {:induction false} FlushStopped(f: Faults, w: World, files: seq<File>, n: nat)
    requires n <= |files| && !Flush(f, w, files[..n]).1
    ensures Flush(f, w, files) == Flush(f, w, files[..n])
    decreases |files|
  {
    if n < |files| {
      assert files[..|files| - 1][..n] == files[..n];
      FlushStopped(f, w, files[..|files| - 1], n);
    } else {
      assert files[..n] == files;
    }
  }

  class Repos {
    const f: Faults
    var db: Db
    var vault: map<string, string>
    var tick: nat
    var nextId: nat
    var repair: Option<Repair>
    var recorded: bool

    ghost function View(): World
      reads this
    {
      World(db, vault, tick, nextId, repair, recorded)
    }

    constructor (f: Faults, w: World)
      ensures View() == w && this.f == f
    {
      this.f := f;
      db, vault, tick, nextId, repair, recorded := w.db, w.vault, w.tick, w.nextId, w.repair, w.recorded;
    }

    method GenerateId() returns (id: nat)
      modifies this`nextId
      ensures id == old(nextId) && nextId == id + 1
    {
      id := nextId;
      nextId := nextId + 1;
    }

    /** One row write: the new table contents are in place, or the call throws. */
    method Save(next: Db) returns (ok: bool)
      modifies this`db, this`tick
      ensures ok == !f.fails(old(tick)) && tick == old(tick) + 1
      ensures db == if ok then next else old(db)
    {
      ok := !f.fails(tick);
      tick := tick + 1;
      if ok { db := next; }
    }

    method WriteFile(path: string, content: string) returns (ok: bool)
      modifies this`vault, this`tick
      ensures (View(), ok) == PutFile(f, old(View()), path, content)
    {
      ok := !f.fails(tick);
      if ok {
        vault := vault[path := content];
      } else if f.smudge(tick).Some? {
        vault := vault[path := f.smudge(tick).value];
      }
      tick := tick + 1;
    }

    method MaterializeAssetRow(package: nat, asset: Asset, made0: Created, partial0: Created, ghost files: seq<File>)
      returns (made: Created, partial: Created, ok: bool)
      modifies this`db, this`tick, this`nextId
      ensures Run(View(), made, partial, files, ok) == AssetRowStep(f, Run(old(View()), made0, partial0, files, true), package, asset)
    {
      made, partial := made0, partial0;
      var assetId := GenerateId();
      ok := Save(db.(assets := db.assets[assetId := AssetRow(package, asset.id)]));
      if !ok { return; }
      made := made.(assets := made.assets + [assetId]);
      partial := partial.(assets := partial.assets + [assetId]);
    }

    method MaterializeEmployee(asset: Asset, made0: Created, partial0: Created, ghost files: seq<File>)
      returns (made: Created, partial: Created, ok: bool)
      modifies this`db, this`tick, this`nextId
      ensures Run(View(), made, partial, files, ok) == EmployeeStep(f, Run(old(View()), made0, partial0, files, true), asset)
    {
      made, partial := made0, partial0;
      var employeeId := GenerateId();
      ok := Save(db.(employees := db.employees[employeeId := EmployeeRow(asset.id)]));
      if !ok { return; }
      made := made.(employees := made.employees + [employeeId]);
      partial := partial.(employees := partial.employees + [employeeId]);
    }

    method MaterializeAsset(package: nat, asset: Asset, deferred: bool, backend: Backend,
                            made0: Created, partial0: Created, files0: seq<File>)
      returns (made: Created, partial: Created, files: seq<File>, ok: bool)
      modifies this`db, this`vault, this`tick, this`nextId
      ensures Run(View(), made, partial, files, ok) ==
              AssetStep(f, Run(old(View()), made0, partial0, files0, true), package, asset, deferred, backend)
    {
      made, partial, files := made0, partial0, files0;
      if asset.kind != Employee && asset.kind != Skill {
        return made, partial, files, false;
      }
      made, partial, ok := MaterializeAssetRow(package, asset, made, partial, files);
      if !ok { return; }
      if asset.kind == Employee {
        made, partial, ok := MaterializeEmployee(asset, made, partial, files);
      } else {
        made, partial, files, ok := MaterializeSkill(asset, deferred, backend, made, partial, files);
      }
    }

    method MaterializeSkill(asset: Asset, deferred: bool, backend: Backend,
                            made0: Created, partial0: Created, files0: seq<File>)
      returns (made: Created, partial: Created, files: seq<File>, ok: bool)
      modifies this`db, this`vault, this`tick, this`nextId
      ensures Run(View(), made, partial, files, ok) ==
              SkillStep(f, Run(old(View()), made0, partial0, files0, true), asset, deferred, backend)
    {
      made, partial, files := made0, partial0, files0;
      if !backend.skillRepo || (!deferred && !backend.vault) || asset.vaultPath.None? {
        return made, partial, files, false;
      }
      var path := asset.vaultPath.value;
      var skillId := GenerateId();
      ok := Save(db.(skills := db.skills[skillId := SkillRow(asset.id, path)]));
      if !ok { return; }
      if asset.content.None? {
        return made, partial, files, false;
      }
      if deferred {
        files := files + [File(path, asset.content.value)];
      } else {
        ok := WriteFile(path, asset.content.value);
        if !ok { return; }
        partial := partial.(paths := partial.paths + [path]);
      }
      made := made.(skills := made.skills + [skillId], paths := made.paths + [path]);
      partial := partial.(skills := partial.skills + [skillId]);
    }

    method WriteBinding(b: Binding, confirmed: set<string>, made0: Created, partial0: Created, ghost files: seq<File>)
      returns (made: Created, partial: Created, ok: bool)
      modifies this`db, this`tick, this`nextId
      ensures Run(View(), made, partial, files, ok) ==
              BindingStep(f, Run(old(View()), made0, partial0, files, true), b, confirmed)
    {
      made, partial := made0, partial0;
      var asset := if |made.assets| == 0 then None else Some(made.assets[0]);
      var id := GenerateId();
      ok := Save(db.(bindings := db.bindings[id := BindingRow(asset, b.key, StatusOf(b, confirmed))]));
      if !ok { return; }
      made := made.(bindings := made.bindings + [id]);
      partial := partial.(bindings := partial.bindings + [id]);
    }

    method WriteAssets(package: nat, ordered: seq<Asset>, deferred: bool, backend: Backend, made0: Created, partial0: Created)
      returns (made: Created, partial: Created, files: seq<File>, ok: bool)
      modifies this`db, this`vault, this`tick, this`nextId
      ensures Run(View(), made, partial, files, ok) ==
              AssetSteps(f, Run(old(View()), made0, partial0, [], true), package, ordered, deferred, backend)
    {
      made, partial, files, ok := made0, partial0, [], true;
      ghost var start := Run(View(), made0, partial0, [], true);
      for i := 0 to |ordered|
        invariant ok && Run(View(), made, partial, files, ok) == AssetSteps(f, start, package, ordered[..i], deferred, backend)
        modifies this`db, this`vault, this`tick, this`nextId
      {
        assert ordered[..i + 1][..i] == ordered[..i];
        made, partial, files, ok := MaterializeAsset(package, ordered[i], deferred, backend, made, partial, files);
        if !ok {
          AssetsStopped(f, start, package, ordered, i + 1, deferred, backend);
          return;
        }
      }
      assert ordered[..|ordered|] == ordered;
    }

    method WriteBindings(bs: seq<Binding>, confirmed: set<string>, made0: Created, partial0: Created, ghost files: seq<File>)
      returns (made: Created, partial: Created, ok: bool)
      modifies this`db, this`tick, this`nextId
      ensures Run(View(), made, partial, files, ok) ==
              BindingSteps(f, Run(old(View()), made0, partial0, files, true), bs, confirmed)
    {
      made, partial, ok := made0, partial0, true;
      ghost var start := Run(View(), made0, partial0, files, true);
      for i := 0 to |bs|
        invariant ok && Run(View(), made, partial, files, ok) == BindingSteps(f, start, bs[..i], confirmed)
        modifies this`db, this`tick, this`nextId
      {
        assert bs[..i + 1][..i] == bs[..i];
        made, partial, ok := WriteBinding(bs[i], confirmed, made, partial, files);
        if !ok {
          BindingsStopped(f, start, bs, i + 1, confirmed);
          return;
        }
      }
      assert bs[..|bs|] == bs;
    }

    method WriteRows(plan: Plan, confirmed: set<string>, deferred: bool, backend: Backend)
      returns (made: Created, partial: Created, files: seq<File>, ok: bool)
      modifies this`db, this`vault, this`tick, this`nextId
      ensures Run(View(), made, partial, files, ok) == WriteAll(f, old(View()), plan, confirmed, deferred, backend)
    {
      files := [];
      var package := GenerateId();
      made, partial := NOTHING.(package := Some(package)), NOTHING.(package := Some(package));
      ok := Save(db.(packages := db.packages[package := PackageRow(plan.packageId, plan.version)]));
      ghost var start := Run(View(), made, partial, files, ok);
      assert start == PackageStep(f, Run(old(View()), NOTHING, NOTHING, [], true), plan);
      var ordered := Ordered(plan.assets);
      if !ok {
        AssetsStopped(f, start, package, ordered, 0, deferred, backend);
      } else {
        made, partial, files, ok := WriteAssets(package, ordered, deferred, backend, made, partial);
      }
      ghost var written := Run(View(), made, partial, files, ok);
      if !ok {
        BindingsStopped(f, written, plan.bindings, 0, confirmed);
      } else {
        made, partial, ok := WriteBindings(plan.bindings, confirmed, made, partial, files);
      }
    }

    // ---- rollback ---------------------------------------------------------

    method RollBack(made: Created) returns (errors: nat)
      modifies this`db, this`vault, this`tick
      ensures Undo(View(), errors) == Rollback(f, old(View()), made)
    {
      errors := DropBindingRows(made.bindings, 0);
      errors := DropAssetRows(made.assets, errors);
      errors := DropEmployeeRows(made.employees, errors);
      errors := DropSkillRows(made.skills, errors);
      errors := DropFiles(made.paths, errors);
      if made.package.Some? {
        var ok := Save(db.(packages := db.packages - {made.package.value}));
        if !ok { errors := errors + 1; }
      }
    }

    method DropBindingRows(ids: seq<nat>, before: nat) returns (errors: nat)
      modifies this`db, this`tick
      ensures Undo(View(), errors) == DropBindings(f, Undo(old(View()), before), ids)
    {
      errors := before;
      for i := 0 to |ids|
        invariant Undo(View(), errors) == DropBindings(f, Undo(old(View()), before), ids[..i])
        modifies this`db, this`tick
      {
        assert ids[..i + 1][..i] == ids[..i];
        var ok := Save(db.(bindings := db.bindings - {ids[i]}));
        if !ok { errors := errors + 1; }
      }
      assert ids[..|ids|] == ids;
    }

    method DropAssetRows(ids: seq<nat>, before: nat) returns (errors: nat)
      modifies this`db, this`tick
      ensures Undo(View(), errors) == DropAssets(f, Undo(old(View()), before), ids)
    {
      errors := before;
      for i := 0 to |ids|
        invariant Undo(View(), errors) == DropAssets(f, Undo(old(View()), before), ids[..i])
        modifies this`db, this`tick
      {
        assert ids[..i + 1][..i] == ids[..i];
        var ok := Save(db.(assets := db.assets - {ids[i]}));
        if !ok { errors := errors + 1; }
      }
      assert ids[..|ids|] == ids;
    }

    method DropEmployeeRows(ids: seq<nat>, before: nat) returns (errors: nat)
      modifies this`db, this`tick
      ensures Undo(View(), errors) == DropEmployees(f, Undo(old(View()), before), ids)
    {
      errors := before;
      for i := 0 to |ids|
        invariant Undo(View(), errors) == DropEmployees(f, Undo(old(View()), before), ids[..i])
        modifies this`db, this`tick
      {
        assert ids[..i + 1][..i] == ids[..i];
        var ok := Save(db.(employees := db.employees - {ids[i]}));
        if !ok { errors := errors + 1; }
      }
      assert ids[..|ids|] == ids;
    }

    method DropSkillRows(ids: seq<nat>, before: nat) returns (errors: nat)
      modifies this`db, this`tick
      ensures Undo(View(), errors) == DropSkills(f, Undo(old(View()), before), ids)
    {
      errors := before;
      for i := 0 to |ids|
        invariant Undo(View(), errors) == DropSkills(f, Undo(old(View()), before), ids[..i])
        modifies this`db, this`tick
      {
        assert ids[..i + 1][..i] == ids[..i];
        var ok := Save(db.(skills := db.skills - {ids[i]}));
        if !ok { errors := errors + 1; }
      }
      assert ids[..|ids|] == ids;
    }

    method DropFiles(paths: seq<string>, before: nat) returns (errors: nat)
      modifies this`vault, this`tick
      ensures Undo(View(), errors) == RemoveFiles(f, Undo(old(View()), before), paths)
    {
      errors := before;
      for i := 0 to |paths|
        invariant Undo(View(), errors) == RemoveFiles(f, Undo(old(View()), before), paths[..i])
        modifies this`vault, this`tick
      {
        assert paths[..i + 1][..i] == paths[..i];
        if f.fails(tick) { errors := errors + 1; } else { vault := vault - {paths[i]}; }
        tick := tick + 1;
      }
      assert paths[..|paths|] == paths;
    }

    // ---- the backends -----------------------------------------------------

    method MaterializeFallback(plan: Plan, confirmed: set<string>, deferred: bool, backend: Backend)
      returns (made: Option<Created>, files: seq<File>)
      modifies this`db, this`vault, this`tick, this`nextId
      ensures (Outcome(View(), made), files) == Fallback(f, old(View()), plan, confirmed, deferred, backend)
    {
      var result, partial, pending, ok := WriteRows(plan, confirmed, deferred, backend);
      files := pending;
      if ok { return Some(result), files; }
      var errors := RollBack(partial);
      made := None;
    }

    /** End of a transaction whose database was `before`: commit, or restore it. */
    method EndTransaction(before: Db, body: Option<Created>) returns (made: Option<Created>)
      modifies this`db, this`tick
      ensures forall w: World | w.db == before ::
                Outcome(View(), made) == Transacted(f, w, Outcome(old(View()), body))
    {
      made := body;
      if body.None? {
        db := before;
        return;
      }
      if f.fails(tick) {
        db, made := before, None;
      }
      tick := tick + 1;
    }

    /** End of asyncTransact, which on some backends has only run its body. */
    method EndAsync(before: Db, body: Option<Created>, backend: Backend) returns (made: Option<Created>)
      modifies this`db, this`tick
      ensures forall w: World | w.db == before ::
                Outcome(View(), made) == AsyncTransacted(f, w, Outcome(old(View()), body), backend)
    {
      made := body;
      if backend.atomic {
        made := EndTransaction(before, body);
      }
    }

    method FlushFiles(files: seq<File>) returns (ok: bool)
      modifies this`vault, this`tick
      ensures (View(), ok) == Flush(f, old(View()), files)
    {
      ok := true;
      for i := 0 to |files|
        invariant ok && (View(), ok) == Flush(f, old(View()), files[..i])
        modifies this`vault, this`tick
      {
        assert files[..i + 1][..i] == files[..i];
        ok := WriteFile(files[i].path, files[i].content);
        if !ok {
          FlushStopped(f, old(View()), files, i + 1);
          return;
        }
      }
      assert files[..|files|] == files;
    }

    method InstallSkills(plan: Plan, confirmed: set<string>, backend: Backend) returns (made: Option<Created>)
      modifies this
      ensures Outcome(View(), made) == AsyncSkillInstall(f, old(View()), plan, confirmed, backend)
    {
      var before := db;
      var body, files := MaterializeFallback(plan, confirmed, true, backend);
      made := EndAsync(before, body, backend);
      if made.None? { return; }
      var flushed := FlushFiles(files);
      if flushed { return; }
      var orphaned := made.value;
      var errors := RollBack(orphaned);
      if errors > 0 {
        recorded := !f.fails(tick);
        repair := Some(Repair(errors, orphaned));
        tick := tick + 1;
      }
      made := None;
    }

    method MaterializePlan(plan: Plan, confirmed: set<string>, backend: Backend) returns (made: Option<Created>)
      modifies this
      ensures Outcome(View(), made) == Materialize(f, old(View()), plan, confirmed, backend)
    {
      var hasSkill := exists a :: a in plan.assets && a.kind == Skill;
      if hasSkill && backend.transact && !backend.asyncTransact {
        return None;
      }
      var before := db;
      if backend.asyncTransact && hasSkill {
        if !backend.vault { return None; }
        made := InstallSkills(plan, confirmed, backend);
      } else if backend.transact && !hasSkill {
        var result, partial, files, ok := WriteRows(plan, confirmed, false, backend);
        made := EndTransaction(before, if ok then Some(result) else None);
      } else if backend.asyncTransact {
        var body, files := MaterializeFallback(plan, confirmed, false, backend);
        made := EndAsync(before, body, backend);
      } else {
        var body, files := MaterializeFallback(plan, confirmed, false, backend);
        made := body;
      }
    }
  }
}
