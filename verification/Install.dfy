// Materializing an install plan: rows, deferred vault files, compensation and
// the repair marker. Every write may fail; the fault plan says which.
module Install {
  import opened Orders
  import opened Wrappers

  datatype Kind = Unknown | Employee | Skill | CompanyTemplate | OfficeLayout | Prefab

  /** `slug` and `content` are absent when the payload makes the source throw. */
  datatype Asset = Asset(id: string, kind: Kind, vaultPath: Option<string>, content: Option<string>)

  datatype Binding = Binding(key: string, required: bool)

  datatype Plan = Plan(packageId: string, version: string, assets: seq<Asset>, bindings: seq<Binding>)

  datatype BindingStatus = Satisfied | Pending | Skipped

  datatype PackageRow = PackageRow(packageId: string, version: string)
  datatype AssetRow = AssetRow(package: nat, assetId: string)
  datatype EmployeeRow = EmployeeRow(assetId: string)
  datatype SkillRow = SkillRow(assetId: string, vaultPath: string)
  datatype BindingRow = BindingRow(asset: Option<nat>, key: string, status: BindingStatus)

  datatype Db = Db(
    packages: map<nat, PackageRow>, assets: map<nat, AssetRow>, employees: map<nat, EmployeeRow>,
    skills: map<nat, SkillRow>, bindings: map<nat, BindingRow>)

  datatype Created = Created(
    package: Option<nat>, assets: seq<nat>, employees: seq<nat>, skills: seq<nat>, paths: seq<string>, bindings: seq<nat>)

  const NOTHING := Created(None, [], [], [], [], [])

  datatype File = File(path: string, content: string)

  /** The durable record of a rollback that did not fully clean up. */
  datatype Repair = Repair(errors: nat, orphaned: Created)

  datatype World = World(db: Db, vault: map<string, string>, tick: nat, nextId: nat, repair: Option<Repair>, recorded: bool)

  /**
   * `fails(t)`: the t-th write throws. `smudge(t)`: what a failing vault write leaves
   * behind, if anything.
   */
  datatype Faults = Faults(fails: nat -> bool, smudge: nat -> Option<string>)

  /** `atomic`: asyncTransact is a real transaction; the Node and memory backends merely run the body. */
  datatype Backend = Backend(transact: bool, asyncTransact: bool, atomic: bool, skillRepo: bool, vault: bool)

  function Rank(k: Kind): int {
    match k case Unknown => -1 case Employee => 0 case Skill => 1 case CompanyTemplate => 2 case OfficeLayout => 3 case Prefab => 4
  }

  predicate KindLess(a: Asset, b: Asset) { Rank(a.kind) < Rank(b.kind) }

  function Ordered(assets: seq<Asset>): seq<Asset> { Sort(KindLess, assets) }

  predicate HasSkill(plan: Plan) { exists a :: a in plan.assets && a.kind == Skill }

  // ---- Single writes ------------------------------------------------------

  function Ticked(w: World): World { w.(tick := w.tick + 1) }

  function FreshId(w: World): World { w.(nextId := w.nextId + 1) }

  function PutFile(f: Faults, w: World, path: string, content: string): (World, bool) {
    if f.fails(w.tick) then
      var left := f.smudge(w.tick);
      (Ticked(if left.Some? then w.(vault := w.vault[path := left.value]) else w), false)
    else (Ticked(w.(vault := w.vault[path := content])), true)
  }

  // ---- The writing path ---------------------------------------------------

  /** A run of the writing path: `made` is the result, `partial` what a failure rolls back. */
  datatype Run = Run(w: World, made: Created, partial: Created, files: seq<File>, ok: bool)

  function Stop(r: Run): Run { r.(ok := false) }

  /** A row write: either the new database is in place, or nothing changed and the run stops. */
  function Put(f: Faults, r: Run, db: Db): Run {
    if f.fails(r.w.tick) then Stop(r.(w := Ticked(r.w))) else r.(w := Ticked(r.w.(db := db)))
  }

  function Both(r: Run, made: Created, partial: Created): Run { r.(made := made, partial := partial) }

  function PackageStep(f: Faults, r: Run, plan: Plan): Run {
    var id := r.w.nextId;
    var named := Both(r.(w := FreshId(r.w)), r.made.(package := Some(id)), r.partial.(package := Some(id)));
    Put(f, named, named.w.db.(packages := named.w.db.packages[id := PackageRow(plan.packageId, plan.version)]))
  }

  function AssetRowStep(f: Faults, r: Run, package: nat, asset: Asset): Run {
    var id := r.w.nextId;
    var put := Put(f, r.(w := FreshId(r.w)), r.w.db.(assets := r.w.db.assets[id := AssetRow(package, asset.id)]));
    if !put.ok then put
    else Both(put, put.made.(assets := put.made.assets + [id]), put.partial.(assets := put.partial.assets + [id]))
  }

  function EmployeeStep(f: Faults, r: Run, asset: Asset): Run {
    var id := r.w.nextId;
    var put := Put(f, r.(w := FreshId(r.w)), r.w.db.(employees := r.w.db.employees[id := EmployeeRow(asset.id)]));
    if !put.ok then put
    else Both(put, put.made.(employees := put.made.employees + [id]), put.partial.(employees := put.partial.employees + [id]))
  }

  /** The row is inserted first; content, file and the recording of the id come after. */
  function SkillStep(f: Faults, r: Run, asset: Asset, deferred: bool, backend: Backend): Run {
    if !backend.skillRepo || (!deferred && !backend.vault) || asset.vaultPath.None? then Stop(r)
    else
      var id, path := r.w.nextId, asset.vaultPath.value;
      var put := Put(f, r.(w := FreshId(r.w)), r.w.db.(skills := r.w.db.skills[id := SkillRow(asset.id, path)]));
      if !put.ok then put
      else if asset.content.None? then Stop(put)
      else if deferred then
        Both(put, put.made.(skills := put.made.skills + [id], paths := put.made.paths + [path]),
                  put.partial.(skills := put.partial.skills + [id])).(files := put.files + [File(path, asset.content.value)])
      else
        var (w, written) := PutFile(f, put.w, path, asset.content.value);
        if !written then Stop(put.(w := w))
        else Both(put.(w := w), put.made.(skills := put.made.skills + [id], paths := put.made.paths + [path]),
                  put.partial.(skills := put.partial.skills + [id], paths := put.partial.paths + [path]))
  }

  function AssetStep(f: Faults, r: Run, package: nat, asset: Asset, deferred: bool, backend: Backend): Run {
    if !r.ok then r
    else if asset.kind != Employee && asset.kind != Skill then Stop(r)
    else
      var row := AssetRowStep(f, r, package, asset);
      if !row.ok then row
      else if asset.kind == Employee then EmployeeStep(f, row, asset)
      else SkillStep(f, row, asset, deferred, backend)
  }

  function AssetSteps(f: Faults, r: Run, package: nat, assets: seq<Asset>, deferred: bool, backend: Backend): Run {
    if assets == [] then r
    else AssetStep(f, AssetSteps(f, r, package, assets[..|assets| - 1], deferred, backend), package,
                   assets[|assets| - 1], deferred, backend)
  }

  function StatusOf(b: Binding, confirmed: set<string>): BindingStatus {
    if b.key in confirmed then Satisfied else if b.required then Pending else Skipped
  }

  function BindingStep(f: Faults, r: Run, b: Binding, confirmed: set<string>): Run {
    if !r.ok then r
    else
      var id := r.w.nextId;
      var asset := if r.made.assets == [] then None else Some(r.made.assets[0]);
      var put := Put(f, r.(w := FreshId(r.w)), r.w.db.(bindings := r.w.db.bindings[id := BindingRow(asset, b.key, StatusOf(b, confirmed))]));
      if !put.ok then put
      else Both(put, put.made.(bindings := put.made.bindings + [id]), put.partial.(bindings := put.partial.bindings + [id]))
  }

  function BindingSteps(f: Faults, r: Run, bs: seq<Binding>, confirmed: set<string>): Run {
    if bs == [] then r else BindingStep(f, BindingSteps(f, r, bs[..|bs| - 1], confirmed), bs[|bs| - 1], confirmed)
  }

  /** The whole writing path, up to success or the first failure. */
  function WriteAll(f: Faults, w: World, plan: Plan, confirmed: set<string>, deferred: bool, backend: Backend): Run {
    var package := w.nextId;
    var start := PackageStep(f, Run(w, NOTHING, NOTHING, [], true), plan);
    BindingSteps(f, AssetSteps(f, start, package, Ordered(plan.assets), deferred, backend), plan.bindings, confirmed)
  }

  // ---- Rollback -----------------------------------------------------------

  datatype Undo = Undo(w: World, errors: nat)

  function Drop(f: Faults, u: Undo, db: Db): Undo {
    if f.fails(u.w.tick) then Undo(Ticked(u.w), u.errors + 1) else Undo(Ticked(u.w.(db := db)), u.errors)
  }

  function DropBindings(f: Faults, u: Undo, ids: seq<nat>): Undo {
    if ids == [] then u
    else var v := DropBindings(f, u, ids[..|ids| - 1]); Drop(f, v, v.w.db.(bindings := v.w.db.bindings - {ids[|ids| - 1]}))
  }

  function DropAssets(f: Faults, u: Undo, ids: seq<nat>): Undo {
    if ids == [] then u
    else var v := DropAssets(f, u, ids[..|ids| - 1]); Drop(f, v, v.w.db.(assets := v.w.db.assets - {ids[|ids| - 1]}))
  }

  function DropEmployees(f: Faults, u: Undo, ids: seq<nat>): Undo {
    if ids == [] then u
    else var v := DropEmployees(f, u, ids[..|ids| - 1]); Drop(f, v, v.w.db.(employees := v.w.db.employees - {ids[|ids| - 1]}))
  }

  function DropSkills(f: Faults, u: Undo, ids: seq<nat>): Undo {
    if ids == [] then u
    else var v := DropSkills(f, u, ids[..|ids| - 1]); Drop(f, v, v.w.db.(skills := v.w.db.skills - {ids[|ids| - 1]}))
  }

  function RemoveFiles(f: Faults, u: Undo, paths: seq<string>): Undo {
    if paths == [] then u
    else
      var v := RemoveFiles(f, u, paths[..|paths| - 1]);
      if f.fails(v.w.tick) then Undo(Ticked(v.w), v.errors + 1)
      else Undo(Ticked(v.w.(vault := v.w.vault - {paths[|paths| - 1]})), v.errors)
  }

  function DropPackage(f: Faults, u: Undo, id: Option<nat>): Undo {
    if id.None? then u else Drop(f, u, u.w.db.(packages := u.w.db.packages - {id.value}))
  }

  /** Best effort, in foreign-key order; failures are counted, not thrown. */
  function Rollback(f: Faults, w: World, made: Created): Undo {
    var u := DropBindings(f, Undo(w, 0), made.bindings);
    var a := DropAssets(f, u, made.assets);
    var e := DropEmployees(f, a, made.employees);
    var s := DropSkills(f, e, made.skills);
    DropPackage(f, RemoveFiles(f, s, made.paths), made.package)
  }

  // ---- The backends -------------------------------------------------------

  /** `made` is the result on success; a throw leaves only the world. */
  datatype Outcome = Outcome(w: World, made: Option<Created>)

  /** No transaction: compensate by rolling back what was recorded. */
  function Fallback(f: Faults, w: World, plan: Plan, confirmed: set<string>, deferred: bool, backend: Backend): (Outcome, seq<File>) {
    var r := WriteAll(f, w, plan, confirmed, deferred, backend);
    if r.ok then (Outcome(r.w, Some(r.made)), r.files)
    else (Outcome(Rollback(f, r.w, r.partial).w, None), r.files)
  }

  /** The database part of a transaction is undone when the body or the commit throws. */
  function Transacted(f: Faults, before: World, body: Outcome): Outcome {
    if body.made.None? then Outcome(body.w.(db := before.db), None)
    else if f.fails(body.w.tick) then Outcome(Ticked(body.w).(db := before.db), None)
    else Outcome(Ticked(body.w), body.made)
  }

  function AsyncTransacted(f: Faults, before: World, body: Outcome, backend: Backend): Outcome {
    if backend.atomic then Transacted(f, before, body) else body
  }

  /** The synchronous body: the same writes, no compensation inside. */
  function SyncBody(f: Faults, w: World, plan: Plan, confirmed: set<string>, backend: Backend): Outcome {
    var r := WriteAll(f, w, plan, confirmed, false, backend);
    Outcome(r.w, if r.ok then Some(r.made) else None)
  }

  function Flush(f: Faults, w: World, files: seq<File>): (World, bool) {
    if files == [] then (w, true)
    else
      var (v, ok) := Flush(f, w, files[..|files| - 1]);
      if !ok then (v, false) else PutFile(f, v, files[|files| - 1].path, files[|files| - 1].content)
  }

  /** One attempt to write the marker; it may fail, then only a warning is left. */
  function RecordRepair(f: Faults, w: World, repair: Repair): World {
    Ticked(w).(repair := Some(repair), recorded := !f.fails(w.tick))
  }

  /** Commit the rows, then the files; a failed flush takes the whole install back. */
  function AsyncSkillInstall(f: Faults, w: World, plan: Plan, confirmed: set<string>, backend: Backend): Outcome {
    var (body, files) := Fallback(f, w, plan, confirmed, true, backend);
    var committed := AsyncTransacted(f, w, body, backend);
    if committed.made.None? then committed
    else
      var (flushed, ok) := Flush(f, committed.w, files);
      if ok then Outcome(flushed, committed.made)
      else
        var u := Rollback(f, flushed, committed.made.value);
        Outcome(if u.errors > 0 then RecordRepair(f, u.w, Repair(u.errors, committed.made.value)) else u.w, None)
  }

  function Materialize(f: Faults, w: World, plan: Plan, confirmed: set<string>, backend: Backend): Outcome {
    if HasSkill(plan) && backend.transact && !backend.asyncTransact then Outcome(w, None)
    else if backend.asyncTransact && HasSkill(plan) then
      if !backend.vault then Outcome(w, None) else AsyncSkillInstall(f, w, plan, confirmed, backend)
    else if backend.transact && !HasSkill(plan) then Transacted(f, w, SyncBody(f, w, plan, confirmed, backend))
    else if backend.asyncTransact then AsyncTransacted(f, w, Fallback(f, w, plan, confirmed, false, backend).0, backend)
    else Fallback(f, w, plan, confirmed, false, backend).0
  }
}
