// A successful install has written every row the plan asks for, and the
// non-transactional path is not safe for skills.
module InstallComplete {
  import opened Orders
  import opened Install
  import opened InstallLaws
  import opened Wrappers

  function OfKind(assets: seq<Asset>, kind: Kind): seq<Asset> {
    if assets == [] then []
    else
      var front := OfKind(assets[..|assets| - 1], kind);
      if assets[|assets| - 1].kind == kind then front + [assets[|assets| - 1]] else front
  }

  /** The rows under `ids`, in order, are the ones `row` computes; later ids are newer. */
  ghost predicate Rows<R>(table: map<nat, R>, ids: seq<nat>, n: nat, row: nat -> R, below: nat) {
    && |ids| == n
    && (forall i | 0 <= i < n :: ids[i] < below && ids[i] in table && table[ids[i]] == row(i))
    && forall i, j | 0 <= i < j < n :: ids[i] < ids[j]
  }

  function AssetRowAt(package: nat, xs: seq<Asset>): nat -> AssetRow {
    (i: nat) => if i < |xs| then AssetRow(package, xs[i].id) else AssetRow(package, "")
  }

  function EmployeeRowAt(xs: seq<Asset>): nat -> EmployeeRow {
    (i: nat) => if i < |xs| then EmployeeRow(xs[i].id) else EmployeeRow("")
  }

  function PathOf(a: Asset): string { if a.vaultPath.Some? then a.vaultPath.value else "" }

  function ContentOf(a: Asset): string { if a.content.Some? then a.content.value else "" }

  function SkillRowAt(xs: seq<Asset>): nat -> SkillRow {
    (i: nat) => if i < |xs| then SkillRow(xs[i].id, PathOf(xs[i])) else SkillRow("", "")
  }

  function BindingRowAt(first: Option<nat>, bs: seq<Binding>, confirmed: set<string>): nat -> BindingRow {
    (i: nat) => if i < |bs| then BindingRow(first, bs[i].key, StatusOf(bs[i], confirmed)) else BindingRow(first, "", Skipped)
  }

  function FilesFor(skills: seq<Asset>): seq<File> {
    seq(|skills|, i requires 0 <= i < |skills| => File(PathOf(skills[i]), ContentOf(skills[i])))
  }

  /** Everything the processed assets call for has been written and recorded. */
  ghost predicate Progress(plan: Plan, package: nat, xs: seq<Asset>, deferred: bool, r: Run) {
    var es, ss := OfKind(xs, Employee), OfKind(xs, Skill);
    && (forall a | a in xs :: a.kind == Employee || a.kind == Skill)
    && (forall a | a in ss :: a.vaultPath.Some? && a.content.Some?)
    && package < r.w.nextId && r.made.package == Some(package)
    && package in r.w.db.packages && r.w.db.packages[package] == PackageRow(plan.packageId, plan.version)
    && Rows(r.w.db.assets, r.made.assets, |xs|, AssetRowAt(package, xs), r.w.nextId)
    && Rows(r.w.db.employees, r.made.employees, |es|, EmployeeRowAt(es), r.w.nextId)
    && Rows(r.w.db.skills, r.made.skills, |ss|, SkillRowAt(ss), r.w.nextId)
    && r.made.paths == PathsOf(FilesFor(ss))
    && r.files == if deferred then FilesFor(ss) else []
  }

  lemma {:induction false} RowsAdd<R>(table: map<nat, R>, ids: seq<nat>, n: nat, was: nat -> R, now: nat -> R, id: nat, value: R)
    requires Rows(table, ids, n, was, id)
    requires forall i | 0 <= i < n :: now(i) == was(i)
    requires now(n) == value
    ensures Rows(table[id := value], ids + [id], n + 1, now, id + 1)
  {
  }

  lemma {:induction false} RowsKeep<R>(table: map<nat, R>, ids: seq<nat>, n: nat, row: nat -> R, id: nat, more: nat)
    requires Rows(table, ids, n, row, id) && id <= more
    ensures Rows(table, ids, n, row, more)
  {
  }

  lemma {:induction false} OfKindSnoc(xs: seq<Asset>, a: Asset, kind: Kind)
    ensures OfKind(xs + [a], kind) == if a.kind == kind then OfKind(xs, kind) + [a] else OfKind(xs, kind)
  {
    assert (xs + [a])[..|xs|] == xs;
  }

  /** After the asset row, before the kind-specific row. */
  ghost predicate Halfway(plan: Plan, package: nat, xs: seq<Asset>, a: Asset, deferred: bool, r: Run) {
    var es, ss := OfKind(xs, Employee), OfKind(xs, Skill);
    && (forall x | x in xs :: x.kind == Employee || x.kind == Skill)
    && (forall x | x in ss :: x.vaultPath.Some? && x.content.Some?)
    && package < r.w.nextId && r.made.package == Some(package)
    && package in r.w.db.packages && r.w.db.packages[package] == PackageRow(plan.packageId, plan.version)
    && Rows(r.w.db.assets, r.made.assets, |xs| + 1, AssetRowAt(package, xs + [a]), r.w.nextId)
    && Rows(r.w.db.employees, r.made.employees, |es|, EmployeeRowAt(es), r.w.nextId)
    && Rows(r.w.db.skills, r.made.skills, |ss|, SkillRowAt(ss), r.w.nextId)
    && r.made.paths == PathsOf(FilesFor(ss))
    && r.files == if deferred then FilesFor(ss) else []
  }

  lemma {:induction false} AssetRowDone(f: Faults, plan: Plan, package: nat, xs: seq<Asset>, a: Asset, deferred: bool, r: Run)
    requires Progress(plan, package, xs, deferred, r) && AssetRowStep(f, r, package, a).ok
    ensures Halfway(plan, package, xs, a, deferred, AssetRowStep(f, r, package, a))
  {
    var t, id := AssetRowStep(f, r, package, a), r.w.nextId;
    var es, ss := OfKind(xs, Employee), OfKind(xs, Skill);
    RowsAdd(r.w.db.assets, r.made.assets, |xs|, AssetRowAt(package, xs), AssetRowAt(package, xs + [a]), id, AssetRow(package, a.id));
    RowsKeep(r.w.db.employees, r.made.employees, |es|, EmployeeRowAt(es), id, id + 1);
    RowsKeep(r.w.db.skills, r.made.skills, |ss|, SkillRowAt(ss), id, id + 1);
  }

  lemma {:induction false} EmployeeDone(f: Faults, plan: Plan, package: nat, xs: seq<Asset>, a: Asset, deferred: bool, r: Run)
    requires Halfway(plan, package, xs, a, deferred, r) && a.kind == Employee && EmployeeStep(f, r, a).ok
    ensures Progress(plan, package, xs + [a], deferred, EmployeeStep(f, r, a))
  {
    var t, id := EmployeeStep(f, r, a), r.w.nextId;
    var es, ss := OfKind(xs, Employee), OfKind(xs, Skill);
    OfKindSnoc(xs, a, Employee);
    OfKindSnoc(xs, a, Skill);
    RowsAdd(r.w.db.employees, r.made.employees, |es|, EmployeeRowAt(es), EmployeeRowAt(es + [a]), id, EmployeeRow(a.id));
    RowsKeep(r.w.db.assets, r.made.assets, |xs| + 1, AssetRowAt(package, xs + [a]), id, id + 1);
    RowsKeep(r.w.db.skills, r.made.skills, |ss|, SkillRowAt(ss), id, id + 1);
  }

  lemma {:induction false} FilesSnoc(ss: seq<Asset>, a: Asset)
    ensures FilesFor(ss + [a]) == FilesFor(ss) + [File(PathOf(a), ContentOf(a))]
    ensures PathsOf(FilesFor(ss + [a])) == PathsOf(FilesFor(ss)) + [PathOf(a)]
  {
  }

  /** What a skill that was written and recorded changed. */
  ghost predicate SkillWritten(a: Asset, deferred: bool, r: Run, t: Run) {
    var id := r.w.nextId;
    && a.vaultPath.Some? && a.content.Some? && t.w.nextId == id + 1
    && t.w.db == r.w.db.(skills := r.w.db.skills[id := SkillRow(a.id, PathOf(a))])
    && t.made == r.made.(skills := r.made.skills + [id], paths := r.made.paths + [PathOf(a)])
    && t.files == if deferred then r.files + [File(PathOf(a), ContentOf(a))] else r.files
  }

  lemma {:induction false} SkillStepWrites(f: Faults, a: Asset, deferred: bool, backend: Backend, r: Run)
    requires r.ok && SkillStep(f, r, a, deferred, backend).ok
    ensures SkillWritten(a, deferred, r, SkillStep(f, r, a, deferred, backend))
  {
  }

  lemma {:induction false} SkillRowDone(xs: seq<Asset>, a: Asset, deferred: bool, r: Run, t: Run)
    requires SkillWritten(a, deferred, r, t) && a.kind == Skill
    requires Rows(r.w.db.skills, r.made.skills, |OfKind(xs, Skill)|, SkillRowAt(OfKind(xs, Skill)), r.w.nextId)
    ensures var ss := OfKind(xs, Skill);
            && OfKind(xs + [a], Skill) == ss + [a]
            && Rows(t.w.db.skills, t.made.skills, |ss| + 1, SkillRowAt(ss + [a]), t.w.nextId)
  {
    var id, ss := r.w.nextId, OfKind(xs, Skill);
    OfKindSnoc(xs, a, Skill);
    RowsAdd(r.w.db.skills, r.made.skills, |ss|, SkillRowAt(ss), SkillRowAt(ss + [a]), id, SkillRow(a.id, PathOf(a)));
  }

  lemma {:induction false} SkillDone(plan: Plan, package: nat, xs: seq<Asset>, a: Asset, deferred: bool, r: Run, t: Run)
    requires Halfway(plan, package, xs, a, deferred, r) && a.kind == Skill && SkillWritten(a, deferred, r, t)
    ensures Progress(plan, package, xs + [a], deferred, t)
  {
    var id := r.w.nextId;
    var es := OfKind(xs, Employee);
    OfKindSnoc(xs, a, Employee);
    FilesSnoc(OfKind(xs, Skill), a);
    SkillRowDone(xs, a, deferred, r, t);
    RowsKeep(r.w.db.assets, r.made.assets, |xs| + 1, AssetRowAt(package, xs + [a]), id, id + 1);
    RowsKeep(r.w.db.employees, r.made.employees, |es|, EmployeeRowAt(es), id, id + 1);
  }

  lemma {:induction false} StoppedStays(f: Faults, r: Run, package: nat, asset: Asset, deferred: bool, backend: Backend)
    ensures AssetStep(f, r, package, asset, deferred, backend).ok ==> r.ok
  {
  }

  lemma {:induction false} AssetsDone(f: Faults, plan: Plan, package: nat, start: Run, assets: seq<Asset>, deferred: bool, backend: Backend)
    requires Progress(plan, package, [], deferred, start)
    ensures var r := AssetSteps(f, start, package, assets, deferred, backend);
            r.ok ==> Progress(plan, package, assets, deferred, r)
  {
    if assets == [] {
    } else {
      var front, a := assets[..|assets| - 1], assets[|assets| - 1];
      AssetsDone(f, plan, package, start, front, deferred, backend);
      var r := AssetSteps(f, start, package, front, deferred, backend);
      assert assets == front + [a];
      StoppedStays(f, r, package, a, deferred, backend);
      if AssetStep(f, r, package, a, deferred, backend).ok {
        AssetRowDone(f, plan, package, front, a, deferred, r);
        var row := AssetRowStep(f, r, package, a);
        if a.kind == Employee { EmployeeDone(f, plan, package, front, a, deferred, row); }
        else {
          SkillStepWrites(f, a, deferred, backend, row);
          SkillDone(plan, package, front, a, deferred, row, SkillStep(f, row, a, deferred, backend));
        }
      }
    }
  }

  ghost predicate BindingsDone(first: Option<nat>, bs: seq<Binding>, confirmed: set<string>, r: Run) {
    && (if r.made.assets == [] then None else Some(r.made.assets[0])) == first
    && Rows(r.w.db.bindings, r.made.bindings, |bs|, BindingRowAt(first, bs, confirmed), r.w.nextId)
  }

  lemma {:induction false} BindingKeepsProgress(f: Faults, plan: Plan, package: nat, xs: seq<Asset>, deferred: bool,
                       r: Run, b: Binding, confirmed: set<string>)
    requires r.ok && Progress(plan, package, xs, deferred, r) && BindingStep(f, r, b, confirmed).ok
    ensures Progress(plan, package, xs, deferred, BindingStep(f, r, b, confirmed))
  {
    var id, es, ss := r.w.nextId, OfKind(xs, Employee), OfKind(xs, Skill);
    RowsKeep(r.w.db.assets, r.made.assets, |xs|, AssetRowAt(package, xs), id, id + 1);
    RowsKeep(r.w.db.employees, r.made.employees, |es|, EmployeeRowAt(es), id, id + 1);
    RowsKeep(r.w.db.skills, r.made.skills, |ss|, SkillRowAt(ss), id, id + 1);
  }

  lemma {:induction false} BindingWritten(f: Faults, plan: Plan, package: nat, xs: seq<Asset>, deferred: bool,
                       r: Run, first: Option<nat>, front: seq<Binding>, b: Binding, confirmed: set<string>)
    requires r.ok && Progress(plan, package, xs, deferred, r) && BindingsDone(first, front, confirmed, r)
    requires BindingStep(f, r, b, confirmed).ok
    ensures Progress(plan, package, xs, deferred, BindingStep(f, r, b, confirmed))
    ensures BindingsDone(first, front + [b], confirmed, BindingStep(f, r, b, confirmed))
  {
    BindingKeepsProgress(f, plan, package, xs, deferred, r, b, confirmed);
    RowsAdd(r.w.db.bindings, r.made.bindings, |front|, BindingRowAt(first, front, confirmed),
            BindingRowAt(first, front + [b], confirmed), r.w.nextId, BindingRow(first, b.key, StatusOf(b, confirmed)));
  }

  lemma {:induction false} BindingStepsSnoc(f: Faults, start: Run, front: seq<Binding>, b: Binding, confirmed: set<string>)
    ensures BindingSteps(f, start, front + [b], confirmed) == BindingStep(f, BindingSteps(f, start, front, confirmed), b, confirmed)
    ensures BindingSteps(f, start, front + [b], confirmed).ok ==> BindingSteps(f, start, front, confirmed).ok
  {
    assert (front + [b])[..|front|] == front;
  }

  /** All rows so far, and the bindings `bs` of them. */
  ghost predicate AllWritten(plan: Plan, package: nat, xs: seq<Asset>, deferred: bool, first: Option<nat>,
                             bs: seq<Binding>, confirmed: set<string>, r: Run) {
    Progress(plan, package, xs, deferred, r) && BindingsDone(first, bs, confirmed, r)
  }

  lemma {:induction false} BindingsWritten(f: Faults, plan: Plan, package: nat, xs: seq<Asset>, deferred: bool,
                                           start: Run, first: Option<nat>, bs: seq<Binding>, confirmed: set<string>)
    requires start.ok ==> AllWritten(plan, package, xs, deferred, first, [], confirmed, start)
    ensures var r := BindingSteps(f, start, bs, confirmed);
            r.ok ==> start.ok && AllWritten(plan, package, xs, deferred, first, bs, confirmed, r)
  {
    if bs == [] {
    } else {
      var front, b := bs[..|bs| - 1], bs[|bs| - 1];
      assert bs == front + [b];
      BindingsWritten(f, plan, package, xs, deferred, start, first, front, confirmed);
      BindingStepsSnoc(f, start, front, b, confirmed);
      if BindingSteps(f, start, bs, confirmed).ok {
        BindingWritten(f, plan, package, xs, deferred, BindingSteps(f, start, front, confirmed), first, front, b, confirmed);
      }
    }
  }

  lemma {:induction false} PackageDone(f: Faults, w: World, plan: Plan, deferred: bool)
    requires PackageStep(f, Run(w, NOTHING, NOTHING, [], true), plan).ok
    ensures Progress(plan, w.nextId, [], deferred, PackageStep(f, Run(w, NOTHING, NOTHING, [], true), plan))
  {
  }

  /**
   * Success means complete: one package row, one asset row per asset in materialization
   * order, one employee or skill row each, one binding row per requirement with the status
   * its confirmation calls for, and, when deferred, one file per skill.
   */
  lemma {:induction false} SuccessIsComplete(f: Faults, w: World, plan: Plan, confirmed: set<string>, deferred: bool, backend: Backend)
    requires WriteAll(f, w, plan, confirmed, deferred, backend).ok
    ensures var r := WriteAll(f, w, plan, confirmed, deferred, backend);
            && Progress(plan, w.nextId, Ordered(plan.assets), deferred, r)
            && BindingsDone(if r.made.assets == [] then None else Some(r.made.assets[0]), plan.bindings, confirmed, r)
  {
    var start := PackageStep(f, Run(w, NOTHING, NOTHING, [], true), plan);
    var r := AssetSteps(f, start, w.nextId, Ordered(plan.assets), deferred, backend);
    var first := if r.made.assets == [] then None else Some(r.made.assets[0]);
    OkBackwards(f, start, w.nextId, Ordered(plan.assets), deferred, backend, plan.bindings, confirmed);
    PackageDone(f, w, plan, deferred);
    AssetsDone(f, plan, w.nextId, start, Ordered(plan.assets), deferred, backend);
    NoBindingsYet(f, start, w.nextId, Ordered(plan.assets), deferred, backend);
    BindingsWritten(f, plan, w.nextId, Ordered(plan.assets), deferred, r, first, plan.bindings, confirmed);
  }

  lemma {:induction false} OkBackwards(f: Faults, start: Run, package: nat, assets: seq<Asset>, deferred: bool, backend: Backend,
                                       bs: seq<Binding>, confirmed: set<string>)
    requires BindingSteps(f, AssetSteps(f, start, package, assets, deferred, backend), bs, confirmed).ok
    ensures start.ok
    decreases |assets| + |bs|
  {
    var r := AssetSteps(f, start, package, assets, deferred, backend);
    if bs != [] {
      OkBackwards(f, start, package, assets, deferred, backend, bs[..|bs| - 1], confirmed);
    } else if assets != [] {
      StoppedStays(f, AssetSteps(f, start, package, assets[..|assets| - 1], deferred, backend), package,
                   assets[|assets| - 1], deferred, backend);
      OkBackwards(f, start, package, assets[..|assets| - 1], deferred, backend, [], confirmed);
    }
  }

  lemma {:induction false} AssetStepBindings(f: Faults, r: Run, package: nat, asset: Asset, deferred: bool, backend: Backend)
    ensures AssetStep(f, r, package, asset, deferred, backend).made.bindings == r.made.bindings
  {
    var row := AssetRowStep(f, r, package, asset);
    assert row.made.bindings == r.made.bindings;
  }

  lemma {:induction false} NoBindingsYet(f: Faults, start: Run, package: nat, assets: seq<Asset>, deferred: bool, backend: Backend)
    ensures AssetSteps(f, start, package, assets, deferred, backend).made.bindings == start.made.bindings
  {
    if assets == [] {
    } else {
      var front := assets[..|assets| - 1];
      NoBindingsYet(f, start, package, front, deferred, backend);
      AssetStepBindings(f, AssetSteps(f, start, package, front, deferred, backend), package, assets[|assets| - 1], deferred, backend);
    }
  }

  const ROW_ONLY := Asset("a", Skill, Some("p"), None)

  lemma {:induction false} StoppedMidway(f: Faults, w: World, backend: Backend)
    requires (forall t :: !f.fails(t)) && backend == Backend(false, false, false, true, true)
    ensures var r := WriteAll(f, w, Plan("pkg", "1.0.0", [ROW_ONLY], []), {}, false, backend);
            && !r.ok && r.partial.skills == []
            && r.w.db.skills == w.db.skills[w.nextId + 2 := SkillRow("a", "p")]
  {
    var plan := Plan("pkg", "1.0.0", [ROW_ONLY], []);
    var start := PackageStep(f, Run(w, NOTHING, NOTHING, [], true), plan);
    assert Ordered([ROW_ONLY]) == [ROW_ONLY] by { SortFixpoint(KindLess, [ROW_ONLY]); }
    assert [ROW_ONLY][..0] == [];
    var row := AssetRowStep(f, start, w.nextId, ROW_ONLY);
    var stopped := SkillStep(f, row, ROW_ONLY, false, backend);
    assert AssetSteps(f, start, w.nextId, [ROW_ONLY], false, backend) == AssetStep(f, start, w.nextId, ROW_ONLY, false, backend) == stopped;
    assert WriteAll(f, w, plan, {}, false, backend) == stopped;
  }

  /**
   * Why only transactional backends may install skills: with no transaction, a skill
   * without content fails after its row was inserted and before the row was recorded, so a
   * rollback in which every delete succeeds still leaves the row behind.
   */
  lemma {:induction false} FallbackStrandsSkill(f: Faults, w: World, backend: Backend)
    requires (forall t :: !f.fails(t)) && backend == Backend(false, false, false, true, true)
    ensures var o := Materialize(f, w, Plan("pkg", "1.0.0", [ROW_ONLY], []), {}, backend);
            o.made.None? && w.nextId + 2 in o.w.db.skills
  {
    StoppedMidway(f, w, backend);
    var r := WriteAll(f, w, Plan("pkg", "1.0.0", [ROW_ONLY], []), {}, false, backend);
    RollbackLaw(f, r.w, r.partial);
  }
}
