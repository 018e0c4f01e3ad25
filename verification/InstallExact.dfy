// Exactly which plans the plain path can leave half installed.
module InstallExact {
  import opened Orders
  import opened Install
  import opened InstallLaws
  import opened InstallRepos
  import opened Wrappers

  /** Asset `i` is a skill whose row the plain path would insert: nothing before it can stop the run. */
  predicate InsertsSkillAt(assets: seq<Asset>, i: nat, backend: Backend) {
    && i < |assets| && assets[i].kind == Skill && assets[i].vaultPath.Some? && backend.skillRepo && backend.vault
    && forall j | 0 <= j < i :: assets[j].kind == Employee
  }

  /** What a caller can check of a plan beforehand. */
  predicate InsertsSkill(plan: Plan, backend: Backend) {
    exists i: nat | i < |plan.assets| :: InsertsSkillAt(Ordered(plan.assets), i, backend)
  }

  /** A failed install whose rollback reports no error leaves the database as it was. */
  ghost predicate CleanFailureRestores(f: Faults, w: World, plan: Plan, confirmed: set<string>, backend: Backend) {
    var o, r := Materialize(f, w, plan, confirmed, backend), WriteAll(f, w, plan, confirmed, false, backend);
    o.made.None? && Rollback(f, r.w, r.partial).errors == 0 ==> o.w.db == w.db
  }

  // ---- Plans that never insert a skill -----------------------------------------

  /** No skill row was inserted, and a run that is still going has only met employees. */
  ghost predicate SkillFreeSoFar(start: Run, r: Run, assets: seq<Asset>) {
    && r.w.db.skills == start.w.db.skills && r.partial.skills == start.partial.skills
    && (r.ok ==> forall j | 0 <= j < |assets| :: assets[j].kind == Employee)
  }

  /** A step that is stopped already, or of an asset whose row is no skill's, or is refused first. */
  lemma {:induction false} NoSkillStep(f: Faults, start: Run, r: Run, package: nat, front: seq<Asset>, a: Asset, backend: Backend)
    requires SkillFreeSoFar(start, r, front)
    requires r.ok && a.kind == Skill ==> a.vaultPath.None? || !backend.skillRepo || !backend.vault
    ensures SkillFreeSoFar(start, AssetStep(f, r, package, a, false, backend), front + [a])
  {
  }

  lemma {:induction false} NoSkillInserted(f: Faults, start: Run, package: nat, assets: seq<Asset>, backend: Backend)
    requires forall i :: !InsertsSkillAt(assets, i, backend)
    ensures SkillFreeSoFar(start, AssetSteps(f, start, package, assets, false, backend), assets)
  {
    if assets == [] {
    } else {
      var n := |assets| - 1;
      var front := assets[..n];
      forall i ensures !InsertsSkillAt(front, i, backend) { assert !InsertsSkillAt(assets, i, backend); }
      NoSkillInserted(f, start, package, front, backend);
      assert !InsertsSkillAt(assets, n, backend);
      NoSkillStep(f, start, AssetSteps(f, start, package, front, false, backend), package, front, assets[n], backend);
      assert front + [assets[n]] == assets;
    }
  }

  lemma {:induction false} BindingsKeepSkills(f: Faults, r: Run, bs: seq<Binding>, confirmed: set<string>)
    ensures BindingSteps(f, r, bs, confirmed).w.db.skills == r.w.db.skills
    ensures BindingSteps(f, r, bs, confirmed).partial.skills == r.partial.skills
  {
    if bs == [] {
    } else {
      BindingsKeepSkills(f, r, bs[..|bs| - 1], confirmed);
    }
  }

  lemma {:induction false} NoSkillRestores(f: Faults, w: World, plan: Plan, confirmed: set<string>, backend: Backend)
    requires IdsFresh(w) && !backend.transact && !backend.asyncTransact && !InsertsSkill(plan, backend)
    ensures CleanFailureRestores(f, w, plan, confirmed, backend)
  {
    var xs := Ordered(plan.assets);
    var start := PackageStep(f, Run(w, NOTHING, NOTHING, [], true), plan);
    assert forall i :: !InsertsSkillAt(xs, i, backend);
    NoSkillInserted(f, start, w.nextId, xs, backend);
    BindingsKeepSkills(f, AssetSteps(f, start, w.nextId, xs, false, backend), plan.bindings, confirmed);
    var r := WriteAll(f, w, plan, confirmed, false, backend);
    WriteAllOk(f, w, plan, confirmed, false, backend);
    assert Grew(w.db.skills, r.w.db.skills, r.partial.skills);
    if !r.ok { RollbackRestores(f, w, r.w, r.partial); }
  }

  // ---- Plans that insert one ------------------------------------------------------

  ghost predicate Quiet(f: Faults, from: nat, to: nat) { forall t | from <= t < to :: !f.fails(t) }

  /** `n` employees later, all written. */
  ghost predicate EmployeesWritten(start: Run, r: Run, n: nat) {
    && r.ok && r.w.tick == start.w.tick + 2 * n && r.w.nextId == start.w.nextId + 2 * n
    && r.w.db.skills == start.w.db.skills && r.partial.skills == start.partial.skills
  }

  lemma {:induction false} EmployeesFirst(f: Faults, start: Run, package: nat, assets: seq<Asset>, backend: Backend)
    requires start.ok && forall j | 0 <= j < |assets| :: assets[j].kind == Employee
    requires Quiet(f, start.w.tick, start.w.tick + 2 * |assets|)
    ensures EmployeesWritten(start, AssetSteps(f, start, package, assets, false, backend), |assets|)
  {
    if assets == [] {
    } else {
      EmployeesFirst(f, start, package, assets[..|assets| - 1], backend);
    }
  }

  /** The run stops with the skill's row inserted and not recorded. */
  ghost predicate Stranded(before: Run, r: Run) {
    !r.ok && r.partial.skills == before.partial.skills && before.w.nextId + 1 in r.w.db.skills && r.w.tick >= before.w.tick + 2
  }

  lemma {:induction false} SkillStrands(f: Faults, r: Run, package: nat, a: Asset, backend: Backend)
    requires r.ok && a.kind == Skill && a.vaultPath.Some? && backend.skillRepo && backend.vault
    requires Quiet(f, r.w.tick, r.w.tick + 2) && (a.content.Some? ==> f.fails(r.w.tick + 2))
    ensures var t := AssetStep(f, r, package, a, false, backend);
            Stranded(r, t) && t.w.tick == r.w.tick + if a.content.Some? then 3 else 2
  {
  }

  /** Fails at exactly one write, or never. */
  function FailsAt(at: Option<nat>): Faults { Faults((t: nat) => at == Some(t), (t: nat) => None) }

  lemma {:induction false} PackageWritten(f: Faults, w: World, plan: Plan)
    requires !f.fails(w.tick)
    ensures var start := PackageStep(f, Run(w, NOTHING, NOTHING, [], true), plan);
            start.ok && start.w.tick == w.tick + 1 && start.w.nextId == w.nextId + 1 && start.partial.skills == []
  {
  }

  /** After the employees, the skill strands its row. */
  lemma {:induction false} PrefixStrands(f: Faults, start: Run, package: nat, front: seq<Asset>, a: Asset, backend: Backend)
    requires start.ok && forall j | 0 <= j < |front| :: front[j].kind == Employee
    requires a.kind == Skill && a.vaultPath.Some? && backend.skillRepo && backend.vault
    requires Quiet(f, start.w.tick, start.w.tick + 2 * |front| + 2)
    requires a.content.Some? ==> f.fails(start.w.tick + 2 * |front| + 2)
    ensures StrandedAfter(start, |front|, AssetSteps(f, start, package, front + [a], false, backend), a)
  {
    EmployeesFirst(f, start, package, front, backend);
    SkillStrands(f, AssetSteps(f, start, package, front, false, backend), package, a, backend);
    assert (front + [a])[..|front|] == front;
  }

  ghost predicate StrandedAfter(start: Run, n: nat, r: Run, a: Asset) {
    && !r.ok && r.partial.skills == start.partial.skills && start.w.nextId + 2 * n + 1 in r.w.db.skills
    && r.w.tick == start.w.tick + 2 * n + if a.content.Some? then 3 else 2
  }

  /** The assets after it are never reached. */
  lemma {:induction false} AssetsStrand(f: Faults, start: Run, package: nat, xs: seq<Asset>, backend: Backend, i: nat)
    requires start.ok && InsertsSkillAt(xs, i, backend)
    requires Quiet(f, start.w.tick, start.w.tick + 2 * i + 2) && (xs[i].content.Some? ==> f.fails(start.w.tick + 2 * i + 2))
    ensures StrandedAfter(start, i, AssetSteps(f, start, package, xs, false, backend), xs[i])
  {
    PrefixStrands(f, start, package, xs[..i], xs[i], backend);
    assert xs[..i + 1] == xs[..i] + [xs[i]];
    AssetsStopped(f, start, package, xs, i + 1, false, backend);
  }

  lemma {:induction false} StoppedBindings(f: Faults, r: Run, bs: seq<Binding>, confirmed: set<string>)
    requires !r.ok
    ensures BindingSteps(f, r, bs, confirmed) == r
  {
    assert bs[..0] == [];
    BindingsStopped(f, r, bs, 0, confirmed);
  }

  lemma {:induction false} StrandingRun(w: World, plan: Plan, confirmed: set<string>, backend: Backend, i: nat)
    returns (f: Faults)
    requires InsertsSkillAt(Ordered(plan.assets), i, backend)
    ensures var r := WriteAll(f, w, plan, confirmed, false, backend);
            && !r.ok && r.partial.skills == [] && w.nextId + 2 * i + 2 in r.w.db.skills
            && forall t | t >= r.w.tick :: !f.fails(t)
  {
    var xs := Ordered(plan.assets);
    f := FailsAt(if xs[i].content.Some? then Some(w.tick + 1 + 2 * i + 2) else None);
    PackageWritten(f, w, plan);
    var start := PackageStep(f, Run(w, NOTHING, NOTHING, [], true), plan);
    AssetsStrand(f, start, w.nextId, xs, backend, i);
    StoppedBindings(f, AssetSteps(f, start, w.nextId, xs, false, backend), plan.bindings, confirmed);
  }

  lemma {:induction false} QuietDrops(f: Faults, u: Undo, ids: seq<nat>)
    requires forall t | t >= u.w.tick :: !f.fails(t)
    ensures DropBindings(f, u, ids).errors == u.errors && DropBindings(f, u, ids).w.tick >= u.w.tick
    ensures DropAssets(f, u, ids).errors == u.errors && DropAssets(f, u, ids).w.tick >= u.w.tick
    ensures DropEmployees(f, u, ids).errors == u.errors && DropEmployees(f, u, ids).w.tick >= u.w.tick
    ensures DropSkills(f, u, ids).errors == u.errors && DropSkills(f, u, ids).w.tick >= u.w.tick
  {
    if ids == [] {
    } else {
      QuietDrops(f, u, ids[..|ids| - 1]);
    }
  }

  lemma {:induction false} QuietRemoves(f: Faults, u: Undo, paths: seq<string>)
    requires forall t | t >= u.w.tick :: !f.fails(t)
    ensures RemoveFiles(f, u, paths).errors == u.errors && RemoveFiles(f, u, paths).w.tick >= u.w.tick
  {
    if paths == [] {
    } else {
      QuietRemoves(f, u, paths[..|paths| - 1]);
    }
  }

  lemma {:induction false} QuietRollback(f: Faults, w: World, made: Created)
    requires forall t | t >= w.tick :: !f.fails(t)
    ensures Rollback(f, w, made).errors == 0
  {
    var b := DropBindings(f, Undo(w, 0), made.bindings);
    QuietDrops(f, Undo(w, 0), made.bindings);
    var a := DropAssets(f, b, made.assets);
    QuietDrops(f, b, made.assets);
    var e := DropEmployees(f, a, made.employees);
    QuietDrops(f, a, made.employees);
    QuietDrops(f, e, made.skills);
    QuietRemoves(f, DropSkills(f, e, made.skills), made.paths);
  }

  lemma {:induction false} SkillStaysBehind(w: World, plan: Plan, confirmed: set<string>, backend: Backend, i: nat)
    returns (f: Faults)
    requires IdsFresh(w) && !backend.transact && !backend.asyncTransact
    requires InsertsSkillAt(Ordered(plan.assets), i, backend)
    ensures !CleanFailureRestores(f, w, plan, confirmed, backend)
  {
    f := StrandingRun(w, plan, confirmed, backend, i);
    var r := WriteAll(f, w, plan, confirmed, false, backend);
    QuietRollback(f, r.w, r.partial);
    RollbackLaw(f, r.w, r.partial);
    assert w.nextId + 2 * i + 2 in Rollback(f, r.w, r.partial).w.db.skills;
    assert w.nextId + 2 * i + 2 !in w.db.skills;
  }

  /**
   * Without a transaction, a clean rollback restores the database for every pattern of failing
   * writes exactly when the plan never inserts a skill row.
   */
  lemma {:induction false} FallbackAtomicIff(w: World, plan: Plan, confirmed: set<string>, backend: Backend)
    requires IdsFresh(w) && !backend.transact && !backend.asyncTransact
    ensures (forall f :: CleanFailureRestores(f, w, plan, confirmed, backend)) <==> !InsertsSkill(plan, backend)
  {
    if InsertsSkill(plan, backend) {
      var i :| InsertsSkillAt(Ordered(plan.assets), i, backend);
      var f := SkillStaysBehind(w, plan, confirmed, backend, i);
    } else {
      forall f ensures CleanFailureRestores(f, w, plan, confirmed, backend) {
        NoSkillRestores(f, w, plan, confirmed, backend);
      }
    }
  }
}
