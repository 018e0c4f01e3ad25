// Skill installs on backends whose asyncTransact merely runs its body: exactly which
// plans still end well.
module InstallPassthrough {
  import opened Orders
  import opened Install
  import opened InstallLaws
  import opened InstallRepos
  import opened InstallExact
  import opened Wrappers

  /** With deferred files, nothing about the asset itself stops the run. */
  predicate Fine(a: Asset, backend: Backend) {
    a.kind == Employee || (a.kind == Skill && a.vaultPath.Some? && a.content.Some? && backend.skillRepo)
  }

  /** Asset `i` is a skill whose row is inserted before its missing content throws. */
  predicate StrandsSkillAt(assets: seq<Asset>, i: nat, backend: Backend) {
    && i < |assets| && assets[i].kind == Skill && assets[i].vaultPath.Some? && assets[i].content.None? && backend.skillRepo
    && forall j | 0 <= j < i :: Fine(assets[j], backend)
  }

  /** What a caller can check of a plan beforehand. */
  predicate StrandsSkill(plan: Plan, backend: Backend) {
    exists i: nat | i < |plan.assets| :: StrandsSkillAt(Ordered(plan.assets), i, backend)
  }

  /** The rollback inside the body, if it comes to one, deletes all it is told to. */
  ghost predicate DeletesSucceed(f: Faults, w: World, plan: Plan, confirmed: set<string>, backend: Backend) {
    var r := WriteAll(f, w, plan, confirmed, true, backend);
    !r.ok ==> Rollback(f, r.w, r.partial).errors == 0
  }

  // ---- Plans that strand no skill ----------------------------------------------

  ghost predicate SkillsRecorded(w0: World, r: Run) { Grew(w0.db.skills, r.w.db.skills, r.partial.skills) }

  ghost predicate RecordedSoFar(w0: World, r: Run, assets: seq<Asset>, backend: Backend) {
    SkillsRecorded(w0, r) && (r.ok ==> forall a | a in assets :: Fine(a, backend))
  }

  lemma {:induction false} RecordedStep(f: Faults, w0: World, r: Run, package: nat, a: Asset, backend: Backend)
    requires IdsFresh(w0) && w0.nextId <= r.w.nextId && SkillsRecorded(w0, r) && r.ok
    requires !(a.kind == Skill && a.vaultPath.Some? && a.content.None? && backend.skillRepo)
    ensures var t := AssetStep(f, r, package, a, true, backend);
            SkillsRecorded(w0, t) && (t.ok ==> Fine(a, backend))
  {
    var id := r.w.nextId + 1;
    if a.vaultPath.Some? {
      GrewPut(w0.db.skills, r.w.db.skills, r.partial.skills, w0.nextId, id, SkillRow(a.id, a.vaultPath.value));
    }
  }

  lemma {:induction false} RecordedSteps(f: Faults, w0: World, start: Run, package: nat, assets: seq<Asset>, backend: Backend)
    requires IdsFresh(w0) && RunOk(w0, start) && SkillsRecorded(w0, start)
    requires forall i :: !StrandsSkillAt(assets, i, backend)
    ensures RecordedSoFar(w0, AssetSteps(f, start, package, assets, true, backend), assets, backend)
  {
    if assets == [] {
    } else {
      var n := |assets| - 1;
      var front, a := assets[..n], assets[n];
      forall i ensures !StrandsSkillAt(front, i, backend) { assert !StrandsSkillAt(assets, i, backend); }
      RecordedSteps(f, w0, start, package, front, backend);
      var r := AssetSteps(f, start, package, front, true, backend);
      AssetStepsOk(f, w0, start, package, front, true, backend);
      if r.ok {
        assert forall j | 0 <= j < n :: assets[j] in front;
        assert !StrandsSkillAt(assets, n, backend);
        RecordedStep(f, w0, r, package, a, backend);
        assert assets == front + [a];
      }
    }
  }

  lemma {:induction false} RecordedAll(f: Faults, w: World, plan: Plan, confirmed: set<string>, backend: Backend)
    requires IdsFresh(w) && !StrandsSkill(plan, backend)
    ensures SkillsRecorded(w, WriteAll(f, w, plan, confirmed, true, backend))
  {
    var xs := Ordered(plan.assets);
    var start := PackageStep(f, Run(w, NOTHING, NOTHING, [], true), plan);
    PackageStepOk(f, w, plan);
    assert forall i :: !StrandsSkillAt(xs, i, backend);
    RecordedSteps(f, w, start, w.nextId, xs, backend);
    BindingsKeepSkills(f, AssetSteps(f, start, w.nextId, xs, true, backend), plan.bindings, confirmed);
  }

  lemma {:induction false} UnstrandedEndsWell(f: Faults, w: World, plan: Plan, confirmed: set<string>, backend: Backend)
    requires IdsFresh(w) && w.repair == None && !backend.atomic && !StrandsSkill(plan, backend)
    requires DeletesSucceed(f, w, plan, confirmed, backend)
    ensures EndsWell(f, w, plan, confirmed, backend)
  {
    var r := WriteAll(f, w, plan, confirmed, true, backend);
    if r.ok {
      WrittenEndsWell(f, w, plan, confirmed, backend);
    } else {
      StoppedTouchesNoFile(f, w, plan, confirmed, backend);
      WriteAllOk(f, w, plan, confirmed, true, backend);
      RecordedAll(f, w, plan, confirmed, backend);
      RollbackRestores(f, w, r.w, r.partial);
    }
  }

  // ---- Plans that strand one -----------------------------------------------------

  lemma {:induction false} FineStep(f: Faults, r: Run, package: nat, a: Asset, backend: Backend)
    requires r.ok && Fine(a, backend) && forall t :: !f.fails(t)
    ensures AssetStep(f, r, package, a, true, backend).ok
  {
  }

  lemma {:induction false} FineSteps(f: Faults, start: Run, package: nat, assets: seq<Asset>, backend: Backend)
    requires start.ok && (forall t :: !f.fails(t)) && forall j | 0 <= j < |assets| :: Fine(assets[j], backend)
    ensures AssetSteps(f, start, package, assets, true, backend).ok
  {
    if assets == [] {
    } else {
      var n := |assets| - 1;
      FineSteps(f, start, package, assets[..n], backend);
      FineStep(f, AssetSteps(f, start, package, assets[..n], true, backend), package, assets[n], backend);
    }
  }

  /** The run has stopped with a row that nothing will remove. */
  ghost predicate LeftBehind(w0: World, r: Run, id: nat) {
    !r.ok && id >= w0.nextId && id in r.w.db.skills && id !in r.partial.skills
  }

  lemma {:induction false} ContentMissing(f: Faults, w0: World, r: Run, package: nat, a: Asset, backend: Backend)
    requires r.ok && RunShape(w0, r) && forall t :: !f.fails(t)
    requires a.kind == Skill && a.vaultPath.Some? && a.content.None? && backend.skillRepo
    ensures LeftBehind(w0, AssetStep(f, r, package, a, true, backend), r.w.nextId + 1)
  {
    assert forall id | id in r.partial.skills :: id < r.w.nextId;
  }

  lemma {:induction false} StrandedRun(f: Faults, w: World, plan: Plan, confirmed: set<string>, backend: Backend, i: nat)
    returns (id: nat)
    requires IdsFresh(w) && (forall t :: !f.fails(t)) && StrandsSkillAt(Ordered(plan.assets), i, backend)
    ensures LeftBehind(w, WriteAll(f, w, plan, confirmed, true, backend), id)
  {
    var xs := Ordered(plan.assets);
    var start := PackageStep(f, Run(w, NOTHING, NOTHING, [], true), plan);
    PackageStepOk(f, w, plan);
    FineSteps(f, start, w.nextId, xs[..i], backend);
    AssetStepsOk(f, w, start, w.nextId, xs[..i], true, backend);
    var before := AssetSteps(f, start, w.nextId, xs[..i], true, backend);
    id := before.w.nextId + 1;
    ContentMissing(f, w, before, w.nextId, xs[i], backend);
    assert xs[..i + 1][..i] == xs[..i];
    AssetsStopped(f, start, w.nextId, xs, i + 1, true, backend);
    StoppedBindings(f, AssetSteps(f, start, w.nextId, xs, true, backend), plan.bindings, confirmed);
  }

  lemma {:induction false} StrandedEndsBadly(f: Faults, w: World, plan: Plan, confirmed: set<string>, backend: Backend, id: nat)
    requires IdsFresh(w) && w.repair == None && !backend.atomic && (forall t :: !f.fails(t))
    requires LeftBehind(w, WriteAll(f, w, plan, confirmed, true, backend), id)
    ensures DeletesSucceed(f, w, plan, confirmed, backend) && !EndsWell(f, w, plan, confirmed, backend)
  {
    var r := WriteAll(f, w, plan, confirmed, true, backend);
    QuietRollback(f, r.w, r.partial);
    RollbackLaw(f, r.w, r.partial);
    StoppedTouchesNoFile(f, w, plan, confirmed, backend);
    assert id in Rollback(f, r.w, r.partial).w.db.skills;
    assert id !in w.db.skills;
  }

  /**
   * Where asyncTransact only runs its body, a skill install ends well for every pattern of
   * failures in which deletes succeed exactly when no skill is inserted before its content is missed.
   */
  lemma {:induction false} PassthroughEndingsIff(w: World, plan: Plan, confirmed: set<string>, backend: Backend)
    requires IdsFresh(w) && w.repair == None && !backend.atomic
    ensures (forall f | DeletesSucceed(f, w, plan, confirmed, backend) :: EndsWell(f, w, plan, confirmed, backend))
            <==> !StrandsSkill(plan, backend)
  {
    if StrandsSkill(plan, backend) {
      var i :| StrandsSkillAt(Ordered(plan.assets), i, backend);
      var f := FailsAt(None);
      var id := StrandedRun(f, w, plan, confirmed, backend, i);
      StrandedEndsBadly(f, w, plan, confirmed, backend, id);
    } else {
      forall f | DeletesSucceed(f, w, plan, confirmed, backend) ensures EndsWell(f, w, plan, confirmed, backend) {
        UnstrandedEndsWell(f, w, plan, confirmed, backend);
      }
    }
  }

  // ---- When deletes fail as well -------------------------------------------------

  lemma {:induction false} FirstAssetStops(f: Faults, r: Run, package: nat, a: Asset, backend: Backend)
    requires r.ok && f.fails(r.w.tick)
    ensures var t := AssetStep(f, r, package, a, true, backend);
            !t.ok && t.w.db == r.w.db && t.partial == r.partial && t.w.tick >= r.w.tick
  {
  }

  lemma {:induction false} OnlyPackage(f: Faults, w: World, id: nat)
    requires f.fails(w.tick)
    ensures Rollback(f, w, NOTHING.(package := Some(id))).w.db == w.db
  {
  }

  /**
   * If only the first write ever succeeds, the package row stays: no rollback, no repair record.
   * No plan with an asset ends well for every pattern of failures.
   */
  lemma {:induction false} PassthroughNeverSafe(w: World, plan: Plan, confirmed: set<string>, backend: Backend)
    returns (f: Faults)
    requires IdsFresh(w) && w.repair == None && !backend.atomic && plan.assets != []
    ensures var o := AsyncSkillInstall(f, w, plan, confirmed, backend);
            o.made == None && o.w.repair == None && w.nextId in o.w.db.packages && w.nextId !in w.db.packages
    ensures !EndsWell(f, w, plan, confirmed, backend)
  {
    f := Faults((t: nat) => t > w.tick, (t: nat) => None);
    var xs := Ordered(plan.assets);
    var start := PackageStep(f, Run(w, NOTHING, NOTHING, [], true), plan);
    FirstAssetStops(f, start, w.nextId, xs[0], backend);
    assert xs[..1][..0] == [];
    AssetsStopped(f, start, w.nextId, xs, 1, true, backend);
    StoppedBindings(f, AssetSteps(f, start, w.nextId, xs, true, backend), plan.bindings, confirmed);
    var r := WriteAll(f, w, plan, confirmed, true, backend);
    OnlyPackage(f, r.w, w.nextId);
    StoppedTouchesNoFile(f, w, plan, confirmed, backend);
  }
}
