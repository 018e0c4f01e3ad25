// The persisted life of an install transaction: the transition table, the scripts
// importFile, confirmBindings and cancel write, and the service that runs them.
module TransactionTrace {
  import opened Wrappers

  datatype State =
    | Created | ManifestLoaded | IntegrityChecked | CompatibilityChecked | DependencyPlanned
    | AwaitingConfirmation | AwaitingBindings | ReadyToInstall | Materializing
    | Installed | Failed | RolledBack | Cancelled

  const TRANSITIONS: map<State, set<State>> := map[
    Created := {ManifestLoaded, Failed},
    ManifestLoaded := {IntegrityChecked, Failed},
    IntegrityChecked := {CompatibilityChecked, Failed},
    CompatibilityChecked := {DependencyPlanned, Failed},
    DependencyPlanned := {AwaitingConfirmation, AwaitingBindings, ReadyToInstall, Failed},
    AwaitingConfirmation := {AwaitingBindings, ReadyToInstall, Cancelled, Failed},
    AwaitingBindings := {ReadyToInstall, Cancelled, Failed},
    ReadyToInstall := {Materializing, Cancelled, Failed},
    Materializing := {Installed, RolledBack, Failed}]

  predicate Terminal(s: State) { s == Installed || s == Failed || s == RolledBack || s == Cancelled }

  predicate ValidTransition(from: State, to: State) {
    !Terminal(from) && from in TRANSITIONS && to in TRANSITIONS[from]
  }

  function Rank(s: State): nat {
    match s
    case Created => 9
    case ManifestLoaded => 8
    case IntegrityChecked => 7
    case CompatibilityChecked => 6
    case DependencyPlanned => 5
    case AwaitingConfirmation => 4
    case AwaitingBindings => 3
    case ReadyToInstall => 2
    case Materializing => 1
    case _ => 0
  }

  lemma {:induction false} TransitionsDescend(from: State, to: State)
    requires ValidTransition(from, to)
    ensures Rank(to) < Rank(from)
  {
  }

  /** Terminal states are exactly those nothing leaves, and every other state can fail. */
  lemma {:induction false} TerminalMeansNoWayOut(s: State)
    ensures Terminal(s) <==> forall t :: !ValidTransition(s, t)
    ensures !Terminal(s) <==> ValidTransition(s, Failed)
  {
    if !Terminal(s) { assert ValidTransition(s, Failed); }
  }

  ghost predicate IsPath(h: seq<State>) {
    forall i | 0 <= i < |h| - 1 :: ValidTransition(h[i], h[i + 1])
  }

  // ---- What one call writes ---------------------------------------------

  /** One awaited repository write on the transaction row, or a throw. */
  datatype Micro = Write(to: State) | Finish(state: State) | Throw

  /** transition() along a path: a pair the table refuses throws before it writes. */
  function Walk(from: State, path: seq<State>): seq<Micro>
    decreases |path|
  {
    if path == [] then []
    else if !ValidTransition(from, path[0]) then [Throw]
    else [Write(path[0])] + Walk(path[0], path[1..])
  }

  datatype PlanOutcome = PlanFailed(stage: State) | Planned(needsConfirmation: bool, hasBindings: bool)

  /** transitionToFailed */
  function FailFrom(from: State): seq<Micro> {
    if ValidTransition(from, Failed) then [Write(Failed)] else []
  }

  /** tryTransitionAndFail, from the state the row was created in. */
  function PlanFailure(stage: State): seq<Micro> {
    (if ValidTransition(Created, stage) then [Write(stage)] + FailFrom(stage) else FailFrom(Created)) + [Finish(Failed)]
  }

  /** The stages of a good plan, up to what the user must still confirm. */
  function Pipeline(confirm: bool, bindings: bool): seq<State> {
    [ManifestLoaded, IntegrityChecked, CompatibilityChecked, DependencyPlanned,
     if confirm then AwaitingConfirmation else if bindings then AwaitingBindings else ReadyToInstall]
  }

  function ImportScript(o: PlanOutcome): seq<Micro> {
    match o
    case PlanFailed(stage) => PlanFailure(stage)
    case Planned(confirm, bindings) => Walk(Created, Pipeline(confirm, bindings))
  }

  /** What confirmBindings meets: bindings given, package already there, materialize result. */
  datatype Confirmation = Confirmation(bindings: bool, existing: bool, materialized: bool)

  function PathToMaterializing(state: State, bindings: bool): seq<State> {
    match state
    case AwaitingConfirmation =>
      if bindings then [AwaitingBindings, ReadyToInstall, Materializing] else [ReadyToInstall, Materializing]
    case AwaitingBindings => [ReadyToInstall, Materializing]
    case ReadyToInstall => [Materializing]
    case _ => []
  }

  /** The only exception that is swallowed is one thrown while recording a failed materialize. */
  function ConfirmScript(state: State, c: Confirmation): seq<Micro> {
    if c.existing then
      if state == Materializing then Walk(Materializing, [Installed]) + [Finish(Installed)] else [Throw]
    else if state !in {AwaitingConfirmation, AwaitingBindings, ReadyToInstall, Materializing} then [Throw]
    else
      Walk(state, PathToMaterializing(state, c.bindings))
      + if c.materialized then Walk(Materializing, [Installed]) + [Finish(Installed)]
        else FailFrom(Materializing) + [Throw]
  }

  function CancelScript(state: State): seq<Micro> {
    if Terminal(state) then [Throw]
    else if ValidTransition(state, Cancelled) then [Write(Cancelled), Finish(Cancelled)]
    else if ValidTransition(state, Failed) then [Write(Failed), Finish(Failed)]
    else [Throw]
  }

  /** A script never leaves the table and finishes only where it has already arrived. */
  predicate ScriptOk(from: State, script: seq<Micro>)
    decreases |script|
  {
    script == [] ||
    match script[0]
    case Throw => true
    case Write(to) => ValidTransition(from, to) && ScriptOk(to, script[1..])
    case Finish(s) => s == from && Terminal(from) && ScriptOk(from, script[1..])
  }

  function EndOf(from: State, script: seq<Micro>): State
    decreases |script|
  {
    if script == [] then from
    else match script[0]
      case Throw => from
      case Write(to) => EndOf(to, script[1..])
      case Finish(s) => EndOf(s, script[1..])
  }

  lemma {:induction false} ScriptAppend(from: State, a: seq<Micro>, b: seq<Micro>)
    requires ScriptOk(from, a) && ScriptOk(EndOf(from, a), b)
    ensures ScriptOk(from, a + b)
    decreases |a|
  {
    if a == [] {
      assert a + b == b;
    } else {
      assert (a + b)[1..] == a[1..] + b;
      match a[0]
      case Throw =>
      case Write(to) => ScriptAppend(to, a[1..], b);
      case Finish(s) => ScriptAppend(s, a[1..], b);
    }
  }

  lemma {:induction false} EndCons(from: State, m: Micro, rest: seq<Micro>)
    ensures EndOf(from, [m] + rest) == match m case Throw => from case Write(to) => EndOf(to, rest) case Finish(s) => EndOf(s, rest)
  {
    assert ([m] + rest)[1..] == rest;
  }

  lemma {:induction false} ScriptCons(from: State, m: Micro, rest: seq<Micro>)
    ensures m.Write? && ValidTransition(from, m.to) && ScriptOk(m.to, rest) ==> ScriptOk(from, [m] + rest)
    ensures m.Finish? && m.state == from && Terminal(from) && ScriptOk(from, rest) ==> ScriptOk(from, [m] + rest)
  {
    assert ([m] + rest)[1..] == rest;
  }

  lemma {:induction false} WalkOk(from: State, path: seq<State>)
    ensures ScriptOk(from, Walk(from, path))
    decreases |path|
  {
    if path != [] && ValidTransition(from, path[0]) {
      WalkOk(path[0], path[1..]);
      assert Walk(from, path)[1..] == Walk(path[0], path[1..]);
    }
  }

  lemma {:induction false} FailedEnding(from: State)
    requires ValidTransition(from, Failed)
    ensures ScriptOk(from, [Write(Failed)] + [Finish(Failed)]) && EndOf(from, [Write(Failed)] + [Finish(Failed)]) == Failed
  {
    assert [Finish(Failed)] + [] == [Finish(Failed)];
    EndCons(Failed, Finish(Failed), []);
    EndCons(from, Write(Failed), [Finish(Failed)]);
    ScriptCons(Failed, Finish(Failed), []);
    ScriptCons(from, Write(Failed), [Finish(Failed)]);
  }

  lemma {:induction false} PlanFailureOk(stage: State)
    ensures ScriptOk(Created, PlanFailure(stage)) && EndOf(Created, PlanFailure(stage)) == Failed
  {
    var ending := [Write(Failed)] + [Finish(Failed)];
    FailedEnding(Created);
    if stage == ManifestLoaded {
      FailedEnding(ManifestLoaded);
      EndCons(Created, Write(ManifestLoaded), ending);
      ScriptCons(Created, Write(ManifestLoaded), ending);
      assert PlanFailure(stage) == [Write(ManifestLoaded)] + ending;
    } else {
      assert PlanFailure(stage) == ending;
    }
  }

  lemma {:induction false} PipelineIsAllowed(confirm: bool, bindings: bool)
    ensures IsPath([Created] + Pipeline(confirm, bindings))
  {
  }

  lemma {:induction false} PipelineScriptOk(confirm: bool, bindings: bool)
    ensures var script := Walk(Created, Pipeline(confirm, bindings));
            ScriptOk(Created, script) && Rank(EndOf(Created, script)) in {2, 3, 4}
  {
    PipelineIsAllowed(confirm, bindings);
    WalkOk(Created, Pipeline(confirm, bindings));
    WalkAlongPath(Created, Pipeline(confirm, bindings));
    assert ([Created] + Pipeline(confirm, bindings))[5] == Pipeline(confirm, bindings)[4];
  }

  lemma {:induction false} ImportScriptOk(o: PlanOutcome)
    ensures ScriptOk(Created, ImportScript(o))
    ensures o.PlanFailed? ==> EndOf(Created, ImportScript(o)) == Failed
    ensures o.Planned? ==> Rank(EndOf(Created, ImportScript(o))) in {2, 3, 4}
  {
    match o
    case PlanFailed(stage) => PlanFailureOk(stage);
    case Planned(confirm, bindings) => PipelineScriptOk(confirm, bindings);
  }

  function Moves(path: seq<State>): seq<Micro> {
    if path == [] then [] else [Write(path[0])] + Moves(path[1..])
  }

  lemma {:induction false} WalkAlongPath(from: State, path: seq<State>)
    requires IsPath([from] + path)
    ensures Walk(from, path) == Moves(path)
    ensures EndOf(from, Moves(path)) == ([from] + path)[|path|]
    decreases |path|
  {
    if path == [] {
    } else {
      assert ValidTransition(([from] + path)[0], ([from] + path)[0 + 1]);
      assert [path[0]] + path[1..] == path;
      assert forall i | 0 <= i < |path| :: path[i] == ([from] + path)[i + 1];
      assert IsPath(path) by {
        forall i | 0 <= i < |path| - 1 ensures ValidTransition(path[i], path[i + 1]) {
          assert ValidTransition(([from] + path)[i + 1], ([from] + path)[i + 1 + 1]);
        }
      }
      WalkAlongPath(path[0], path[1..]);
      EndCons(from, Write(path[0]), Moves(path[1..]));
    }
  }

  predicate Confirmable(state: State) { state in {AwaitingConfirmation, AwaitingBindings, ReadyToInstall, Materializing} }

  function ConfirmEnding(materialized: bool): seq<Micro> {
    if materialized then [Write(Installed), Finish(Installed)] else [Write(Failed), Throw]
  }

  lemma {:induction false} PathIsAllowed(state: State, bindings: bool)
    requires Confirmable(state)
    ensures var path := PathToMaterializing(state, bindings);
            IsPath([state] + path) && ([state] + path)[|path|] == Materializing
  {
  }

  /** The confirm script in full: the table allows every step, so nothing is cut short. */
  lemma {:induction false} ConfirmScriptShape(state: State, c: Confirmation)
    ensures ConfirmScript(state, c)
            == if c.existing then (if state == Materializing then [Write(Installed), Finish(Installed)] else [Throw])
               else if !Confirmable(state) then [Throw]
               else Moves(PathToMaterializing(state, c.bindings)) + ConfirmEnding(c.materialized)
  {
    assert Walk(Materializing, [Installed]) == [Write(Installed)];
    if Confirmable(state) {
      PathIsAllowed(state, c.bindings);
      WalkAlongPath(state, PathToMaterializing(state, c.bindings));
    }
  }

  lemma {:induction false} ConfirmScriptOk(state: State, c: Confirmation)
    ensures ScriptOk(state, ConfirmScript(state, c))
  {
    ConfirmScriptShape(state, c);
    if !c.existing && Confirmable(state) {
      var path := PathToMaterializing(state, c.bindings);
      PathIsAllowed(state, c.bindings);
      WalkAlongPath(state, path);
      WalkOk(state, path);
      assert ScriptOk(Materializing, ConfirmEnding(c.materialized));
      ScriptAppend(state, Moves(path), ConfirmEnding(c.materialized));
    }
  }

  /** Cancelling succeeds from every state that is not terminal: cannot_cancel is never thrown. */
  lemma {:induction false} CancelScriptOk(state: State)
    ensures ScriptOk(state, CancelScript(state))
    ensures !Terminal(state) ==> Terminal(EndOf(state, CancelScript(state)))
    ensures CancelScript(state) == [Throw] <==> Terminal(state)
  {
    TerminalMeansNoWayOut(state);
    if !Terminal(state) {
      var end := if ValidTransition(state, Cancelled) then Cancelled else Failed;
      assert CancelScript(state) == [Write(end), Finish(end)];
      EndCons(state, Write(end), [Finish(end)]);
    }
  }

  // ---- Running a script against a repository whose writes may throw ------

  datatype Txn = Txn(key: Option<string>, state: State, history: seq<State>, finishes: seq<(State, State)>)

  function Written(t: Txn, s: State): Txn { t.(state := s, history := t.history + [s]) }

  /** finish() writes the state again, next to the time. */
  function Finished(t: Txn, s: State): Txn {
    t.(state := s, history := if s == t.state then t.history else t.history + [s], finishes := t.finishes + [(t.state, s)])
  }

  datatype Result = Result(txn: Txn, tick: nat, ok: bool)

  /** down(n): the n-th write of this service throws, and the call ends there. */
  function Perform(t: Txn, script: seq<Micro>, tick: nat, down: nat -> bool): Result
    decreases |script|
  {
    if script == [] then Result(t, tick, true)
    else match script[0]
      case Throw => Result(t, tick, false)
      case Write(s) =>
        if down(tick) then Result(t, tick + 1, false) else Perform(Written(t, s), script[1..], tick + 1, down)
      case Finish(s) =>
        if down(tick) then Result(t, tick + 1, false) else Perform(Finished(t, s), script[1..], tick + 1, down)
  }

  ghost predicate TxnOk(t: Txn) {
    && t.history != [] && t.history[0] == Created && t.history[|t.history| - 1] == t.state
    && IsPath(t.history)
    && forall f | f in t.finishes :: f.0 == f.1 && Terminal(f.0)
  }

  lemma {:induction false} PathSnoc(h: seq<State>, s: State)
    requires h != [] && IsPath(h) && ValidTransition(h[|h| - 1], s)
    ensures IsPath(h + [s])
  {
    forall i | 0 <= i < |h + [s]| - 1 ensures ValidTransition((h + [s])[i], (h + [s])[i + 1]) {
      if i < |h| - 1 { assert (h + [s])[i] == h[i] && (h + [s])[i + 1] == h[i + 1]; }
    }
  }

  /** Wherever a good script is cut by a failing write, the row stays on the table. */
  lemma {:induction false} PerformOk(t: Txn, script: seq<Micro>, tick: nat, down: nat -> bool)
    requires TxnOk(t) && ScriptOk(t.state, script)
    ensures var r := Perform(t, script, tick, down);
            && TxnOk(r.txn) && r.txn.key == t.key && t.history <= r.txn.history
            && (r.ok ==> r.txn.state == EndOf(t.state, script))
            && (Terminal(t.state) ==> r.txn.state == t.state && r.txn.history == t.history)
            && Rank(r.txn.state) <= Rank(t.state)
    decreases |script|
  {
    if script != [] && !script[0].Throw? && !down(tick) {
      match script[0]
      case Write(s) =>
        PathSnoc(t.history, s);
        TransitionsDescend(t.state, s);
        PerformOk(Written(t, s), script[1..], tick + 1, down);
      case Finish(s) =>
        PerformOk(Finished(t, s), script[1..], tick + 1, down);
    }
  }

  lemma {:induction false} PerformAppend(t: Txn, a: seq<Micro>, b: seq<Micro>, tick: nat, down: nat -> bool)
    ensures var r := Perform(t, a, tick, down);
            Perform(t, a + b, tick, down) == if r.ok then Perform(r.txn, b, r.tick, down) else r
    decreases |a|
  {
    if a == [] {
      assert a + b == b;
    } else {
      assert (a + b)[1..] == a[1..] + b;
      match a[0]
      case Throw =>
      case Write(s) => PerformAppend(Written(t, s), a[1..], b, tick + 1, down);
      case Finish(s) => PerformAppend(Finished(t, s), a[1..], b, tick + 1, down);
    }
  }

  // ---- The service ---------------------------------------------------------

  /** Rows in order of started_at; planCache holds the ids with a plan in memory. */
  datatype Service = Service(rows: seq<Txn>, planCache: set<nat>, tick: nat)

  datatype Op =
    | Import(key: Option<string>, outcome: PlanOutcome)
    | Confirm(id: nat, given: Confirmation)
    | Cancel(id: nat)
    | Dispose

  datatype Reply = Accepted(id: nat) | Rejected(id: nat) | Done | Threw

  predicate Active(t: Txn) { t.state != Failed && t.state != RolledBack && t.state != Cancelled }

  /** findByIdempotencyKey: the newest row of the key that is still active. */
  function FindActive(rows: seq<Txn>, key: string): (r: Option<nat>)
    ensures r.Some? ==> r.value < |rows| && Active(rows[r.value]) && rows[r.value].key == Some(key)
    ensures r.None? ==> forall i | 0 <= i < |rows| && rows[i].key == Some(key) :: !Active(rows[i])
  {
    if rows == [] then None
    else
      var last := |rows| - 1;
      if rows[last].key == Some(key) && Active(rows[last]) then Some(last) else FindActive(rows[..last], key)
  }

  function Lookup(rows: seq<Txn>, key: Option<string>): (r: Option<nat>)
    ensures r.Some? ==> r.value < |rows| && rows[r.value].key == key && key.Some?
  {
    if key.Some? then FindActive(rows, key.value) else None
  }

  function OnRow(s: Service, id: nat, script: seq<Micro>, down: nat -> bool): (Service, bool)
    requires id < |s.rows|
  {
    var r := Perform(s.rows[id], script, s.tick, down);
    (s.(rows := s.rows[id := r.txn], tick := r.tick), r.ok)
  }

  /** The reply once the pipeline of row `id` is through; a good plan is cached. */
  function AfterPlan(u: Service, ok: bool, id: nat, o: PlanOutcome): (Service, Reply) {
    if !ok then (u, Threw)
    else if o.Planned? then (u.(planCache := u.planCache + {id}), Accepted(id))
    else (u, Rejected(id))
  }

  function WithRow(s: Service, key: Option<string>): Service {
    Service(s.rows + [Txn(key, Created, [Created], [])], s.planCache, s.tick + 1)
  }

  /** Creates the row, which a unique index on active keys may refuse, then runs the pipeline. */
  function CreateAndPlan(s: Service, key: Option<string>, o: PlanOutcome, down: nat -> bool): (Service, Reply) {
    if Lookup(s.rows, key).Some? then (s, Threw)
    else if down(s.tick) then (s.(tick := s.tick + 1), Threw)
    else
      var r := OnRow(WithRow(s, key), |s.rows|, ImportScript(o), down);
      AfterPlan(r.0, r.1, |s.rows|, o)
  }

  function StepImport(s: Service, key: Option<string>, o: PlanOutcome, down: nat -> bool): (Service, Reply) {
    match Lookup(s.rows, key)
    case None => CreateAndPlan(s, key, o, down)
    case Some(e) =>
      if e in s.planCache && !Terminal(s.rows[e].state) then (s, Accepted(e))
      else if s.rows[e].state == Materializing then
        var (u, ok) := OnRow(s, e, FailFrom(Materializing), down);
        if ok then CreateAndPlan(u, key, o, down) else (u, Threw)
      else (s, Rejected(e))
  }

  function StepConfirm(s: Service, id: nat, c: Confirmation, down: nat -> bool): (Service, Reply) {
    if id >= |s.rows| then (s, Threw)
    else if id !in s.planCache then (s, if s.rows[id].state == Installed && c.existing then Done else Threw)
    else
      var (u, ok) := OnRow(s, id, ConfirmScript(s.rows[id].state, c), down);
      if ok then (u.(planCache := u.planCache - {id}), Done) else (u, Threw)
  }

  function StepCancel(s: Service, id: nat, down: nat -> bool): (Service, Reply) {
    if id >= |s.rows| then (s, Threw)
    else
      var (u, ok) := OnRow(s, id, CancelScript(s.rows[id].state), down);
      if ok then (u.(planCache := u.planCache - {id}), Done) else (u, Threw)
  }

  function Step(s: Service, op: Op, down: nat -> bool): (Service, Reply) {
    match op
    case Import(key, o) => StepImport(s, key, o, down)
    case Confirm(id, c) => StepConfirm(s, id, c, down)
    case Cancel(id) => StepCancel(s, id, down)
    case Dispose => (s.(planCache := {}), Done)
  }

  function Run(ops: seq<Op>, down: nat -> bool): Service {
    if ops == [] then Service([], {}, 0) else Step(Run(ops[..|ops| - 1], down), ops[|ops| - 1], down).0
  }

  // ---- Every run -------------------------------------------------------------

  ghost predicate OneActivePerKey(rows: seq<Txn>) {
    forall i, j | 0 <= i < j < |rows| && rows[i].key.Some? && rows[i].key == rows[j].key :: !Active(rows[i]) || !Active(rows[j])
  }

  ghost predicate ServiceOk(s: Service) {
    && (forall i | 0 <= i < |s.rows| :: TxnOk(s.rows[i]))
    && (forall i | i in s.planCache :: i < |s.rows| && Rank(s.rows[i].state) <= 4)
    && OneActivePerKey(s.rows)
  }

  /** What one call does to the rows that were there: only appends, and nothing after the end. */
  ghost predicate Grew(a: Service, b: Service) {
    && |a.rows| <= |b.rows|
    && forall i | 0 <= i < |a.rows| ::
         && a.rows[i].history <= b.rows[i].history
         && (Terminal(a.rows[i].state) ==> b.rows[i].state == a.rows[i].state && b.rows[i].history == a.rows[i].history)
  }

  lemma {:induction false} OnRowOk(s: Service, id: nat, script: seq<Micro>, down: nat -> bool)
    requires ServiceOk(s) && id < |s.rows| && ScriptOk(s.rows[id].state, script)
    ensures var u := OnRow(s, id, script, down).0;
            && ServiceOk(u) && Grew(s, u)
            && (OnRow(s, id, script, down).1 ==> u.rows[id].state == EndOf(s.rows[id].state, script))
  {
    PerformOk(s.rows[id], script, s.tick, down);
    var u := OnRow(s, id, script, down).0;
    assert forall i | 0 <= i < |u.rows| :: Active(u.rows[i]) ==> Active(s.rows[i]);
  }

  lemma {:induction false} NewRowOk(s: Service, key: Option<string>)
    requires ServiceOk(s) && Lookup(s.rows, key).None?
    ensures ServiceOk(WithRow(s, key))
  {
    var rows := s.rows + [Txn(key, Created, [Created], [])];
    forall i, j | 0 <= i < j < |rows| && rows[i].key.Some? && rows[i].key == rows[j].key
      ensures !Active(rows[i]) || !Active(rows[j])
    {
      if j == |s.rows| { assert s.rows[i].key == key; }
    }
  }

  lemma {:induction false} GrewTrans(a: Service, b: Service, c: Service)
    requires Grew(a, b) && Grew(b, c)
    ensures Grew(a, c)
  {
    forall i | 0 <= i < |a.rows|
      ensures a.rows[i].history <= c.rows[i].history
      ensures Terminal(a.rows[i].state) ==> c.rows[i].state == a.rows[i].state && c.rows[i].history == a.rows[i].history
    {
      GrewAt(a, b, i);
      GrewAt(b, c, i);
    }
  }

  lemma {:induction false} GrewAt(a: Service, b: Service, id: nat)
    requires Grew(a, b) && id < |a.rows|
    ensures id < |b.rows| && a.rows[id].history <= b.rows[id].history
    ensures Terminal(a.rows[id].state) ==> b.rows[id].state == a.rows[id].state && b.rows[id].history == a.rows[id].history
  {
  }

  lemma {:induction false} CacheOk(s: Service, id: nat)
    requires ServiceOk(s) && id < |s.rows|
    ensures ServiceOk(s.(planCache := s.planCache - {id})) && Grew(s, s.(planCache := s.planCache - {id}))
    ensures Rank(s.rows[id].state) <= 4 ==>
              ServiceOk(s.(planCache := s.planCache + {id})) && Grew(s, s.(planCache := s.planCache + {id}))
  {
  }

  lemma {:induction false} TickOk(s: Service, key: Option<string>)
    requires ServiceOk(s)
    ensures ServiceOk(s.(tick := s.tick + 1)) && Grew(s, s.(tick := s.tick + 1)) && Grew(s, s)
    ensures Grew(s, WithRow(s, key))
  {
  }

  lemma {:induction false} CreateOk(s: Service, key: Option<string>, o: PlanOutcome, down: nat -> bool)
    requires ServiceOk(s)
    ensures ServiceOk(CreateAndPlan(s, key, o, down).0) && Grew(s, CreateAndPlan(s, key, o, down).0)
  {
    TickOk(s, key);
    if Lookup(s.rows, key).None? && !down(s.tick) {
      PlanNewRowOk(s, key, o, down);
    }
  }

  lemma {:induction false} PipelineOk(s: Service, v: Service, id: nat, o: PlanOutcome, down: nat -> bool)
    requires ServiceOk(v) && Grew(s, v) && id < |v.rows| && v.rows[id].state == Created
    ensures var r := OnRow(v, id, ImportScript(o), down);
            ServiceOk(AfterPlan(r.0, r.1, id, o).0) && Grew(s, AfterPlan(r.0, r.1, id, o).0)
  {
    ImportScriptOk(o);
    OnRowOk(v, id, ImportScript(o), down);
    var u := OnRow(v, id, ImportScript(o), down).0;
    GrewTrans(s, v, u);
    CacheOk(u, id);
    if Rank(u.rows[id].state) <= 4 {
      GrewTrans(s, u, u.(planCache := u.planCache + {id}));
    }
  }

  lemma {:induction false} PlanNewRowOk(s: Service, key: Option<string>, o: PlanOutcome, down: nat -> bool)
    requires ServiceOk(s) && Lookup(s.rows, key).None? && !down(s.tick)
    ensures ServiceOk(CreateAndPlan(s, key, o, down).0) && Grew(s, CreateAndPlan(s, key, o, down).0)
  {
    NewRowOk(s, key);
    TickOk(s, key);
    PipelineOk(s, WithRow(s, key), |s.rows|, o, down);
  }

  lemma {:induction false} ImportOk(s: Service, key: Option<string>, o: PlanOutcome, down: nat -> bool)
    requires ServiceOk(s)
    ensures ServiceOk(StepImport(s, key, o, down).0) && Grew(s, StepImport(s, key, o, down).0)
  {
    CreateOk(s, key, o, down);
    TickOk(s, key);
    if Lookup(s.rows, key).Some? {
      var e := Lookup(s.rows, key).value;
      if s.rows[e].state == Materializing {
        OnRowOk(s, e, FailFrom(Materializing), down);
        var u := OnRow(s, e, FailFrom(Materializing), down).0;
        CreateOk(u, key, o, down);
        GrewTrans(s, u, CreateAndPlan(u, key, o, down).0);
      }
    }
  }

  /** A script of one call on one row, and the plan dropped when it ran to its end. */
  lemma {:induction false} CallOk(s: Service, id: nat, script: seq<Micro>, down: nat -> bool)
    requires ServiceOk(s) && id < |s.rows| && ScriptOk(s.rows[id].state, script)
    ensures var (u, ok) := OnRow(s, id, script, down);
            var v := if ok then u.(planCache := u.planCache - {id}) else u;
            ServiceOk(v) && Grew(s, v)
  {
    OnRowOk(s, id, script, down);
    var u := OnRow(s, id, script, down).0;
    CacheOk(u, id);
    GrewTrans(s, u, u.(planCache := u.planCache - {id}));
  }

  lemma {:induction false} StepKeeps(s: Service, op: Op, down: nat -> bool)
    requires ServiceOk(s)
    ensures ServiceOk(Step(s, op, down).0) && Grew(s, Step(s, op, down).0)
  {
    match op
    case Import(key, o) => ImportOk(s, key, o, down);
    case Confirm(id, c) =>
      TickOk(s, None);
      if id < |s.rows| {
        ConfirmScriptOk(s.rows[id].state, c);
        CallOk(s, id, ConfirmScript(s.rows[id].state, c), down);
      }
    case Cancel(id) =>
      TickOk(s, None);
      if id < |s.rows| {
        CancelScriptOk(s.rows[id].state);
        CallOk(s, id, CancelScript(s.rows[id].state), down);
      }
    case Dispose => TickOk(s, None);
  }

  lemma {:induction false} EveryRunOk(ops: seq<Op>, down: nat -> bool)
    ensures ServiceOk(Run(ops, down))
  {
    if ops == [] {
    } else {
      EveryRunOk(ops[..|ops| - 1], down);
      StepKeeps(Run(ops[..|ops| - 1], down), ops[|ops| - 1], down);
    }
  }

  lemma {:induction false} PathIsShort(h: seq<State>)
    requires h != [] && IsPath(h)
    ensures |h| + Rank(h[|h| - 1]) <= 1 + Rank(h[0])
    ensures Rank(h[0]) <= 9
  {
    if |h| > 1 {
      var front := h[..|h| - 1];
      assert forall i | 0 <= i < |front| :: front[i] == h[i];
      PathIsShort(front);
      assert ValidTransition(h[|h| - 2], h[|h| - 2 + 1]);
      TransitionsDescend(h[|h| - 2], h[|h| - 1]);
    }
  }

  // ---- cancel takes no lock ------------------------------------------------

  function Writes(script: seq<Micro>): seq<State> {
    if script == [] then []
    else (if script[0].Write? then [script[0].to] else []) + Writes(script[1..])
  }

  lemma {:induction false} WritesCons(m: Micro, rest: seq<Micro>)
    ensures Writes([m] + rest) == (if m.Write? then [m.to] else []) + Writes(rest)
  {
    assert ([m] + rest)[1..] == rest;
  }

  lemma {:induction false} Regroup<T>(a: seq<T>, b: seq<T>, c: seq<T>)
    ensures a + (b + c) == (a + b) + c
  {
  }

  lemma {:induction false} WritesOfMoves(path: seq<State>, rest: seq<Micro>)
    ensures Writes(Moves(path) + rest) == path + Writes(rest)
  {
    if path == [] {
      assert Moves(path) + rest == rest;
    } else {
      WritesOfMoves(path[1..], rest);
      WritesCons(Write(path[0]), Moves(path[1..]) + rest);
      Regroup([Write(path[0])], Moves(path[1..]), rest);
      Regroup([path[0]], path[1..], Writes(rest));
      assert [path[0]] + path[1..] == path;
    }
  }

  lemma {:induction false} WritesOfTail(end: State, last: Micro)
    requires !last.Write?
    ensures Writes([Write(end), last]) == [end]
    ensures Writes([last]) == []
  {
    assert [last][1..] == [];
    assert Writes([last]) == [];
    assert [Write(end), last][1..] == [last];
    assert Writes([Write(end), last]) == [end] + Writes([last]);
  }

  lemma {:induction false} WritesOfConfirm(state: State, c: Confirmation)
    ensures Writes(ConfirmScript(state, c))
            == if c.existing then (if state == Materializing then [Installed] else [])
               else if !Confirmable(state) then []
               else PathToMaterializing(state, c.bindings) + [if c.materialized then Installed else Failed]
  {
    ConfirmScriptShape(state, c);
    WritesOfTail(Installed, Finish(Installed));
    WritesOfTail(Failed, Throw);
    WritesOfMoves(PathToMaterializing(state, c.bindings), ConfirmEnding(c.materialized));
  }

  /** A run of writes that ends in a terminal state and passes through none. */
  ghost predicate Complete(state: State, w: seq<State>) {
    && IsPath([state] + w)
    && (w != [] ==> !Terminal(state) && Terminal(w[|w| - 1]))
    && forall i | 0 <= i < |w| - 1 :: !Terminal(w[i])
  }

  lemma {:induction false} EndsAfterMaterializing(state: State, bindings: bool, end: State)
    requires Confirmable(state) && (end == Installed || end == Failed)
    ensures Complete(state, PathToMaterializing(state, bindings) + [end])
  {
    var path := PathToMaterializing(state, bindings);
    PathIsAllowed(state, bindings);
    PathSnoc([state] + path, end);
    assert [state] + path + [end] == [state] + (path + [end]);
  }

  lemma {:induction false} ConfirmRunsToTheEnd(state: State, c: Confirmation)
    ensures Complete(state, Writes(ConfirmScript(state, c)))
  {
    WritesOfConfirm(state, c);
    if !c.existing && Confirmable(state) {
      EndsAfterMaterializing(state, c.bindings, if c.materialized then Installed else Failed);
    }
  }

  lemma {:induction false} CancelEndsIn(state: State)
    ensures !Terminal(state) ==> EndOf(state, CancelScript(state)) == if ValidTransition(state, Cancelled) then Cancelled else Failed
  {
    TerminalMeansNoWayOut(state);
    if !Terminal(state) {
      var end := if ValidTransition(state, Cancelled) then Cancelled else Failed;
      assert CancelScript(state) == [Write(end), Finish(end)];
      EndCons(state, Write(end), [Finish(end)]);
      EndCons(end, Finish(end), []);
      assert [Finish(end)] + [] == [Finish(end)];
    }
  }

  lemma {:induction false} WritesOfCancel(state: State)
    ensures Writes(CancelScript(state)) == if Terminal(state) then [] else [EndOf(state, CancelScript(state))]
    ensures !Terminal(state) ==> Terminal(EndOf(state, CancelScript(state))) && ValidTransition(state, EndOf(state, CancelScript(state)))
  {
    TerminalMeansNoWayOut(state);
    CancelEndsIn(state);
    WritesOfTail(Failed, Throw);
    if !Terminal(state) {
      var end := if ValidTransition(state, Cancelled) then Cancelled else Failed;
      assert CancelScript(state) == [Write(end), Finish(end)];
      WritesOfTail(end, Finish(end));
    }
  }

  /** The row's history when a cancel reads it after `seen` of the writes `w` of another call and writes after `at` of them. */
  function Interleaved(state: State, w: seq<State>, seen: nat, at: nat): seq<State>
    requires seen <= at <= |w|
  {
    [state] + w[..at] + Writes(CancelScript(([state] + w)[seen])) + w[at..]
  }

  lemma {:induction false} EndsOnlyAtTheEnd(h: seq<State>, i: nat)
    requires IsPath(h) && i < |h| && Terminal(h[i])
    ensures i == |h| - 1
  {
    assert i < |h| - 1 ==> ValidTransition(h[i], h[i + 1]);
  }

  lemma {:induction false} WriteInTheMiddleBreaks(state: State, w: seq<State>, x: State, at: nat)
    requires at < |w| && Terminal(x)
    ensures !IsPath([state] + w[..at] + [x] + w[at..])
  {
    var h := [state] + w[..at] + [x] + w[at..];
    assert h[at + 1] == x;
    assert !ValidTransition(h[at + 1], h[at + 1 + 1]);
  }

  lemma {:induction false} WriteAtTheEnd(state: State, w: seq<State>, x: State)
    requires IsPath([state] + w)
    ensures IsPath([state] + w[..|w|] + [x] + w[|w|..]) <==> ValidTransition(([state] + w)[|w|], x)
  {
    var h := [state] + w;
    assert [state] + w[..|w|] + [x] + w[|w|..] == h + [x];
    if ValidTransition(h[|w|], x) {
      PathSnoc(h, x);
    } else {
      assert (h + [x])[|w|] == h[|w|] && (h + [x])[|w| + 1] == x;
    }
  }

  /**
   * A cancel among the writes of any call, run through or cut short: the history stays on the
   * table exactly when the cancel writes last and the row may still go where the cancel sends it.
   */
  lemma {:induction false} CancelAmongWrites(state: State, w: seq<State>, seen: nat, at: nat)
    requires IsPath([state] + w) && seen <= at <= |w|
    ensures var met, last := ([state] + w)[seen], ([state] + w)[|w|];
            IsPath(Interleaved(state, w, seen, at))
            <==> at == |w| && (Terminal(met) || ValidTransition(last, EndOf(met, CancelScript(met))))
  {
    var h, met := [state] + w, ([state] + w)[seen];
    WritesOfCancel(met);
    if Terminal(met) {
      EndsOnlyAtTheEnd(h, seen);
      assert Interleaved(state, w, seen, at) == h;
    } else {
      var x := EndOf(met, CancelScript(met));
      if at < |w| { WriteInTheMiddleBreaks(state, w, x, at); } else { WriteAtTheEnd(state, w, x); }
    }
  }

  /**
   * A cancel that reads the row while a confirm of the same transaction is running leaves a
   * terminal state, always; one that reads after the confirm's last write never does.
   */
  lemma {:induction false} CancelMustNotOverlapConfirm(state: State, c: Confirmation, seen: nat, at: nat)
    requires seen <= at <= |Writes(ConfirmScript(state, c))|
    ensures var w := Writes(ConfirmScript(state, c));
            IsPath(Interleaved(state, w, seen, at)) <==> seen == |w|
  {
    ConfirmRunsToTheEnd(state, c);
    CancelAmongComplete(state, Writes(ConfirmScript(state, c)), seen, at);
  }

  lemma {:induction false} CancelAmongComplete(state: State, w: seq<State>, seen: nat, at: nat)
    requires Complete(state, w) && seen <= at <= |w|
    ensures IsPath(Interleaved(state, w, seen, at)) <==> seen == |w|
  {
    var h, met := [state] + w, ([state] + w)[seen];
    CancelAmongWrites(state, w, seen, at);
    WritesOfCancel(met);
    if seen < |w| {
      assert Terminal(h[|w|]);
      if Terminal(met) { EndsOnlyAtTheEnd(h, seen); }
    }
  }

  lemma {:induction false} WritesOfImport(o: PlanOutcome)
    ensures var w := Writes(ImportScript(o));
            match o
            case Planned(confirm, bindings) => w == Pipeline(confirm, bindings)
            case PlanFailed(stage) => w == (if stage == ManifestLoaded then [ManifestLoaded, Failed] else [Failed])
  {
    match o
    case Planned(confirm, bindings) =>
      var path := Pipeline(confirm, bindings);
      PipelineIsAllowed(confirm, bindings);
      WalkAlongPath(Created, path);
      WritesOfMoves(path, []);
      assert Moves(path) + [] == Moves(path);
    case PlanFailed(stage) =>
      WritesOfTail(Failed, Finish(Failed));
      WritesCons(Write(ManifestLoaded), [Write(Failed), Finish(Failed)]);
      assert PlanFailure(stage) == (if stage == ManifestLoaded then [Write(ManifestLoaded)] else []) + [Write(Failed), Finish(Failed)];
      assert [] + [Write(Failed), Finish(Failed)] == [Write(Failed), Finish(Failed)];
  }

  /** Wherever a pipeline is met, its last state still allows what the cancel does. */
  lemma {:induction false} PipelineEndsCancellable(confirm: bool, bindings: bool, seen: nat)
    requires seen <= |Pipeline(confirm, bindings)|
    ensures var h := [Created] + Pipeline(confirm, bindings);
            && !Terminal(h[seen]) && !Terminal(h[|h| - 1])
            && ValidTransition(h[|h| - 1], EndOf(h[seen], CancelScript(h[seen])))
  {
    var h := [Created] + Pipeline(confirm, bindings);
    PipelineIsAllowed(confirm, bindings);
    CancelEndsIn(h[seen]);
    if Terminal(h[seen]) { EndsOnlyAtTheEnd(h, seen); }
  }

  /**
   * A cancel of a row whose import is still running: with a good plan it must write after the
   * import's last write, with a failed plan it must read after it.
   */
  lemma {:induction false} CancelMustNotOverlapImport(o: PlanOutcome, seen: nat, at: nat)
    requires seen <= at <= |Writes(ImportScript(o))|
    ensures var w := Writes(ImportScript(o));
            IsPath(Interleaved(Created, w, seen, at)) <==> if o.Planned? then at == |w| else seen == |w|
  {
    WritesOfImport(o);
    match o
    case Planned(confirm, bindings) =>
      PipelineIsAllowed(confirm, bindings);
      PipelineEndsCancellable(confirm, bindings, seen);
      CancelAmongWrites(Created, Pipeline(confirm, bindings), seen, at);
    case PlanFailed(stage) =>
      CancelAmongComplete(Created, Writes(ImportScript(o)), seen, at);
  }

  /**
   * A same-key import that read the row as materializing while a confirm is writing it, and holds
   * no plan, fails it: the history stays on the table exactly when the confirm wrote nothing after that read.
   */
  lemma {:induction false} RetryMustNotOverlapConfirm(state: State, w: seq<State>, seen: nat, at: nat)
    requires IsPath([state] + w) && seen <= at <= |w| && ([state] + w)[seen] == Materializing
    ensures IsPath([state] + w[..at] + [Failed] + w[at..]) <==> seen == |w|
  {
    var h := [state] + w;
    if at < |w| {
      WriteInTheMiddleBreaks(state, w, Failed, at);
    } else {
      WriteAtTheEnd(state, w, Failed);
      if seen < |w| {
        assert ValidTransition(h[seen], h[seen + 1]);
        EndsOnlyAtTheEnd(h, seen + 1);
      }
    }
  }

  // ---- The service object --------------------------------------------------

  lemma {:induction false} OneMicro(s: Service, id: nat, m: Micro, down: nat -> bool)
    requires id < |s.rows| && !m.Throw?
    ensures OnRow(s, id, [m], down)
            == if down(s.tick) then (s.(tick := s.tick + 1), false)
               else (s.(rows := s.rows[id := if m.Write? then Written(s.rows[id], m.to) else Finished(s.rows[id], m.state)],
                        tick := s.tick + 1), true)
  {
    assert s.rows[id := s.rows[id]] == s.rows;
    var t := s.rows[id];
    if !down(s.tick) {
      assert [m][1..] == [];
      var u := if m.Write? then Written(t, m.to) else Finished(t, m.state);
      assert Perform(u, [], s.tick + 1, down) == Result(u, s.tick + 1, true);
      assert Perform(t, [m], s.tick, down) == Result(u, s.tick + 1, true);
    }
  }

  lemma {:induction false} NothingToDo(s: Service, id: nat, down: nat -> bool)
    requires id < |s.rows|
    ensures OnRow(s, id, [], down) == (s, true)
  {
    assert s.rows[id := s.rows[id]] == s.rows;
  }

  /** Two awaited pieces of one call: the second runs exactly when the first did not throw. */
  lemma {:induction false} OnRowThen(s: Service, id: nat, a: seq<Micro>, b: seq<Micro>, down: nat -> bool)
    requires id < |s.rows|
    ensures var (u, ok) := OnRow(s, id, a, down);
            OnRow(s, id, a + b, down) == if ok then OnRow(u, id, b, down) else (u, false)
  {
    PerformAppend(s.rows[id], a, b, s.tick, down);
    var r := Perform(s.rows[id], a, s.tick, down);
    var q := Perform(r.txn, b, r.tick, down);
    assert s.rows[id := r.txn][id := q.txn] == s.rows[id := q.txn];
  }

  lemma {:induction false} ThrowOnly(s: Service, id: nat, down: nat -> bool)
    requires id < |s.rows|
    ensures OnRow(s, id, [Throw], down) == (s, false)
  {
    assert s.rows[id := s.rows[id]] == s.rows;
  }

  lemma {:induction false} WalkStep(s: Service, id: nat, from: State, path: seq<State>, down: nat -> bool)
    requires id < |s.rows| && path != []
    ensures var (u, ok) := OnRow(s, id, Walk(from, [path[0]]), down);
            OnRow(s, id, Walk(from, path), down) == if ok then OnRow(u, id, Walk(path[0], path[1..]), down) else (u, false)
  {
    if ValidTransition(from, path[0]) {
      assert Walk(from, [path[0]]) == [Write(path[0])];
      OnRowThen(s, id, [Write(path[0])], Walk(path[0], path[1..]), down);
    }
  }

  class InstallService {
    var rows: seq<Txn>
    var planCache: set<nat>
    var tick: nat
    const down: nat -> bool

    constructor (down: nat -> bool)
      ensures Snapshot() == Run([], down) && this.down == down
    {
      rows, planCache, tick := [], {}, 0;
      this.down := down;
    }

    function Snapshot(): Service
      reads this
    {
      Service(rows, planCache, tick)
    }

    method UpdateState(id: nat, to: State) returns (ok: bool)
      requires id < |rows|
      modifies this`rows, this`tick
      ensures (Snapshot(), ok) == OnRow(old(Snapshot()), id, [Write(to)], down)
    {
      OneMicro(Snapshot(), id, Write(to), down);
      ok := !down(tick);
      tick := tick + 1;
      if ok { rows := rows[id := Written(rows[id], to)]; }
    }

    method FinishRow(id: nat, s: State) returns (ok: bool)
      requires id < |rows|
      modifies this`rows, this`tick
      ensures (Snapshot(), ok) == OnRow(old(Snapshot()), id, [Finish(s)], down)
    {
      OneMicro(Snapshot(), id, Finish(s), down);
      ok := !down(tick);
      tick := tick + 1;
      if ok { rows := rows[id := Finished(rows[id], s)]; }
    }

    method Transition(id: nat, from: State, to: State) returns (ok: bool)
      requires id < |rows|
      modifies this`rows, this`tick
      ensures (Snapshot(), ok) == OnRow(old(Snapshot()), id, Walk(from, [to]), down)
    {
      if !ValidTransition(from, to) {
        assert rows[id := rows[id]] == rows;
        return false;
      }
      assert Walk(from, [to]) == [Write(to)];
      ok := UpdateState(id, to);
    }

    /** applied is false when the table has no way to failed; ok is false when the write threw. */
    method TransitionToFailed(id: nat, from: State) returns (ok: bool, applied: bool)
      requires id < |rows|
      modifies this`rows, this`tick
      ensures (Snapshot(), ok) == OnRow(old(Snapshot()), id, FailFrom(from), down)
      ensures applied == (ok && ValidTransition(from, Failed))
    {
      if !ValidTransition(from, Failed) {
        assert rows[id := rows[id]] == rows;
        return true, false;
      }
      ok := UpdateState(id, Failed);
      applied := ok;
    }

    method TryTransitionAndFail(id: nat, stage: State) returns (ok: bool)
      requires id < |rows|
      modifies this`rows, this`tick
      ensures (Snapshot(), ok) == OnRow(old(Snapshot()), id, PlanFailure(stage), down)
    {
      ghost var s := Snapshot();
      ghost var head := if ValidTransition(Created, stage) then [Write(stage)] + FailFrom(stage) else FailFrom(Created);
      OnRowThen(s, id, head, [Finish(Failed)], down);
      if ValidTransition(Created, stage) {
        OnRowThen(s, id, [Write(stage)], FailFrom(stage), down);
        ok := UpdateState(id, stage);
        if ok && ValidTransition(stage, Failed) {
          ok := UpdateState(id, Failed);
        } else if ok {
          NothingToDo(Snapshot(), id, down);
        }
      } else {
        var applied;
        ok, applied := TransitionToFailed(id, Created);
      }
      if ok {
        ok := FinishRow(id, Failed);
      }
    }

    method ImportFile(key: Option<string>, outcome: PlanOutcome) returns (reply: Reply)
      modifies this
      ensures (Snapshot(), reply) == StepImport(old(Snapshot()), key, outcome, down)
    {
      var existing := Lookup(rows, key);
      if existing.Some? {
        var e := existing.value;
        if e in planCache && !Terminal(rows[e].state) {
          return Accepted(e);
        }
        if rows[e].state != Materializing {
          return Rejected(e);
        }
        var ok, applied := TransitionToFailed(e, Materializing);
        if !ok {
          return Threw;
        }
      }
      reply := Create(key, outcome);
    }

    method Create(key: Option<string>, outcome: PlanOutcome) returns (reply: Reply)
      modifies this
      ensures (Snapshot(), reply) == CreateAndPlan(old(Snapshot()), key, outcome, down)
    {
      if Lookup(rows, key).Some? {
        return Threw;
      }
      tick := tick + 1;
      if down(tick - 1) {
        return Threw;
      }
      var id := |rows|;
      rows := rows + [Txn(key, Created, [Created], [])];
      assert Snapshot() == WithRow(old(Snapshot()), key);
      var ok := RunPlan(id, outcome);
      assert (Snapshot(), ok) == OnRow(WithRow(old(Snapshot()), key), id, ImportScript(outcome), down);
      if !ok {
        return Threw;
      }
      if outcome.PlanFailed? {
        return Rejected(id);
      }
      planCache := planCache + {id};
      reply := Accepted(id);
    }

    method RunPlan(id: nat, outcome: PlanOutcome) returns (ok: bool)
      requires id < |rows|
      modifies this`rows, this`tick
      ensures (Snapshot(), ok) == OnRow(old(Snapshot()), id, ImportScript(outcome), down)
    {
      match outcome
      case PlanFailed(stage) => ok := TryTransitionAndFail(id, stage);
      case Planned(confirm, bindings) => ok := TransitionAlong(id, Created, Pipeline(confirm, bindings));
    }

    /** The awaited transition() calls in a row; the first that throws ends them. */
    method TransitionAlong(id: nat, from: State, path: seq<State>) returns (ok: bool)
      requires id < |rows|
      modifies this`rows, this`tick
      ensures (Snapshot(), ok) == OnRow(old(Snapshot()), id, Walk(from, path), down)
    {
      ghost var s := Snapshot();
      var i, at := 0, from;
      ok := true;
      NothingToDo(s, id, down);
      while i < |path| && ok
        modifies this`rows, this`tick
        invariant 0 <= i <= |path| && id < |rows| == |s.rows|
        invariant ok ==> OnRow(s, id, Walk(from, path), down) == OnRow(Snapshot(), id, Walk(at, path[i..]), down)
        invariant !ok ==> OnRow(s, id, Walk(from, path), down) == (Snapshot(), false)
      {
        WalkStep(Snapshot(), id, at, path[i..], down);
        ok := Transition(id, at, path[i]);
        at, i := path[i], i + 1;
        assert path[i - 1..][1..] == path[i..];
      }
      NothingToDo(Snapshot(), id, down);
    }

    method ConfirmBindings(id: nat, c: Confirmation) returns (reply: Reply)
      modifies this
      ensures (Snapshot(), reply) == StepConfirm(old(Snapshot()), id, c, down)
    {
      if id >= |rows| {
        return Threw;
      }
      if id !in planCache {
        return if rows[id].state == Installed && c.existing then Done else Threw;
      }
      var ok := ConfirmBindingsLocked(id, c);
      if !ok {
        return Threw;
      }
      planCache := planCache - {id};
      reply := Done;
    }

    method ConfirmBindingsLocked(id: nat, c: Confirmation) returns (ok: bool)
      requires id < |rows|
      modifies this`rows, this`tick
      ensures (Snapshot(), ok) == OnRow(old(Snapshot()), id, ConfirmScript(old(rows)[id].state, c), down)
    {
      ghost var s := Snapshot();
      ThrowOnly(s, id, down);
      var state := rows[id].state;
      if c.existing {
        ok := false;
        if state == Materializing {
          ok := RecordInstalled(id);
        }
        return;
      }
      if !Confirmable(state) {
        return false;
      }
      var path := PathToMaterializing(state, c.bindings);
      ghost var ending := if c.materialized then Walk(Materializing, [Installed]) + [Finish(Installed)]
                          else FailFrom(Materializing) + [Throw];
      OnRowThen(s, id, Walk(state, path), ending, down);
      ok := TransitionAlong(id, state, path);
      if !ok {
        return;
      }
      if c.materialized {
        ok := RecordInstalled(id);
      } else {
        OnRowThen(Snapshot(), id, FailFrom(Materializing), [Throw], down);
        var recorded, applied := TransitionToFailed(id, Materializing);
        ok := false;
      }
    }

    method RecordInstalled(id: nat) returns (ok: bool)
      requires id < |rows|
      modifies this`rows, this`tick
      ensures (Snapshot(), ok) == OnRow(old(Snapshot()), id, Walk(Materializing, [Installed]) + [Finish(Installed)], down)
    {
      OnRowThen(Snapshot(), id, Walk(Materializing, [Installed]), [Finish(Installed)], down);
      ok := Transition(id, Materializing, Installed);
      if ok {
        ok := FinishRow(id, Installed);
      }
    }

    method Cancel(id: nat) returns (reply: Reply)
      modifies this
      ensures (Snapshot(), reply) == StepCancel(old(Snapshot()), id, down)
    {
      if id >= |rows| {
        return Threw;
      }
      ThrowOnly(Snapshot(), id, down);
      if Terminal(rows[id].state) {
        return Threw;
      }
      var state := rows[id].state;
      var end := Failed;
      var ok;
      if ValidTransition(state, Cancelled) {
        end := Cancelled;
        ok := Transition(id, state, Cancelled);
      } else {
        TerminalMeansNoWayOut(state);
        var applied;
        ok, applied := TransitionToFailed(id, state);
      }
      ghost var s := old(Snapshot());
      OnRowThen(s, id, [Write(end)], [Finish(end)], down);
      assert [Write(end)] + [Finish(end)] == CancelScript(state);
      if ok {
        ok := FinishRow(id, end);
      }
      if !ok {
        return Threw;
      }
      planCache := planCache - {id};
      reply := Done;
    }

    method Dispose()
      modifies this`planCache
      ensures Snapshot() == Step(old(Snapshot()), Op.Dispose, down).0
    {
      planCache := {};
    }
  }
}
