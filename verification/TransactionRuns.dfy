// Overlapping calls on one install service: every interleaving of imports, confirms and
// cancels at their awaits, with writes that may fail, confirms going through the lock.
module TransactionRuns {
  import opened TransactionTrace
  import opened Wrappers
  import Lock = InstallLock

  /** Where a call stands between two awaits. */
  datatype Stage =
    | Found(row: nat, state: State)                      // an import: the row its key has, as it was read
    | Retrying(row: nat)                                 // an import: about to fail that row, taken for stale
    | Creating                                           // an import: about to insert its own row
    | Queued(row: nat)                                   // a confirm at or inside the lock, row not read yet
    | Running(row: nat, from: State, script: seq<Micro>) // writes left, from the state it takes the row to be in
    | Ended

  /** `ticket` is a confirm's place at the lock, `stale` the row an import took for stale. */
  datatype Call = Call(op: Op, stage: Stage, ticket: Option<nat>, stale: Option<nat>)

  /** `met` records each call that was on a row while another call was working on it. */
  datatype System = System(
    rows: seq<Txn>, planCache: set<nat>, lock: Lock.State, calls: seq<Call>, met: set<(nat, nat)>)

  /** One call goes on from one await to the next; `down` makes its write fail. */
  datatype Action = Start(op: Op) | Enter(k: nat) | Advance(k: nat, down: bool)

  const INITIAL := System([], {}, Lock.INITIAL, [], {})

  predicate On(c: Call, r: nat) { !c.stage.Creating? && !c.stage.Ended? && c.stage.row == r }

  predicate Works(c: Call, r: nat) { On(c, r) && !c.stage.Found? }

  function NewCall(s: System, c: Call): System { s.(calls := s.calls + [c]) }

  /** The first piece of a call, up to the read that tells it where it is. */
  ghost function Started(s: System, op: Op, pkg: nat -> Lock.Key): System {
    match op
    case Import(key, o) =>
      var e := Lookup(s.rows, key);
      NewCall(s, Call(op, if e.Some? then Found(e.value, s.rows[e.value].state) else Creating, None, None))
    case Confirm(id, c) =>
      if id < |s.rows| && id in s.planCache then
        NewCall(s, Call(op, Queued(id), Some(|s.lock.tickets|), None)).(lock := Lock.Step(s.lock, Lock.Arrive(pkg(id))))
      else s
    case Cancel(id) =>
      if id < |s.rows| then
        NewCall(s, Call(op, Running(id, s.rows[id].state, CancelScript(s.rows[id].state)), None, None))
      else s
    case Dispose => s.(planCache := {})
  }

  function Put(s: System, k: nat, stage: Stage): System
    requires k < |s.calls|
  {
    s.(calls := s.calls[k := s.calls[k].(stage := stage)])
  }

  /** The call returns or throws; a confirm releases the lock either way. */
  ghost function Over(s: System, k: nat): System
    requires k < |s.calls|
  {
    var t := s.calls[k].ticket;
    Put(s, k, Ended).(lock := if t.Some? then Lock.Step(s.lock, Lock.Leave(t.value)) else s.lock)
  }

  /** A plan is cached by the import that made it and dropped by a confirm or cancel that ran to its end. */
  function CacheAfter(c: Call, r: nat, planCache: set<nat>): set<nat> {
    match c.op
    case Import(_, o) => if o.Planned? then planCache + {r} else planCache
    case _ => planCache - {r}
  }

  function Applied(t: Txn, m: Micro): Txn
    requires !m.Throw?
  {
    if m.Write? then Written(t, m.to) else Finished(t, m.state)
  }

  function Target(m: Micro): State
    requires !m.Throw?
  {
    if m.Write? then m.to else m.state
  }

  ghost function RunOne(s: System, k: nat, down: bool): System
    requires k < |s.calls| && s.calls[k].stage.Running? && s.calls[k].stage.row < |s.rows|
  {
    var c := s.calls[k];
    var Running(r, from, script) := c.stage;
    if script == [] then Over(s, k).(planCache := CacheAfter(c, r, s.planCache))
    else if script[0].Throw? || down then Over(s, k)
    else Put(s, k, Running(r, Target(script[0]), script[1..])).(rows := s.rows[r := Applied(s.rows[r], script[0])])
  }

  /** The decision about a row found under the key uses the state that was read and the plans held now. */
  function Decide(s: System, k: nat): System
    requires k < |s.calls| && s.calls[k].stage.Found?
  {
    var c := s.calls[k];
    if c.stage.row in s.planCache && !Terminal(c.stage.state) then Put(s, k, Ended)
    else if c.stage.state == Materializing then
      s.(calls := s.calls[k := c.(stage := Retrying(c.stage.row), stale := Some(c.stage.row))])
    else Put(s, k, Ended)
  }

  /** The insert; the unique index refuses a second active row of one key. */
  function Insert(s: System, k: nat, down: bool): System
    requires k < |s.calls| && s.calls[k].op.Import?
  {
    var Import(key, o) := s.calls[k].op;
    if Lookup(s.rows, key).Some? || down then Put(s, k, Ended)
    else Put(s, k, Running(|s.rows|, Created, ImportScript(o))).(rows := s.rows + [Txn(key, Created, [Created], [])])
  }

  predicate HasTicket(s: System, c: Call) { c.ticket.Some? && c.ticket.value < |s.lock.tickets| }

  predicate Inside(s: System, c: Call) { HasTicket(s, c) && Lock.Inside(s.lock.tickets[c.ticket.value].stage) }

  ghost function Advanced(s: System, k: nat, down: bool): System
    requires k < |s.calls|
  {
    var c := s.calls[k];
    match c.stage
    case Found(e, _) => Decide(s, k)
    case Retrying(e) =>
      if down || e >= |s.rows| then Put(s, k, Ended)
      else Put(s, k, Creating).(rows := s.rows[e := Written(s.rows[e], Failed)])
    case Creating => if c.op.Import? then Insert(s, k, down) else s
    case Queued(r) =>
      if r < |s.rows| && c.op.Confirm? && Inside(s, c) then
        Put(s, k, Running(r, s.rows[r].state, ConfirmScript(s.rows[r].state, c.op.given)))
      else s
    case Running(r, _, _) => if r < |s.rows| then RunOne(s, k, down) else s
    case Ended => s
  }

  ghost function Move(s: System, a: Action, pkg: nat -> Lock.Key): System {
    match a
    case Start(op) => Started(s, op, pkg)
    case Enter(k) =>
      if k < |s.calls| && s.calls[k].stage.Queued? && s.calls[k].ticket.Some? then
        s.(lock := Lock.Step(s.lock, Lock.Enter(s.calls[k].ticket.value)))
      else s
    case Advance(k, down) => if k < |s.calls| then Advanced(s, k, down) else s
  }

  ghost function Meet(s: System): System {
    s.(met := s.met + set k: nat, j: nat |
         k < |s.calls| && j < |s.calls| && k != j && !s.calls[k].stage.Creating? && !s.calls[k].stage.Ended?
         && Works(s.calls[j], s.calls[k].stage.row) :: (k, s.calls[k].stage.row))
  }

  ghost function Act(s: System, a: Action, pkg: nat -> Lock.Key): System { Meet(Move(s, a, pkg)) }

  /** `pkg` names the package that each row was created for. */
  ghost function Run(actions: seq<Action>, pkg: nat -> Lock.Key): System {
    if actions == [] then INITIAL else Act(Run(actions[..|actions| - 1], pkg), actions[|actions| - 1], pkg)
  }

  /** No cancel of row `r`, and no import that took it for stale, was on it while another call worked on it. */
  ghost predicate Quiet(s: System, r: nat) {
    forall k: nat :: k < |s.calls| && (k, r) in s.met ==> s.calls[k].op != Op.Cancel(r) && s.calls[k].stale != Some(r)
  }

  // ---- What holds in every state, whatever overlaps ------------------------

  ghost predicate KindOk(s: System, c: Call) {
    && (!c.stage.Creating? && !c.stage.Ended? ==> c.stage.row < |s.rows| && (c.op.Import? || (!c.op.Dispose? && c.stage.row == c.op.id)))
    && (c.stage.Found? || c.stage.Retrying? || c.stage.Creating? || c.stale.Some? ==> c.op.Import?)
    && (c.stage.Found? ==> c.stale == None)
    && (c.stage.Retrying? ==> c.stale == Some(c.stage.row))
    && (c.stage.Queued? ==> c.op.Confirm?)
    && (c.op.Confirm? <==> c.ticket.Some?)
  }

  /** A confirm at work holds an unreleased place at the lock of its package, and is inside once it has read. */
  ghost predicate TicketOk(lock: Lock.State, c: Call, pkg: nat -> Lock.Key) {
    c.ticket.Some? && c.op.Confirm? ==>
      && c.ticket.value < |lock.tickets|
      && lock.tickets[c.ticket.value].key == pkg(c.op.id)
      && (c.stage.Queued? || c.stage.Running? ==> lock.tickets[c.ticket.value].stage != Lock.Released)
      && (c.stage.Running? ==> Lock.Inside(lock.tickets[c.ticket.value].stage))
  }

  ghost predicate OwnTickets(calls: seq<Call>) {
    forall k, j | 0 <= k < j < |calls| && calls[k].ticket.Some? :: calls[k].ticket != calls[j].ticket
  }

  predicate Pipelines(c: Call, r: nat) { c.op.Import? && c.stage.Running? && c.stage.row == r }

  /** While a row's import runs its pipeline nobody holds the plan, and no other import runs on it. */
  ghost predicate Exclusive(s: System, k: nat)
    requires k < |s.calls|
  {
    var c := s.calls[k];
    c.op.Import? && c.stage.Running? ==>
      && c.stage.row !in s.planCache
      && forall j | 0 <= j < |s.calls| && j != k ::
           !Pipelines(s.calls[j], c.stage.row) && !(s.calls[j].op.Confirm? && Works(s.calls[j], c.stage.row))
  }

  ghost predicate Form(s: System, pkg: nat -> Lock.Key) {
    && Lock.LockOk(s.lock)
    && (forall i | i in s.planCache :: i < |s.rows|)
    && (forall k | 0 <= k < |s.calls| :: KindOk(s, s.calls[k]))
    && (forall k | 0 <= k < |s.calls| :: TicketOk(s.lock, s.calls[k], pkg))
    && OwnTickets(s.calls)
    && forall k | 0 <= k < |s.calls| :: Exclusive(s, k)
  }

  /** Every meeting that is going on has been recorded. */
  ghost predicate Recorded(s: System) {
    forall k, j, r: nat | 0 <= k < |s.calls| && 0 <= j < |s.calls| && k != j && On(s.calls[k], r) && Works(s.calls[j], r) ::
      (k, r) in s.met
  }

  lemma {:induction false} MeetRecords(s: System)
    ensures Recorded(Meet(s)) && s.met <= Meet(s).met
  {
    var u := Meet(s);
    forall k, j, r: nat | 0 <= k < |s.calls| && 0 <= j < |s.calls| && k != j && On(s.calls[k], r) && Works(s.calls[j], r)
      ensures (k, r) in u.met
    {
      assert s.calls[k].stage.row == r;
    }
  }

  lemma {:induction false} MeetForm(s: System, pkg: nat -> Lock.Key)
    requires Form(s, pkg)
    ensures Form(Meet(s), pkg)
  {
    forall k | 0 <= k < |s.calls| ensures KindOk(Meet(s), s.calls[k]) && Exclusive(Meet(s), k) {
      assert KindOk(s, s.calls[k]) && Exclusive(s, k);
    }
  }

  /** A new call that is not a pipeline, and no confirm on a row whose pipeline runs. */
  lemma {:induction false} FormNew(s: System, c: Call, lock: Lock.State, pkg: nat -> Lock.Key)
    requires Form(s, pkg) && Lock.LockOk(lock)
    requires KindOk(s, c) && TicketOk(lock, c, pkg) && (c.op.Import? ==> !c.stage.Running?)
    requires c.op.Confirm? ==> c.stage.Queued? && c.stage.row in s.planCache
    requires |s.lock.tickets| <= |lock.tickets| && lock.tickets[..|s.lock.tickets|] == s.lock.tickets
    requires c.ticket.Some? ==> c.ticket.value == |s.lock.tickets|
    ensures Form(NewCall(s, c).(lock := lock), pkg)
  {
    var u := NewCall(s, c).(lock := lock);
    assert forall t | 0 <= t < |s.lock.tickets| :: lock.tickets[..|s.lock.tickets|][t] == lock.tickets[t];
    forall k | 0 <= k < |u.calls| ensures KindOk(u, u.calls[k]) && TicketOk(lock, u.calls[k], pkg) && Exclusive(u, k) {
      if k < |s.calls| { assert KindOk(s, s.calls[k]) && TicketOk(s.lock, s.calls[k], pkg) && Exclusive(s, k); }
    }
    forall k, j | 0 <= k < j < |u.calls| && u.calls[k].ticket.Some? ensures u.calls[k].ticket != u.calls[j].ticket {
      assert KindOk(s, s.calls[k]) && TicketOk(s.lock, s.calls[k], pkg);
    }
  }

  lemma {:induction false} FormStarted(s: System, op: Op, pkg: nat -> Lock.Key)
    requires Form(s, pkg)
    ensures Form(Started(s, op, pkg), pkg)
  {
    match op
    case Import(key, o) =>
      var e := Lookup(s.rows, key);
      var c := Call(op, if e.Some? then Found(e.value, s.rows[e.value].state) else Creating, None, None);
      FormNew(s, c, s.lock, pkg);
      assert NewCall(s, c).(lock := s.lock) == NewCall(s, c);
    case Confirm(id, c) =>
      if id < |s.rows| && id in s.planCache {
        Lock.ArriveOk(s.lock, pkg(id));
        FormNew(s, Call(op, Queued(id), Some(|s.lock.tickets|), None), Lock.Step(s.lock, Lock.Arrive(pkg(id))), pkg);
      }
    case Cancel(id) =>
      if id < |s.rows| {
        var c := Call(op, Running(id, s.rows[id].state, CancelScript(s.rows[id].state)), None, None);
        FormNew(s, c, s.lock, pkg);
        assert NewCall(s, c).(lock := s.lock) == NewCall(s, c);
      }
    case Dispose =>
      var u := s.(planCache := {});
      forall k | 0 <= k < |u.calls| ensures KindOk(u, u.calls[k]) && Exclusive(u, k) {
        assert KindOk(s, s.calls[k]) && Exclusive(s, k);
      }
  }

  /** One call moves to another stage without starting a pipeline, taking a lock or touching the rows. */
  lemma {:induction false} FormPut(s: System, k: nat, c: Call, pkg: nat -> Lock.Key)
    requires Form(s, pkg) && k < |s.calls|
    requires KindOk(s, c) && TicketOk(s.lock, c, pkg) && c.ticket == s.calls[k].ticket && c.op == s.calls[k].op
    requires forall r :: Pipelines(c, r) ==> Pipelines(s.calls[k], r)
    requires forall r :: c.op.Confirm? && Works(c, r) ==> Works(s.calls[k], r)
    ensures Form(s.(calls := s.calls[k := c]), pkg)
  {
    var u := s.(calls := s.calls[k := c]);
    forall j | 0 <= j < |u.calls| ensures KindOk(u, u.calls[j]) && TicketOk(u.lock, u.calls[j], pkg) && Exclusive(u, j) {
      assert KindOk(s, s.calls[j]) && TicketOk(s.lock, s.calls[j], pkg) && Exclusive(s, j);
      if j == k && c.op.Import? && c.stage.Running? { assert Pipelines(c, c.stage.row); }
    }
    assert OwnTickets(u.calls);
  }

  /** Rows may grow and change, and the cache may lose plans or gain one whose pipeline is over. */
  lemma {:induction false} FormRows(s: System, rows: seq<Txn>, planCache: set<nat>, pkg: nat -> Lock.Key)
    requires Form(s, pkg) && |s.rows| <= |rows|
    requires forall i | i in planCache :: i < |rows| && (i in s.planCache || forall j | 0 <= j < |s.calls| :: !Pipelines(s.calls[j], i))
    ensures Form(s.(rows := rows, planCache := planCache), pkg)
  {
    var u := s.(rows := rows, planCache := planCache);
    forall j | 0 <= j < |u.calls| ensures KindOk(u, u.calls[j]) && Exclusive(u, j) {
      assert KindOk(s, s.calls[j]) && Exclusive(s, j);
      if s.calls[j].op.Import? && s.calls[j].stage.Running? { assert Pipelines(s.calls[j], s.calls[j].stage.row); }
    }
  }

  lemma {:induction false} FormEnter(s: System, k: nat, pkg: nat -> Lock.Key)
    requires Form(s, pkg) && k < |s.calls| && s.calls[k].ticket.Some?
    ensures Form(s.(lock := Lock.Step(s.lock, Lock.Enter(s.calls[k].ticket.value))), pkg)
  {
    var t := s.calls[k].ticket.value;
    if Lock.MayEnter(s.lock, t) {
      Lock.EnterOk(s.lock, t);
      var u := s.(lock := Lock.Step(s.lock, Lock.Enter(t)));
      forall j | 0 <= j < |u.calls| ensures KindOk(u, u.calls[j]) && TicketOk(u.lock, u.calls[j], pkg) && Exclusive(u, j) {
        assert KindOk(s, s.calls[j]) && TicketOk(s.lock, s.calls[j], pkg) && Exclusive(s, j);
      }
    }
  }

  lemma {:induction false} FormOver(s: System, k: nat, pkg: nat -> Lock.Key)
    requires Form(s, pkg) && k < |s.calls|
    ensures Form(Over(s, k), pkg)
  {
    var c := s.calls[k].(stage := Ended);
    assert KindOk(s, s.calls[k]) && TicketOk(s.lock, s.calls[k], pkg);
    FormPut(s, k, c, pkg);
    var v := s.(calls := s.calls[k := c]);
    if c.ticket.Some? && c.ticket.value < |s.lock.tickets| && Lock.Inside(s.lock.tickets[c.ticket.value].stage) {
      LeaveForm(v, k, pkg);
    }
  }

  lemma {:induction false} LeaveForm(s: System, k: nat, pkg: nat -> Lock.Key)
    requires Form(s, pkg) && k < |s.calls| && s.calls[k].stage.Ended? && s.calls[k].ticket.Some?
    requires s.calls[k].ticket.value < |s.lock.tickets| && Lock.Inside(s.lock.tickets[s.calls[k].ticket.value].stage)
    ensures Form(s.(lock := Lock.Step(s.lock, Lock.Leave(s.calls[k].ticket.value))), pkg)
  {
    var t := s.calls[k].ticket.value;
    Lock.LeaveOk(s.lock, t);
    var u := s.(lock := Lock.Step(s.lock, Lock.Leave(t)));
    forall j | 0 <= j < |u.calls| ensures KindOk(u, u.calls[j]) && TicketOk(u.lock, u.calls[j], pkg) && Exclusive(u, j) {
      assert KindOk(s, s.calls[j]) && TicketOk(s.lock, s.calls[j], pkg) && Exclusive(s, j);
      if j != k && s.calls[j].ticket.Some? { assert s.calls[j].ticket != s.calls[k].ticket; }
    }
  }

  lemma {:induction false} FormInsert(s: System, k: nat, down: bool, pkg: nat -> Lock.Key)
    requires Form(s, pkg) && k < |s.calls| && s.calls[k].op.Import?
    ensures Form(Insert(s, k, down), pkg)
  {
    var c := s.calls[k];
    assert KindOk(s, c) && TicketOk(s.lock, c, pkg);
    if Lookup(s.rows, c.op.key).Some? || down {
      FormPut(s, k, c.(stage := Ended), pkg);
    } else {
      FormNewRow(s, k, Txn(c.op.key, Created, [Created], []), ImportScript(c.op.outcome), pkg);
    }
  }

  lemma {:induction false} FormNewRow(s: System, k: nat, t: Txn, script: seq<Micro>, pkg: nat -> Lock.Key)
    requires Form(s, pkg) && k < |s.calls| && s.calls[k].op.Import?
    ensures Form(Put(s, k, Running(|s.rows|, Created, script)).(rows := s.rows + [t]), pkg)
  {
    var u := Put(s, k, Running(|s.rows|, Created, script)).(rows := s.rows + [t]);
    forall j | 0 <= j < |u.calls| ensures KindOk(u, u.calls[j]) && TicketOk(u.lock, u.calls[j], pkg) && Exclusive(u, j) {
      assert KindOk(s, s.calls[j]) && TicketOk(s.lock, s.calls[j], pkg) && Exclusive(s, j);
      forall i | 0 <= i < |s.calls| ensures !On(s.calls[i], |s.rows|) { assert KindOk(s, s.calls[i]); }
    }
    assert OwnTickets(u.calls);
  }

  lemma {:induction false} FormRunOne(s: System, k: nat, down: bool, pkg: nat -> Lock.Key)
    requires Form(s, pkg) && k < |s.calls| && s.calls[k].stage.Running? && s.calls[k].stage.row < |s.rows|
    ensures Form(RunOne(s, k, down), pkg)
  {
    var c := s.calls[k];
    var Running(r, from, script) := c.stage;
    assert KindOk(s, c) && TicketOk(s.lock, c, pkg) && Exclusive(s, k);
    if script == [] {
      FormOver(s, k, pkg);
      var u := Over(s, k);
      FormRows(u, s.rows, CacheAfter(c, r, s.planCache), pkg);
    } else if script[0].Throw? || down {
      FormOver(s, k, pkg);
    } else {
      var d := c.(stage := Running(r, Target(script[0]), script[1..]));
      assert forall q :: Pipelines(d, q) ==> Pipelines(c, q);
      FormPut(s, k, d, pkg);
      FormRows(s.(calls := s.calls[k := d]), s.rows[r := Applied(s.rows[r], script[0])], s.planCache, pkg);
    }
  }

  lemma {:induction false} FormAdvanced(s: System, k: nat, down: bool, pkg: nat -> Lock.Key)
    requires Form(s, pkg) && k < |s.calls|
    ensures Form(Advanced(s, k, down), pkg)
  {
    var c := s.calls[k];
    assert KindOk(s, c) && TicketOk(s.lock, c, pkg);
    match c.stage
    case Found(e, st) =>
      FormPut(s, k, c.(stage := Ended), pkg);
      FormPut(s, k, c.(stage := Retrying(e), stale := Some(e)), pkg);
    case Retrying(e) =>
      FormPut(s, k, c.(stage := Ended), pkg);
      FormPut(s, k, c.(stage := Creating), pkg);
      FormRows(Put(s, k, Creating), s.rows[e := Written(s.rows[e], Failed)], s.planCache, pkg);
    case Creating => FormInsert(s, k, down, pkg);
    case Queued(r) =>
      if r < |s.rows| && c.op.Confirm? && Inside(s, c) {
        FormPut(s, k, c.(stage := Running(r, s.rows[r].state, ConfirmScript(s.rows[r].state, c.op.given))), pkg);
      }
    case Running(r, from, script) => FormRunOne(s, k, down, pkg);
    case Ended =>
  }

  lemma {:induction false} FormAct(s: System, a: Action, pkg: nat -> Lock.Key)
    requires Form(s, pkg)
    ensures Form(Act(s, a, pkg), pkg) && Recorded(Act(s, a, pkg))
  {
    match a {
      case Start(op) => FormStarted(s, op, pkg);
      case Enter(k) =>
        if k < |s.calls| && s.calls[k].stage.Queued? && s.calls[k].ticket.Some? { FormEnter(s, k, pkg); }
      case Advance(k, down) => if k < |s.calls| { FormAdvanced(s, k, down, pkg); }
    }
    MeetForm(Move(s, a, pkg), pkg);
    MeetRecords(Move(s, a, pkg));
  }

  // ---- What holds of a row that is left in peace ----------------------------

  /** What a call on row `r` believes about it is so. */
  ghost predicate Fits(s: System, r: nat, k: nat)
    requires r < |s.rows| && k < |s.calls|
  {
    var c, state := s.calls[k], s.rows[r].state;
    On(c, r) ==>
      match c.stage
      case Found(_, st) => (k, r) !in s.met && st == Materializing ==> state == Materializing
      case Retrying(_) => state == Materializing
      case Queued(_) => Rank(state) <= 4
      case Running(_, from, script) =>
        && from == state && ScriptOk(from, script)
        && (c.op.Confirm? ==> Rank(state) <= 4)
        && (c.op.Import? ==> EndOf(from, script) == EndOf(Created, ImportScript(c.op.outcome)))
  }

  ghost predicate RowOk(s: System, r: nat)
    requires r < |s.rows|
  {
    && TxnOk(s.rows[r])
    && (forall k | 0 <= k < |s.calls| :: Fits(s, r, k))
    && (r in s.planCache ==> Rank(s.rows[r].state) <= 4)
  }

  /** The lock: of two confirms of one row at most one has read it and not returned. */
  lemma {:induction false} OneConfirmInside(s: System, r: nat, k: nat, j: nat, pkg: nat -> Lock.Key)
    requires Form(s, pkg) && k < |s.calls| && j < |s.calls| && k != j
    requires On(s.calls[k], r) && On(s.calls[j], r) && s.calls[k].op.Confirm? && s.calls[j].op.Confirm?
    ensures s.calls[k].stage.Running? ==> !s.calls[j].stage.Running?
  {
    var c, d := s.calls[k], s.calls[j];
    assert KindOk(s, c) && KindOk(s, d);
    assert TicketOk(s.lock, c, pkg) && TicketOk(s.lock, d, pkg);
    assert c.ticket.value != d.ticket.value;
  }

  lemma {:induction false} NotBothRunning(s: System, r: nat, k: nat, j: nat, pkg: nat -> Lock.Key)
    requires Form(s, pkg) && k < |s.calls| && j < |s.calls| && k != j
    requires On(s.calls[k], r) && On(s.calls[j], r) && !s.calls[k].op.Cancel? && !s.calls[j].op.Cancel?
    ensures s.calls[k].stage.Running? ==> !s.calls[j].stage.Running?
  {
    assert KindOk(s, s.calls[k]) && KindOk(s, s.calls[j]);
    assert Exclusive(s, k) && Exclusive(s, j);
    if s.calls[k].op.Confirm? && s.calls[j].op.Confirm? { OneConfirmInside(s, r, k, j, pkg); }
  }

  /** Nobody else writes the row a call is about to write, and whoever found it has met that call. */
  lemma {:induction false} WritesAlone(s: System, r: nat, k: nat, j: nat, pkg: nat -> Lock.Key)
    requires Form(s, pkg) && Recorded(s) && Quiet(s, r)
    requires k < |s.calls| && j < |s.calls| && k != j
    requires On(s.calls[k], r) && (s.calls[k].stage.Running? || s.calls[k].stage.Retrying?) && On(s.calls[j], r)
    ensures (j, r) in s.met && (s.calls[j].stage.Found? || s.calls[j].stage.Queued?)
  {
    var c, d := s.calls[k], s.calls[j];
    assert Works(c, r) && (j, r) in s.met;
    assert KindOk(s, c) && KindOk(s, d);
    assert Works(d, r) ==> (k, r) in s.met;
    if !c.op.Cancel? && !d.op.Cancel? { NotBothRunning(s, r, k, j, pkg); }
  }

  /** A step that leaves row `r` and call `j` as they are keeps what the call believes. */
  lemma {:induction false} FitsStay(s: System, u: System, r: nat, j: nat)
    requires r < |s.rows| && r < |u.rows| && j < |s.calls| && j < |u.calls|
    requires Fits(s, r, j) && s.met <= u.met && u.calls[j] == s.calls[j] && u.rows[r].state == s.rows[r].state
    ensures Fits(u, r, j)
  {
  }

  /** The writer's step: the others on the row keep their beliefs, for all they hold is that it comes no closer to the start. */
  lemma {:induction false} OthersFit(s: System, u: System, r: nat, k: nat, pkg: nat -> Lock.Key)
    requires Form(s, pkg) && Recorded(s) && Quiet(s, r) && r < |s.rows| && RowOk(s, r)
    requires k < |s.calls| && On(s.calls[k], r) && (s.calls[k].stage.Running? || s.calls[k].stage.Retrying?)
    requires r < |u.rows| && |u.calls| == |s.calls| && s.met <= u.met && Rank(u.rows[r].state) <= Rank(s.rows[r].state)
    requires forall j | 0 <= j < |s.calls| && j != k :: u.calls[j] == s.calls[j]
    ensures forall j | 0 <= j < |s.calls| && j != k :: Fits(u, r, j)
  {
    forall j | 0 <= j < |s.calls| && j != k ensures Fits(u, r, j) {
      assert Fits(s, r, j);
      if On(s.calls[j], r) { WritesAlone(s, r, k, j, pkg); }
    }
  }

  /** Nothing but the stages of calls, the lock and the cache changed, and call `k` still fits. */
  lemma {:induction false} RowStays(s: System, u: System, r: nat, k: nat)
    requires r < |s.rows| && r < |u.rows| && RowOk(s, r) && u.rows[r] == s.rows[r] && s.met <= u.met
    requires |s.calls| <= |u.calls|
    requires forall j | 0 <= j < |u.calls| && j != k :: j < |s.calls| && u.calls[j] == s.calls[j]
    requires k < |u.calls| ==> Fits(u, r, k)
    requires r in u.planCache ==> Rank(u.rows[r].state) <= 4
    ensures RowOk(u, r)
  {
    forall j | 0 <= j < |u.calls| ensures Fits(u, r, j) {
      if j != k {
        var c := u.calls[j];
        assert Fits(s, r, j);
        FitsStay(s, u, r, j);
      }
    }
  }

  lemma {:induction false} RowNew(s: System, c: Call, lock: Lock.State, r: nat)
    requires r < |s.rows| && RowOk(s, r)
    requires var u := NewCall(s, c).(lock := lock); Fits(u, r, |s.calls|)
    ensures RowOk(NewCall(s, c).(lock := lock), r)
  {
    RowStays(s, NewCall(s, c).(lock := lock), r, |s.calls|);
  }

  lemma {:induction false} RowStarted(s: System, op: Op, r: nat, pkg: nat -> Lock.Key)
    requires r < |s.rows| && RowOk(s, r)
    ensures RowOk(Started(s, op, pkg), r)
  {
    match op
    case Import(key, o) =>
      var e := Lookup(s.rows, key);
      var c := Call(op, if e.Some? then Found(e.value, s.rows[e.value].state) else Creating, None, None);
      RowNew(s, c, s.lock, r);
      assert NewCall(s, c).(lock := s.lock) == NewCall(s, c);
    case Confirm(id, c) =>
      if id < |s.rows| && id in s.planCache {
        RowNew(s, Call(op, Queued(id), Some(|s.lock.tickets|), None), Lock.Step(s.lock, Lock.Arrive(pkg(id))), r);
      }
    case Cancel(id) =>
      if id < |s.rows| {
        CancelScriptOk(s.rows[id].state);
        var c := Call(op, Running(id, s.rows[id].state, CancelScript(s.rows[id].state)), None, None);
        RowNew(s, c, s.lock, r);
        assert NewCall(s, c).(lock := s.lock) == NewCall(s, c);
      }
    case Dispose => RowStays(s, s.(planCache := {}), r, |s.calls|);
  }

  lemma {:induction false} EndsFit(s: System, u: System, r: nat, k: nat)
    requires r < |s.rows| && r < |u.rows| && k < |s.calls| && RowOk(s, r) && u.rows == s.rows && u.met == s.met
    requires u.calls == s.calls[k := s.calls[k].(stage := Ended)]
    requires r in u.planCache ==> Rank(u.rows[r].state) <= 4
    ensures RowOk(u, r)
  {
    RowStays(s, u, r, k);
  }

  /** A pipeline that has run to its end leaves a confirmable row. */
  lemma {:induction false} CachedIsConfirmable(s: System, r: nat, k: nat)
    requires r < |s.rows| && RowOk(s, r) && k < |s.calls| && s.calls[k].stage.Running? && s.calls[k].stage.script == []
    ensures r in CacheAfter(s.calls[k], s.calls[k].stage.row, s.planCache) ==> Rank(s.rows[r].state) <= 4
  {
    var c := s.calls[k];
    assert Fits(s, r, k);
    if c.op.Import? && c.stage.row == r { ImportScriptOk(c.op.outcome); }
  }

  lemma {:induction false} ScriptStep(from: State, script: seq<Micro>)
    requires script != [] && !script[0].Throw? && ScriptOk(from, script)
    ensures var to := Target(script[0]);
            && ScriptOk(to, script[1..]) && EndOf(to, script[1..]) == EndOf(from, script) && Rank(to) <= Rank(from)
            && (script[0].Write? ==> ValidTransition(from, to)) && (script[0].Finish? ==> to == from && Terminal(from))
  {
    if script[0].Write? { TransitionsDescend(from, Target(script[0])); }
  }

  lemma {:induction false} WrittenOk(t: Txn, to: State)
    requires TxnOk(t) && ValidTransition(t.state, to)
    ensures TxnOk(Written(t, to))
  {
    PathSnoc(t.history, to);
  }

  lemma {:induction false} AppliedOk(t: Txn, m: Micro)
    requires TxnOk(t) && !m.Throw?
    requires if m.Write? then ValidTransition(t.state, m.to) else m.state == t.state && Terminal(t.state)
    ensures TxnOk(Applied(t, m)) && Applied(t, m).state == Target(m)
  {
    if m.Write? { WrittenOk(t, m.to); }
  }

  lemma {:induction false} RowWritten(s: System, u: System, r: nat, k: nat, m: Micro, pkg: nat -> Lock.Key)
    requires Form(s, pkg) && Recorded(s) && Quiet(s, r) && r < |s.rows| && RowOk(s, r)
    requires k < |s.calls| && On(s.calls[k], r) && (s.calls[k].stage.Running? || s.calls[k].stage.Retrying?)
    requires !m.Throw? && (if m.Write? then ValidTransition(s.rows[r].state, m.to) else m.state == s.rows[r].state && Terminal(m.state))
    requires |u.rows| == |s.rows| && u.rows[r] == Applied(s.rows[r], m) && |u.calls| == |s.calls|
    requires u.met == s.met && u.planCache == s.planCache
    requires forall j | 0 <= j < |s.calls| && j != k :: u.calls[j] == s.calls[j]
    requires Fits(u, r, k)
    ensures RowOk(u, r)
  {
    AppliedOk(s.rows[r], m);
    if m.Write? { TransitionsDescend(s.rows[r].state, m.to); }
    OthersFit(s, u, r, k, pkg);
  }

  lemma {:induction false} RowRunOne(s: System, k: nat, down: bool, r: nat, pkg: nat -> Lock.Key)
    requires Form(s, pkg) && Recorded(s) && Quiet(s, r) && r < |s.rows| && RowOk(s, r)
    requires k < |s.calls| && s.calls[k].stage.Running? && s.calls[k].stage.row < |s.rows|
    ensures RowOk(RunOne(s, k, down), r)
  {
    var c := s.calls[k];
    var Running(q, from, script) := c.stage;
    var u := RunOne(s, k, down);
    if script == [] {
      CachedIsConfirmable(s, r, k);
      EndsFit(s, u, r, k);
    } else if script[0].Throw? || down {
      EndsFit(s, u, r, k);
    } else if q != r {
      RowStays(s, u, r, k);
    } else {
      assert Fits(s, r, k);
      ScriptStep(from, script);
      assert Applied(s.rows[r], script[0]).state == Target(script[0]);
      RowWritten(s, u, r, k, script[0], pkg);
    }
  }

  lemma {:induction false} RowDecide(s: System, k: nat, r: nat)
    requires r < |s.rows| && RowOk(s, r) && k < |s.calls| && s.calls[k].stage.Found?
    requires Quiet(Decide(s, k), r)
    ensures RowOk(Decide(s, k), r)
  {
    assert Fits(s, r, k);
    RowStays(s, Decide(s, k), r, k);
  }

  lemma {:induction false} RowRetry(s: System, k: nat, down: bool, r: nat, pkg: nat -> Lock.Key)
    requires Form(s, pkg) && Recorded(s) && Quiet(s, r) && r < |s.rows| && RowOk(s, r)
    requires k < |s.calls| && s.calls[k].stage.Retrying?
    ensures RowOk(Advanced(s, k, down), r)
  {
    var c := s.calls[k];
    var u := Advanced(s, k, down);
    assert Fits(s, r, k);
    if down || c.stage.row >= |s.rows| {
      EndsFit(s, u, r, k);
    } else if c.stage.row != r {
      RowStays(s, u, r, k);
    } else {
      RowWritten(s, u, r, k, Write(Failed), pkg);
    }
  }

  lemma {:induction false} RowAdvanced(s: System, k: nat, down: bool, r: nat, pkg: nat -> Lock.Key)
    requires Form(s, pkg) && Recorded(s) && Quiet(s, r) && r < |s.rows| && RowOk(s, r) && k < |s.calls|
    requires Quiet(Advanced(s, k, down), r)
    ensures RowOk(Advanced(s, k, down), r)
  {
    var c := s.calls[k];
    var u := Advanced(s, k, down);
    assert KindOk(s, c) && Fits(s, r, k);
    match c.stage
    case Found(e, st) => RowDecide(s, k, r);
    case Retrying(e) => RowRetry(s, k, down, r, pkg);
    case Creating => RowStays(s, u, r, k);
    case Queued(q) =>
      if q < |s.rows| && c.op.Confirm? && Inside(s, c) {
        ConfirmScriptOk(s.rows[q].state, c.op.given);
        RowStays(s, u, r, k);
      }
    case Running(q, from, script) => RowRunOne(s, k, down, r, pkg);
    case Ended =>
  }

  lemma {:induction false} RowInserted(s: System, k: nat, down: bool, pkg: nat -> Lock.Key)
    requires Form(s, pkg) && k < |s.calls| && s.calls[k].op.Import? && |s.rows| < |Insert(s, k, down).rows|
    ensures |Insert(s, k, down).rows| == |s.rows| + 1 && RowOk(Insert(s, k, down), |s.rows|)
  {
    var u, r := Insert(s, k, down), |s.rows|;
    ImportScriptOk(s.calls[k].op.outcome);
    forall j | 0 <= j < |u.calls| ensures Fits(u, r, j) { assert KindOk(s, s.calls[j]); }
  }

  lemma {:induction false} RowMoved(s: System, a: Action, r: nat, pkg: nat -> Lock.Key)
    requires Form(s, pkg) && Recorded(s) && Quiet(s, r) && Quiet(Move(s, a, pkg), r)
    requires r < |Move(s, a, pkg).rows| && (r < |s.rows| ==> RowOk(s, r))
    ensures RowOk(Move(s, a, pkg), r)
  {
    match a
    case Start(op) => RowStarted(s, op, r, pkg);
    case Enter(k) => RowStays(s, Move(s, a, pkg), r, |s.calls|);
    case Advance(k, down) =>
      if k < |s.calls| {
        if r < |s.rows| { RowAdvanced(s, k, down, r, pkg); } else { RowInserted(s, k, down, pkg); }
      }
  }

  lemma {:induction false} RowMet(s: System, r: nat)
    requires r < |s.rows| && RowOk(s, r)
    ensures RowOk(Meet(s), r)
  {
    MeetRecords(s);
    forall k | 0 <= k < |s.calls| ensures Fits(Meet(s), r, k) {
      assert Fits(s, r, k);
      FitsStay(s, Meet(s), r, k);
    }
  }

  lemma {:induction false} AdvancedStays(s: System, i: nat, down: bool, k: nat)
    requires i < |s.calls| && k < |s.calls| && KindOk(s, s.calls[k])
    ensures var calls := Advanced(s, i, down).calls;
            |calls| == |s.calls| && calls[k].op == s.calls[k].op && (s.calls[k].stale.Some? ==> calls[k].stale == s.calls[k].stale)
  {
  }

  /** A call keeps its name, and once it has taken a row for stale it stays marked. */
  lemma {:induction false} CallsStay(s: System, a: Action, k: nat, pkg: nat -> Lock.Key)
    requires Form(s, pkg) && k < |s.calls|
    ensures var calls := Act(s, a, pkg).calls;
            k < |calls| && calls[k].op == s.calls[k].op && (s.calls[k].stale.Some? ==> calls[k].stale == s.calls[k].stale)
  {
    if a.Advance? && a.k < |s.calls| { AdvancedStays(s, a.k, a.down, k); }
  }

  lemma {:induction false} QuietBefore(s: System, a: Action, r: nat, pkg: nat -> Lock.Key)
    requires Form(s, pkg) && Quiet(Act(s, a, pkg), r)
    ensures Quiet(s, r) && Quiet(Move(s, a, pkg), r)
  {
    var u := Act(s, a, pkg);
    MeetRecords(Move(s, a, pkg));
    forall k: nat | k < |s.calls| && (k, r) in s.met
      ensures s.calls[k].op != Op.Cancel(r) && s.calls[k].stale != Some(r)
    {
      CallsStay(s, a, k, pkg);
      assert (k, r) in u.met;
    }
  }

  lemma {:induction false} RunForm(actions: seq<Action>, pkg: nat -> Lock.Key)
    ensures Form(Run(actions, pkg), pkg) && Recorded(Run(actions, pkg))
  {
    if actions == [] {
    } else {
      RunForm(actions[..|actions| - 1], pkg);
      FormAct(Run(actions[..|actions| - 1], pkg), actions[|actions| - 1], pkg);
    }
  }

  lemma {:induction false} RowAct(s: System, a: Action, r: nat, pkg: nat -> Lock.Key)
    requires Form(s, pkg) && Recorded(s) && Quiet(Act(s, a, pkg), r)
    requires r < |Act(s, a, pkg).rows| && (r < |s.rows| ==> RowOk(s, r))
    ensures RowOk(Act(s, a, pkg), r)
  {
    QuietBefore(s, a, r, pkg);
    RowMoved(s, a, r, pkg);
    RowMet(Move(s, a, pkg), r);
  }

  lemma {:induction false} RunRow(actions: seq<Action>, r: nat, pkg: nat -> Lock.Key)
    requires r < |Run(actions, pkg).rows| && Quiet(Run(actions, pkg), r)
    ensures RowOk(Run(actions, pkg), r)
  {
    if actions == [] {
    } else {
      var before := actions[..|actions| - 1];
      RunForm(before, pkg);
      QuietBefore(Run(before, pkg), actions[|actions| - 1], r, pkg);
      if r < |Run(before, pkg).rows| { RunRow(before, r, pkg); }
      RowAct(Run(before, pkg), actions[|actions| - 1], r, pkg);
    }
  }

  // ---- Every run -------------------------------------------------------------

  /**
   * However calls overlap and whatever writes fail: a row that no cancel and no stale retry of
   * it shared with another call has a history along the table from created, at most ten states long.
   */
  lemma {:induction false} HistoriesFollowTheTable(actions: seq<Action>, pkg: nat -> Lock.Key, r: nat)
    requires r < |Run(actions, pkg).rows| && Quiet(Run(actions, pkg), r)
    ensures var t := Run(actions, pkg).rows[r];
            && IsPath(t.history) && 1 <= |t.history| <= 10
            && t.history[0] == Created && t.history[|t.history| - 1] == t.state
  {
    RunRow(actions, r, pkg);
    PathIsShort(Run(actions, pkg).rows[r].history);
  }

  /** finish() is called on such a row only in the terminal state it writes. */
  lemma {:induction false} FinishOnlyAtTheEnd(actions: seq<Action>, pkg: nat -> Lock.Key, r: nat, f: (State, State))
    requires r < |Run(actions, pkg).rows| && Quiet(Run(actions, pkg), r) && f in Run(actions, pkg).rows[r].finishes
    ensures f.0 == f.1 && Terminal(f.0)
  {
    RunRow(actions, r, pkg);
  }

  /** One step of any call only appends to a history; what it appends to such a row it appends before the end. */
  lemma {:induction false} RowGrows(s: System, a: Action, r: nat, pkg: nat -> Lock.Key)
    requires r < |s.rows|
    ensures var rows := Act(s, a, pkg).rows;
            && r < |rows| && rows[r].key == s.rows[r].key && s.rows[r].history <= rows[r].history
            && (RowOk(s, r) && Terminal(s.rows[r].state) ==> rows[r].state == s.rows[r].state && rows[r].history == s.rows[r].history)
  {
    if RowOk(s, r) && a.Advance? && a.k < |s.calls| {
      assert Fits(s, r, a.k);
    }
  }

  /** No step of any call rewrites what was persisted, or moves such a row once it has ended. */
  lemma {:induction false} EndedStaysEnded(actions: seq<Action>, a: Action, pkg: nat -> Lock.Key, r: nat)
    requires r < |Run(actions, pkg).rows| && Quiet(Act(Run(actions, pkg), a, pkg), r)
    ensures var before, after := Run(actions, pkg).rows[r], Act(Run(actions, pkg), a, pkg).rows;
            && r < |after| && before.history <= after[r].history
            && (Terminal(before.state) ==> after[r].history == before.history && after[r].state == before.state)
  {
    var s := Run(actions, pkg);
    RunForm(actions, pkg);
    QuietBefore(s, a, r, pkg);
    RunRow(actions, r, pkg);
    RowGrows(s, a, r, pkg);
  }

  /** Whatever overlaps, at most one confirm of a row is between reading it and returning. */
  lemma {:induction false} ConfirmsTakeTurns(actions: seq<Action>, pkg: nat -> Lock.Key, r: nat, k: nat, j: nat)
    requires k < |Run(actions, pkg).calls| && j < |Run(actions, pkg).calls| && k != j
    requires var calls := Run(actions, pkg).calls;
             On(calls[k], r) && On(calls[j], r) && calls[k].op.Confirm? && calls[j].op.Confirm?
    ensures var calls := Run(actions, pkg).calls;
            !(calls[k].stage.Running? && calls[j].stage.Running?)
  {
    RunForm(actions, pkg);
    OneConfirmInside(Run(actions, pkg), r, k, j, pkg);
  }

  /**
   * Imports of one key may race from their lookups on. Still, once a row has a younger one of
   * the same key it is failed, rolled back or cancelled: one key never has two live or installed rows.
   */
  lemma {:induction false} KeyHasOneActive(actions: seq<Action>, pkg: nat -> Lock.Key, i: nat, j: nat)
    requires i < j < |Run(actions, pkg).rows| && Quiet(Run(actions, pkg), i)
    requires Run(actions, pkg).rows[i].key.Some? && Run(actions, pkg).rows[i].key == Run(actions, pkg).rows[j].key
    ensures !Active(Run(actions, pkg).rows[i])
  {
    if actions == [] {
    } else {
      var before, a := actions[..|actions| - 1], actions[|actions| - 1];
      var s := Run(before, pkg);
      RunForm(before, pkg);
      QuietBefore(s, a, i, pkg);
      if i < |s.rows| {
        RunRow(before, i, pkg);
        RowGrows(s, a, i, pkg);
      }
      if j < |s.rows| {
        RowGrows(s, a, j, pkg);
        KeyHasOneActive(before, pkg, i, j);
      } else {
        NewRowIsAlone(s, a, i, j, pkg);
      }
    }
  }

  lemma {:induction false} NewRowIsAlone(s: System, a: Action, i: nat, j: nat, pkg: nat -> Lock.Key)
    requires i < j && |s.rows| <= j < |Act(s, a, pkg).rows|
    requires Act(s, a, pkg).rows[i].key.Some? && Act(s, a, pkg).rows[i].key == Act(s, a, pkg).rows[j].key
    ensures !Active(Act(s, a, pkg).rows[i])
  {
    assert a.Advance? && a.k < |s.calls| && s.calls[a.k].stage.Creating?;
    assert Act(s, a, pkg).rows == Insert(s, a.k, a.down).rows;
  }

  /** A plan in memory, or held by a confirm that waits, is refused for its row's state exactly when the row has ended. */
  lemma {:induction false} CachedPlanIsConfirmable(actions: seq<Action>, pkg: nat -> Lock.Key, r: nat, c: Confirmation)
    requires Quiet(Run(actions, pkg), r) && !c.existing
    requires var s := Run(actions, pkg);
             r in s.planCache || exists k :: 0 <= k < |s.calls| && s.calls[k].op.Confirm? && On(s.calls[k], r)
    ensures var s := Run(actions, pkg);
            r < |s.rows| && (ConfirmScript(s.rows[r].state, c) == [Throw] <==> Terminal(s.rows[r].state))
  {
    var s := Run(actions, pkg);
    RunForm(actions, pkg);
    if r !in s.planCache {
      var k :| 0 <= k < |s.calls| && s.calls[k].op.Confirm? && On(s.calls[k], r);
      assert KindOk(s, s.calls[k]);
      RunRow(actions, r, pkg);
      assert Fits(s, r, k);
    } else {
      RunRow(actions, r, pkg);
    }
    ConfirmScriptShape(s.rows[r].state, c);
  }

  // ---- Calls one after another: the methods of the service -------------------

  ghost function After(s: System, actions: seq<Action>, pkg: nat -> Lock.Key): System
    decreases |actions|
  {
    if actions == [] then s else After(Act(s, actions[0], pkg), actions[1..], pkg)
  }

  lemma {:induction false} AfterCons(s: System, a: Action, rest: seq<Action>, pkg: nat -> Lock.Key)
    ensures After(s, [a] + rest, pkg) == After(Act(s, a, pkg), rest, pkg)
  {
    assert ([a] + rest)[1..] == rest;
  }

  lemma {:induction false} AfterAppend(s: System, x: seq<Action>, y: seq<Action>, pkg: nat -> Lock.Key)
    ensures After(s, x + y, pkg) == After(After(s, x, pkg), y, pkg)
    decreases |x|
  {
    if x == [] {
      assert x + y == y;
    } else {
      assert (x + y)[1..] == x[1..] + y;
      AfterAppend(Act(s, x[0], pkg), x[1..], y, pkg);
    }
  }

  lemma {:induction false} RunAppend(x: seq<Action>, y: seq<Action>, pkg: nat -> Lock.Key)
    ensures Run(x + y, pkg) == After(Run(x, pkg), y, pkg)
    decreases |y|
  {
    if y == [] {
      assert x + y == x;
    } else {
      assert (x + [y[0]])[..|x|] == x;
      assert x + y == (x + [y[0]]) + y[1..];
      RunAppend(x + [y[0]], y[1..], pkg);
    }
  }

  /** Nobody but call `k` is in flight, and nobody ever met. */
  ghost predicate Alone(s: System, k: nat) {
    s.met == {} && forall j | 0 <= j < |s.calls| && j != k :: s.calls[j].stage.Ended?
  }

  lemma {:induction false} NobodyMeets(s: System, k: nat)
    requires Alone(s, k)
    ensures Meet(s) == s
  {
    assert Meet(s).met == {};
  }

  /** What is left when call `k` has ended with its row at `t`. */
  ghost function Closed(s: System, k: nat, t: Txn, planCache: set<nat>): System
    requires k < |s.calls| && s.calls[k].stage.Running? && s.calls[k].stage.row < |s.rows|
  {
    Over(s, k).(rows := s.rows[s.calls[k].stage.row := t], planCache := planCache)
  }

  lemma {:induction false} ClosedLater(s: System, k: nat, stage: Stage, t: Txn, v: Txn, planCache: set<nat>)
    requires k < |s.calls| && s.calls[k].stage.Running? && s.calls[k].stage.row < |s.rows|
    requires stage.Running? && stage.row == s.calls[k].stage.row
    ensures var u := Put(s, k, stage).(rows := s.rows[stage.row := t]);
            Closed(u, k, v, planCache) == Closed(s, k, v, planCache)
  {
    assert s.rows[stage.row := t][stage.row := v] == s.rows[stage.row := v];
    assert s.calls[k := s.calls[k].(stage := stage)][k := s.calls[k].(stage := Ended)] == s.calls[k := s.calls[k].(stage := Ended)];
  }

  /** A call that advances alone performs its script. */
  lemma {:induction false} ScriptAlone(s: System, k: nat, tick: nat, down: nat -> bool, pkg: nat -> Lock.Key)
    returns (more: seq<Action>)
    requires Alone(s, k) && k < |s.calls| && s.calls[k].stage.Running? && s.calls[k].stage.row < |s.rows|
    ensures var c := s.calls[k];
            var r := Perform(s.rows[c.stage.row], c.stage.script, tick, down);
            After(s, more, pkg) == Closed(s, k, r.txn, if r.ok then CacheAfter(c, c.stage.row, s.planCache) else s.planCache)
    decreases |s.calls[k].stage.script|
  {
    var c := s.calls[k];
    var Running(r, from, script) := c.stage;
    var a := Advance(k, down(tick));
    var u := Move(s, a, pkg);
    NobodyMeets(u, k);
    assert s.rows[r := s.rows[r]] == s.rows;
    if script == [] || script[0].Throw? || down(tick) {
      more := [a];
      AfterCons(s, a, [], pkg);
      assert [a] + [] == [a];
    } else {
      var rest := ScriptAlone(u, k, tick + 1, down, pkg);
      more := [a] + rest;
      AfterCons(s, a, rest, pkg);
      var q := Perform(Applied(s.rows[r], script[0]), script[1..], tick + 1, down);
      ClosedLater(s, k, u.calls[k].stage, u.rows[r], q.txn, if q.ok then CacheAfter(c, r, s.planCache) else s.planCache);
    }
  }

  /** Between calls: everybody returned and released the lock. */
  ghost predicate Idle(s: System) {
    && s.met == {} && Lock.LockOk(s.lock)
    && (forall j | 0 <= j < |s.calls| :: s.calls[j].stage.Ended?)
    && (forall t | 0 <= t < |s.lock.tickets| :: s.lock.tickets[t].stage == Lock.Released)
  }

  ghost predicate Agrees(s: System, v: Service) { s.rows == v.rows && s.planCache == v.planCache }

  lemma {:induction false} PipelineAlone(s: System, k: nat, tick: nat, down: nat -> bool, pkg: nat -> Lock.Key)
    returns (more: seq<Action>)
    requires Alone(s, k) && k < |s.calls| && s.calls[k].op.Import? && s.calls[k].ticket == None && Idle(Put(s, k, Ended))
    requires s.calls[k].stage.Running? && s.calls[k].stage.row < |s.rows|
    requires s.calls[k].stage.script == ImportScript(s.calls[k].op.outcome)
    ensures var o, id := s.calls[k].op.outcome, s.calls[k].stage.row;
            var r := OnRow(Service(s.rows, s.planCache, tick), id, ImportScript(o), down);
            Idle(After(s, more, pkg)) && Agrees(After(s, more, pkg), AfterPlan(r.0, r.1, id, o).0)
  {
    more := ScriptAlone(s, k, tick, down, pkg);
  }

  lemma {:induction false} InsertAlone(s: System, k: nat, tick: nat, down: nat -> bool, pkg: nat -> Lock.Key)
    returns (more: seq<Action>)
    requires Alone(s, k) && k < |s.calls| && s.calls[k].op.Import? && s.calls[k].stage.Creating? && s.calls[k].ticket == None
    requires Idle(Put(s, k, Ended))
    ensures var op := s.calls[k].op;
            Idle(After(s, more, pkg))
            && Agrees(After(s, more, pkg), CreateAndPlan(Service(s.rows, s.planCache, tick), op.key, op.outcome, down).0)
  {
    var Import(key, o) := s.calls[k].op;
    var a := Advance(k, down(tick));
    var u := Move(s, a, pkg);
    NobodyMeets(u, k);
    var rest: seq<Action> := [];
    if Lookup(s.rows, key).None? && !down(tick) {
      assert WithRow(Service(s.rows, s.planCache, tick), key) == Service(u.rows, u.planCache, tick + 1);
      assert Put(u, k, Ended).calls == Put(s, k, Ended).calls;
      rest := PipelineAlone(u, k, tick + 1, down, pkg);
    }
    more := [a] + rest;
    AfterCons(s, a, rest, pkg);
  }

  lemma {:induction false} ImportAlone(s: System, op: Op, tick: nat, down: nat -> bool, pkg: nat -> Lock.Key)
    returns (more: seq<Action>)
    requires Idle(s) && op.Import?
    ensures Idle(After(s, more, pkg))
    ensures Agrees(After(s, more, pkg), Step(Service(s.rows, s.planCache, tick), op, down).0)
  {
    var k, start := |s.calls|, Start(op);
    var u := Move(s, start, pkg);
    NobodyMeets(u, k);
    var e := Lookup(s.rows, op.key);
    var rest;
    if e.None? {
      rest := InsertAlone(u, k, tick, down, pkg);
    } else {
      rest := FoundAlone(u, k, tick, down, pkg);
    }
    more := [start] + rest;
    AfterCons(s, start, rest, pkg);
  }

  lemma {:induction false} FoundAlone(s: System, k: nat, tick: nat, down: nat -> bool, pkg: nat -> Lock.Key)
    returns (more: seq<Action>)
    requires Alone(s, k) && k < |s.calls| && s.calls[k].op.Import? && s.calls[k].stage.Found? && s.calls[k].ticket == None
    requires Idle(Put(s, k, Ended))
    requires Lookup(s.rows, s.calls[k].op.key) == Some(s.calls[k].stage.row) && s.calls[k].stage.state == s.rows[s.calls[k].stage.row].state
    ensures Idle(After(s, more, pkg))
    ensures Agrees(After(s, more, pkg), Step(Service(s.rows, s.planCache, tick), s.calls[k].op, down).0)
  {
    var c := s.calls[k];
    var a := Advance(k, false);
    var u := Move(s, a, pkg);
    NobodyMeets(u, k);
    var rest: seq<Action> := [];
    if u.calls[k].stage.Retrying? { rest := RetryAlone(u, k, tick, down, pkg); }
    more := [a] + rest;
    AfterCons(s, a, rest, pkg);
  }

  lemma {:induction false} RetryAlone(s: System, k: nat, tick: nat, down: nat -> bool, pkg: nat -> Lock.Key)
    returns (more: seq<Action>)
    requires Alone(s, k) && k < |s.calls| && s.calls[k].op.Import? && s.calls[k].stage.Retrying? && s.calls[k].ticket == None
    requires s.calls[k].stage.row < |s.rows| && Idle(Put(s, k, Ended))
    ensures var v, op, e := Service(s.rows, s.planCache, tick), s.calls[k].op, s.calls[k].stage.row;
            var (w, ok) := OnRow(v, e, FailFrom(Materializing), down);
            Idle(After(s, more, pkg))
            && Agrees(After(s, more, pkg), if ok then CreateAndPlan(w, op.key, op.outcome, down).0 else w)
  {
    var v, e := Service(s.rows, s.planCache, tick), s.calls[k].stage.row;
    var a := Advance(k, down(tick));
    var u := Move(s, a, pkg);
    NobodyMeets(u, k);
    OneMicro(v, e, Write(Failed), down);
    var rest: seq<Action> := [];
    if !down(tick) { rest := InsertAlone(u, k, tick + 1, down, pkg); }
    more := [a] + rest;
    AfterCons(s, a, rest, pkg);
  }

  /** A confirm stands last at the lock, with nobody before it. */
  ghost predicate Waits(s: System, calls: seq<Call>, tickets: seq<Lock.Ticket>, c: Call, stage: Lock.Stage) {
    && Alone(s, |calls|) && Lock.LockOk(s.lock) && s.calls == calls + [c] && c.ticket == Some(|tickets|)
    && |s.lock.tickets| == |tickets| + 1 && s.lock.tickets[..|tickets|] == tickets && s.lock.tickets[|tickets|].stage == stage
    && forall t | 0 <= t < |tickets| :: tickets[t].stage == Lock.Released
  }

  lemma {:induction false} ConfirmArrives(s: System, id: nat, c: Confirmation, pkg: nat -> Lock.Key)
    requires Idle(s) && id < |s.rows| && id in s.planCache
    ensures var u := Act(s, Start(Op.Confirm(id, c)), pkg);
            && Waits(u, s.calls, s.lock.tickets, Call(Op.Confirm(id, c), Queued(id), Some(|s.lock.tickets|), None), Lock.Waiting)
            && u.rows == s.rows && u.planCache == s.planCache
  {
    NobodyMeets(Move(s, Start(Op.Confirm(id, c)), pkg), |s.calls|);
    Lock.ArriveOk(s.lock, pkg(id));
  }

  lemma {:induction false} ConfirmIsAdmitted(s: System, calls: seq<Call>, tickets: seq<Lock.Ticket>, c: Call, pkg: nat -> Lock.Key)
    requires Waits(s, calls, tickets, c, Lock.Waiting) && c.stage.Queued?
    ensures var u := Act(s, Enter(|calls|), pkg);
            Waits(u, calls, tickets, c, Lock.Entered) && u.rows == s.rows && u.planCache == s.planCache
  {
    var t := |tickets|;
    assert forall i | 0 <= i < t :: s.lock.tickets[i] == s.lock.tickets[..t][i];
    Lock.WaitingMayEnter(s.lock, t);
    Lock.EnterOk(s.lock, t);
    NobodyMeets(Move(s, Enter(|calls|), pkg), |calls|);
  }

  lemma {:induction false} ConfirmReads(s: System, calls: seq<Call>, tickets: seq<Lock.Ticket>, c: Call, pkg: nat -> Lock.Key)
    requires Waits(s, calls, tickets, c, Lock.Entered) && c.stage.Queued? && c.op.Confirm? && c.stage.row < |s.rows|
    ensures var u, state := Act(s, Advance(|calls|, false), pkg), s.rows[c.stage.row].state;
            && Waits(u, calls, tickets, c.(stage := Running(c.stage.row, state, ConfirmScript(state, c.op.given))), Lock.Entered)
            && u.rows == s.rows && u.planCache == s.planCache
  {
    NobodyMeets(Move(s, Advance(|calls|, false), pkg), |calls|);
  }

  /** A confirm of a cached plan that meets nobody enters at once and reads the row. */
  lemma {:induction false} ConfirmEnters(s: System, id: nat, c: Confirmation, pkg: nat -> Lock.Key) returns (more: seq<Action>)
    requires Idle(s) && id < |s.rows| && id in s.planCache
    ensures var u, state, t := After(s, more, pkg), s.rows[id].state, |s.lock.tickets|;
            && Waits(u, s.calls, s.lock.tickets,
                     Call(Op.Confirm(id, c), Running(id, state, ConfirmScript(state, c)), Some(t), None), Lock.Entered)
            && u.rows == s.rows && u.planCache == s.planCache
  {
    var k, start, read := |s.calls|, Start(Op.Confirm(id, c)), Advance(|s.calls|, false);
    var call := Call(Op.Confirm(id, c), Queued(id), Some(|s.lock.tickets|), None);
    var u := Act(s, start, pkg);
    var v := Act(u, Enter(k), pkg);
    ConfirmArrives(s, id, c, pkg);
    ConfirmIsAdmitted(u, s.calls, s.lock.tickets, call, pkg);
    ConfirmReads(v, s.calls, s.lock.tickets, call, pkg);
    more := [start] + ([Enter(k)] + ([read] + []));
    AfterCons(v, read, [], pkg);
    AfterCons(u, Enter(k), [read] + [], pkg);
    AfterCons(s, start, [Enter(k)] + ([read] + []), pkg);
  }

  lemma {:induction false} ConfirmAlone(s: System, op: Op, tick: nat, down: nat -> bool, pkg: nat -> Lock.Key)
    returns (more: seq<Action>)
    requires Idle(s) && op.Confirm? && op.id < |s.rows| && op.id in s.planCache
    ensures Idle(After(s, more, pkg))
    ensures Agrees(After(s, more, pkg), Step(Service(s.rows, s.planCache, tick), op, down).0)
  {
    var k, t := |s.calls|, |s.lock.tickets|;
    var first := ConfirmEnters(s, op.id, op.given, pkg);
    var u := After(s, first, pkg);
    var rest := ScriptAlone(u, k, tick, down, pkg);
    more := first + rest;
    AfterAppend(s, first, rest, pkg);
    Lock.LeaveOk(u.lock, t);
    assert forall i | 0 <= i < t :: u.lock.tickets[i] == u.lock.tickets[..t][i];
  }

  lemma {:induction false} CallAlone(s: System, op: Op, tick: nat, down: nat -> bool, pkg: nat -> Lock.Key)
    returns (more: seq<Action>)
    requires Idle(s)
    ensures Idle(After(s, more, pkg))
    ensures Agrees(After(s, more, pkg), Step(Service(s.rows, s.planCache, tick), op, down).0)
  {
    var start := Start(op);
    var u := Move(s, start, pkg);
    NobodyMeets(u, |s.calls|);
    var rest: seq<Action> := [];
    if op.Import? {
      more := ImportAlone(s, op, tick, down, pkg);
    } else if op.Confirm? && op.id < |s.rows| && op.id in s.planCache {
      more := ConfirmAlone(s, op, tick, down, pkg);
    } else {
      if op.Cancel? && op.id < |s.rows| { rest := ScriptAlone(u, |s.calls|, tick, down, pkg); }
      more := [start] + rest;
      AfterCons(s, start, rest, pkg);
    }
  }

  /** Every run of whole calls is one of these runs, and in it no two calls meet. */
  lemma {:induction false} OneAfterAnother(ops: seq<Op>, down: nat -> bool, pkg: nat -> Lock.Key) returns (actions: seq<Action>)
    ensures Idle(Run(actions, pkg)) && Agrees(Run(actions, pkg), TransactionTrace.Run(ops, down))
  {
    if ops == [] {
      actions := [];
    } else {
      var before := OneAfterAnother(ops[..|ops| - 1], down, pkg);
      var more := CallAlone(Run(before, pkg), ops[|ops| - 1], TransactionTrace.Run(ops[..|ops| - 1], down).tick, down, pkg);
      actions := before + more;
      RunAppend(before, more, pkg);
    }
  }

  // ---- A stale retry that meets a confirm ------------------------------------

  /** Call `k` is a confirm that has put row `r` into materializing and has `installed` to write. */
  ghost predicate Materializes(s: System, r: nat, k: nat) {
    && r < |s.rows| && k < |s.calls| && s.rows[r].state == Materializing
    && s.calls[k].stage == Running(r, Materializing, [Write(Installed), Finish(Installed)])
  }

  lemma {:induction false} ReadyScript(c: Confirmation)
    requires c.materialized && !c.existing
    ensures var script := ConfirmScript(ReadyToInstall, c);
            script != [] && script[0] == Write(Materializing) && script[1..] == [Write(Installed), Finish(Installed)]
  {
    ConfirmScriptShape(ReadyToInstall, c);
    assert ConfirmScript(ReadyToInstall, c) == [Write(Materializing), Write(Installed), Finish(Installed)];
  }

  lemma {:induction false} WritesMaterializing(s: System, r: nat, k: nat, pkg: nat -> Lock.Key)
    requires r < |s.rows| && k < |s.calls| && s.calls[k].stage.Running? && s.calls[k].stage.row == r
    requires s.calls[k].stage.script != [] && s.calls[k].stage.script[0] == Write(Materializing)
    requires s.calls[k].stage.script[1..] == [Write(Installed), Finish(Installed)]
    ensures var u := Act(s, Advance(k, false), pkg);
            Materializes(u, r, k) && u.rows == s.rows[r := Written(s.rows[r], Materializing)]
  {
  }

  lemma {:induction false} ConfirmMaterializes(s: System, r: nat, pkg: nat -> Lock.Key) returns (more: seq<Action>)
    requires Idle(s) && r < |s.rows| && r in s.planCache && s.rows[r].state == ReadyToInstall
    ensures var u := After(s, more, pkg);
            Materializes(u, r, |s.calls|) && u.rows == s.rows[r := Written(s.rows[r], Materializing)]
  {
    var c, write := Confirmation(false, false, true), Advance(|s.calls|, false);
    ReadyScript(c);
    var first := ConfirmEnters(s, r, c, pkg);
    var u := After(s, first, pkg);
    WritesMaterializing(u, r, |s.calls|, pkg);
    more := first + ([write] + []);
    AfterCons(u, write, [], pkg);
    AfterAppend(s, first, [write] + [], pkg);
  }

  /** dispose() forgets the plans, a same-key import fails the row, and the confirm goes on to `installed`. */
  lemma {:induction false} RetryOverwritten(s: System, r: nat, k: nat, key: string, pkg: nat -> Lock.Key)
    returns (more: seq<Action>)
    requires Materializes(s, r, k) && Lookup(s.rows, Some(key)) == Some(r)
    ensures var rows := After(s, more, pkg).rows;
            r < |rows| && rows[r].history == s.rows[r].history + [Failed] + [Installed]
  {
    var j, drop, look := |s.calls|, Start(Op.Dispose), Start(Op.Import(Some(key), Planned(false, false)));
    var u := Act(s, drop, pkg);
    var v := Act(u, look, pkg);
    assert v.calls[j].stage == Found(r, Materializing) && v.calls[k] == s.calls[k];
    var w := Act(v, Advance(j, false), pkg);
    assert w.calls[j].stage == Retrying(r) && w.calls[k] == s.calls[k];
    var x := Act(w, Advance(j, false), pkg);
    assert x.rows[r] == Written(s.rows[r], Failed) && x.calls[k] == s.calls[k];
    assert Act(x, Advance(k, false), pkg).rows[r] == Written(x.rows[r], Installed);
    more := [drop] + ([look] + ([Advance(j, false)] + ([Advance(j, false)] + ([Advance(k, false)] + []))));
    AfterCons(x, Advance(k, false), [], pkg);
    AfterCons(w, Advance(j, false), [Advance(k, false)] + [], pkg);
    AfterCons(v, Advance(j, false), [Advance(j, false)] + ([Advance(k, false)] + []), pkg);
    AfterCons(u, look, [Advance(j, false)] + ([Advance(j, false)] + ([Advance(k, false)] + [])), pkg);
    AfterCons(s, drop, [look] + ([Advance(j, false)] + ([Advance(j, false)] + ([Advance(k, false)] + []))), pkg);
  }

  lemma {:induction false} PerformsMoves(t: Txn, path: seq<State>, tick: nat, down: nat -> bool)
    requires forall n :: !down(n)
    ensures var r := Perform(t, Moves(path), tick, down);
            r.ok && r.txn.key == t.key && r.txn.state == ([t.state] + path)[|path|]
    decreases |path|
  {
    if path == [] {
    } else {
      assert Moves(path)[1..] == Moves(path[1..]);
      PerformsMoves(Written(t, path[0]), path[1..], tick + 1, down);
      assert ([path[0]] + path[1..])[|path| - 1] == ([t.state] + path)[|path|];
    }
  }

  lemma {:induction false} PlannedRow(t: Txn, tick: nat, down: nat -> bool)
    requires forall n :: !down(n)
    ensures var r := Perform(t, ImportScript(Planned(false, false)), tick, down);
            r.ok && r.txn.key == t.key && r.txn.state == ReadyToInstall
  {
    PipelineIsAllowed(false, false);
    WalkAlongPath(Created, Pipeline(false, false));
    PerformsMoves(t, Pipeline(false, false), tick, down);
  }

  lemma {:induction false} ImportedRow(key: string, down: nat -> bool)
    requires forall n :: !down(n)
    ensures var s := TransactionTrace.Run([Op.Import(Some(key), Planned(false, false))], down);
            |s.rows| == 1 && s.planCache == {0} && s.rows[0].key == Some(key) && s.rows[0].state == ReadyToInstall
  {
    var op, s := Op.Import(Some(key), Planned(false, false)), Service([], {}, 0);
    assert [op][..0] == [] && TransactionTrace.Run([], down) == s;
    assert TransactionTrace.Run([op], down) == CreateAndPlan(s, Some(key), op.outcome, down).0;
    PlannedRow(WithRow(s, Some(key)).rows[0], 1, down);
  }

  lemma {:induction false} AfterTheEnd(h: seq<State>, last: State)
    ensures !IsPath(h + [Failed] + [last])
  {
    var g := h + [Failed] + [last];
    assert g[|h|] == Failed && !ValidTransition(g[|h|], g[|h| + 1]);
  }

  lemma {:induction false} LookupOnly(rows: seq<Txn>, key: string)
    requires |rows| == 1 && rows[0].key == Some(key) && Active(rows[0])
    ensures Lookup(rows, Some(key)) == Some(0)
  {
  }

  lemma {:induction false} RetryAfter(s: System, key: string, pkg: nat -> Lock.Key) returns (more: seq<Action>)
    requires Idle(s) && |s.rows| == 1 && s.planCache == {0} && s.rows[0].key == Some(key) && s.rows[0].state == ReadyToInstall
    ensures var rows := After(s, more, pkg).rows; rows != [] && !IsPath(rows[0].history)
  {
    var first := ConfirmMaterializes(s, 0, pkg);
    var u := After(s, first, pkg);
    LookupOnly(u.rows, key);
    var rest := RetryOverwritten(u, 0, |s.calls|, key, pkg);
    more := first + rest;
    AfterAppend(s, first, rest, pkg);
    AfterTheEnd(u.rows[0].history, Installed);
  }

  /** A run in which a row goes from materializing to failed to installed. */
  lemma {:induction false} StaleRetryLeavesTheTable(key: string, pkg: nat -> Lock.Key)
    ensures exists actions :: Run(actions, pkg).rows != [] && !IsPath(Run(actions, pkg).rows[0].history)
  {
    var down := (n: nat) => false;
    ImportedRow(key, down);
    var first := OneAfterAnother([Op.Import(Some(key), Planned(false, false))], down, pkg);
    var rest := RetryAfter(Run(first, pkg), key, pkg);
    RunAppend(first, rest, pkg);
    assert Run(first + rest, pkg).rows != [];
  }
}
