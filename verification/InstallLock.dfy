// withMaterializeLock: a promise chain per key, over every interleaving at the
// awaits, and the install step it guards.
module InstallLock {
  import opened Wrappers

  /** company is fixed per service; the lock key adds kind, id and version. */
  datatype Key = Key(kind: string, id: string, version: string)

  /** Where a caller of withMaterializeLock stands; the last three are inside the lock. */
  datatype Stage = Waiting | Entered | Cleared | Inserted | Released

  /** `previous` is the call whose promise this one awaits. */
  datatype Ticket = Ticket(key: Key, previous: Option<nat>, stage: Stage)

  /** `tail` is the materializeLocks map: the last chained promise per key. */
  datatype State = State(tickets: seq<Ticket>, tail: map<Key, nat>, rows: seq<Key>)

  datatype Action =
    | Arrive(key: Key)
    | Enter(t: nat)
    | Check(t: nat)
    | Insert(t: nat)
    | Withdraw(t: nat)
    | Leave(t: nat)

  const INITIAL := State([], map[], [])

  predicate Inside(s: Stage) { s == Entered || s == Cleared || s == Inserted }

  /** previous.then(() => gate): resolved once the whole chain before it has released. */
  ghost predicate Resolved(tickets: seq<Ticket>, t: nat)
    decreases t
  {
    && t < |tickets|
    && tickets[t].stage == Released
    && (tickets[t].previous.None? || (tickets[t].previous.value < t && Resolved(tickets, tickets[t].previous.value)))
  }

  ghost predicate MayEnter(s: State, t: nat) {
    && t < |s.tickets| && s.tickets[t].stage == Waiting
    && (s.tickets[t].previous.None? || Resolved(s.tickets, s.tickets[t].previous.value))
  }

  function SetStage(s: State, t: nat, stage: Stage): State
    requires t < |s.tickets|
  {
    s.(tickets := s.tickets[t := s.tickets[t].(stage := stage)])
  }

  /** findInstalledPackageExact looks at id and version only. */
  predicate AlreadyInstalled(rows: seq<Key>, key: Key) {
    exists r :: r in rows && r.id == key.id && r.version == key.version
  }

  function RemoveLast(rows: seq<Key>, key: Key): seq<Key> {
    if rows == [] then []
    else if rows[|rows| - 1] == key then rows[..|rows| - 1]
    else RemoveLast(rows[..|rows| - 1], key) + [rows[|rows| - 1]]
  }

  /** A disabled action changes nothing. */
  ghost function Step(s: State, a: Action): State {
    match a
    case Arrive(key) =>
      State(s.tickets + [Ticket(key, if key in s.tail then Some(s.tail[key]) else None, Waiting)],
            s.tail[key := |s.tickets|], s.rows)
    case Enter(t) => if MayEnter(s, t) then SetStage(s, t, Entered) else s
    case Check(t) =>
      if t < |s.tickets| && s.tickets[t].stage == Entered && !AlreadyInstalled(s.rows, s.tickets[t].key)
      then SetStage(s, t, Cleared) else s
    case Insert(t) =>
      if t < |s.tickets| && s.tickets[t].stage == Cleared
      then SetStage(s, t, Inserted).(rows := s.rows + [s.tickets[t].key]) else s
    case Withdraw(t) =>
      if t < |s.tickets| && s.tickets[t].stage == Inserted
      then SetStage(s, t, Entered).(rows := RemoveLast(s.rows, s.tickets[t].key)) else s
    case Leave(t) =>
      if t < |s.tickets| && Inside(s.tickets[t].stage) then
        var key := s.tickets[t].key;
        SetStage(s, t, Released).(tail := Freed(s.tail, key, t))
      else s
  }

  ghost function Run(actions: seq<Action>): State {
    if actions == [] then INITIAL else Step(Run(actions[..|actions| - 1]), actions[|actions| - 1])
  }

  // ---- The invariant ------------------------------------------------------

  /** Callers of one key are served in arrival order. */
  ghost predicate Fifo(ts: seq<Ticket>) {
    forall i, j | 0 <= i < j < |ts| && ts[i].key == ts[j].key && ts[j].stage != Waiting :: ts[i].stage == Released
  }

  /** Call `j` awaits the call just before it, or nobody if all before it had released. */
  ghost predicate Link(ts: seq<Ticket>, j: nat)
    requires j < |ts|
  {
    match ts[j].previous
    case None => forall i | 0 <= i < j && ts[i].key == ts[j].key :: ts[i].stage == Released
    case Some(p) => p < j && ts[p].key == ts[j].key && forall i | p < i < j :: ts[i].key != ts[j].key
  }

  ghost predicate Chained(ts: seq<Ticket>) { forall j | 0 <= j < |ts| :: Link(ts, j) }

  /** An entry exists exactly while the key is in use, and names its last caller. */
  ghost predicate TailOk(s: State) {
    && (forall k | k in s.tail ::
          && s.tail[k] < |s.tickets| && s.tickets[s.tail[k]].key == k && s.tickets[s.tail[k]].stage != Released
          && forall i | s.tail[k] < i < |s.tickets| :: s.tickets[i].key != k)
    && forall i | 0 <= i < |s.tickets| && s.tickets[i].stage != Released :: s.tickets[i].key in s.tail
  }

  ghost predicate LockOk(s: State) { Fifo(s.tickets) && Chained(s.tickets) && TailOk(s) }

  lemma {:induction false} ResolvedMeansAllReleased(ts: seq<Ticket>, t: nat)
    requires Chained(ts) && Resolved(ts, t)
    ensures forall i | 0 <= i <= t && ts[i].key == ts[t].key :: ts[i].stage == Released
    decreases t
  {
    assert Link(ts, t);
    match ts[t].previous
    case None =>
    case Some(p) => ResolvedMeansAllReleased(ts, p);
  }

  lemma {:induction false} LinkKept(ts: seq<Ticket>, t: Ticket, j: nat)
    requires j < |ts| && Link(ts, j)
    ensures Link(ts + [t], j)
  {
    var us := ts + [t];
    assert forall i | 0 <= i <= j :: us[i] == ts[i];
  }

  lemma {:induction false} NewLink(s: State, key: Key)
    requires LockOk(s)
    ensures Link(Step(s, Arrive(key)).tickets, |s.tickets|)
  {
    var us := Step(s, Arrive(key)).tickets;
    assert forall i | 0 <= i < |s.tickets| :: us[i] == s.tickets[i];
    if key in s.tail { assert s.tickets[s.tail[key]].key == key; }
  }

  lemma {:induction false} ArriveOrder(s: State, key: Key)
    requires LockOk(s)
    ensures Fifo(Step(s, Arrive(key)).tickets) && Chained(Step(s, Arrive(key)).tickets)
  {
    var us := Step(s, Arrive(key)).tickets;
    forall j | 0 <= j < |us| ensures Link(us, j) {
      if j < |s.tickets| { LinkKept(s.tickets, us[|s.tickets|], j); } else { NewLink(s, key); }
    }
  }

  lemma {:induction false} ArriveTail(s: State, key: Key)
    requires LockOk(s)
    ensures TailOk(Step(s, Arrive(key)))
  {
  }

  lemma {:induction false} ArriveOk(s: State, key: Key)
    requires LockOk(s)
    ensures LockOk(Step(s, Arrive(key)))
  {
    ArriveOrder(s, key);
    ArriveTail(s, key);
  }

  /** Nobody ahead of a caller that may enter is still at the lock. */
  lemma {:induction false} FirstAtTheLock(s: State, t: nat)
    requires LockOk(s) && MayEnter(s, t)
    ensures forall i | 0 <= i < t && s.tickets[i].key == s.tickets[t].key :: s.tickets[i].stage == Released
  {
    assert Link(s.tickets, t);
    if s.tickets[t].previous.Some? { ResolvedMeansAllReleased(s.tickets, s.tickets[t].previous.value); }
  }

  lemma {:induction false} EnterOrder(s: State, t: nat)
    requires LockOk(s) && MayEnter(s, t)
    ensures Fifo(SetStage(s, t, Entered).tickets) && Chained(SetStage(s, t, Entered).tickets)
  {
    FirstAtTheLock(s, t);
    StageKeepsLinks(s, t, Entered);
  }

  lemma {:induction false} EnterOk(s: State, t: nat)
    requires LockOk(s) && MayEnter(s, t)
    ensures LockOk(SetStage(s, t, Entered))
  {
    EnterOrder(s, t);
    assert TailOk(SetStage(s, t, Entered));
  }

  lemma {:induction false} StageKeepsLinks(s: State, t: nat, stage: Stage)
    requires Chained(s.tickets) && t < |s.tickets| && (s.tickets[t].stage == Released ==> stage == Released)
    ensures Chained(SetStage(s, t, stage).tickets)
  {
    var us := SetStage(s, t, stage).tickets;
    forall j | 0 <= j < |us| ensures Link(us, j) { assert Link(s.tickets, j); }
  }

  lemma {:induction false} WithinOrder(s: State, t: nat, stage: Stage)
    requires LockOk(s) && t < |s.tickets| && Inside(s.tickets[t].stage) && Inside(stage)
    ensures Fifo(SetStage(s, t, stage).tickets) && Chained(SetStage(s, t, stage).tickets)
  {
    StageKeepsLinks(s, t, stage);
  }

  lemma {:induction false} WithinTail(s: State, t: nat, stage: Stage)
    requires TailOk(s) && t < |s.tickets| && Inside(s.tickets[t].stage) && Inside(stage)
    ensures TailOk(SetStage(s, t, stage))
  {
  }

  lemma {:induction false} WithinOk(s: State, t: nat, stage: Stage)
    requires LockOk(s) && t < |s.tickets| && Inside(s.tickets[t].stage) && Inside(stage)
    ensures LockOk(SetStage(s, t, stage))
  {
    WithinOrder(s, t, stage);
    WithinTail(s, t, stage);
  }

  function Freed(tail: map<Key, nat>, key: Key, t: nat): map<Key, nat> {
    if key in tail && tail[key] == t then tail - {key} else tail
  }

  lemma {:induction false} ReleaseOrder(s: State, t: nat)
    requires LockOk(s) && t < |s.tickets| && Inside(s.tickets[t].stage)
    ensures Fifo(SetStage(s, t, Released).tickets) && Chained(SetStage(s, t, Released).tickets)
  {
    StageKeepsLinks(s, t, Released);
  }

  lemma {:induction false} ReleaseTail(s: State, t: nat)
    requires LockOk(s) && t < |s.tickets| && Inside(s.tickets[t].stage)
    ensures TailOk(SetStage(s, t, Released).(tail := Freed(s.tail, s.tickets[t].key, t)))
  {
    var key := s.tickets[t].key;
    var u := SetStage(s, t, Released).(tail := Freed(s.tail, key, t));
    forall k | k in u.tail
      ensures u.tail[k] < |u.tickets| && u.tickets[u.tail[k]].key == k && u.tickets[u.tail[k]].stage != Released
      ensures forall i | u.tail[k] < i < |u.tickets| :: u.tickets[i].key != k
    {
      assert u.tail[k] == s.tail[k] && s.tickets[s.tail[k]].key == k;
    }
    forall i | 0 <= i < |u.tickets| && u.tickets[i].stage != Released ensures u.tickets[i].key in u.tail {
      assert s.tickets[i].key in s.tail;
      assert s.tickets[i].key == key ==> i >= t;
    }
  }

  lemma {:induction false} LeaveOk(s: State, t: nat)
    requires LockOk(s) && t < |s.tickets| && Inside(s.tickets[t].stage)
    ensures LockOk(SetStage(s, t, Released).(tail := Freed(s.tail, s.tickets[t].key, t)))
  {
    ReleaseOrder(s, t);
    ReleaseTail(s, t);
  }

  lemma {:induction false} StepOk(s: State, a: Action)
    requires LockOk(s)
    ensures LockOk(Step(s, a))
  {
    match a
    case Arrive(key) => ArriveOk(s, key);
    case Enter(t) => if MayEnter(s, t) { EnterOk(s, t); }
    case Check(t) => if t < |s.tickets| && s.tickets[t].stage == Entered { WithinOk(s, t, Cleared); }
    case Insert(t) => if t < |s.tickets| && s.tickets[t].stage == Cleared { WithinOk(s, t, Inserted); }
    case Withdraw(t) => if t < |s.tickets| && s.tickets[t].stage == Inserted { WithinOk(s, t, Entered); }
    case Leave(t) => if t < |s.tickets| && Inside(s.tickets[t].stage) { LeaveOk(s, t); }
  }

  lemma {:induction false} RunOk(actions: seq<Action>)
    ensures LockOk(Run(actions))
  {
    if actions == [] {
    } else {
      RunOk(actions[..|actions| - 1]);
      StepOk(Run(actions[..|actions| - 1]), actions[|actions| - 1]);
    }
  }

  /** At most one caller per key is inside, and nobody overtakes. */
  lemma {:induction false} MutualExclusionInArrivalOrder(actions: seq<Action>, i: nat, j: nat)
    requires i < j < |Run(actions).tickets|
    requires Run(actions).tickets[i].key == Run(actions).tickets[j].key
    ensures var ts := Run(actions).tickets;
            && !(Inside(ts[i].stage) && Inside(ts[j].stage))
            && (ts[j].stage != Waiting ==> ts[i].stage == Released)
  {
    RunOk(actions);
  }

  /** The map keeps no entry for an idle key and never loses one that is in use. */
  lemma {:induction false} EntryExactlyWhileInUse(actions: seq<Action>, key: Key)
    ensures var s := Run(actions);
            key in s.tail <==> exists i :: 0 <= i < |s.tickets| && s.tickets[i].key == key && s.tickets[i].stage != Released
  {
    RunOk(actions);
    var s := Run(actions);
    if key in s.tail { assert s.tickets[s.tail[key]].key == key; }
  }

  lemma {:induction false} AllReleasedResolves(ts: seq<Ticket>, t: nat)
    requires Chained(ts) && t < |ts|
    requires forall i | 0 <= i <= t && ts[i].key == ts[t].key :: ts[i].stage == Released
    ensures Resolved(ts, t)
    decreases t
  {
    assert Link(ts, t);
    if ts[t].previous.Some? { AllReleasedResolves(ts, ts[t].previous.value); }
  }

  lemma {:induction false} WaitingMayEnter(s: State, t: nat)
    requires Chained(s.tickets) && t < |s.tickets| && s.tickets[t].stage != Released
    requires forall i | 0 <= i < t && s.tickets[i].key == s.tickets[t].key :: s.tickets[i].stage == Released
    ensures Inside(s.tickets[t].stage) || MayEnter(s, t)
  {
    assert Link(s.tickets, t);
    if s.tickets[t].previous.Some? { AllReleasedResolves(s.tickets, s.tickets[t].previous.value); }
  }

  /** No deadlock: the first caller that has not released is inside or may enter now. */
  lemma {:induction false} FirstInLineMayEnter(actions: seq<Action>, t: nat)
    requires t < |Run(actions).tickets| && Run(actions).tickets[t].stage != Released
    requires forall i | 0 <= i < t && Run(actions).tickets[i].key == Run(actions).tickets[t].key ::
               Run(actions).tickets[i].stage == Released
    ensures var s := Run(actions);
            Inside(s.tickets[t].stage) || MayEnter(s, t)
  {
    RunOk(actions);
    WaitingMayEnter(Run(actions), t);
  }

  // ---- What the lock protects ---------------------------------------------

  ghost predicate NoDuplicates(rows: seq<Key>) {
    forall i, j | 0 <= i < j < |rows| :: rows[i] != rows[j]
  }

  /** A caller that found nothing installed still finds nothing until it inserts. */
  ghost predicate ChecksHold(s: State) {
    && (forall t | 0 <= t < |s.tickets| && s.tickets[t].stage == Cleared :: s.tickets[t].key !in s.rows)
    && (forall t | 0 <= t < |s.tickets| && s.tickets[t].stage == Inserted :: s.tickets[t].key in s.rows)
    && NoDuplicates(s.rows)
  }

  lemma {:induction false} AppendDistinct(rows: seq<Key>, key: Key)
    requires NoDuplicates(rows) && key !in rows
    ensures NoDuplicates(rows + [key])
  {
  }

  lemma {:induction false} RemoveLastKeeps(rows: seq<Key>, key: Key)
    requires NoDuplicates(rows)
    ensures var r := RemoveLast(rows, key);
            NoDuplicates(r) && key !in r && forall k | k != key :: k in r <==> k in rows
  {
    if rows == [] {
    } else {
      var front, last := rows[..|rows| - 1], rows[|rows| - 1];
      assert rows == front + [last];
      RemoveLastKeeps(front, key);
      if last == key {
        forall k | k in front ensures k != key {
          var i :| 0 <= i < |front| && front[i] == k;
        }
      } else {
        forall k | k in front ensures k != last {
          var i :| 0 <= i < |front| && front[i] == k;
        }
        AppendDistinct(RemoveLast(front, key), last);
      }
    }
  }

  lemma {:induction false} OthersOutside(s: State, t: nat)
    requires LockOk(s) && t < |s.tickets| && Inside(s.tickets[t].stage)
    ensures forall i | 0 <= i < |s.tickets| && i != t && s.tickets[i].key == s.tickets[t].key :: !Inside(s.tickets[i].stage)
  {
  }

  lemma {:induction false} GuardedInsert(s: State, t: nat)
    requires LockOk(s) && ChecksHold(s) && t < |s.tickets| && s.tickets[t].stage == Cleared
    ensures ChecksHold(SetStage(s, t, Inserted).(rows := s.rows + [s.tickets[t].key]))
  {
    OthersOutside(s, t);
    AppendDistinct(s.rows, s.tickets[t].key);
  }

  lemma {:induction false} GuardedWithdraw(s: State, t: nat)
    requires LockOk(s) && ChecksHold(s) && t < |s.tickets| && s.tickets[t].stage == Inserted
    ensures ChecksHold(SetStage(s, t, Entered).(rows := RemoveLast(s.rows, s.tickets[t].key)))
  {
    OthersOutside(s, t);
    RemoveLastKeeps(s.rows, s.tickets[t].key);
  }

  lemma {:induction false} GuardedStep(s: State, a: Action)
    requires LockOk(s) && ChecksHold(s)
    ensures ChecksHold(Step(s, a))
  {
    match a
    case Withdraw(t) => if t < |s.tickets| && s.tickets[t].stage == Inserted { GuardedWithdraw(s, t); }
    case Insert(t) => if t < |s.tickets| && s.tickets[t].stage == Cleared { GuardedInsert(s, t); }
    case _ =>
  }

  lemma {:induction false} OneRowPerKey(actions: seq<Action>)
    ensures ChecksHold(Run(actions))
  {
    if actions == [] {
    } else {
      OneRowPerKey(actions[..|actions| - 1]);
      RunOk(actions[..|actions| - 1]);
      GuardedStep(Run(actions[..|actions| - 1]), actions[|actions| - 1]);
    }
  }

  lemma {:induction false} RunSnoc(actions: seq<Action>, a: Action)
    ensures Run(actions + [a]) == Step(Run(actions), a)
  {
    assert (actions + [a])[..|actions|] == actions;
  }

  ghost predicate Pair(s: State, a: Key, b: Key, x: Stage, y: Stage, rows: seq<Key>) {
    s.tickets == [Ticket(a, None, x), Ticket(b, None, y)] && s.rows == rows
  }

  lemma {:induction false} TwoArrive(a: Key, b: Key)
    requires a != b
    ensures Pair(Run([Arrive(a), Arrive(b)]), a, b, Waiting, Waiting, [])
  {
    RunSnoc([], Arrive(a));
    assert [] + [Arrive(a)] == [Arrive(a)];
    RunSnoc([Arrive(a)], Arrive(b));
    assert [Arrive(a)] + [Arrive(b)] == [Arrive(a), Arrive(b)];
  }

  lemma {:induction false} TwoInside(a: Key, b: Key, from: seq<Action>)
    requires Pair(Run(from), a, b, Waiting, Waiting, [])
    ensures Pair(Run(from + [Enter(0)] + [Enter(1)]), a, b, Entered, Entered, [])
  {
    RunSnoc(from, Enter(0));
    RunSnoc(from + [Enter(0)], Enter(1));
  }

  lemma {:induction false} TwoCleared(a: Key, b: Key, from: seq<Action>)
    requires Pair(Run(from), a, b, Entered, Entered, [])
    ensures Pair(Run(from + [Check(0)] + [Check(1)]), a, b, Cleared, Cleared, [])
  {
    RunSnoc(from, Check(0));
    RunSnoc(from + [Check(0)], Check(1));
  }

  lemma {:induction false} TwoInserted(a: Key, b: Key, from: seq<Action>)
    requires Pair(Run(from), a, b, Cleared, Cleared, [])
    ensures Pair(Run(from + [Insert(0)] + [Insert(1)]), a, b, Inserted, Inserted, [a, b])
  {
    RunSnoc(from, Insert(0));
    RunSnoc(from + [Insert(0)], Insert(1));
  }

  /**
   * The check ignores the kind that the lock key contains: two packages of different kinds
   * with one id and version are not serialized, and both can pass the check and be installed.
   */
  lemma {:induction false} TwoKindsBothInstall(a: Key, b: Key)
    requires a.kind != b.kind && a.id == b.id && a.version == b.version
    ensures exists actions :: Run(actions).rows == [a, b]
  {
    TwoArrive(a, b);
    var s1 := [Arrive(a), Arrive(b)];
    TwoInside(a, b, s1);
    var s2 := s1 + [Enter(0)] + [Enter(1)];
    TwoCleared(a, b, s2);
    var s3 := s2 + [Check(0)] + [Check(1)];
    TwoInserted(a, b, s3);
    assert Run(s3 + [Insert(0)] + [Insert(1)]).rows == [a, b];
  }
}
