// The browser session registry: a map of sessions and a bounded queue of tombstones.
module Browser {
  import opened Wrappers

  datatype Status = Loading | Ready | Failed | Closed

  datatype Scope = Scope(companyId: string, projectId: string, threadId: Option<string>)

  datatype Bounds = Bounds(x: real, y: real, width: real, height: real)

  datatype Origin = Human | Agent | Page

  datatype Snapshot = Snapshot(
    scope: Scope, agent: bool, status: Status, url: string, title: Option<string>,
    back: bool, forward: bool, sequence: nat, visible: bool, error: Option<string>)

  datatype Record = Record(webviewLabel: string, host: string, bounds: Bounds, snapshot: Snapshot, pending: Option<Origin>)

  /** Titles and messages arrive here already trimmed and cut. */
  datatype Mutation =
    | NavigationStarted(url: string)
    | UrlObserved(url: string)
    | LoadStarted(url: string)
    | LoadFinished(url: string)
    | TitleChanged(title: Option<string>)
    | HistoryState(back: bool, forward: bool)
    | Move(bounds: Bounds)
    | Visibility(visible: bool)
    | Notice(message: Option<string>)
    | Fail(message: Option<string>)
    | Shut

  datatype Error = BadLabel | NotFound | ScopeMismatch | OwnerMismatch | SessionClosed

  datatype Result<+T> = Ok(value: T) | Err(error: Error)

  const MAX_TOMBSTONES := 256
  const U64_MAX := 0xFFFF_FFFF_FFFF_FFFF

  datatype Registry = Registry(sessions: map<string, Record>, tombstones: seq<string>)

  function Advance(n: nat): nat { if n < U64_MAX then n + 1 else n }

  function Changed(s: Snapshot, m: Mutation): Snapshot {
    match m
    case NavigationStarted(url) => s.(url := url, status := Loading, error := None)
    case LoadStarted(url) => s.(url := url, status := Loading, error := None)
    case UrlObserved(url) => s.(url := url)
    case LoadFinished(url) => s.(url := url, status := Ready, error := None)
    case TitleChanged(title) => s.(title := title)
    case HistoryState(back, forward) => s.(back := back, forward := forward)
    case Move(_) => s
    case Visibility(visible) => s.(visible := visible)
    case Notice(message) => s.(error := message)
    case Fail(message) => s.(status := Failed, error := message)
    case Shut => s.(status := Closed, visible := false, back := false, forward := false, error := None)
  }

  /** apply_mutation */
  function Applied(s: Snapshot, m: Mutation): Snapshot {
    Changed(s, m).(sequence := Advance(s.sequence))
  }

  predicate IsClosed(r: Registry, id: string) { id in r.sessions && r.sessions[id].snapshot.status == Closed }

  predicate IsActive(r: Registry, id: string) { id in r.sessions && r.sessions[id].snapshot.status != Closed }

  predicate LabelChar(c: char) { 'a' <= c <= 'z' || 'A' <= c <= 'Z' || '0' <= c <= '9' || c == '-' || c == '_' }

  predicate ValidLabel(id: string) { 1 <= |id| <= 80 && forall i | 0 <= i < |id| :: LabelChar(id[i]) }

  // ---- What each call does to the registry -----------------------------------

  datatype Op =
    | Reserve(id: string, scope: Scope, url: string, bounds: Bounds, host: string, agent: bool, visible: bool)
    | Abandon(id: string)
    | SetPending(id: string, origin: Origin)
    | ClearPending(id: string)
    | Navigation(id: string, url: string)
    | Mutate(id: string, mutation: Mutation)
    | Reattach(id: string, scope: Scope, bounds: Bounds, host: string)
    | History(id: string, back: bool, forward: bool)
    | Close(id: string, scope: Scope)

  function Fresh(op: Op): Record
    requires op.Reserve?
  {
    Record("browser-" + op.id, op.host, op.bounds,
           Snapshot(op.scope, op.agent, Loading, op.url, None, false, false, 1, op.visible, None),
           Some(if op.agent then Agent else Human))
  }

  function ReserveError(r: Registry, op: Op): Option<Error>
    requires op.Reserve?
  {
    if !ValidLabel(op.id) then Some(BadLabel)
    else if op.id !in r.sessions then None
    else if r.sessions[op.id].snapshot.scope != op.scope then Some(ScopeMismatch)
    else if r.sessions[op.id].snapshot.agent != op.agent then Some(OwnerMismatch)
    else if IsClosed(r, op.id) then Some(SessionClosed)
    else None
  }

  function ScopedError(r: Registry, id: string, scope: Scope): Option<Error> {
    if id !in r.sessions then Some(NotFound)
    else if r.sessions[id].snapshot.scope != scope then Some(ScopeMismatch)
    else None
  }

  function ActiveError(r: Registry, id: string, scope: Scope): Option<Error> {
    if ScopedError(r, id, scope).Some? then ScopedError(r, id, scope)
    else if IsClosed(r, id) then Some(SessionClosed)
    else None
  }

  function Update(r: Registry, id: string, record: Record): Registry { r.(sessions := r.sessions[id := record]) }

  function Mutated(record: Record, m: Mutation): Record {
    record.(bounds := if m.Move? then m.bounds else record.bounds, snapshot := Applied(record.snapshot, m))
  }

  function Reattached(record: Record, bounds: Bounds, host: string): Record {
    record.(host := host, bounds := bounds, snapshot := Applied(Applied(record.snapshot, Move(bounds)), Visibility(true)))
  }

  /** Drops the oldest tombstones over the limit, each with its record if that is closed. */
  function Prune(r: Registry): Registry
    decreases |r.tombstones|
  {
    if |r.tombstones| <= MAX_TOMBSTONES then r
    else
      var id := r.tombstones[0];
      Prune(Registry(if IsClosed(r, id) then r.sessions - {id} else r.sessions, r.tombstones[1..]))
  }

  function Entombed(r: Registry, id: string): Registry
    requires id in r.sessions
  {
    Registry(r.sessions[id := Mutated(r.sessions[id], Shut)], r.tombstones + [id])
  }

  function Step(r: Registry, op: Op): Registry {
    match op
    case Reserve(id, _, _, _, _, _, _) => if ReserveError(r, op).None? && id !in r.sessions then Update(r, id, Fresh(op)) else r
    case Abandon(id) => r.(sessions := r.sessions - {id})
    case SetPending(id, origin) => if id in r.sessions then Update(r, id, r.sessions[id].(pending := Some(origin))) else r
    case ClearPending(id) => if id in r.sessions then Update(r, id, r.sessions[id].(pending := None)) else r
    case Navigation(id, url) =>
      if IsActive(r, id) then Update(r, id, Mutated(r.sessions[id], NavigationStarted(url)).(pending := None)) else r
    case Mutate(id, m) =>
      if IsActive(r, id) || (id in r.sessions && m.Shut?) then Update(r, id, Mutated(r.sessions[id], m)) else r
    case Reattach(id, scope, bounds, host) =>
      if ActiveError(r, id, scope).None? then Update(r, id, Reattached(r.sessions[id], bounds, host)) else r
    case History(id, back, forward) =>
      if IsActive(r, id) && (r.sessions[id].snapshot.back != back || r.sessions[id].snapshot.forward != forward)
      then Update(r, id, Mutated(r.sessions[id], HistoryState(back, forward))) else r
    case Close(id, scope) =>
      if ScopedError(r, id, scope).Some? then r
      else Prune(if IsActive(r, id) then Entombed(r, id) else r)
  }

  const EMPTY := Registry(map[], [])

  function Run(ops: seq<Op>): Registry {
    if ops == [] then EMPTY else Step(Run(ops[..|ops| - 1]), ops[|ops| - 1])
  }

  // ---- Pruning ------------------------------------------------------------------

  function Excess(r: Registry): nat { if |r.tombstones| > MAX_TOMBSTONES then |r.tombstones| - MAX_TOMBSTONES else 0 }

  lemma {:induction false} PruneQueue(r: Registry)
    ensures Prune(r).tombstones == r.tombstones[Excess(r)..]
    decreases |r.tombstones|
  {
    if |r.tombstones| > MAX_TOMBSTONES {
      var id := r.tombstones[0];
      var next := Registry(if IsClosed(r, id) then r.sessions - {id} else r.sessions, r.tombstones[1..]);
      PruneQueue(next);
      assert next.tombstones[Excess(next)..] == r.tombstones[Excess(r)..];
    }
  }

  lemma {:induction false} PruneOne(r: Registry, id: string)
    ensures id in Prune(r).sessions <==> id in r.sessions && !(IsClosed(r, id) && id in r.tombstones[..Excess(r)])
    ensures id in Prune(r).sessions ==> Prune(r).sessions[id] == r.sessions[id]
    decreases |r.tombstones|
  {
    if |r.tombstones| > MAX_TOMBSTONES {
      var first := r.tombstones[0];
      var next := Registry(if IsClosed(r, first) then r.sessions - {first} else r.sessions, r.tombstones[1..]);
      PruneOne(next, id);
      assert r.tombstones[..Excess(r)] == [first] + next.tombstones[..Excess(next)];
    }
  }

  /**
   * Exactly what pruning does: the newest tombstones stay, and a session goes when it is closed
   * and one of the dropped tombstones names it. An active session never goes.
   */
  lemma {:induction false} PruneExact(r: Registry)
    ensures Prune(r).tombstones == r.tombstones[Excess(r)..]
    ensures forall id :: id in Prune(r).sessions <==> id in r.sessions && !(IsClosed(r, id) && id in r.tombstones[..Excess(r)])
    ensures forall id | id in Prune(r).sessions :: Prune(r).sessions[id] == r.sessions[id]
  {
    PruneQueue(r);
    forall id
      ensures id in Prune(r).sessions <==> id in r.sessions && !(IsClosed(r, id) && id in r.tombstones[..Excess(r)])
      ensures id in Prune(r).sessions ==> Prune(r).sessions[id] == r.sessions[id]
    {
      PruneOne(r, id);
    }
  }

  /** However stale or repeated the tombstones, a close leaves every other active session alone. */
  lemma {:induction false} ActiveNeverPruned(r: Registry, id: string, scope: Scope, other: string)
    requires IsActive(r, other) && other != id
    ensures IsActive(Step(r, Close(id, scope)), other)
    ensures Step(r, Close(id, scope)).sessions[other] == r.sessions[other]
  {
    if ScopedError(r, id, scope).None? {
      PruneExact(if IsActive(r, id) then Entombed(r, id) else r);
    }
  }

  // ---- At most 256 closed records ---------------------------------------------------

  /** A tombstone names every closed session, but for those in `bare`. */
  ghost predicate TombstonedBut(r: Registry, bare: set<string>) {
    && |r.tombstones| <= MAX_TOMBSTONES
    && forall id | id in r.sessions && IsClosed(r, id) :: id in r.tombstones || id in bare
  }

  ghost predicate Tombstoned(r: Registry) { TombstonedBut(r, {}) }

  lemma {:induction false} PruneTombstoned(r: Registry, bare: set<string>)
    requires forall id | id in r.sessions && IsClosed(r, id) :: id in r.tombstones || id in bare
    ensures TombstonedBut(Prune(r), bare)
  {
    PruneExact(r);
    var n := Excess(r);
    assert r.tombstones == r.tombstones[..n] + r.tombstones[n..];
  }

  /** The session a call closes through mutate, which leaves no tombstone. */
  function BareShut(op: Op): set<string> { if op.Mutate? && op.mutation.Shut? then {op.id} else {} }

  function BareShuts(ops: seq<Op>): set<string> {
    if ops == [] then {} else BareShuts(ops[..|ops| - 1]) + BareShut(ops[|ops| - 1])
  }

  /** No other call than a close or a bare closing mutation closes anything. */
  lemma {:induction false} OnlyCloseCloses(r: Registry, op: Op, id: string)
    requires !op.Close?
    ensures Step(r, op).tombstones == r.tombstones
    ensures IsClosed(Step(r, op), id) ==> IsClosed(r, id) || id in BareShut(op)
  {
  }

  lemma {:induction false} StepTombstoned(r: Registry, op: Op, bare: set<string>)
    requires TombstonedBut(r, bare)
    ensures TombstonedBut(Step(r, op), bare + BareShut(op))
  {
    if !op.Close? {
      OnlyCloseCloses(r, op, op.id);
      forall id | IsClosed(Step(r, op), id) ensures id in r.tombstones || id in bare + BareShut(op) {
        OnlyCloseCloses(r, op, id);
      }
    } else if ScopedError(r, op.id, op.scope).None? {
      PruneTombstoned(if IsActive(r, op.id) then Entombed(r, op.id) else r, bare);
    }
  }

  lemma {:induction false} RunTombstoned(ops: seq<Op>)
    ensures TombstonedBut(Run(ops), BareShuts(ops))
  {
    if ops == [] {
    } else {
      RunTombstoned(ops[..|ops| - 1]);
      StepTombstoned(Run(ops[..|ops| - 1]), ops[|ops| - 1], BareShuts(ops[..|ops| - 1]));
    }
  }

  function ClosedIds(r: Registry): set<string> { set id | id in r.sessions && r.sessions[id].snapshot.status == Closed }

  lemma {:induction false} ElementsFit(s: set<string>, q: seq<string>)
    requires forall x | x in s :: x in q
    ensures |s| <= |q|
    decreases |q|
  {
    if q == [] {
      assert s == {};
    } else {
      var front, last := q[..|q| - 1], q[|q| - 1];
      assert q == front + [last];
      ElementsFit(s - {last}, front);
      assert |s| <= |s - {last}| + 1 by {
        if last in s { assert s == (s - {last}) + {last}; } else { assert s - {last} == s; }
      }
    }
  }

  /** Whatever the calls, no more than 256 closed sessions are kept, but for those closed through mutate. */
  lemma {:induction false} ClosedAreBounded(ops: seq<Op>)
    ensures |ClosedIds(Run(ops)) - BareShuts(ops)| <= MAX_TOMBSTONES
    ensures BareShuts(ops) == {} ==> |ClosedIds(Run(ops))| <= MAX_TOMBSTONES
    ensures forall id :: IsClosed(Run(ops), id) && id !in BareShuts(ops) ==> id in Run(ops).tombstones
  {
    RunTombstoned(ops);
    ElementsFit(ClosedIds(Run(ops)) - BareShuts(ops), Run(ops).tombstones);
    if BareShuts(ops) == {} { assert ClosedIds(Run(ops)) - BareShuts(ops) == ClosedIds(Run(ops)); }
  }

  /**
   * mutate() itself also takes the closing mutation and leaves no tombstone: closing an active
   * session that way keeps the bound's invariant only if a stale tombstone happens to name it.
   */
  lemma {:induction false} BareShutBreaksIff(r: Registry, id: string)
    requires Tombstoned(r) && IsActive(r, id)
    ensures Tombstoned(Step(r, Mutate(id, Shut))) <==> id in r.tombstones
  {
    assert IsClosed(Step(r, Mutate(id, Shut)), id);
  }

  // ---- One session over time -------------------------------------------------------

  /** What may happen to a session that is there before and after a call. */
  predicate Evolves(a: Snapshot, b: Snapshot) {
    || a == b
    || (b.scope == a.scope && b.agent == a.agent && a.sequence <= b.sequence
        && (a.sequence < U64_MAX ==> a.sequence < b.sequence)
        && (a.status == Closed ==> b.status == Closed && b.url == a.url && b.title == a.title))
  }

  lemma {:induction false} AppliedEvolves(s: Snapshot, m: Mutation)
    requires s.status != Closed || m.Shut?
    ensures Evolves(s, Applied(s, m))
  {
  }

  /** Scope and owner are fixed, every visible change raises the sequence, closed is final. */
  lemma {:induction false} StepEvolves(r: Registry, op: Op, id: string)
    requires id in r.sessions
    ensures id in Step(r, op).sessions ==> Evolves(r.sessions[id].snapshot, Step(r, op).sessions[id].snapshot)
    ensures id in Step(r, op).sessions && IsClosed(r, id) && id !in BareShut(op) ==>
              Step(r, op).sessions[id].snapshot == r.sessions[id].snapshot
  {
    match op
    case Close(_, scope) =>
      if ScopedError(r, op.id, scope).None? {
        PruneExact(if IsActive(r, op.id) then Entombed(r, op.id) else r);
        if IsActive(r, id) { AppliedEvolves(r.sessions[id].snapshot, Shut); }
      }
    case Mutate(_, m) => if IsActive(r, id) || m.Shut? { AppliedEvolves(r.sessions[id].snapshot, m); }
    case Navigation(_, url) => if IsActive(r, id) { AppliedEvolves(r.sessions[id].snapshot, NavigationStarted(url)); }
    case History(_, back, forward) => if IsActive(r, id) { AppliedEvolves(r.sessions[id].snapshot, HistoryState(back, forward)); }
    case Reattach(_, scope, bounds, host) =>
      if IsActive(r, id) {
        AppliedEvolves(r.sessions[id].snapshot, Move(bounds));
        AppliedEvolves(Applied(r.sessions[id].snapshot, Move(bounds)), Visibility(true));
      }
    case _ =>
  }

  /** A session leaves only by abandon, or closed, by the pruning of a close. */
  lemma {:induction false} OnlyClosedAreDropped(r: Registry, op: Op, id: string)
    requires id in r.sessions && id !in Step(r, op).sessions
    ensures op == Abandon(id) || (op.Close? && (IsClosed(r, id) || op.id == id))
  {
    if op.Close? && ScopedError(r, op.id, op.scope).None? {
      PruneExact(if IsActive(r, op.id) then Entombed(r, op.id) else r);
    }
  }

  lemma {:induction false} EvolvesTrans(a: Snapshot, b: Snapshot, c: Snapshot)
    requires Evolves(a, b) && Evolves(b, c)
    ensures Evolves(a, c)
  {
  }

  function RunFrom(r: Registry, ops: seq<Op>): Registry {
    if ops == [] then r else Step(RunFrom(r, ops[..|ops| - 1]), ops[|ops| - 1])
  }

  ghost predicate Stays(r: Registry, ops: seq<Op>, id: string) {
    forall k | 0 <= k <= |ops| :: id in RunFrom(r, ops[..k]).sessions
  }

  /** The same over any number of calls, while the session is kept. */
  lemma {:induction false} SessionEvolves(r: Registry, ops: seq<Op>, id: string)
    requires Stays(r, ops, id)
    ensures id in r.sessions && id in RunFrom(r, ops).sessions
    ensures Evolves(r.sessions[id].snapshot, RunFrom(r, ops).sessions[id].snapshot)
    ensures IsClosed(r, id) && id !in BareShuts(ops) ==> RunFrom(r, ops).sessions[id].snapshot == r.sessions[id].snapshot
  {
    assert ops[..0] == [] && ops[..|ops|] == ops;
    assert RunFrom(r, ops[..0]) == r && id in RunFrom(r, ops[..|ops|]).sessions;
    if ops == [] {
    } else {
      var front, op := ops[..|ops| - 1], ops[|ops| - 1];
      assert forall k | 0 <= k <= |front| :: front[..k] == ops[..k];
      SessionEvolves(r, front, id);
      StepEvolves(RunFrom(r, front), op, id);
      EvolvesTrans(r.sessions[id].snapshot, RunFrom(r, front).sessions[id].snapshot, RunFrom(r, ops).sessions[id].snapshot);
    }
  }

  /** A closed session is neither reopened nor reserved again while its record is kept. */
  lemma {:induction false} ClosedIsFinal(r: Registry, ops: seq<Op>, reserve: Op)
    requires reserve.Reserve? && IsClosed(r, reserve.id) && Stays(r, ops, reserve.id)
    ensures IsClosed(RunFrom(r, ops), reserve.id)
    ensures ReserveError(RunFrom(r, ops), reserve).Some?
    ensures Step(RunFrom(r, ops), reserve) == RunFrom(r, ops)
  {
    SessionEvolves(r, ops, reserve.id);
  }

  // ---- Which closed sessions are kept ------------------------------------------------

  /** The sessions closed by close_record, in order. */
  function Closings(ops: seq<Op>): seq<string> {
    if ops == [] then []
    else
      var op, before := ops[|ops| - 1], Run(ops[..|ops| - 1]);
      Closings(ops[..|ops| - 1]) + Closes(before, op)
  }

  function Newest(log: seq<string>): seq<string> {
    if |log| > MAX_TOMBSTONES then log[|log| - MAX_TOMBSTONES..] else log
  }

  lemma {:induction false} NewestSnoc(log: seq<string>, id: string)
    ensures Newest(Newest(log) + [id]) == Newest(log + [id])
    ensures Newest(Newest(log)) == Newest(log)
  {
  }

  function Closes(r: Registry, op: Op): seq<string> {
    if op.Close? && ScopedError(r, op.id, op.scope).None? && IsActive(r, op.id) then [op.id] else []
  }

  lemma {:induction false} StepQueue(r: Registry, op: Op)
    requires |r.tombstones| <= MAX_TOMBSTONES
    ensures Step(r, op).tombstones == Newest(r.tombstones + Closes(r, op))
  {
    assert r.tombstones + [] == r.tombstones;
    if op.Close? && ScopedError(r, op.id, op.scope).None? {
      PruneExact(if IsActive(r, op.id) then Entombed(r, op.id) else r);
    }
  }

  /** The queue is the last 256 closings, whatever else was called in between. */
  lemma {:induction false} QueueIsNewestClosings(ops: seq<Op>)
    ensures Run(ops).tombstones == Newest(Closings(ops))
  {
    if ops == [] {
    } else {
      var front, op := ops[..|ops| - 1], ops[|ops| - 1];
      QueueIsNewestClosings(front);
      StepQueue(Run(front), op);
      NewestSnoc(Closings(front), op.id);
      assert Closings(front) + [] == Closings(front) && Newest(Closings(front)) + [] == Newest(Closings(front));
    }
  }

  ghost predicate Distinct(q: seq<string>) { forall i, j | 0 <= i < j < |q| :: q[i] != q[j] }

  ghost predicate QueueExact(r: Registry) {
    Tombstoned(r) && Distinct(r.tombstones) && forall id | id in r.tombstones :: IsClosed(r, id)
  }

  ghost predicate Ordinary(op: Op) { !op.Abandon? && !(op.Mutate? && op.mutation.Shut?) }

  lemma {:induction false} OtherCallExact(r: Registry, op: Op)
    requires QueueExact(r) && Ordinary(op) && !op.Close?
    ensures QueueExact(Step(r, op))
  {
    StepTombstoned(r, op, {});
    assert {} + BareShut(op) == {};
  }

  lemma {:induction false} EntombedExact(r: Registry, id: string)
    requires QueueExact(r) && IsActive(r, id)
    ensures var e := Entombed(r, id);
            && Distinct(e.tombstones) && (forall x | x in e.tombstones :: IsClosed(e, x))
            && (forall x | x in e.sessions && IsClosed(e, x) :: x in e.tombstones)
  {
  }

  lemma {:induction false} KeptNotDropped(q: seq<string>, n: nat, x: string)
    requires Distinct(q) && n <= |q| && x in q[n..]
    ensures x in q && x !in q[..n]
  {
    var i :| 0 <= i < |q[n..]| && q[n..][i] == x;
    assert q[n + i] == x;
    forall j | 0 <= j < n ensures q[..n][j] != x { assert q[j] != q[n + i]; }
  }

  lemma {:induction false} PruneDistinct(e: Registry)
    requires Distinct(e.tombstones) && forall x | x in e.tombstones :: IsClosed(e, x)
    requires forall x | x in e.sessions && IsClosed(e, x) :: x in e.tombstones
    ensures QueueExact(Prune(e))
  {
    PruneQueue(e);
    PruneTombstoned(e, {});
    forall x | x in Prune(e).tombstones ensures IsClosed(Prune(e), x) {
      KeptNotDropped(e.tombstones, Excess(e), x);
      PruneOne(e, x);
    }
  }

  lemma {:induction false} OrdinaryRunExact(ops: seq<Op>)
    requires forall op | op in ops :: Ordinary(op)
    ensures QueueExact(Run(ops))
  {
    if ops == [] {
    } else {
      var front, op := ops[..|ops| - 1], ops[|ops| - 1];
      assert op in ops && forall o | o in front :: o in ops;
      OrdinaryRunExact(front);
      var r := Run(front);
      if !op.Close? {
        OtherCallExact(r, op);
      } else if ScopedError(r, op.id, op.scope).None? {
        if IsActive(r, op.id) {
          EntombedExact(r, op.id);
          PruneDistinct(Entombed(r, op.id));
        } else {
          PruneDistinct(r);
        }
      }
    }
  }

  /** While no reservation is abandoned, the closed sessions kept are exactly the last 256 closed. */
  lemma {:induction false} ClosedAreTheNewest(ops: seq<Op>, id: string)
    requires forall op | op in ops :: Ordinary(op)
    ensures IsClosed(Run(ops), id) <==> id in Newest(Closings(ops))
  {
    OrdinaryRunExact(ops);
    QueueIsNewestClosings(ops);
  }

  // ---- The registry object --------------------------------------------------------------

  class BrowserSessionRegistry {
    var sessions: map<string, Record>
    var tombstones: seq<string>

    constructor ()
      ensures State() == EMPTY
    {
      sessions, tombstones := map[], [];
    }

    function State(): Registry
      reads this
    {
      Registry(sessions, tombstones)
    }

    /** Ok(true) is a new session, Ok(false) an existing one. */
    method ReserveSession(op: Op) returns (r: Result<bool>)
      requires op.Reserve?
      modifies this`sessions
      ensures State() == Step(old(State()), op)
      ensures r == match ReserveError(old(State()), op)
                   case Some(e) => Err(e)
                   case None => Ok(op.id !in old(sessions))
    {
      if !ValidLabel(op.id) {
        return Err(BadLabel);
      }
      if op.id in sessions {
        var record := sessions[op.id];
        if record.snapshot.scope != op.scope {
          return Err(ScopeMismatch);
        }
        if record.snapshot.agent != op.agent {
          return Err(OwnerMismatch);
        }
        if record.snapshot.status == Closed {
          return Err(SessionClosed);
        }
        return Ok(false);
      }
      sessions := sessions[op.id := Fresh(op)];
      r := Ok(true);
    }

    method AbandonSession(id: string)
      modifies this`sessions
      ensures State() == Step(old(State()), Abandon(id))
    {
      sessions := sessions - {id};
    }

    method Access(id: string, scope: Scope) returns (r: Result<Record>)
      ensures r == match ScopedError(State(), id, scope) case Some(e) => Err(e) case None => Ok(sessions[id])
    {
      if id !in sessions {
        return Err(NotFound);
      }
      if sessions[id].snapshot.scope != scope {
        return Err(ScopeMismatch);
      }
      r := Ok(sessions[id]);
    }

    method ActiveAccess(id: string, scope: Scope) returns (r: Result<Record>)
      ensures r == match ActiveError(State(), id, scope) case Some(e) => Err(e) case None => Ok(sessions[id])
    {
      r := Access(id, scope);
      if r.Ok? && r.value.snapshot.status == Closed {
        r := Err(SessionClosed);
      }
    }

    method SetPendingOrigin(id: string, origin: Origin)
      modifies this`sessions
      ensures State() == Step(old(State()), SetPending(id, origin))
    {
      if id in sessions {
        sessions := sessions[id := sessions[id].(pending := Some(origin))];
      }
    }

    method ClearPendingOrigin(id: string)
      modifies this`sessions
      ensures State() == Step(old(State()), ClearPending(id))
    {
      if id in sessions {
        sessions := sessions[id := sessions[id].(pending := None)];
      }
    }

    /** The origin is consumed by the navigation it announced. */
    method Navigate(id: string, url: string) returns (r: Option<(Record, Origin)>)
      modifies this`sessions
      ensures State() == Step(old(State()), Navigation(id, url))
      ensures r.Some? <==> IsActive(old(State()), id)
      ensures r.Some? ==> r.value == (sessions[id], match old(sessions)[id].pending case Some(o) => o case None => Page)
    {
      if id !in sessions || sessions[id].snapshot.status == Closed {
        return None;
      }
      var record := sessions[id];
      var origin := if record.pending.Some? then record.pending.value else Page;
      record := record.(pending := None);
      record := record.(snapshot := Applied(record.snapshot, NavigationStarted(url)));
      sessions := sessions[id := record];
      r := Some((record, origin));
    }

    method MutateSession(id: string, m: Mutation) returns (r: Option<Record>)
      modifies this`sessions
      ensures State() == Step(old(State()), Mutate(id, m))
      ensures r == if IsActive(old(State()), id) || (id in old(sessions) && m.Shut?) then Some(sessions[id]) else None
    {
      if id !in sessions {
        return None;
      }
      var record := sessions[id];
      if record.snapshot.status == Closed && !m.Shut? {
        return None;
      }
      match m {
        case Move(bounds) =>
          record := record.(bounds := bounds);
          record := record.(snapshot := Applied(record.snapshot, Move(bounds)));
        case _ =>
          record := record.(snapshot := Applied(record.snapshot, m));
      }
      sessions := sessions[id := record];
      r := Some(record);
    }

    method ReattachSession(id: string, scope: Scope, bounds: Bounds, host: string) returns (r: Result<Record>)
      modifies this`sessions
      ensures State() == Step(old(State()), Reattach(id, scope, bounds, host))
      ensures r == match ActiveError(old(State()), id, scope) case Some(e) => Err(e) case None => Ok(sessions[id])
    {
      r := ActiveAccess(id, scope);
      if r.Err? {
        return;
      }
      var record := sessions[id].(host := host, bounds := bounds);
      record := record.(snapshot := Applied(record.snapshot, Move(bounds)));
      record := record.(snapshot := Applied(record.snapshot, Visibility(true)));
      sessions := sessions[id := record];
      r := Ok(record);
    }

    method HistoryIfChanged(id: string, back: bool, forward: bool) returns (r: Option<Record>)
      modifies this`sessions
      ensures State() == Step(old(State()), History(id, back, forward))
      ensures r.None? <==> !IsActive(old(State()), id)
                           || (old(sessions)[id].snapshot.back == back && old(sessions)[id].snapshot.forward == forward)
      ensures r.Some? ==> id in sessions && r.value == sessions[id]
      ensures r.Some? ==> sessions[id].snapshot.back == back && sessions[id].snapshot.forward == forward
      ensures r.None? ==> State() == old(State())
    {
      if id !in sessions {
        return None;
      }
      var record := sessions[id];
      if record.snapshot.status == Closed || (record.snapshot.back == back && record.snapshot.forward == forward) {
        return None;
      }
      record := record.(snapshot := Applied(record.snapshot, HistoryState(back, forward)));
      sessions := sessions[id := record];
      r := Some(record);
    }

    method PruneTombstones()
      modifies this
      ensures State() == Prune(old(State()))
    {
      while |tombstones| > MAX_TOMBSTONES
        modifies this
        invariant Prune(State()) == Prune(old(State()))
        decreases |tombstones|
      {
        var id := tombstones[0];
        tombstones := tombstones[1..];
        if id in sessions && sessions[id].snapshot.status == Closed {
          sessions := sessions - {id};
        }
      }
    }

    /** The record as it was closed, and whether this call closed it. */
    method CloseRecord(id: string, scope: Scope) returns (r: Result<(Record, bool)>)
      modifies this
      ensures State() == Step(old(State()), Close(id, scope))
      ensures r == match ScopedError(old(State()), id, scope)
                   case Some(e) => Err(e)
                   case None =>
                     if IsActive(old(State()), id) then Ok((Mutated(old(sessions)[id], Shut), true))
                     else Ok((old(sessions)[id], false))
    {
      if id !in sessions {
        return Err(NotFound);
      }
      var record := sessions[id];
      if record.snapshot.scope != scope {
        return Err(ScopeMismatch);
      }
      var wasActive := record.snapshot.status != Closed;
      if wasActive {
        record := record.(snapshot := Applied(record.snapshot, Shut));
        sessions := sessions[id := record];
        tombstones := tombstones + [id];
      }
      PruneTombstones();
      r := Ok((record, wasActive));
    }

    /** close_all: the active sessions, in any order, are each closed with the scope they were listed with. */
    method CloseAll(active: seq<string>)
      requires forall id :: id in active <==> IsActive(State(), id)
      modifies this
      ensures forall id :: !IsActive(State(), id)
      ensures |tombstones| <= MAX_TOMBSTONES || active == []
    {
      var listed := sessions;
      ghost var start := State();
      for k := 0 to |active|
        modifies this
        invariant StillListed(State(), start, active[..k])
      {
        var id := active[k];
        ghost var before := State();
        assert id in active && IsActive(start, id);
        var r := CloseRecord(id, listed[id].snapshot.scope);
        CloseListed(before, start, active[..k], id);
        assert active[..k + 1] == active[..k] + [id];
      }
      assert active[..|active|] == active;
    }
  }

  /** Sessions that are still active were listed, have their listed scope and are not done yet. */
  ghost predicate StillListed(r: Registry, start: Registry, done: seq<string>) {
    && (if done == [] then r == start else |r.tombstones| <= MAX_TOMBSTONES)
    && forall id | IsActive(r, id) ::
         IsActive(start, id) && r.sessions[id].snapshot.scope == start.sessions[id].snapshot.scope && id !in done
  }

  lemma {:induction false} CloseListed(r: Registry, start: Registry, done: seq<string>, id: string)
    requires StillListed(r, start, done) && IsActive(start, id)
    ensures StillListed(Step(r, Close(id, start.sessions[id].snapshot.scope)), start, done + [id])
  {
    var scope := start.sessions[id].snapshot.scope;
    if ScopedError(r, id, scope).None? { ClosedByClose(r, id); }
  }

  lemma {:induction false} ClosedByClose(r: Registry, id: string)
    requires id in r.sessions
    ensures var u := Step(r, Close(id, r.sessions[id].snapshot.scope));
            && !IsActive(u, id) && |u.tombstones| <= MAX_TOMBSTONES
            && forall other | other != id :: IsActive(u, other) <==> IsActive(r, other)
    ensures var u := Step(r, Close(id, r.sessions[id].snapshot.scope));
            forall other | other != id && IsActive(r, other) :: u.sessions[other] == r.sessions[other]
  {
    PruneExact(if IsActive(r, id) then Entombed(r, id) else r);
  }
}
