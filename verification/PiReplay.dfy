// The PI reattach driver over the run stream, as a state machine whose steps
// are the critical sections of the host: any number of subscribers, publishes
// and the terminal mark interleave in any order.
module PiReplay {
  import opened RunStream
  import opened Wrappers

  datatype Phase = Replaying | Draining | LivePhase | Finished | Failed

  /** `handed` is everything the core has handed to this subscriber, in order. */
  datatype Session<E> = Session(after: nat, through: nat, attached: bool, phase: Phase, handed: seq<Entry<E>>)
  {
    function Position(): nat { after + |handed| }
  }

  datatype System<E> = System(stream: Stream<E>, sessions: map<nat, Session<E>>, terminalAt: nat)

  datatype Action<E> =
    | Publish(event: E)
    | Terminal
    | Attach(id: nat, after: nat)
    | Advance(id: nat)
    | Drop(id: nat)

  function Initial<E>(): System<E> {
    System(Stream([], map[], false, PI), map[], 0)
  }

  function Handed<E>(s: Session<E>, entry: Entry<E>): Session<E> {
    s.(handed := s.handed + [entry])
  }

  /** Every live subscriber receives the new entry as part of the publish. */
  function PublishStep<E>(sys: System<E>, e: E): System<E> {
    var stream := Published(sys.stream, e);
    var live := Live(sys.stream);
    var entry := Entry(|sys.stream.log| + 1, e);
    sys.(stream := stream,
         sessions := map id | id in sys.sessions ::
           if id in live then Handed(sys.sessions[id], entry) else sys.sessions[id])
  }

  /** Live subscribers leave with the terminal mark; their sessions are over. */
  function TerminalStep<E>(sys: System<E>): System<E> {
    sys.(stream := MarkedTerminal(sys.stream),
         terminalAt := if sys.stream.terminal then sys.terminalAt else |sys.stream.log|,
         sessions := map id | id in sys.sessions ::
           if sys.sessions[id].phase == LivePhase then sys.sessions[id].(phase := Finished) else sys.sessions[id])
  }

  ghost function AttachStep<E>(sys: System<E>, id: nat, after: nat): System<E> {
    if id in sys.sessions || CursorVerdict(sys.stream, after).Some? then sys
    else
      sys.(stream := if sys.stream.terminal then sys.stream else Inserted(sys.stream, id, 0, true),
           sessions := sys.sessions[id := Session(after, |sys.stream.log|, !sys.stream.terminal, Replaying, [])])
  }

  /** One turn of the replay loop, then of the pending loop. */
  ghost function AdvanceStep<E>(sys: System<E>, id: nat): System<E> {
    if id !in sys.sessions then sys
    else
      var s := sys.sessions[id];
      match s.phase
      case Replaying => (
        match NextExact(sys.stream, s.Position(), s.through)
        case Next(entry) => sys.(sessions := sys.sessions[id := Handed(s, entry)])
        case Missing(_) =>
          sys.(stream := Removed(sys.stream, id), sessions := sys.sessions[id := s.(phase := Failed)])
        case Nothing =>
          sys.(sessions := sys.sessions[id := s.(phase := if s.attached then Draining else Finished)])
        )
      case Draining => (
        var (stream, step) := NextPending(sys.stream, id);
        match step
        case Event(entry) => sys.(stream := stream, sessions := sys.sessions[id := Handed(s, entry)])
        case Overflowed => sys.(stream := stream, sessions := sys.sessions[id := s.(phase := Failed)])
        case Complete =>
          sys.(stream := stream,
               sessions := sys.sessions[id := s.(phase := if id in stream.subs then LivePhase else Finished)])
        )
      case _ => sys
  }

  /** A send to the subscriber failed: it is removed. */
  function DropStep<E>(sys: System<E>, id: nat): System<E> {
    if id !in sys.sessions || sys.sessions[id].phase == Finished then sys
    else sys.(stream := Removed(sys.stream, id), sessions := sys.sessions[id := sys.sessions[id].(phase := Failed)])
  }

  ghost function Step<E>(sys: System<E>, a: Action<E>): System<E> {
    match a
    case Publish(e) => PublishStep(sys, e)
    case Terminal => TerminalStep(sys)
    case Attach(id, after) => AttachStep(sys, id, after)
    case Advance(id) => AdvanceStep(sys, id)
    case Drop(id) => DropStep(sys, id)
  }

  ghost function Run<E>(sys: System<E>, actions: seq<Action<E>>): System<E> {
    if actions == [] then sys
    else Step(Run(sys, actions[..|actions| - 1]), actions[|actions| - 1])
  }

  /** Exactly the log after the attach cursor, without gap, duplicate or reorder. */
  ghost predicate Exactly<E>(log: seq<E>, s: Session<E>) {
    s.Position() <= |log| && s.handed == Entries(log, s.after, s.Position())
  }

  /** A replaying subscriber's queue starts right after `from`, or is fail-closed. */
  ghost predicate QueueFrom<E>(stream: Stream<E>, id: nat, from: nat) {
    && id in stream.subs
    && stream.subs[id].replaying
    && from <= |stream.log|
    && (if stream.subs[id].overflowed then stream.subs[id].pending == []
        else stream.subs[id].pending == Entries(stream.log, from, |stream.log|))
  }

  ghost predicate SessionOk<E>(sys: System<E>, id: nat)
    requires id in sys.sessions
  {
    var s := sys.sessions[id];
    && Exactly(sys.stream.log, s)
    && match s.phase
       case Replaying =>
         && s.Position() <= s.through <= |sys.stream.log|
         && if s.attached then
              QueueFrom(sys.stream, id, s.through)
              && (sys.stream.subs[id].overflowed <==> |sys.stream.log| > s.through + BUFFER_LIMIT)
            else sys.stream.terminal && sys.terminalAt <= s.through && id !in sys.stream.subs
       case Draining => QueueFrom(sys.stream, id, s.Position())
       case LivePhase =>
         // up to date at every moment
         && !sys.stream.terminal && s.Position() == |sys.stream.log|
         && id in sys.stream.subs && !sys.stream.subs[id].replaying
       case Finished =>
         // nothing published before the terminal mark is missing
         sys.stream.terminal && sys.terminalAt <= s.Position() && id !in sys.stream.subs
       case Failed => id !in sys.stream.subs
  }

  ghost predicate Inv<E>(sys: System<E>) {
    && sys.stream.policy == PI
    && sys.stream.subs.Keys <= sys.sessions.Keys
    && (sys.stream.terminal ==> sys.terminalAt <= |sys.stream.log|)
    && forall id | id in sys.sessions :: SessionOk(sys, id)
  }

  lemma {:induction false} PublishQueue<E>(stream: Stream<E>, e: E, id: nat, from: nat)
    requires stream.policy == PI && QueueFrom(stream, id, from)
    ensures QueueFrom(Published(stream, e), id, from)
  {
    var log := stream.log;
    EntriesGrow(log, [e], from, |log|);
    EntriesJoin(log + [e], from, |log|, |log| + 1);
    EntriesHead(log + [e], |log|, |log| + 1);
  }

  lemma {:induction false} PublishExactly<E>(sys: System<E>, e: E, id: nat)
    requires Inv(sys) && id in sys.sessions
    ensures var next := PublishStep(sys, e);
            Exactly(next.stream.log, next.sessions[id])
  {
    assert SessionOk(sys, id);
    var log, s := sys.stream.log, sys.sessions[id];
    EntriesGrow(log, [e], s.after, s.Position());
    if id in Live(sys.stream) {
      assert s.Position() == |log|;
      EntriesJoin(log + [e], s.after, |log|, |log| + 1);
      EntriesHead(log + [e], |log|, |log| + 1);
    }
  }

  lemma {:induction false} PublishSession<E>(sys: System<E>, e: E, id: nat)
    requires Inv(sys) && id in sys.sessions
    ensures SessionOk(PublishStep(sys, e), id)
  {
    assert SessionOk(sys, id);
    PublishExactly(sys, e, id);
    var s := sys.sessions[id];
    if s.phase == Replaying && s.attached { PublishQueue(sys.stream, e, id, s.through); }
    if s.phase == Draining { PublishQueue(sys.stream, e, id, s.Position()); }
  }

  lemma {:induction false} PublishKeeps<E>(sys: System<E>, e: E)
    requires Inv(sys)
    ensures Inv(PublishStep(sys, e))
  {
    var next := PublishStep(sys, e);
    forall id | id in next.sessions ensures SessionOk(next, id) {
      PublishSession(sys, e, id);
    }
  }

  lemma {:induction false} TerminalKeeps<E>(sys: System<E>)
    requires Inv(sys)
    ensures Inv(TerminalStep(sys))
  {
    var next := TerminalStep(sys);
    forall id | id in next.sessions ensures SessionOk(next, id) {
      assert SessionOk(sys, id);
    }
  }

  lemma {:induction false} AttachKeeps<E>(sys: System<E>, id: nat, after: nat)
    requires Inv(sys)
    ensures Inv(AttachStep(sys, id, after))
  {
    var next := AttachStep(sys, id, after);
    forall k | k in next.sessions ensures SessionOk(next, k) {
      if k in sys.sessions { assert SessionOk(sys, k); }
    }
  }

  lemma {:induction false} OthersKeep<E>(sys: System<E>, next: System<E>, k: nat)
    requires k in sys.sessions && k in next.sessions && sys.sessions[k] == next.sessions[k]
    requires sys.stream.log == next.stream.log && sys.stream.terminal == next.stream.terminal
    requires sys.terminalAt == next.terminalAt
    requires k in sys.stream.subs <==> k in next.stream.subs
    requires k in sys.stream.subs ==> sys.stream.subs[k] == next.stream.subs[k]
    requires SessionOk(sys, k)
    ensures SessionOk(next, k)
  {
  }

  /** One more entry of the log, right after the last. */
  lemma {:induction false} HandedExactly<E>(log: seq<E>, s: Session<E>)
    requires Exactly(log, s) && s.Position() < |log|
    ensures var t := Handed(s, Entry(s.Position() + 1, log[s.Position()]));
            Exactly(log, t) && t.Position() == s.Position() + 1
  {
    EntriesJoin(log, s.after, s.Position(), s.Position() + 1);
    EntriesHead(log, s.Position(), s.Position() + 1);
  }

  lemma {:induction false} AdvanceReplaying<E>(sys: System<E>, id: nat)
    requires Inv(sys) && id in sys.sessions && sys.sessions[id].phase == Replaying
    ensures SessionOk(AdvanceStep(sys, id), id)
  {
    assert SessionOk(sys, id);
    var s := sys.sessions[id];
    if s.Position() < s.through { HandedExactly(sys.stream.log, s); }
  }

  lemma {:induction false} AdvanceDraining<E>(sys: System<E>, id: nat)
    requires Inv(sys) && id in sys.sessions && sys.sessions[id].phase == Draining
    ensures SessionOk(AdvanceStep(sys, id), id)
  {
    assert SessionOk(sys, id);
    var s := sys.sessions[id];
    if s.Position() < |sys.stream.log| {
      HandedExactly(sys.stream.log, s);
      EntriesHead(sys.stream.log, s.Position(), |sys.stream.log|);
    }
  }

  lemma {:induction false} AdvanceSelf<E>(sys: System<E>, id: nat)
    requires Inv(sys) && id in sys.sessions
    ensures SessionOk(AdvanceStep(sys, id), id)
  {
    assert SessionOk(sys, id);
    match sys.sessions[id].phase {
      case Replaying => AdvanceReplaying(sys, id);
      case Draining => AdvanceDraining(sys, id);
      case _ =>
    }
  }

  /** A turn touches only its own session and subscriber. */
  lemma {:induction false} AdvanceFrame<E>(sys: System<E>, id: nat)
    ensures var next := AdvanceStep(sys, id);
            && next.sessions.Keys == sys.sessions.Keys
            && next.stream.log == sys.stream.log && next.stream.terminal == sys.stream.terminal
            && next.stream.policy == sys.stream.policy && next.terminalAt == sys.terminalAt
            && next.stream.subs.Keys <= sys.stream.subs.Keys
  {
  }

  lemma {:induction false} AdvanceOther<E>(sys: System<E>, id: nat, k: nat)
    requires k in sys.sessions && k != id && SessionOk(sys, k)
    ensures k in AdvanceStep(sys, id).sessions && SessionOk(AdvanceStep(sys, id), k)
  {
    AdvanceFrame(sys, id);
    OthersKeep(sys, AdvanceStep(sys, id), k);
  }

  lemma {:induction false} AdvanceKeeps<E>(sys: System<E>, id: nat)
    requires Inv(sys)
    ensures Inv(AdvanceStep(sys, id))
  {
    AdvanceFrame(sys, id);
    forall k | k in sys.sessions ensures SessionOk(AdvanceStep(sys, id), k) {
      if k == id { AdvanceSelf(sys, id); } else { AdvanceOther(sys, id, k); }
    }
  }

  lemma {:induction false} DropKeeps<E>(sys: System<E>, id: nat)
    requires Inv(sys)
    ensures Inv(DropStep(sys, id))
  {
    var next := DropStep(sys, id);
    forall k | k in next.sessions ensures SessionOk(next, k) {
      assert SessionOk(sys, k);
    }
  }

  lemma {:induction false} StepKeeps<E>(sys: System<E>, a: Action<E>)
    requires Inv(sys)
    ensures Inv(Step(sys, a))
  {
    match a
    case Publish(e) => PublishKeeps(sys, e);
    case Terminal => TerminalKeeps(sys);
    case Attach(id, after) => AttachKeeps(sys, id, after);
    case Advance(id) => AdvanceKeeps(sys, id);
    case Drop(id) => DropKeeps(sys, id);
  }

  lemma {:induction false} RunKeeps<E>(sys: System<E>, actions: seq<Action<E>>)
    requires Inv(sys)
    ensures Inv(Run(sys, actions))
  {
    if actions == [] {
    } else {
      RunKeeps(sys, actions[..|actions| - 1]);
      StepKeeps(Run(sys, actions[..|actions| - 1]), actions[|actions| - 1]);
    }
  }

  /** Exactly-once delivery over every interleaving, for every subscriber. */
  lemma {:induction false} ExactlyOnce<E>(actions: seq<Action<E>>, id: nat)
    ensures var sys := Run(Initial(), actions);
            id in sys.sessions ==>
              var s := sys.sessions[id];
              && Exactly(sys.stream.log, s)
              && (s.phase == LivePhase ==> s.Position() == |sys.stream.log|)
              && (s.phase == Finished ==> sys.stream.terminal && sys.terminalAt <= s.Position())
  {
    RunKeeps<E>(Initial(), actions);
    var sys := Run(Initial(), actions);
    if id in sys.sessions { assert SessionOk(sys, id); }
  }

  ghost predicate Doomed<E>(sys: System<E>, id: nat) {
    && id in sys.sessions
    && if id in sys.stream.subs then sys.stream.subs[id].replaying && sys.stream.subs[id].overflowed
       else sys.sessions[id].phase == Failed
  }

  lemma {:induction false} DoomedPublish<E>(sys: System<E>, e: E, id: nat)
    requires Inv(sys) && Doomed(sys, id)
    ensures Doomed(PublishStep(sys, e), id)
  {
    assert SessionOk(sys, id);
  }

  lemma {:induction false} DoomedTerminal<E>(sys: System<E>, id: nat)
    requires Inv(sys) && Doomed(sys, id)
    ensures Doomed(TerminalStep(sys), id)
  {
    assert SessionOk(sys, id);
  }

  lemma {:induction false} DoomedAttach<E>(sys: System<E>, k: nat, after: nat, id: nat)
    requires Inv(sys) && Doomed(sys, id)
    ensures Doomed(AttachStep(sys, k, after), id)
  {
  }

  lemma {:induction false} DoomedTurn<E>(sys: System<E>, id: nat)
    requires Inv(sys) && Doomed(sys, id)
    ensures Doomed(AdvanceStep(sys, id), id)
  {
    assert SessionOk(sys, id);
  }

  lemma {:induction false} DoomedAdvance<E>(sys: System<E>, k: nat, id: nat)
    requires Inv(sys) && Doomed(sys, id)
    ensures Doomed(AdvanceStep(sys, k), id)
  {
    if k == id { DoomedTurn(sys, id); }
  }

  lemma {:induction false} DoomedDrop<E>(sys: System<E>, k: nat, id: nat)
    requires Inv(sys) && Doomed(sys, id)
    ensures Doomed(DropStep(sys, k), id)
  {
  }

  lemma {:induction false} DoomedStays<E>(sys: System<E>, a: Action<E>, id: nat)
    requires Inv(sys) && Doomed(sys, id)
    ensures Doomed(Step(sys, a), id)
  {
    match a
    case Publish(e) => DoomedPublish(sys, e, id);
    case Terminal => DoomedTerminal(sys, id);
    case Attach(k, after) => DoomedAttach(sys, k, after, id);
    case Advance(k) => DoomedAdvance(sys, k, id);
    case Drop(k) => DoomedDrop(sys, k, id);
  }

  /** An overflowed subscriber never goes live and is never reported finished. */
  lemma {:induction false} OverflowFailsClosed<E>(sys: System<E>, actions: seq<Action<E>>, id: nat)
    requires Inv(sys) && Doomed(sys, id)
    ensures var next := Run(sys, actions);
            Doomed(next, id) && next.sessions[id].phase in {Replaying, Draining, Failed}
  {
    RunKeeps(sys, actions);
    if actions != [] {
      var before := actions[..|actions| - 1];
      OverflowFailsClosed(sys, before, id);
      RunKeeps(sys, before);
      DoomedStays(Run(sys, before), actions[|actions| - 1], id);
    }
    assert SessionOk(Run(sys, actions), id);
  }

  /** While it replays, a subscriber has overflowed exactly when more events than fit followed its attach. */
  lemma {:induction false} OverflowsIff<E>(actions: seq<Action<E>>, id: nat)
    ensures var sys := Run(Initial(), actions);
            id in sys.sessions && sys.sessions[id].attached && sys.sessions[id].phase == Replaying ==>
              && id in sys.stream.subs
              && (sys.stream.subs[id].overflowed <==> |sys.stream.log| - sys.sessions[id].through > BUFFER_LIMIT)
  {
    RunKeeps<E>(Initial(), actions);
    var sys := Run(Initial(), actions);
    if id in sys.sessions { assert SessionOk(sys, id); }
  }

  /** While it drains, a publish overflows it exactly when the events it still lacks do not fit. */
  lemma {:induction false} DrainOverflowsIff<E>(sys: System<E>, e: E, id: nat)
    requires Drains(sys, id)
    ensures var next := PublishStep(sys, e);
            && id in next.stream.subs
            && (next.stream.subs[id].overflowed <==> |next.stream.log| - next.sessions[id].Position() > BUFFER_LIMIT)
  {
    assert SessionOk(sys, id);
  }

  /** Replay loses its place exactly when the next event was evicted; otherwise it moves by one. */
  lemma {:induction false} ReplayFailsIff<E>(sys: System<E>, id: nat)
    requires Inv(sys) && id in sys.sessions && sys.sessions[id].phase == Replaying
    requires sys.sessions[id].Position() < sys.sessions[id].through
    ensures var s, t := sys.sessions[id], AdvanceStep(sys, id).sessions[id];
            if |sys.stream.log| > s.Position() + BUFFER_LIMIT then t == s.(phase := Failed)
            else t.phase == Replaying && t.Position() == s.Position() + 1
  {
    assert SessionOk(sys, id);
    BufferedIff(sys.stream.log, sys.sessions[id].Position() + 1);
  }

  /** A subscriber that is draining a queue that did not overflow. */
  ghost predicate Drains<E>(sys: System<E>, id: nat) {
    && Inv(sys) && id in sys.sessions && sys.sessions[id].phase == Draining
    && id in sys.stream.subs && !sys.stream.subs[id].overflowed
  }

  lemma {:induction false} DrainTurn<E>(sys: System<E>, id: nat)
    requires Drains(sys, id) && sys.sessions[id].Position() < |sys.stream.log|
    ensures var next := AdvanceStep(sys, id);
            && Drains(next, id) && next.stream.log == sys.stream.log && next.stream.terminal == sys.stream.terminal
            && next.sessions[id].Position() == sys.sessions[id].Position() + 1
  {
    assert SessionOk(sys, id);
    AdvanceKeeps(sys, id);
  }

  function Turns<E>(id: nat, n: nat): seq<Action<E>> { seq(n, i => Advance(id)) }

  /** Nothing new was published and session `id` is `turns` entries further, still draining. */
  ghost predicate Further<E>(sys: System<E>, next: System<E>, id: nat, turns: nat) {
    && Drains(next, id) && id in sys.sessions
    && next.stream.log == sys.stream.log && next.stream.terminal == sys.stream.terminal
    && next.sessions[id].Position() == sys.sessions[id].Position() + turns
  }

  lemma {:induction false} TurnAfter<E>(sys: System<E>, id: nat, n: nat)
    requires var mid := Run(sys, Turns(id, n)); Drains(mid, id) && mid.sessions[id].Position() < |mid.stream.log|
    ensures Further(Run(sys, Turns(id, n)), Run(sys, Turns(id, n + 1)), id, 1)
  {
    assert Turns<E>(id, n + 1)[..n] == Turns(id, n);
    DrainTurn(Run(sys, Turns(id, n)), id);
  }

  lemma {:induction false} DrainTurns<E>(sys: System<E>, id: nat, n: nat)
    requires Drains(sys, id) && n <= |sys.stream.log| - sys.sessions[id].Position()
    ensures Further(sys, Run(sys, Turns(id, n)), id, n)
  {
    if n > 0 {
      DrainTurns(sys, id, n - 1);
      TurnAfter(sys, id, n - 1);
    } else {
      assert Turns<E>(id, n) == [];
    }
  }

  lemma {:induction false} LastTurn<E>(sys: System<E>, id: nat)
    requires Drains(sys, id) && sys.sessions[id].Position() == |sys.stream.log|
    ensures var done := AdvanceStep(sys, id);
            && id in done.sessions && done.stream.log == sys.stream.log
            && done.sessions[id].Position() == |sys.stream.log|
            && done.sessions[id].phase == if sys.stream.terminal then Finished else LivePhase
  {
    assert SessionOk(sys, id);
  }

  /** Left alone, draining needs exactly one turn per queued entry and one more. */
  lemma {:induction false} DrainCompletes<E>(sys: System<E>, id: nat, n: nat)
    requires Drains(sys, id) && n == |sys.stream.log| - sys.sessions[id].Position()
    ensures var done := Run(sys, Turns(id, n + 1));
            && id in done.sessions && done.stream.log == sys.stream.log
            && done.sessions[id].Position() == |sys.stream.log|
            && done.sessions[id].phase == if sys.stream.terminal then Finished else LivePhase
  {
    DrainTurns(sys, id, n);
    assert Turns<E>(id, n + 1)[..n] == Turns(id, n);
    LastTurn(Run(sys, Turns(id, n)), id);
  }
}
