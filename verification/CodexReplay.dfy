// The CODEX driver: delivery is serialized, so reattach replays and goes live
// in one step, and the terminal events reach everyone still subscribed.
module CodexReplay {
  import opened RunStream
  import opened Wrappers

  datatype Session<E> = Session(after: nat, joined: nat, live: bool, handed: seq<Entry<E>>)

  datatype System<E> = System(stream: Stream<E>, sessions: map<nat, Session<E>>)

  datatype Action<E> =
    | Publish(event: E)
    | Terminalize(events: seq<E>)
    | Reattach(id: nat, after: nat)
    | Drop(id: nat)

  function Initial<E>(): System<E> {
    System(Inserted(Stream([], map[], false, CODEX), 1, 0, false), map[1 := Session(0, 0, true, [])])
  }

  function Deliver<E>(sessions: map<nat, Session<E>>, ids: set<nat>, entries: seq<Entry<E>>): map<nat, Session<E>> {
    map id | id in sessions ::
      if id in ids then sessions[id].(handed := sessions[id].handed + entries) else sessions[id]
  }

  function PublishStep<E>(sys: System<E>, e: E): System<E> {
    if Refuses(sys.stream) then sys
    else System(Published(sys.stream, e),
                Deliver(sys.sessions, Live(sys.stream).Keys, [Entry(|sys.stream.log| + 1, e)]))
  }

  function TerminalizeStep<E>(sys: System<E>, events: seq<E>): System<E> {
    if sys.stream.terminal then sys
    else
      var log := sys.stream.log + events;
      var told := Deliver(sys.sessions, sys.stream.subs.Keys, Entries(log, |sys.stream.log|, |log|));
      System(MarkedTerminal(sys.stream.(log := log)), map id | id in told :: told[id].(live := false))
  }

  ghost function ReattachStep<E>(sys: System<E>, id: nat, after: nat): System<E> {
    if id in sys.sessions || CursorVerdict(sys.stream, after).Some? then sys
    else
      System(if sys.stream.terminal then sys.stream else Inserted(sys.stream, id, 0, false),
             sys.sessions[id := Session(after, |sys.stream.log|, !sys.stream.terminal, Replayable(sys.stream, after))])
  }

  function DropStep<E>(sys: System<E>, id: nat): System<E> {
    if id !in sys.sessions || !sys.sessions[id].live then sys
    else System(Removed(sys.stream, id), sys.sessions - {id})
  }

  ghost function Step<E>(sys: System<E>, a: Action<E>): System<E> {
    match a
    case Publish(e) => PublishStep(sys, e)
    case Terminalize(events) => TerminalizeStep(sys, events)
    case Reattach(id, after) => ReattachStep(sys, id, after)
    case Drop(id) => DropStep(sys, id)
  }

  ghost function Run<E>(sys: System<E>, actions: seq<Action<E>>): System<E> {
    if actions == [] then sys
    else Step(Run(sys, actions[..|actions| - 1]), actions[|actions| - 1])
  }

  /** Where a reattach at live cursor `joined` really starts. */
  function Start(after: nat, joined: nat): nat {
    if after > joined then joined
    else if after < Evicted(joined) then Evicted(joined) else after
  }

  ghost predicate Inv<E>(sys: System<E>) {
    && sys.stream.policy == CODEX
    && (sys.stream.terminal ==> sys.stream.subs == map[])
    && (forall id :: id in sys.stream.subs <==> id in sys.sessions && sys.sessions[id].live)
    && (forall id | id in sys.stream.subs :: !sys.stream.subs[id].replaying)
    && forall id | id in sys.sessions ::
         var s := sys.sessions[id];
         && s.joined <= |sys.stream.log|
         && (!s.live ==> sys.stream.terminal)
         && (0 < s.after <= s.joined ==> Evicted(s.joined) <= s.after)
         && s.handed == Entries(sys.stream.log, Start(s.after, s.joined), |sys.stream.log|)
  }

  lemma {:induction false} PublishKeeps<E>(sys: System<E>, e: E)
    requires Inv(sys)
    ensures Inv(PublishStep(sys, e))
  {
    if !Refuses(sys.stream) {
      var next := PublishStep(sys, e);
      assert Live(sys.stream).Keys == sys.stream.subs.Keys;
      forall id | id in next.sessions
        ensures next.sessions[id].handed ==
                Entries(next.stream.log, Start(next.sessions[id].after, next.sessions[id].joined), |next.stream.log|)
      {
        assert sys.sessions[id].live;
      }
    }
  }

  lemma {:induction false} TerminalizeKeeps<E>(sys: System<E>, events: seq<E>)
    requires Inv(sys)
    ensures Inv(TerminalizeStep(sys, events))
  {
    if !sys.stream.terminal {
      var next := TerminalizeStep(sys, events);
      forall id | id in next.sessions
        ensures next.sessions[id].handed ==
                Entries(next.stream.log, Start(next.sessions[id].after, next.sessions[id].joined), |next.stream.log|)
      {
        assert sys.sessions[id].live;
      }
    }
  }

  lemma {:induction false} StepKeeps<E>(sys: System<E>, a: Action<E>)
    requires Inv(sys)
    ensures Inv(Step(sys, a))
  {
    match a
    case Publish(e) => PublishKeeps(sys, e);
    case Terminalize(events) => TerminalizeKeeps(sys, events);
    case Reattach(id, after) => SpanBufferedIff(sys.stream.log, after);
    case Drop(id) =>
  }

  lemma {:induction false} RunKeeps<E>(actions: seq<Action<E>>)
    ensures Inv(Run(Initial(), actions))
  {
    if actions == [] {
    } else {
      RunKeeps(actions[..|actions| - 1]);
      StepKeeps(Run(Initial(), actions[..|actions| - 1]), actions[|actions| - 1]);
    }
  }

  /**
   * Every subscriber, at every moment, has the whole log after its cursor, once and
   * in order, terminal events included; a reattach from 0 needs an unevicted buffer,
   * and one whose cursor was ahead has exactly what was published since it joined.
   */
  lemma {:induction false} ExactlyOnce<E>(actions: seq<Action<E>>, id: nat)
    ensures var sys := Run(Initial(), actions);
            id in sys.sessions ==>
              var s := sys.sessions[id];
              && s.joined <= |sys.stream.log|
              && (s.after > s.joined ==> s.handed == Entries(sys.stream.log, s.joined, |sys.stream.log|))
              && (s.after <= s.joined ==>
                    (s.handed == Entries(sys.stream.log, s.after, |sys.stream.log|) <==>
                     0 < s.after || s.joined <= BUFFER_LIMIT))
  {
    RunKeeps(actions);
    var sys := Run(Initial(), actions);
    if id in sys.sessions {
      var s := sys.sessions[id];
      if s.after == 0 && s.joined > BUFFER_LIMIT {
        assert |s.handed| != |Entries(sys.stream.log, s.after, |sys.stream.log|)|;
      }
    }
  }

  /** `next` has the stream of `sys` and all its sessions. */
  ghost predicate Frozen<E>(sys: System<E>, next: System<E>) {
    next.stream == sys.stream && forall id | id in sys.sessions :: id in next.sessions && next.sessions[id] == sys.sessions[id]
  }

  lemma {:induction false} StepFreezes<E>(sys: System<E>, a: Action<E>)
    requires Inv(sys) && sys.stream.terminal
    ensures Frozen(sys, Step(sys, a))
  {
  }

  lemma {:induction false} FrozenTrans<E>(a: System<E>, b: System<E>, c: System<E>)
    requires Frozen(a, b) && Frozen(b, c)
    ensures Frozen(a, c)
  {
  }

  /** After the terminal step the log, and so everybody's history, is frozen. */
  lemma {:induction false} TerminalFreezes<E>(sys: System<E>, actions: seq<Action<E>>)
    requires Inv(sys) && sys.stream.terminal
    ensures Inv(Run(sys, actions)) && Frozen(sys, Run(sys, actions))
  {
    if actions == [] {
    } else {
      var before := Run(sys, actions[..|actions| - 1]);
      TerminalFreezes(sys, actions[..|actions| - 1]);
      StepKeeps(before, actions[|actions| - 1]);
      StepFreezes(before, actions[|actions| - 1]);
      FrozenTrans(sys, before, Run(sys, actions));
    }
  }
}
