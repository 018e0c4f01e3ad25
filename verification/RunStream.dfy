// The bounded replay buffer of one agent run, specified over the full log of
// everything ever published. `Stream` is the abstract state: it has no ring.
module RunStream {
  import opened Wrappers

  const BUFFER_LIMIT: nat := 4096

  datatype ReplayConcurrency = BoundedPendingFailClosed | SerializedDelivery
  datatype CursorValidation = Strict | CodexExisting
  datatype PostTerminalPublish = Allow | Reject
  datatype TerminalSubscribers = RetainReplaying | DrainAll

  datatype Policy = Policy(
    concurrency: ReplayConcurrency,
    validation: CursorValidation,
    postTerminal: PostTerminalPublish,
    terminalSubscribers: TerminalSubscribers)

  const PI := Policy(BoundedPendingFailClosed, Strict, Allow, RetainReplaying)
  const CODEX := Policy(SerializedDelivery, CodexExisting, Reject, DrainAll)

  datatype Entry<E> = Entry(cursor: nat, event: E)

  datatype Subscriber<E> = Subscriber(channel: int, replaying: bool, pending: seq<Entry<E>>, overflowed: bool)

  datatype ReplayStep<E> = Event(entry: Entry<E>) | Overflowed | Complete

  datatype CursorError = Ahead(cursor: nat, live: nat) | Gap(expected: nat)

  datatype Exact<E> = Nothing | Next(entry: Entry<E>) | Missing(expected: nat)

  datatype Stream<E> = Stream(log: seq<E>, subs: map<nat, Subscriber<E>>, terminal: bool, policy: Policy)

  /** The numbered entries with cursors from+1 .. to. */
  function Entries<E>(log: seq<E>, from: nat, to: nat): (r: seq<Entry<E>>)
    requires from <= to <= |log|
    ensures |r| == to - from
    ensures forall i | 0 <= i < |r| :: r[i] == Entry(from + i + 1, log[from + i])
  {
    seq(to - from, i requires 0 <= i < to - from => Entry(from + i + 1, log[from + i]))
  }

  lemma {:induction false} EntriesGrow<E>(log: seq<E>, more: seq<E>, from: nat, to: nat)
    requires from <= to <= |log|
    ensures Entries(log + more, from, to) == Entries(log, from, to)
  {
  }

  lemma {:induction false} EntriesJoin<E>(log: seq<E>, from: nat, mid: nat, to: nat)
    requires from <= mid <= to <= |log|
    ensures Entries(log, from, to) == Entries(log, from, mid) + Entries(log, mid, to)
  {
  }

  lemma {:induction false} EntriesHead<E>(log: seq<E>, from: nat, to: nat)
    requires from < to <= |log|
    ensures Entries(log, from, to)[1..] == Entries(log, from + 1, to)
    ensures Entries(log, from, to)[0] == Entry(from + 1, log[from])
    ensures Entries(log, from, from + 1) == [Entry(from + 1, log[from])]
  {
  }

  /** How many events have already fallen out of the buffer. */
  function Evicted(n: nat): nat {
    if n <= BUFFER_LIMIT then 0 else n - BUFFER_LIMIT
  }

  /** What the ring must hold after `log` has been published. */
  function Window<E>(log: seq<E>): seq<Entry<E>> {
    Entries(log, Evicted(|log|), |log|)
  }

  /** Cursor `c` can still be read from the buffer. */
  ghost predicate Buffered<E>(log: seq<E>, c: nat) {
    0 < c <= |log| && Entry(c, log[c - 1]) in Window(log)
  }

  lemma {:induction false} BufferedIff<E>(log: seq<E>, c: nat)
    ensures Buffered(log, c) <==> Evicted(|log|) < c <= |log|
  {
    if Evicted(|log|) < c <= |log| {
      assert Window(log)[c - 1 - Evicted(|log|)] == Entry(c, log[c - 1]);
    }
  }

  // ---- One operation on the abstract state -------------------------------

  function Queued<E>(sub: Subscriber<E>, entry: Entry<E>): Subscriber<E> {
    if !sub.replaying || sub.overflowed then sub
    else if |sub.pending| >= BUFFER_LIMIT then sub.(pending := [], overflowed := true)
    else sub.(pending := sub.pending + [entry])
  }

  predicate Refuses<E>(s: Stream<E>) {
    s.terminal && s.policy.postTerminal == Reject
  }

  function Published<E>(s: Stream<E>, e: E): Stream<E> {
    if Refuses(s) then s
    else s.(log := s.log + [e],
            subs := map id | id in s.subs :: Queued(s.subs[id], Entry(|s.log| + 1, e)))
  }

  /** Live subscribers: those a publish hands the new entry to at once. */
  function Live<E>(s: Stream<E>): map<nat, int> {
    map id | id in s.subs && !s.subs[id].replaying :: s.subs[id].channel
  }

  function MarkedTerminal<E>(s: Stream<E>): Stream<E> {
    if s.policy.terminalSubscribers == DrainAll then s.(terminal := true, subs := map[])
    else s.(terminal := true, subs := map id | id in s.subs && s.subs[id].replaying :: s.subs[id])
  }

  function Inserted<E>(s: Stream<E>, id: nat, channel: int, replaying: bool): Stream<E> {
    s.(subs := s.subs[id := Subscriber(channel, replaying, [], false)])
  }

  function Removed<E>(s: Stream<E>, id: nat): Stream<E> {
    s.(subs := s.subs - {id})
  }

  function NextPending<E>(s: Stream<E>, id: nat): (Stream<E>, ReplayStep<E>) {
    if id !in s.subs then (s, Complete)
    else
      var sub := s.subs[id];
      if sub.overflowed then (Removed(s, id), Overflowed)
      else if sub.pending != [] then
        (s.(subs := s.subs[id := sub.(pending := sub.pending[1..])]), Event(sub.pending[0]))
      else if s.terminal then (Removed(s, id), Complete)
      else (s.(subs := s.subs[id := sub.(replaying := false)]), Complete)
  }

  ghost predicate SpanBuffered<E>(log: seq<E>, after: nat) {
    forall c: nat | after < c <= |log| :: Buffered(log, c)
  }

  /** Whether a replay from `after` may start: the log decides, not the ring. */
  ghost function CursorVerdict<E>(s: Stream<E>, after: nat): Option<CursorError> {
    if s.policy.validation == Strict && after > |s.log| then Some(Ahead(after, |s.log|))
    else if (s.policy.validation == CodexExisting && after == 0) || SpanBuffered(s.log, after) then None
    else Some(Gap(after + 1))
  }

  ghost function NextExact<E>(s: Stream<E>, cursor: nat, through: nat): Exact<E> {
    if cursor >= through then Nothing
    else if Buffered(s.log, cursor + 1) then Next(Entry(cursor + 1, s.log[cursor]))
    else Missing(cursor + 1)
  }

  /** The part of the log after `after` that the buffer can still replay. */
  function Replayable<E>(s: Stream<E>, after: nat): seq<Entry<E>> {
    var from := if after < Evicted(|s.log|) then Evicted(|s.log|) else after;
    if from <= |s.log| then Entries(s.log, from, |s.log|) else []
  }

  lemma {:induction false} SpanBufferedIff<E>(log: seq<E>, after: nat)
    ensures SpanBuffered(log, after) <==> Evicted(|log|) <= after || |log| <= after
  {
    forall c: nat | after < c <= |log| ensures Buffered(log, c) <==> Evicted(|log|) < c {
      BufferedIff(log, c);
    }
    if after < Evicted(|log|) {
      BufferedIff(log, after + 1);
      assert !Buffered(log, after + 1);
    }
  }

  /** A replay the strict check admits yields every event after the cursor, once, in order. */
  lemma {:induction false} StrictVerdictSound<E>(s: Stream<E>, after: nat)
    requires s.policy.validation == Strict
    ensures CursorVerdict(s, after).None? <==>
            after <= |s.log| && Replayable(s, after) == Entries(s.log, after, |s.log|)
  {
    SpanBufferedIff(s.log, after);
    if after <= |s.log| && after < Evicted(|s.log|) {
      assert |Replayable(s, after)| != |Entries(s.log, after, |s.log|)|;
    }
  }

  /** The CODEX check is exact for 0 < after <= live; from 0 only while nothing was evicted. */
  lemma {:induction false} CodexVerdictSound<E>(s: Stream<E>, after: nat)
    requires s.policy.validation == CodexExisting
    requires after <= |s.log|
    requires CursorVerdict(s, after).None?
    ensures Replayable(s, after) == Entries(s.log, after, |s.log|) <==>
            0 < after || |s.log| <= BUFFER_LIMIT
  {
    SpanBufferedIff(s.log, after);
    if after == 0 && |s.log| > BUFFER_LIMIT {
      assert |Replayable(s, after)| != |Entries(s.log, after, |s.log|)|;
    }
  }

  /** A fresh CODEX reattach to a long run is admitted although its first event is gone. */
  lemma {:induction false} CodexFromZeroLosesHistory(log: seq<int>)
    requires |log| == BUFFER_LIMIT + 1
    ensures var s := Stream(log, map[], false, CODEX);
            CursorVerdict(s, 0).None? && Replayable(s, 0)[0].cursor == 2
  {
  }

  // ---- The imperative buffer ---------------------------------------------

  function After<E>(events: seq<Entry<E>>, cursor: nat): seq<Entry<E>> {
    if events == [] then []
    else if events[0].cursor > cursor then [events[0]] + After(events[1..], cursor)
    else After(events[1..], cursor)
  }

  function FindCursor<E>(events: seq<Entry<E>>, cursor: nat): Option<Entry<E>> {
    if events == [] then None
    else if events[0].cursor == cursor then Some(events[0])
    else FindCursor(events[1..], cursor)
  }

  lemma {:induction false} AfterEntries<E>(log: seq<E>, from: nat, after: nat)
    requires from <= |log|
    ensures After(Entries(log, from, |log|), after) ==
            if after <= from then Entries(log, from, |log|)
            else if after <= |log| then Entries(log, after, |log|) else []
    decreases |log| - from
  {
    var es := Entries(log, from, |log|);
    if from < |log| {
      assert es[1..] == Entries(log, from + 1, |log|);
      AfterEntries(log, from + 1, after);
      assert es == [es[0]] + es[1..];
    }
  }

  lemma {:induction false} FindEntries<E>(log: seq<E>, from: nat, cursor: nat)
    requires from <= |log|
    ensures FindCursor(Entries(log, from, |log|), cursor) ==
            if from < cursor <= |log| then Some(Entry(cursor, log[cursor - 1])) else None
    decreases |log| - from
  {
    if from < |log| {
      assert Entries(log, from, |log|)[1..] == Entries(log, from + 1, |log|);
      FindEntries(log, from + 1, cursor);
    }
  }

  class RunStreamCore<E> {
    var nextCursor: nat
    var events: seq<Entry<E>>
    var subscribers: map<nat, Subscriber<E>>
    var terminal: bool
    const policy: Policy
    /** Everything ever published; the implementation never reads it. */
    ghost var log: seq<E>

    ghost predicate Valid()
      reads this
    {
      && nextCursor == |log| + 1
      && events == Window(log)
      && forall id | id in subscribers :: |subscribers[id].pending| <= BUFFER_LIMIT
    }

    ghost function View(): Stream<E>
      reads this
    {
      Stream(log, subscribers, terminal, policy)
    }

    constructor (policy: Policy)
      ensures Valid() && View() == Stream([], map[], false, policy)
    {
      this.policy := policy;
      nextCursor, events, subscribers, terminal := 1, [], map[], false;
      log := [];
    }

    function Cursor(): (c: nat)
      requires Valid()
      reads this
      ensures c == |log|
    {
      nextCursor - 1
    }

    method BufferEvent(e: E) returns (entry: Entry<E>)
      requires Valid()
      modifies this`nextCursor, this`events, this`log
      ensures Valid()
      ensures log == old(log) + [e] && entry == Entry(|log|, e)
    {
      entry := Entry(nextCursor, e);
      nextCursor := nextCursor + 1;
      events := events + [entry];
      log := log + [e];
      var from: nat := Evicted(|log| - 1);
      assert events == Entries(log, from, |log|);
      while |events| > BUFFER_LIMIT
        invariant from <= Evicted(|log|) && events == Entries(log, from, |log|)
        decreases |events|
        modifies this`events
      {
        events := events[1..];
        from := from + 1;
      }
    }

    /** The loop of publish over the subscribers: queue for replaying ones, collect live ones. */
    method Offer(added: Entry<E>) returns (recipients: map<nat, int>)
      modifies this`subscribers
      ensures subscribers == map id | id in old(subscribers) :: Queued(old(subscribers)[id], added)
      ensures recipients == Live(old(View()))
    {
      recipients := map[];
      var ids := subscribers.Keys;
      while ids != {}
        invariant ids <= subscribers.Keys == old(subscribers).Keys
        invariant forall id | id in ids :: subscribers[id] == old(subscribers)[id]
        invariant forall id | id in subscribers && id !in ids :: subscribers[id] == Queued(old(subscribers)[id], added)
        invariant recipients.Keys <= subscribers.Keys
        invariant forall id | id in subscribers ::
                    id in recipients <==> id !in ids && !old(subscribers)[id].replaying
        invariant forall id | id in recipients :: recipients[id] == old(subscribers)[id].channel
        decreases ids
        modifies this`subscribers
      {
        var id :| id in ids;
        var sub := subscribers[id];
        if sub.replaying {
          if !sub.overflowed {
            if |sub.pending| >= BUFFER_LIMIT {
              sub := sub.(pending := [], overflowed := true);
            } else {
              sub := sub.(pending := sub.pending + [added]);
            }
            subscribers := subscribers[id := sub];
          }
        } else {
          recipients := recipients[id := sub.channel];
        }
        ids := ids - {id};
      }
    }

    method Publish(e: E) returns (cursor: nat, entry: Option<Entry<E>>, recipients: map<nat, int>)
      requires Valid()
      modifies this`nextCursor, this`events, this`log, this`subscribers
      ensures Valid()
      ensures View() == Published(old(View()), e)
      ensures cursor == |log|
      ensures entry == if Refuses(old(View())) then None else Some(Entry(|log|, e))
      ensures recipients == if Refuses(old(View())) then map[] else Live(old(View()))
    {
      if terminal && policy.postTerminal == Reject {
        return Cursor(), None, map[];
      }
      var added := BufferEvent(e);
      recipients := Offer(added);
      cursor, entry := added.cursor, Some(added);
    }

    method BufferEvents(batch: seq<E>) returns (entries: seq<Entry<E>>)
      requires Valid()
      modifies this`nextCursor, this`events, this`log
      ensures Valid()
      ensures log == old(log) + batch
      ensures entries == Entries(log, |old(log)|, |log|)
    {
      entries := [];
      for i := 0 to |batch|
        invariant Valid()
        invariant log == old(log) + batch[..i]
        invariant entries == Entries(log, |old(log)|, |log|)
      {
        var entry := BufferEvent(batch[i]);
        entries := entries + [entry];
        assert entries == Entries(log, |old(log)|, |log|);
      }
    }

    method MarkTerminal() returns (drained: map<nat, int>)
      requires Valid()
      modifies this`terminal, this`subscribers
      ensures Valid()
      ensures View() == MarkedTerminal(old(View()))
      ensures drained == if policy.terminalSubscribers == DrainAll
                         then map id | id in old(subscribers) :: old(subscribers)[id].channel
                         else map[]
    {
      terminal := true;
      match policy.terminalSubscribers {
        case RetainReplaying =>
          subscribers := map id | id in subscribers && subscribers[id].replaying :: subscribers[id];
          drained := map[];
        case DrainAll =>
          drained := map id | id in subscribers :: subscribers[id].channel;
          subscribers := map[];
      }
    }

    method InsertSubscriber(id: nat, channel: int, replaying: bool)
      requires Valid()
      requires replaying ==> policy.concurrency == BoundedPendingFailClosed
      modifies this`subscribers
      ensures Valid() && View() == Inserted(old(View()), id, channel, replaying)
    {
      subscribers := subscribers[id := Subscriber(channel, replaying, [], false)];
    }

    method RemoveSubscriber(id: nat)
      requires Valid()
      modifies this`subscribers
      ensures Valid() && View() == Removed(old(View()), id)
    {
      subscribers := subscribers - {id};
    }

    method TakePending(id: nat) returns (step: ReplayStep<E>)
      requires Valid()
      modifies this`subscribers
      ensures Valid() && (View(), step) == NextPending(old(View()), id)
    {
      if id !in subscribers {
        return Complete;
      }
      var sub := subscribers[id];
      if sub.overflowed {
        subscribers := subscribers - {id};
        return Overflowed;
      }
      if |sub.pending| > 0 {
        subscribers := subscribers[id := sub.(pending := sub.pending[1..])];
        return Event(sub.pending[0]);
      }
      if terminal {
        subscribers := subscribers - {id};
      } else {
        subscribers := subscribers[id := sub.(replaying := false)];
      }
      return Complete;
    }

    method ValidateReplayCursor(after: nat) returns (r: Option<CursorError>)
      requires Valid()
      ensures r == CursorVerdict(View(), after)
    {
      SpanBufferedIff(log, after);
      var live := Cursor();
      match policy.validation {
        case Strict =>
          if after > live {
            return Some(Ahead(after, live));
          }
          if after < live && (|events| == 0 || events[0].cursor > after + 1) {
            return Some(Gap(after + 1));
          }
        case CodexExisting =>
          if |events| > 0 && after > 0 && after + 1 < events[0].cursor {
            return Some(Gap(after + 1));
          }
      }
      return None;
    }

    method ReplayEntriesAfter(after: nat) returns (r: seq<Entry<E>>)
      requires Valid()
      ensures r == Replayable(View(), after)
    {
      AfterEntries(log, Evicted(|log|), after);
      r := After(events, after);
    }

    method NextReplayEventExact(cursor: nat, through: nat) returns (r: Exact<E>)
      requires Valid()
      ensures r == NextExact(View(), cursor, through)
    {
      if cursor >= through {
        return Nothing;
      }
      FindEntries(log, Evicted(|log|), cursor + 1);
      BufferedIff(log, cursor + 1);
      var found := FindCursor(events, cursor + 1);
      return if found.Some? then Next(found.value) else Missing(cursor + 1);
    }
  }
}
