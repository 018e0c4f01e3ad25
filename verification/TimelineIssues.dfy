// Approval and failure beats last exactly until the run moves on, and the limits
// hold for the timeline of any stream.
module TimelineIssues {
  import opened Orders
  import opened Beats
  import opened TimelineLaws
  import opened Wrappers

  const ISSUE_MS := 600_000

  ghost predicate ResolvesRun(e: Event, run: string) { Resolves(e.what) && e.runId == run }

  /** The first event from `from` on that proves the run moved on. */
  ghost function FirstResolving(events: seq<Event>, run: string, from: nat): Option<nat>
    decreases |events| - from
  {
    if from >= |events| then None
    else if ResolvesRun(events[from], run) then Some(from)
    else FirstResolving(events, run, from + 1)
  }

  lemma {:induction false} FirstResolvingSnoc(front: seq<Event>, e: Event, run: string, from: nat)
    requires from <= |front|
    ensures FirstResolving(front + [e], run, from) ==
            if FirstResolving(front, run, from).Some? then FirstResolving(front, run, from)
            else if ResolvesRun(e, run) then Some(|front|) else None
    decreases |front| - from
  {
    if from < |front| {
      assert (front + [e])[from] == front[from];
      FirstResolvingSnoc(front, e, run, from + 1);
    } else {
      assert (front + [e])[from] == e;
      assert FirstResolving(front + [e], run, from + 1) == None;
    }
  }

  lemma {:induction false} FirstResolvingInRange(events: seq<Event>, run: string, from: nat)
    ensures var r := FirstResolving(events, run, from);
            r.Some? ==> from <= r.value < |events| && ResolvesRun(events[r.value], run)
    decreases |events| - from
  {
    if from < |events| { FirstResolvingInRange(events, run, from + 1); }
  }

  /** The declarative end of an issue beat raised by event `o`. */
  ghost function IssueEnd(events: seq<Event>, o: nat): int
    requires o < |events|
  {
    var full := events[o].timestamp + ISSUE_MS;
    var r := FirstResolving(events, events[o].runId, o + 1);
    if r.None? || r.value >= |events| then full
    else if events[r.value].timestamp < full then events[r.value].timestamp else full
  }

  ghost predicate Unresolved(events: seq<Event>, o: nat)
    requires o < |events|
  {
    FirstResolving(events, events[o].runId, o + 1).None?
  }

  /** Beat `i` comes from event `o`, ends where it should and is tracked while unresolved. */
  ghost predicate IssueOk(events: seq<Event>, s: Composition, i: nat, o: nat)
    requires i < |s.beats|
  {
    && o < |events| && s.beats[i].runId == events[o].runId
    && (IsIssue(s.beats[i].kind) ==>
          && s.beats[i].endsAt == IssueEnd(events, o)
          && (i in IssuesOf(s, s.beats[i].runId) <==> Unresolved(events, o)))
  }

  ghost predicate Tracked(s: Composition) {
    forall run ::
      && |IssuesOf(s, run)| <= 1
      && forall i | i in IssuesOf(s, run) :: i < |s.beats| && IsIssue(s.beats[i].kind) && s.beats[i].runId == run
  }

  ghost predicate IssuesOk(events: seq<Event>, s: Composition, os: seq<nat>) {
    && |os| == |s.beats|
    && Tracked(s)
    && forall i: nat | i < |s.beats| :: IssueOk(events, s, i, os[i])
  }

  lemma {:induction false} EndSnoc(front: seq<Event>, e: Event, o: nat)
    requires o < |front|
    ensures var at := front[o].timestamp + ISSUE_MS;
            IssueEnd(front + [e], o) ==
            if Unresolved(front, o) && ResolvesRun(e, front[o].runId) && e.timestamp < at then e.timestamp
            else IssueEnd(front, o)
    ensures Unresolved(front + [e], o) <==> Unresolved(front, o) && !ResolvesRun(e, front[o].runId)
    ensures Unresolved(front, o) ==> IssueEnd(front, o) == front[o].timestamp + ISSUE_MS
  {
    FirstResolvingSnoc(front, e, front[o].runId, o + 1);
    FirstResolvingInRange(front, front[o].runId, o + 1);
    assert (front + [e])[o] == front[o];
    var r := FirstResolving(front, front[o].runId, o + 1);
    if r.Some? { assert (front + [e])[r.value] == front[r.value]; }
    assert (front + [e])[|front|] == e;
  }

  lemma {:induction false} ClampOne(beats: seq<Beat>, i: nat, at: int)
    requires i < |beats|
    ensures ClampAll(beats, [i], at) == beats[i := Clamp(beats[i], at)]
  {
    assert [i][..0] == [];
  }

  lemma {:induction false} ResolveIssues(s: Composition, e: Event)
    requires |IssuesOf(s, e.runId)| <= 1 && forall i | i in IssuesOf(s, e.runId) :: i < |s.beats|
    ensures var p := Resolve(s, e);
            && |p.beats| == |s.beats|
            && (forall run :: IssuesOf(p, run) == if ResolvesRun(e, run) then [] else IssuesOf(s, run))
            && forall i: nat | i < |s.beats| ::
                 p.beats[i] == if Resolves(e.what) && i in IssuesOf(s, e.runId) then Clamp(s.beats[i], e.timestamp) else s.beats[i]
  {
    var xs := IssuesOf(s, e.runId);
    if xs != [] && Resolves(e.what) {
      assert xs[0] in xs;
      assert xs == [xs[0]];
      ClampOne(s.beats, xs[0], e.timestamp);
    }
  }

  /** What preparing an event does to the issue bookkeeping. */
  lemma {:induction false} PrepareIssues(s: Composition, e: Event)
    requires Tracked(s)
    ensures var p := Prepare(s, e);
            && |p.beats| == |s.beats|
            && (forall run :: IssuesOf(p, run) == if ResolvesRun(e, run) then [] else IssuesOf(s, run))
            && forall i: nat | i < |s.beats| ::
                 p.beats[i] == if Resolves(e.what) && i in IssuesOf(s, e.runId) then Clamp(s.beats[i], e.timestamp) else s.beats[i]
  {
    TrackView(s, e);
    ResolveIssues(s, e);
    var a := TrackStart(s, e);
    ResolveIssues(a, e);
    TrackView(Resolve(a, e), e);
  }

  lemma {:induction false} StageIssues(cfg: Config, p: Composition, g: Signal, parallel: bool)
    requires WellFormed(g)
    ensures var t := Stage(cfg, p, g, parallel);
            && (forall run :: IssuesOf(t, run) ==
                  if IsIssue(g.kind) && run == g.runId then IssuesOf(p, run) + [|p.beats|] else IssuesOf(p, run))
            && |p.beats| <= |t.beats|
            && (forall i | 0 <= i < |p.beats| :: t.beats[i] == p.beats[i])
            && (|t.beats| > |p.beats| ==>
                  |t.beats| == |p.beats| + 1 && t.beats[|p.beats|].kind == g.kind && t.beats[|p.beats|].runId == g.runId
                  && (IsIssue(g.kind) ==> t.beats[|p.beats|].endsAt == g.at + ISSUE_MS))
            && (IsIssue(g.kind) ==> |t.beats| == |p.beats| + 1)
  {
    var v := Decide(TimingForPace(cfg), ActorOf(p, g.Key()), g, parallel);
    if IsIssue(g.kind) { assert v.emits; }
  }

  /** Every event that raises an issue first resolves its own run. */
  lemma {:induction false} IssueSignalsResolve(e: Event)
    requires Normalize(e).Some? && IsIssue(Normalize(e).value.kind)
    ensures Resolves(e.what)
  {
  }

  lemma {:induction false} OldIssue(events: seq<Event>, s: Composition, e: Event, i: nat, o: nat)
    requires Tracked(s) && i < |s.beats| && IssueOk(events, s, i, o)
    ensures var p := Prepare(s, e);
            && |p.beats| == |s.beats| && p.beats[i].kind == s.beats[i].kind && p.beats[i].runId == s.beats[i].runId
            && IssueOk(events + [e], p, i, o)
  {
    PrepareIssues(s, e);
    EndSnoc(events, e, o);
    assert (events + [e])[o] == events[o];
    var run := s.beats[i].runId;
    if i in IssuesOf(s, e.runId) { assert run == e.runId; }
  }

  lemma {:induction false} NewIssue(events: seq<Event>, e: Event)
    ensures var all := events + [e];
            Unresolved(all, |events|) && IssueEnd(all, |events|) == e.timestamp + ISSUE_MS
  {
    assert (events + [e])[|events|] == e;
  }

  lemma {:induction false} TrackedPrepare(s: Composition, e: Event)
    requires Tracked(s)
    ensures Tracked(Prepare(s, e))
  {
    PrepareIssues(s, e);
    var p := Prepare(s, e);
    forall run
      ensures |IssuesOf(p, run)| <= 1
      ensures forall i | i in IssuesOf(p, run) :: i < |p.beats| && IsIssue(p.beats[i].kind) && p.beats[i].runId == run
    {
      assert |IssuesOf(s, run)| <= 1;
    }
  }

  lemma {:induction false} StageKeepsTracked(cfg: Config, p: Composition, e: Event, parallel: bool)
    requires Normalize(e).Some? && Tracked(p)
    requires ResolvesRun(e, e.runId) ==> IssuesOf(p, e.runId) == []
    ensures Tracked(Stage(cfg, p, Normalize(e).value, parallel))
  {
    var g := Normalize(e).value;
    var t := Stage(cfg, p, g, parallel);
    NormalizeWellFormed(e);
    StageIssues(cfg, p, g, parallel);
    if IsIssue(g.kind) { IssueSignalsResolve(e); }
    forall run
      ensures |IssuesOf(t, run)| <= 1
      ensures forall i | i in IssuesOf(t, run) :: i < |t.beats| && IsIssue(t.beats[i].kind) && t.beats[i].runId == run
    {
      assert |IssuesOf(p, run)| <= 1;
    }
  }

  lemma {:induction false} StageKeepsOld(cfg: Config, all: seq<Event>, p: Composition, g: Signal, parallel: bool, i: nat, o: nat)
    requires WellFormed(g) && Tracked(p) && i < |p.beats| && IssueOk(all, p, i, o)
    ensures |p.beats| <= |Stage(cfg, p, g, parallel).beats| && IssueOk(all, Stage(cfg, p, g, parallel), i, o)
  {
    StageIssues(cfg, p, g, parallel);
    assert |p.beats| !in IssuesOf(p, p.beats[i].runId);
  }

  lemma {:induction false} StageAddsNew(cfg: Config, events: seq<Event>, p: Composition, e: Event, parallel: bool)
    requires Normalize(e).Some? && |Stage(cfg, p, Normalize(e).value, parallel).beats| > |p.beats|
    ensures IssueOk(events + [e], Stage(cfg, p, Normalize(e).value, parallel), |p.beats|, |events|)
  {
    NormalizeWellFormed(e);
    StageIssues(cfg, p, Normalize(e).value, parallel);
    NewIssue(events, e);
    assert (events + [e])[|events|] == e;
  }

  lemma {:induction false} IssuesAssembled(all: seq<Event>, t: Composition, m: nat, os: seq<nat>, o: nat)
    requires Tracked(t) && |os| == m <= |t.beats| <= m + 1
    requires forall i: nat | i < m :: IssueOk(all, t, i, os[i])
    requires |t.beats| > m ==> IssueOk(all, t, m, o)
    ensures IssuesOk(all, t, if |t.beats| > m then os + [o] else os)
  {
  }

  lemma {:induction false} StageKeepsIssues(cfg: Config, events: seq<Event>, p: Composition, e: Event, parallel: bool, os: seq<nat>)
    requires Normalize(e).Some?
    requires IssuesOk(events + [e], p, os)
    requires ResolvesRun(e, e.runId) ==> IssuesOf(p, e.runId) == []
    ensures var t := Stage(cfg, p, Normalize(e).value, parallel);
            IssuesOk(events + [e], t, if |t.beats| > |p.beats| then os + [|events|] else os)
  {
    var g := Normalize(e).value;
    var t := Stage(cfg, p, g, parallel);
    NormalizeWellFormed(e);
    StageBeats(cfg, p, g, parallel);
    StageKeepsTracked(cfg, p, e, parallel);
    forall i: nat | i < |p.beats| ensures IssueOk(events + [e], t, i, os[i]) {
      StageKeepsOld(cfg, events + [e], p, g, parallel, i, os[i]);
    }
    if |t.beats| > |p.beats| { StageAddsNew(cfg, events, p, e, parallel); }
    IssuesAssembled(events + [e], t, |p.beats|, os, |events|);
  }

  lemma {:induction false} IssuesStep(cfg: Config, events: seq<Event>, s: Composition, os: seq<nat>, e: Event)
    requires IssuesOk(events, s, os)
    ensures IssuesOk(events + [e], Step(cfg, s, e), if Emission(cfg, s, e).Some? then os + [|events|] else os)
  {
    var p := Prepare(s, e);
    TrackedPrepare(s, e);
    PrepareIssues(s, e);
    forall i: nat | i < |p.beats| ensures IssueOk(events + [e], p, i, os[i]) {
      OldIssue(events, s, e, i, os[i]);
    }
    if Normalize(e).Some? {
      StageBeats(cfg, p, Normalize(e).value, StartsParallel(s, e));
      StageKeepsIssues(cfg, events, p, e, StartsParallel(s, e), os);
    }
  }

  lemma {:induction false} FoldSnoc(cfg: Config, front: seq<Event>, e: Event)
    ensures Fold(cfg, front + [e]) == Step(cfg, Fold(cfg, front), e)
    ensures Origins(cfg, front + [e]) ==
            if Emission(cfg, Fold(cfg, front), e).Some? then Origins(cfg, front) + [|front|] else Origins(cfg, front)
  {
    assert (front + [e])[..|front|] == front;
  }

  lemma {:induction false} IssuesSnoc(cfg: Config, front: seq<Event>, e: Event, s: Composition, os: seq<nat>)
    requires s == Fold(cfg, front) && os == Origins(cfg, front) && IssuesOk(front, s, os)
    ensures IssuesOk(front + [e], Fold(cfg, front + [e]), Origins(cfg, front + [e]))
  {
    IssuesStep(cfg, front, s, os, e);
    FoldSnoc(cfg, front, e);
  }

  lemma {:induction false} NothingTracked()
    ensures IssuesOk([], EMPTY, [])
  {
  }

  /**
   * Every approval and failure beat ends at the first later event of its run that proves
   * the run moved on, or after the full ten minutes, whatever the pace; and at most one
   * issue beat per run is tracked as unresolved.
   */
  lemma {:induction false} IssueBeatsEndWhenResolved(cfg: Config, events: seq<Event>)
    ensures IssuesOk(events, Fold(cfg, events), Origins(cfg, events))
  {
    if events == [] {
      NothingTracked();
    } else {
      var front, e := events[..|events| - 1], events[|events| - 1];
      assert events == front + [e];
      IssueBeatsEndWhenResolved(cfg, front);
      IssuesSnoc(cfg, front, e, Fold(cfg, front), Origins(cfg, front));
    }
  }

  // ---- Arrival order ------------------------------------------------------

  lemma {:induction false} EventLessWeak()
    ensures StrictWeak(EventLess)
  {
    IntThenStrWeak();
    StrStrictWeak();
  }

  lemma {:induction false} SortedByTime(events: seq<Event>)
    ensures Ordered(Sort(EventLess, events))
  {
    var sorted := Sort(EventLess, events);
    EventLessWeak();
    SortSorted(EventLess, events);
    forall i, j | 0 <= i < j < |sorted| ensures sorted[i].timestamp <= sorted[j].timestamp {
      assert !EventLess(sorted[j], sorted[i]);
    }
  }

  /** The limits on movement, chatter and repetition, for the timeline of any stream. */
  lemma {:induction false} TimelineLimits(cfg: Config, events: seq<Event>)
    ensures MovesSpaced(cfg, Compose(cfg, events))
    ensures NoChatter(cfg, Compose(cfg, events)) && OneRelocation(Compose(cfg, events))
    ensures VariantCount(cfg) > 1 ==> NoRepeat(Compose(cfg, events))
  {
    var sorted := Sort(EventLess, events);
    SortedByTime(events);
    MovementCooldown(cfg, sorted);
    ChatterLimits(cfg, sorted);
    if VariantCount(cfg) > 1 { VariantsAlternate(cfg, sorted); }
  }
}
