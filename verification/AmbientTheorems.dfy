// The scheduler's promises: invariants over all runs, no catch-up burst, and
// spurious wake-ups as stutter steps.
module AmbientTheorems {
  import opened Orders
  import opened Staging
  import opened Ambient
  import opened AmbientInvariants
  import opened Wrappers

  // ---- Clocks -------------------------------------------------------------

  ghost predicate Aligned(clocks: seq<Clock>, actors: seq<Actor>) {
    |clocks| == |actors| && forall i | 0 <= i < |clocks| :: clocks[i].id == actors[i].id
  }

  lemma {:induction false} StrIrreflexive(a: string)
    ensures !StrLess(a, a)
  {
    StrTotal(a, a);
  }

  lemma {:induction false} ClockMapAt(clocks: seq<Clock>, actors: seq<Actor>)
    requires Aligned(clocks, actors) && NoDupIds(actors)
    ensures forall i | 0 <= i < |clocks| :: clocks[i].id in ClockMap(clocks) && ClockMap(clocks)[clocks[i].id] == clocks[i]
    ensures forall id | id in ClockMap(clocks) :: ClockMap(clocks)[id].id == id
  {
    if clocks == [] {
    } else {
      var n := |clocks| - 1;
      ClockMapAt(clocks[..n], actors[..n]);
      forall i | 0 <= i < n ensures clocks[i].id != clocks[n].id {
        StrIrreflexive(clocks[n].id);
        assert StrLess(actors[i].id, actors[n].id);
        assert clocks[..n][i] == clocks[i];
      }
    }
  }

  /** Every roster member has a clock filed under its own id. */
  ghost predicate Filed(m: map<Id, Clock>, actors: seq<Actor>) {
    && (forall i | 0 <= i < |actors| :: actors[i].id in m)
    && forall id | id in m :: m[id].id == id
  }

  lemma {:induction false} ValuesAt(m: map<Id, Clock>, actors: seq<Actor>)
    requires Filed(m, actors)
    ensures |Values(m, actors)| == |actors|
    ensures forall i | 0 <= i < |actors| :: Values(m, actors)[i] == m[actors[i].id]
  {
    if actors == [] {
    } else {
      ValuesAt(m, actors[..|actors| - 1]);
    }
  }

  lemma {:induction false} ValuesSorted(m: map<Id, Clock>, actors: seq<Actor>)
    requires Filed(m, actors) && NoDupIds(actors)
    ensures Sort(ClockLess, Values(m, actors)) == Values(m, actors)
    ensures NoDup(Values(m, actors))
  {
    ValuesAt(m, actors);
    var vs := Values(m, actors);
    forall i, j | 0 <= i < j < |vs| ensures !ClockLess(vs[j], vs[i]) && vs[i] != vs[j] {
      StrTotal(actors[i].id, actors[j].id);
      StrIrreflexive(actors[i].id);
    }
    SortFixpoint(ClockLess, vs);
  }

  /** The due list names each due roster member once, with its filed clock. */
  ghost predicate DueList(m: map<Id, Clock>, actors: seq<Actor>, now: int, due: seq<Clock>) {
    && NoDup(due)
    && (forall d | d in due :: d.id in m && m[d.id] == d && d.nextDueAt <= now && OnRoster(actors, d.id))
    && forall a | a in actors :: a.id in m && (m[a.id].nextDueAt <= now ==> m[a.id] in due)
  }

  lemma {:induction false} ValuesAre(m: map<Id, Clock>, actors: seq<Actor>)
    requires Filed(m, actors)
    ensures forall a | a in actors :: a.id in m && m[a.id] in Values(m, actors)
    ensures forall c | c in Values(m, actors) :: c.id in m && m[c.id] == c && OnRoster(actors, c.id)
  {
    ValuesAt(m, actors);
    var vs := Values(m, actors);
    forall a | a in actors ensures m[a.id] in vs {
      var i :| 0 <= i < |actors| && actors[i] == a;
      assert vs[i] == m[a.id];
    }
    forall c | c in vs ensures c.id in m && m[c.id] == c && OnRoster(actors, c.id) {
      var i :| 0 <= i < |vs| && vs[i] == c;
      assert actors[i].id == c.id;
    }
  }

  lemma {:induction false} DueNowMembers(m: map<Id, Clock>, actors: seq<Actor>, now: int)
    requires Filed(m, actors) && NoDupIds(actors)
    ensures NoDup(DueNow(m, actors, now))
    ensures forall c :: c in DueNow(m, actors, now) <==> c in Values(m, actors) && c.nextDueAt <= now
  {
    ValuesSorted(m, actors);
    var ripe := Filter(Values(m, actors), (c: Clock) => c.nextDueAt <= now);
    FilterNoDup(Values(m, actors), (c: Clock) => c.nextDueAt <= now);
    NoDupPermute(ripe, DueNow(m, actors, now));
    SameElements(ripe, DueNow(m, actors, now));
  }

  lemma {:induction false} DueNowLists(m: map<Id, Clock>, actors: seq<Actor>, now: int)
    requires Filed(m, actors) && NoDupIds(actors)
    ensures DueList(m, actors, now, DueNow(m, actors, now))
  {
    ValuesAre(m, actors);
    DueNowMembers(m, actors, now);
  }

  lemma {:induction false} FilterNoDup<T(!new)>(s: seq<T>, p: T -> bool)
    requires NoDup(s)
    ensures NoDup(Filter(s, p))
  {
    if s == [] {
    } else {
      FilterNoDup(s[1..], p);
      forall x | x in Filter(s[1..], p) ensures x != s[0] {
        var i :| 0 <= i < |s[1..]| && s[1..][i] == x;
        assert s[i + 1] == x;
      }
    }
  }

  lemma {:induction false} AttemptClock(ctx: Ctx, w: Work, d: Clock)
    requires d.id in w.clocks && w.clocks[d.id] == d && d.nextDueAt <= ctx.input.now && OnRoster(ctx.actors, d.id)
    ensures Attempt(ctx, w, d).clocks == w.clocks[d.id := ConsumeAttempt(ctx.o, ctx.input.seed, d, ctx.input.now)]
  {
  }

  ghost predicate DuePart(ctx: Ctx, w: Work, due: seq<Clock>) {
    && NoDup(due)
    && (forall id | id in w.clocks :: w.clocks[id].id == id)
    && forall d | d in due :: d.id in w.clocks && w.clocks[d.id] == d && d.nextDueAt <= ctx.input.now && OnRoster(ctx.actors, d.id)
  }

  lemma {:induction false} DuePartPrefix(ctx: Ctx, w: Work, due: seq<Clock>, n: nat)
    requires DuePart(ctx, w, due) && n <= |due|
    ensures DuePart(ctx, w, due[..n])
  {
    assert forall d | d in due[..n] :: d in due;
  }

  /** Exactly the due clocks spend exactly one attempt. */
  lemma {:induction false} AttemptAllClocks(ctx: Ctx, w: Work, due: seq<Clock>)
    requires DuePart(ctx, w, due)
    ensures var r := AttemptAll(ctx, w, due);
            && r.clocks.Keys == w.clocks.Keys
            && forall id | id in w.clocks ::
                 r.clocks[id] == if w.clocks[id] in due then ConsumeAttempt(ctx.o, ctx.input.seed, w.clocks[id], ctx.input.now)
                                 else w.clocks[id]
  {
    if due == [] {
    } else {
      var n := |due| - 1;
      var d := due[n];
      DuePartPrefix(ctx, w, due, n);
      AttemptAllClocks(ctx, w, due[..n]);
      var mid := AttemptAll(ctx, w, due[..n]);
      assert d !in due[..n] && d in due;
      AttemptClock(ctx, mid, d);
      assert forall c :: c in due <==> c in due[..n] || c == d;
    }
  }

  // ---- One enabled boundary ------------------------------------------------

  /** The pieces an enabled boundary goes through, named. */
  datatype Pieces = Pieces(base: State, ctx: Ctx, started: seq<Clock>, kept: Kept, w0: Work, w: Work)

  function PiecesOf(o: Oracle, previous: Option<State>, input: Input): Pieces {
    var base := Base(o, previous, input);
    var ctx := MakeCtx(o, base, input);
    var started := StartClocks(o, base, input, ctx.actors);
    var kept := KeepAll(ctx, Sort(ActivityLess, base.activities));
    var w0 := StartWork(ctx, kept, ClockMap(started));
    Pieces(base, ctx, started, kept, w0, AttemptAll(ctx, w0, DueNow(w0.clocks, ctx.actors, input.now)))
  }

  lemma {:induction false} StartedFiled(o: Oracle, previous: Option<State>, input: Input)
    ensures var p := PiecesOf(o, previous, input);
            && CtxOk(p.ctx) && Aligned(p.started, p.ctx.actors) && Filed(ClockMap(p.started), p.ctx.actors)
            && forall i | 0 <= i < |p.started| :: ClockMap(p.started)[p.ctx.actors[i].id] == p.started[i]
  {
    var p := PiecesOf(o, previous, input);
    MakeCtxOk(o, p.base, input);
    ClockMapAt(p.started, p.ctx.actors);
  }

  function Settled(o: Oracle, input: Input, c: Clock): Clock {
    if c.nextDueAt <= input.now then ConsumeAttempt(o, input.seed, c, input.now) else c
  }

  /** After the due list, every clock on the roster is settled. */
  lemma {:induction false} ClocksSettle(ctx: Ctx, w0: Work, started: seq<Clock>)
    requires NoDupIds(ctx.actors) && Aligned(started, ctx.actors) && Filed(w0.clocks, ctx.actors)
    requires forall i | 0 <= i < |started| :: w0.clocks[ctx.actors[i].id] == started[i]
    ensures var w := AttemptAll(ctx, w0, DueNow(w0.clocks, ctx.actors, ctx.input.now));
            && Filed(w.clocks, ctx.actors)
            && forall i | 0 <= i < |started| :: w.clocks[ctx.actors[i].id] == Settled(ctx.o, ctx.input, started[i])
  {
    DueNowLists(w0.clocks, ctx.actors, ctx.input.now);
    AttemptAllClocks(ctx, w0, DueNow(w0.clocks, ctx.actors, ctx.input.now));
    forall i | 0 <= i < |started|
      ensures AttemptAll(ctx, w0, DueNow(w0.clocks, ctx.actors, ctx.input.now)).clocks[ctx.actors[i].id]
              == Settled(ctx.o, ctx.input, started[i])
    {
      assert ctx.actors[i] in ctx.actors;
    }
  }

  lemma {:induction false} WorkClocks(o: Oracle, previous: Option<State>, input: Input)
    ensures var p := PiecesOf(o, previous, input);
            && Filed(p.w.clocks, p.ctx.actors)
            && forall i | 0 <= i < |p.started| :: p.w.clocks[p.ctx.actors[i].id] == Settled(o, input, p.started[i])
  {
    var p := PiecesOf(o, previous, input);
    StartedFiled(o, previous, input);
    ClocksSettle(p.ctx, p.w0, p.started);
  }

  lemma {:induction false} FinalClocks(o: Oracle, previous: Option<State>, input: Input)
    requires input.policy.enabled
    ensures var p, st := PiecesOf(o, previous, input), Advance(o, previous, input).state;
            && |st.clocks| == |p.started|
            && forall i | 0 <= i < |p.started| :: st.clocks[i] == Settled(o, input, p.started[i])
  {
    var p := PiecesOf(o, previous, input);
    StartedFiled(o, previous, input);
    WorkClocks(o, previous, input);
    ValuesAt(p.w.clocks, p.ctx.actors);
    ValuesSorted(p.w.clocks, p.ctx.actors);
    assert Advance(o, previous, input).state.clocks == Values(p.w.clocks, p.ctx.actors);
  }

  /**
   * No catch-up burst: a boundary adds exactly one attempt to every due clock,
   * however late it is, rebased into the future, and none to the others.
   */
  lemma {:induction false} OneAttemptPerDueClock(o: Oracle, previous: Option<State>, input: Input)
    requires input.policy.enabled
    ensures var st := Advance(o, previous, input).state;
            var before := StartClocks(o, Base(o, previous, input), input, Roster(input.actors));
            && |st.clocks| == |before|
            && forall i | 0 <= i < |before| ::
                 if before[i].nextDueAt <= input.now then
                   && st.clocks[i].id == before[i].id
                   && st.clocks[i].sequence == before[i].sequence + 1
                   && input.now + NEXT_DUE_MIN_MS <= st.clocks[i].nextDueAt <= input.now + NEXT_DUE_MAX_MS
                 else st.clocks[i] == before[i]
  {
    FinalClocks(o, previous, input);
  }

  lemma {:induction false} BaseShape(o: Oracle, previous: Option<State>, input: Input)
    requires previous.Some? ==> Shape(o, previous.value)
    ensures var p := PiecesOf(o, previous, input);
            KeptOk(p.ctx, p.kept)
  {
    var p := PiecesOf(o, previous, input);
    var sorted := Sort(ActivityLess, p.base.activities);
    SameElements(p.base.activities, sorted);
    if !p.ctx.geometryChanged {
      SignatureAnchors(o, p.ctx.homes, input.prefabs, input.route);
    }
    KeepAllOk(p.ctx, sorted);
  }

  lemma {:induction false} ListSorted(ctx: Ctx, s: seq<Activity>)
    requires ListOk(ctx, s)
    ensures ListOk(ctx, Sort(ActivityLess, s))
  {
    var t := Sort(ActivityLess, s);
    SameElements(s, t);
    NoDupPermute(s, t);
    TotalSort(ActivityLess, s, PartCount);
    TotalSort(ActivityLess, s, AwayCount);
  }

  /** ListOk reads only these parts of the context. */
  lemma {:induction false} ListTransfer(c1: Ctx, c2: Ctx, acts: seq<Activity>)
    requires ListOk(c1, acts)
    requires c1.actors == c2.actors && c1.anchorIds == c2.anchorIds && c1.blockedFixtures == c2.blockedFixtures
    requires c1.input.blocked == c2.input.blocked && c1.input.policy == c2.input.policy
    requires forall a | a in acts :: a.endsAt > c2.input.now
    ensures ListOk(c2, acts)
  {
    forall a | a in acts ensures ActOk(c2, a) {
      assert ActOk(c1, a);
      forall d | d in Destinations(a) ensures !AnchorBlocked(c2, d.anchorId) {
        assert !AnchorBlocked(c1, d.anchorId);
      }
    }
  }

  lemma {:induction false} WorkKeeps(o: Oracle, previous: Option<State>, input: Input)
    requires previous.Some? ==> Shape(o, previous.value)
    ensures var p := PiecesOf(o, previous, input);
            WorkOk(p.ctx, p.w)
  {
    var p := PiecesOf(o, previous, input);
    StartedFiled(o, previous, input);
    BaseShape(o, previous, input);
    StartWorkOk(p.ctx, p.kept, ClockMap(p.started));
    AttemptAllOk(p.ctx, p.w0, DueNow(p.w0.clocks, p.ctx.actors, input.now));
  }

  lemma {:induction false} FinalList(o: Oracle, previous: Option<State>, input: Input)
    requires input.policy.enabled
    requires previous.Some? ==> Shape(o, previous.value)
    ensures var st := Advance(o, previous, input).state;
            ListOk(MakeCtx(o, st, input), st.activities) && Sorted(ActivityLess, st.activities)
  {
    var p := PiecesOf(o, previous, input);
    var st := Advance(o, previous, input).state;
    WorkKeeps(o, previous, input);
    ListSorted(p.ctx, p.w.activities);
    ListTransfer(p.ctx, MakeCtx(o, st, input), st.activities);
    DueLessWeak();
    SortSorted(ActivityLess, p.w.activities);
  }

  lemma {:induction false} FinalIds(o: Oracle, previous: Option<State>, input: Input)
    requires input.policy.enabled
    ensures var st, ctx := Advance(o, previous, input).state, MakeCtx(o, Advance(o, previous, input).state, input);
            && |st.clocks| == |ctx.actors|
            && forall i | 0 <= i < |st.clocks| :: st.clocks[i].id == ctx.actors[i].id && st.clocks[i].nextDueAt > input.now
  {
    StartedFiled(o, previous, input);
    OneAttemptPerDueClock(o, previous, input);
  }

  /** From any well-shaped state, an enabled boundary leaves a consistent one. */
  lemma {:induction false} AdvanceConsistent(o: Oracle, previous: Option<State>, input: Input)
    requires input.policy.enabled
    requires previous.Some? ==> Shape(o, previous.value)
    ensures Consistent(o, Advance(o, previous, input).state, input)
  {
    FinalList(o, previous, input);
    FinalIds(o, previous, input);
  }

  lemma {:induction false} ShapeFromList(o: Oracle, st: State, ctx: Ctx)
    requires ListOk(ctx, st.activities)
    requires ctx.anchorIds == IdsOf(Expand(o.layout, st.signature.prefabs))
    ensures Shape(o, st)
  {
    forall a | a in st.activities ensures Shaped(a) && KnownAnchors(ctx.anchorIds, a) { assert ActOk(ctx, a); }
    forall a, b | a in st.activities && b in st.activities && a != b ensures Held(a) !! Held(b) { assert Apart(a, b); }
  }

  lemma {:induction false} ConsistentShape(o: Oracle, st: State, input: Input)
    requires Consistent(o, st, input)
    ensures Shape(o, st)
  {
    var ctx := MakeCtx(o, st, input);
    SignatureAnchors(o, ctx.homes, input.prefabs, input.route);
    ShapeFromList(o, st, ctx);
  }

  ghost function Run(o: Oracle, inputs: seq<Input>): Option<State> {
    if inputs == [] then None
    else Some(Advance(o, Run(o, inputs[..|inputs| - 1]), inputs[|inputs| - 1]).state)
  }

  lemma {:induction false} RunShape(o: Oracle, inputs: seq<Input>)
    ensures Run(o, inputs).Some? ==> Shape(o, Run(o, inputs).value)
  {
    if inputs == [] {
    } else {
      var before := inputs[..|inputs| - 1];
      var last := inputs[|inputs| - 1];
      RunShape(o, before);
      if last.policy.enabled {
        AdvanceConsistent(o, Run(o, before), last);
        ConsistentShape(o, Run(o, inputs).value, last);
      }
    }
  }

  /** Every reachable state whose last boundary was enabled keeps the whole invariant. */
  lemma {:induction false} EveryRunConsistent(o: Oracle, inputs: seq<Input>)
    requires inputs != [] && inputs[|inputs| - 1].policy.enabled
    ensures Consistent(o, Run(o, inputs).value, inputs[|inputs| - 1])
  {
    RunShape(o, inputs[..|inputs| - 1]);
    AdvanceConsistent(o, Run(o, inputs[..|inputs| - 1]), inputs[|inputs| - 1]);
  }

  /** More than five seconds late: everything is dropped and nothing is started. */
  lemma {:induction false} LateWakeDropsAll(o: Oracle, previous: Option<State>, input: Input)
    requires input.policy.enabled
    requires var base := Base(o, previous, input);
             var wake := NextBoundary(base.clocks, base.activities, base.lastAdvancedAt);
             wake.At? && input.now > wake.time + SUSPENSION_LATENESS_MS
    ensures Advance(o, previous, input).state.activities == []
    ensures Advance(o, previous, input).directions == []
  {
    var p := PiecesOf(o, previous, input);
    KeepNothing(p.ctx, Sort(ActivityLess, p.base.activities));
    StartNothing(p.ctx, p.w0, DueNow(p.w0.clocks, p.ctx.actors, input.now));
  }

  lemma {:induction false} KeepNothing(ctx: Ctx, acts: seq<Activity>)
    requires ctx.resumed
    ensures KeepAll(ctx, acts).activities == []
  {
    if acts == [] {
    } else {
      KeepNothing(ctx, acts[..|acts| - 1]);
    }
  }

  lemma {:induction false} StartNothing(ctx: Ctx, w: Work, due: seq<Clock>)
    requires ctx.resumed
    ensures AttemptAll(ctx, w, due).activities == w.activities
  {
    if due == [] {
    } else {
      StartNothing(ctx, w, due[..|due| - 1]);
    }
  }
}
