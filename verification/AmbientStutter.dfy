// Waking early changes nothing, and the wake-up time misses nothing visible.
module AmbientStutter {
  import opened Orders
  import opened Staging
  import opened Ambient
  import opened AmbientInvariants
  import opened AmbientTheorems
  import opened Wrappers

  // ---- The next boundary is the least one ---------------------------------

  ghost predicate AtMost(w: Wake, t: int) { w.At? && w.time <= t }

  lemma {:induction false} SoonestDueIs(clocks: seq<Clock>)
    ensures var r := SoonestDue(clocks);
            && (r.At? ==> exists c :: c in clocks && c.nextDueAt == r.time)
            && forall c | c in clocks :: AtMost(r, c.nextDueAt)
  {
    if clocks == [] {
    } else {
      SoonestDueIs(clocks[..|clocks| - 1]);
      assert clocks == clocks[..|clocks| - 1] + [clocks[|clocks| - 1]];
    }
  }

  lemma {:induction false} SoonestAfterIs(w: Wake, ts: seq<int>, now: int)
    ensures var r := SoonestAfter(w, ts, now);
            && (r == w || (r.At? && r.time > now && r.time in ts))
            && (w.At? ==> AtMost(r, w.time))
            && forall t | t in ts && t > now :: AtMost(r, t)
  {
    if ts == [] {
    } else {
      SoonestAfterIs(w, ts[..|ts| - 1], now);
      assert ts == ts[..|ts| - 1] + [ts[|ts| - 1]];
    }
  }

  ghost predicate Ahead(activities: seq<Activity>, now: int, t: int) {
    t > now && exists a :: a in activities && t in BoundariesOf(a)
  }

  lemma {:induction false} SoonestOfIs(w: Wake, acts: seq<Activity>, now: int)
    ensures var r := SoonestOf(w, acts, now);
            && (r == w || (r.At? && Ahead(acts, now, r.time)))
            && (w.At? ==> AtMost(r, w.time))
            && forall t | Ahead(acts, now, t) :: AtMost(r, t)
  {
    if acts == [] {
    } else {
      var front, last := acts[..|acts| - 1], acts[|acts| - 1];
      SoonestOfIs(w, front, now);
      SoonestAfterIs(SoonestOf(w, front, now), BoundariesOf(last), now);
      assert forall a :: a in acts <==> a in front || a == last;
      forall t | Ahead(acts, now, t) ensures AtMost(SoonestOf(w, acts, now), t) {
        assert Ahead(front, now, t) || t in BoundariesOf(last);
      }
    }
  }

  /** nextBoundary returns the least due time or activity boundary ahead, if there is one. */
  lemma {:induction false} NextBoundaryIsLeast(clocks: seq<Clock>, acts: seq<Activity>, now: int)
    ensures var r := NextBoundary(clocks, acts, now);
            && (r.At? ==> Boundary(clocks, acts, now, r.time))
            && forall t | Boundary(clocks, acts, now, t) :: AtMost(r, t)
  {
    SoonestDueIs(clocks);
    SoonestOfIs(SoonestDue(clocks), acts, now);
    forall t | Boundary(clocks, acts, now, t) ensures AtMost(NextBoundary(clocks, acts, now), t) {
      assert Ahead(acts, now, t) || exists c :: c in clocks && c.nextDueAt == t;
    }
    var r := NextBoundary(clocks, acts, now);
    if r.At? && r != SoonestDue(clocks) { assert Ahead(acts, now, r.time); }
  }

  ghost predicate Before(w: Wake, t: int) { w.At? ==> t < w.time }

  /** Between wakes the next boundary stays what it was. */
  lemma {:induction false} NextBoundaryStays(clocks: seq<Clock>, acts: seq<Activity>, now: int, t: int)
    requires now <= t && Before(NextBoundary(clocks, acts, now), t)
    ensures NextBoundary(clocks, acts, t) == NextBoundary(clocks, acts, now)
  {
    NextBoundaryIsLeast(clocks, acts, now);
    NextBoundaryIsLeast(clocks, acts, t);
    var r, s := NextBoundary(clocks, acts, now), NextBoundary(clocks, acts, t);
    if s.At? { assert Boundary(clocks, acts, now, s.time); }
    if r.At? { assert Boundary(clocks, acts, t, r.time); }
  }

  // ---- Directions between boundaries --------------------------------------

  lemma {:induction false} BreakBoundaryAt(from: int, until: int, k: nat)
    requires from + k * BREAK_SEGMENT_MS < until
    ensures from + k * BREAK_SEGMENT_MS in BreakBoundaries(from, until)
    decreases k
  {
    if k > 0 { BreakBoundaryAt(from + BREAK_SEGMENT_MS, until, k - 1); }
  }

  /** No boundary of the activity lies in (now, t]. */
  ghost predicate Quiet(a: Activity, now: int, t: int) {
    forall b | b in BoundariesOf(a) && b > now :: b > t
  }

  lemma {:induction false} PhaseStays(a: Activity, now: int, t: int)
    requires now <= t && Quiet(a, now, t)
    ensures PhaseOf(a, t) == PhaseOf(a, now)
  {
    var bs := BoundariesOf(a);
    assert bs[0] == a.outboundEndsAt && bs[1] == a.dwellEndsAt;
    assert a.outboundEndsAt in bs && a.dwellEndsAt in bs;
  }

  lemma {:induction false} SegmentStays(a: Activity, now: int, t: int)
    requires now <= t && Quiet(a, now, t)
    requires a.routine == Break && PhaseOf(a, now) == Dwell
    ensures SegmentOf(a, t) == SegmentOf(a, now)
  {
    PhaseStays(a, now, t);
    var k := SegmentOf(a, t);
    if k >= 1 {
      var first := a.outboundEndsAt + BREAK_SEGMENT_MS;
      BreakBoundaryAt(first, a.dwellEndsAt, k - 1);
      var b := first + (k - 1) * BREAK_SEGMENT_MS;
      assert b in BoundariesOf(a) && b <= t;
      assert b <= now;
    }
  }

  lemma {:induction false} DirectionsStay(o: Oracle, acts: seq<Activity>, now: int, t: int, seed: string)
    requires now <= t && forall a | a in acts :: Quiet(a, now, t)
    ensures AllDirections(o, acts, t, seed) == AllDirections(o, acts, now, seed)
  {
    if acts == [] {
    } else {
      var a := acts[|acts| - 1];
      DirectionsStay(o, acts[..|acts| - 1], now, t, seed);
      PhaseStays(a, now, t);
      if a.routine == Break && PhaseOf(a, now) == Dwell { SegmentStays(a, now, t); }
    }
  }

  // ---- Re-advancing a consistent state ------------------------------------

  lemma {:induction false} NoDupPrefix<T>(s: seq<T>, n: nat)
    requires NoDup(s) && n <= |s|
    ensures NoDup(s[..n])
  {
  }

  lemma {:induction false} TotalsPrefix(acts: seq<Activity>, n: nat)
    requires n <= |acts|
    ensures Total(acts[..n], PartCount) <= Total(acts, PartCount)
    ensures Total(acts[..n], AwayCount) <= Total(acts, AwayCount)
  {
    assert acts == acts[..n] + acts[n..];
    TotalJoin(acts[..n], acts[n..], PartCount);
    TotalJoin(acts[..n], acts[n..], AwayCount);
  }

  lemma {:induction false} ListPrefix(ctx: Ctx, acts: seq<Activity>, n: nat)
    requires ListOk(ctx, acts) && n <= |acts|
    ensures ListOk(ctx, acts[..n])
  {
    assert forall a | a in acts[..n] :: a in acts;
    NoDupPrefix(acts, n);
    TotalsPrefix(acts, n);
  }

  lemma {:induction false} NotYetTaken(ctx: Ctx, acts: seq<Activity>, n: nat, id: Id)
    requires ListOk(ctx, acts) && n < |acts|
    requires id in Participants(acts[n])
    ensures id !in PartsOf(acts[..n])
  {
    forall b | b in acts[..n] ensures id !in Participants(b) {
      assert b in acts && b != acts[n];
      assert Apart(acts[n], b);
      assert id in Parts(acts[n]) && id !in Parts(b);
    }
  }

  lemma {:induction false} StillFits(ctx: Ctx, acts: seq<Activity>, n: nat, kept: Kept)
    requires ListOk(ctx, acts) && n < |acts|
    requires KeptOk(ctx, kept) && kept.activities == acts[..n]
    ensures kept.away + AwayCount(acts[n]) <= ctx.input.policy.maxAway
    ensures |kept.participants| + |Participants(acts[n])| <= ctx.input.policy.maxActiveActors
  {
    ListPrefix(ctx, acts, n + 1);
    assert acts[..n + 1] == acts[..n] + [acts[n]];
    TotalSnoc(acts[..n], acts[n], PartCount);
    TotalSnoc(acts[..n], acts[n], AwayCount);
  }

  lemma {:induction false} StillValid(ctx: Ctx, acts: seq<Activity>, n: nat, kept: Kept)
    requires ListOk(ctx, acts) && n < |acts|
    requires ctx.input.policy.enabled && !ctx.geometryChanged && !ctx.resumed
    requires KeptOk(ctx, kept) && kept.activities == acts[..n]
    ensures !Invalid(ctx, kept, acts[n])
  {
    StillFits(ctx, acts, n, kept);
    var a := acts[n];
    assert a in acts;
    assert ActOk(ctx, a) && a.endsAt > ctx.input.now;
    forall id | id in Participants(a) ensures id !in kept.participants {
      NotYetTaken(ctx, acts, n, id);
    }
  }

  lemma {:induction false} HeldApart(ctx: Ctx, acts: seq<Activity>, n: nat)
    requires ListOk(ctx, acts) && n < |acts|
    ensures forall b | b in acts[..n] && acts[n] != b :: Held(acts[n]) !! Held(b)
  {
    forall b | b in acts[..n] && acts[n] != b ensures Held(acts[n]) !! Held(b) {
      assert b in acts && acts[n] in acts && Apart(acts[n], b);
    }
  }

  lemma {:induction false} KeepsNext(ctx: Ctx, acts: seq<Activity>, n: nat, kept: Kept)
    requires ListOk(ctx, acts) && n < |acts|
    requires ctx.input.policy.enabled && !ctx.geometryChanged && !ctx.resumed
    requires KeptOk(ctx, kept) && kept.activities == acts[..n]
    ensures KeptOk(ctx, Keep(ctx, kept, acts[n]))
    ensures Keep(ctx, kept, acts[n]).activities == acts[..n + 1]
  {
    StillValid(ctx, acts, n, kept);
    HeldApart(ctx, acts, n);
    assert acts[n] in acts;
    assert ActOk(ctx, acts[n]);
    assert acts[..n + 1] == acts[..n] + [acts[n]];
    KeepOne(ctx, kept, acts[n]);
  }

  lemma {:induction false} KeepsAll(ctx: Ctx, acts: seq<Activity>, n: nat)
    requires ListOk(ctx, acts) && n <= |acts|
    requires ctx.input.policy.enabled && !ctx.geometryChanged && !ctx.resumed
    ensures KeptOk(ctx, KeepAll(ctx, acts[..n])) && KeepAll(ctx, acts[..n]).activities == acts[..n]
  {
    if n > 0 {
      KeepsAll(ctx, acts, n - 1);
      assert acts[..n][..n - 1] == acts[..n - 1];
      KeepsNext(ctx, acts, n - 1, KeepAll(ctx, acts[..n - 1]));
    } else {
      assert PartsOf([]) == {};
    }
  }

  lemma {:induction false} DistinctAt(actors: seq<Actor>, i: nat, j: nat)
    requires NoDupIds(actors) && i < |actors| && j < |actors|
    ensures i != j ==> actors[i].id != actors[j].id
  {
    StrIrreflexive(actors[i].id);
  }

  lemma {:induction false} ClocksStay(o: Oracle, st: State, input: Input, actors: seq<Actor>)
    requires Aligned(st.clocks, actors) && NoDupIds(actors)
    ensures StartClocks(o, st, input, actors) == st.clocks
  {
    var started := StartClocks(o, st, input, actors);
    forall i | 0 <= i < |actors| ensures started[i] == st.clocks[i] {
      var found := ClockOf(st.clocks, actors[i].id);
      assert st.clocks[i] in st.clocks;
      var j :| 0 <= j < |st.clocks| && st.clocks[j] == found.value;
      DistinctAt(actors, i, j);
    }
  }

  lemma {:induction false} SomeElement<T>(s: seq<T>)
    ensures s == [] || exists x :: x in s
  {
    if s == [] {
    } else {
      assert s[0] in s;
    }
  }

  lemma {:induction false} NothingDue(m: map<Id, Clock>, actors: seq<Actor>, now: int)
    requires Filed(m, actors) && NoDupIds(actors)
    requires forall a | a in actors :: a.id in m && m[a.id].nextDueAt > now
    ensures DueNow(m, actors, now) == []
  {
    DueNowMembers(m, actors, now);
    ValuesAre(m, actors);
    forall c | c in Values(m, actors) ensures c.nextDueAt > now {
      var a :| a in actors && a.id == c.id;
    }
    SomeElement(DueNow(m, actors, now));
  }

  lemma {:induction false} QuietUntilWake(st: State, now: int, t: int)
    requires now <= t && Before(NextBoundary(st.clocks, st.activities, now), t)
    ensures forall a | a in st.activities :: Quiet(a, now, t)
    ensures forall c | c in st.clocks :: c.nextDueAt > t
    ensures forall a | a in st.activities && a.endsAt > now :: a.endsAt > t
  {
    NextBoundaryIsLeast(st.clocks, st.activities, now);
    forall a, b | a in st.activities && b in BoundariesOf(a) && b > now ensures b > t {
      assert Boundary(st.clocks, st.activities, now, b);
    }
    forall c | c in st.clocks ensures c.nextDueAt > t {
      assert Boundary(st.clocks, st.activities, now, c.nextDueAt);
    }
    forall a | a in st.activities && a.endsAt > now ensures a.endsAt > t {
      assert BoundariesOf(a)[2] == a.endsAt;
      assert a.endsAt in BoundariesOf(a);
    }
  }

  lemma {:induction false} QuietCtx(o: Oracle, st: State, input: Input, t: int)
    requires input.policy.enabled && Consistent(o, st, input)
    requires input.now <= t && Before(NextBoundary(st.clocks, st.activities, input.now), t)
    ensures var p := PiecesOf(o, Some(st), input.(now := t));
            && p.base == st && CtxOk(p.ctx)
            && p.ctx == MakeCtx(o, st, input.(now := t))
            && !p.ctx.geometryChanged && !p.ctx.resumed
            && p.ctx.actors == MakeCtx(o, st, input).actors
            && ListOk(p.ctx, st.activities)
            && p.started == st.clocks
  {
    var later := input.(now := t);
    var p := PiecesOf(o, Some(st), later);
    QuietUntilWake(st, input.now, t);
    MakeCtxOk(o, st, later);
    ListTransfer(MakeCtx(o, st, input), p.ctx, st.activities);
    ClocksStay(o, st, later, p.ctx.actors);
  }

  lemma {:induction false} SortedIsKept(ctx: Ctx, acts: seq<Activity>)
    requires ListOk(ctx, acts) && Sorted(ActivityLess, acts)
    requires ctx.input.policy.enabled && !ctx.geometryChanged && !ctx.resumed
    ensures KeepAll(ctx, Sort(ActivityLess, acts)).activities == acts
  {
    SortFixpoint(ActivityLess, acts);
    KeepsAll(ctx, acts, |acts|);
    assert acts[..|acts|] == acts;
  }

  lemma {:induction false} QuietKept(o: Oracle, st: State, input: Input, t: int)
    requires input.policy.enabled && Consistent(o, st, input)
    requires input.now <= t && Before(NextBoundary(st.clocks, st.activities, input.now), t)
    ensures var p := PiecesOf(o, Some(st), input.(now := t));
            p.started == st.clocks && p.kept.activities == st.activities
  {
    var p := PiecesOf(o, Some(st), input.(now := t));
    QuietCtx(o, st, input, t);
    SortedIsKept(p.ctx, st.activities);
  }

  lemma {:induction false} QuietClocks(clocks: seq<Clock>, actors: seq<Actor>, t: int)
    requires Aligned(clocks, actors) && Filed(ClockMap(clocks), actors) && NoDupIds(actors)
    requires forall i | 0 <= i < |clocks| :: ClockMap(clocks)[actors[i].id] == clocks[i]
    requires forall c | c in clocks :: c.nextDueAt > t
    ensures DueNow(ClockMap(clocks), actors, t) == []
  {
    forall a | a in actors ensures a.id in ClockMap(clocks) && ClockMap(clocks)[a.id].nextDueAt > t {
      var i :| 0 <= i < |actors| && actors[i] == a;
      assert clocks[i] in clocks;
    }
    NothingDue(ClockMap(clocks), actors, t);
  }

  lemma {:induction false} QuietStep(o: Oracle, st: State, input: Input, t: int)
    requires input.policy.enabled && Consistent(o, st, input)
    requires input.now <= t && Before(NextBoundary(st.clocks, st.activities, input.now), t)
    ensures var p := PiecesOf(o, Some(st), input.(now := t));
            p.started == st.clocks && p.kept.activities == st.activities && p.w == p.w0
  {
    var p := PiecesOf(o, Some(st), input.(now := t));
    QuietKept(o, st, input, t);
    StartedFiled(o, Some(st), input.(now := t));
    QuietUntilWake(st, input.now, t);
    QuietClocks(p.started, p.ctx.actors, t);
  }

  /**
   * A spurious wake-up is a stutter step: re-advancing anywhere before the announced
   * wake changes nothing but the time of the last advance.
   */
  lemma {:induction false} EarlyWakeChangesNothing(o: Oracle, previous: Option<State>, input: Input, t: int)
    requires previous.Some? ==> Shape(o, previous.value)
    requires input.policy.enabled && input.now <= t
    requires Before(Advance(o, previous, input).nextWakeAt, t)
    ensures var snap := Advance(o, previous, input);
            Advance(o, Some(snap.state), input.(now := t)) == snap.(state := snap.state.(lastAdvancedAt := t))
  {
    var snap := Advance(o, previous, input);
    var st, later := snap.state, input.(now := t);
    AdvanceConsistent(o, previous, input);
    QuietStep(o, st, input, t);
    var p := PiecesOf(o, Some(st), later);
    StartedFiled(o, Some(st), later);
    ValuesAt(p.w.clocks, p.ctx.actors);
    ValuesSorted(p.w.clocks, p.ctx.actors);
    assert Values(p.w.clocks, p.ctx.actors) == st.clocks;
    SortFixpoint(ActivityLess, st.activities);
    QuietUntilWake(st, input.now, t);
    DirectionsStay(o, st.activities, input.now, t, input.seed);
    NextBoundaryStays(st.clocks, st.activities, input.now, t);
  }

  /** The announced wake is always in the future. */
  lemma {:induction false} WakeIsAhead(o: Oracle, previous: Option<State>, input: Input)
    requires previous.Some? ==> Shape(o, previous.value)
    requires input.policy.enabled
    ensures Before(Advance(o, previous, input).nextWakeAt, input.now)
  {
    AdvanceConsistent(o, previous, input);
    var snap := Advance(o, previous, input);
    NextBoundaryIsLeast(snap.state.clocks, snap.state.activities, input.now);
  }

  // ---- One direction per employee -----------------------------------------

  ghost predicate DistinctEmployees(ds: seq<Direction>) {
    NoDup(ds) && forall x, y | x in ds && y in ds && x != y :: x.employee != y.employee
  }

  lemma {:induction false} OneActivity(o: Oracle, a: Activity, now: int, seed: string)
    requires Shaped(a)
    ensures DistinctEmployees(DirectionsOf(o, a, now, seed))
    ensures forall d | d in DirectionsOf(o, a, now, seed) :: d.employee in Parts(a)
  {
    assert Participants(a)[0] == a.mover;
    if a.partner.Some? { assert Participants(a)[1] == a.partner.value; }
  }

  lemma {:induction false} JoinDistinct(xs: seq<Direction>, ys: seq<Direction>)
    requires DistinctEmployees(xs) && DistinctEmployees(ys)
    requires forall x, y | x in xs && y in ys :: x.employee != y.employee
    ensures DistinctEmployees(xs + ys)
  {
    var all := xs + ys;
    forall i, j | 0 <= i < j < |all| ensures all[i] != all[j] {
      if i < |xs| <= j { assert xs[i] in xs && ys[j - |xs|] in ys; }
    }
  }

  /** Whoever is directed takes part in one of the activities. */
  lemma {:induction false} DirectedTakePart(o: Oracle, acts: seq<Activity>, now: int, seed: string, d: Direction)
    returns (a: Activity)
    requires forall b | b in acts :: Shaped(b)
    requires d in AllDirections(o, acts, now, seed)
    ensures a in acts && d.employee in Parts(a)
  {
    var n := |acts| - 1;
    assert acts[n] in acts && forall b | b in acts[..n] :: b in acts;
    if d in AllDirections(o, acts[..n], now, seed) {
      a := DirectedTakePart(o, acts[..n], now, seed, d);
    } else {
      a := acts[n];
      OneActivity(o, a, now, seed);
    }
  }

  lemma {:induction false} LastApart(o: Oracle, ctx: Ctx, acts: seq<Activity>, now: int, seed: string)
    requires ListOk(ctx, acts) && acts != []
    ensures var n := |acts| - 1;
            forall x, y | x in AllDirections(o, acts[..n], now, seed) && y in DirectionsOf(o, acts[n], now, seed) ::
              x.employee != y.employee
  {
    var n := |acts| - 1;
    var a := acts[n];
    ListPrefix(ctx, acts, n);
    assert ActOk(ctx, a) && forall b | b in acts[..n] :: ActOk(ctx, b);
    OneActivity(o, a, now, seed);
    forall x, y | x in AllDirections(o, acts[..n], now, seed) && y in DirectionsOf(o, a, now, seed)
      ensures x.employee != y.employee
    {
      var b := DirectedTakePart(o, acts[..n], now, seed, x);
      assert b in acts && b != a && Apart(a, b);
    }
  }

  lemma {:induction false} AllDistinct(o: Oracle, ctx: Ctx, acts: seq<Activity>, now: int, seed: string)
    requires ListOk(ctx, acts)
    ensures DistinctEmployees(AllDirections(o, acts, now, seed))
  {
    if acts == [] {
    } else {
      var n := |acts| - 1;
      ListPrefix(ctx, acts, n);
      AllDistinct(o, ctx, acts[..n], now, seed);
      assert ActOk(ctx, acts[n]);
      OneActivity(o, acts[n], now, seed);
      LastApart(o, ctx, acts, now, seed);
      JoinDistinct(AllDirections(o, acts[..n], now, seed), DirectionsOf(o, acts[n], now, seed));
    }
  }

  lemma {:induction false} StillDistinct(xs: seq<Direction>, ys: seq<Direction>)
    requires DistinctEmployees(xs) && multiset(xs) == multiset(ys)
    ensures forall i, j | 0 <= i < j < |ys| :: ys[i].employee != ys[j].employee
  {
    SameElements(xs, ys);
    NoDupPermute(xs, ys);
    forall i, j | 0 <= i < j < |ys| ensures ys[i].employee != ys[j].employee {
      assert ys[i] in xs && ys[j] in xs && ys[i] != ys[j];
    }
  }

  /** Nobody is ever given two directions. */
  lemma {:induction false} OneDirectionEach(o: Oracle, previous: Option<State>, input: Input)
    requires previous.Some? ==> Shape(o, previous.value)
    requires input.policy.enabled
    ensures var ds := Advance(o, previous, input).directions;
            forall i, j | 0 <= i < j < |ds| :: ds[i].employee != ds[j].employee
  {
    AdvanceConsistent(o, previous, input);
    var st := Advance(o, previous, input).state;
    var all := AllDirections(o, st.activities, input.now, input.seed);
    AllDistinct(o, MakeCtx(o, st, input), st.activities, input.now, input.seed);
    var ds := DirectionsFor(o, st.activities, input.now, input.seed);
    StillDistinct(all, ds);
    assert Advance(o, previous, input).directions == ds;
  }
}
