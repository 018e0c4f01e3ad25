// The scheduler in its own form: loops over mutable locals, proved to compute
// exactly the functions the laws are about.
module AmbientLoops {
  import opened Orders
  import opened Staging
  import opened Ambient
  import opened Wrappers

  lemma {:induction false} FirstSomeStep<X(!new), Y>(xs: seq<X>, f: X -> Option<Y>, i: nat)
    requires i < |xs|
    ensures FirstSome(xs[i..], f) == if f(xs[i]).Some? then f(xs[i]) else FirstSome(xs[i + 1..], f)
  {
    assert xs[i..][1..] == xs[i + 1..];
  }

  method NextOfFixed(before: Wake, fixed: seq<int>, now: int) returns (next: Wake)
    ensures next == SoonestAfter(before, fixed, now)
  {
    next := before;
    for k := 0 to |fixed|
      invariant next == SoonestAfter(before, fixed[..k], now)
    {
      if fixed[k] > now && (next.Never? || fixed[k] < next.time) { next := At(fixed[k]); }
      assert fixed[..k + 1][..k] == fixed[..k];
    }
    assert fixed[..|fixed|] == fixed;
  }

  lemma {:induction false} SoonestSnoc(w: Wake, ts: seq<int>, t: int, now: int)
    ensures SoonestAfter(w, ts + [t], now)
            == var next := SoonestAfter(w, ts, now); if t > now && (next.Never? || t < next.time) then At(t) else next
  {
    assert (ts + [t])[..|ts|] == ts;
  }

  method NextOfSegments(before: Wake, from: int, until: int, now: int, ghost done0: seq<int>, ghost first: Wake)
    returns (next: Wake)
    requires before == SoonestAfter(first, done0, now)
    ensures next == SoonestAfter(first, done0 + BreakBoundaries(from, until), now)
  {
    next := before;
    ghost var done := done0;
    var boundary := from;
    while boundary < until
      invariant done + BreakBoundaries(boundary, until) == done0 + BreakBoundaries(from, until)
      invariant next == SoonestAfter(first, done, now)
      decreases until - boundary
    {
      SoonestSnoc(first, done, boundary, now);
      if boundary > now && (next.Never? || boundary < next.time) { next := At(boundary); }
      done := done + [boundary];
      boundary := boundary + BREAK_SEGMENT_MS;
    }
    assert done == done + BreakBoundaries(boundary, until);
  }

  /** The boundaries of one activity, fixed ones first, then the break segments. */
  method NextOfActivity(before: Wake, a: Activity, now: int) returns (next: Wake)
    ensures next == SoonestAfter(before, BoundariesOf(a), now)
  {
    ghost var fixed := [a.outboundEndsAt, a.dwellEndsAt, a.endsAt];
    next := NextOfFixed(before, [a.outboundEndsAt, a.dwellEndsAt, a.endsAt], now);
    assert fixed + [] == fixed;
    if a.routine == Break {
      next := NextOfSegments(next, a.outboundEndsAt + BREAK_SEGMENT_MS, a.dwellEndsAt, now, fixed, before);
    }
  }

  method NextBoundaryLoop(clocks: seq<Clock>, activities: seq<Activity>, now: int) returns (next: Wake)
    ensures next == NextBoundary(clocks, activities, now)
  {
    next := Never;
    for i := 0 to |clocks|
      invariant next == SoonestDue(clocks[..i])
    {
      if next.Never? || clocks[i].nextDueAt < next.time { next := At(clocks[i].nextDueAt); }
      assert clocks[..i + 1][..i] == clocks[..i];
    }
    assert clocks[..|clocks|] == clocks;
    for i := 0 to |activities|
      invariant next == SoonestOf(SoonestDue(clocks), activities[..i], now)
    {
      assert activities[..i + 1][..i] == activities[..i];
      next := NextOfActivity(next, activities[i], now);
    }
    assert activities[..|activities|] == activities;
  }

  method PushDirections(o: Oracle, a: Activity, now: int, seed: string, before: seq<Direction>)
    returns (directions: seq<Direction>)
    ensures directions == before + DirectionsOf(o, a, now, seed)
  {
    directions := before;
    var phase := PhaseOf(a, now);
    if a.routine == Break && a.partner.Some? && a.partnerDestination.Some? {
      directions := directions +
        [BreakDirection(o, a, now, seed, a.mover, a.partner.value, Some(a.homePosture), a.destination)];
      directions := directions +
        [BreakDirection(o, a, now, seed, a.partner.value, a.mover, a.partnerHomePosture, a.partnerDestination)];
      return;
    }
    var performance := if phase == Return then Idle(a.homePosture == Sitting, None)
                       else DestinationPerformance(o, a, seed, a.mover);
    directions := directions +
      [Direction(a.mover, a.routine, phase, a.away, a.partner, performance, StageFor(a, phase, a.mover, a.destination))];
    if a.routine == Social && a.partner.Some? && phase == Dwell {
      directions := directions + [Direction(a.partner.value, Social, phase, false, Some(a.mover),
        Acting(Social, true, VariantFor(o, seed, a.partner.value, a.sequence, Social)), None)];
    }
  }

  method DirectionsLoop(o: Oracle, activities: seq<Activity>, now: int, seed: string) returns (r: seq<Direction>)
    ensures r == DirectionsFor(o, activities, now, seed)
  {
    var directions: seq<Direction> := [];
    for i := 0 to |activities|
      invariant directions == AllDirections(o, activities[..i], now, seed)
    {
      assert activities[..i + 1][..i] == activities[..i];
      directions := PushDirections(o, activities[i], now, seed, directions);
    }
    assert activities[..|activities|] == activities;
    r := Sort(DirectionLess, directions);
  }

  // ---- Choosing what a due employee does ----------------------------------

  method PhoneLoop(ctx: Ctx, w: Work, clock: Clock, home: Home) returns (activity: Option<Activity>)
    ensures activity == PhoneChoice(ctx, w, clock, home)
  {
    var ds := PhoneDestinations(ctx, w, clock, home);
    ghost var f := (d: Destination) => TryMovement(ctx, Phone, clock, home, None, d, false);
    activity := None;
    for i := 0 to |ds|
      invariant activity.None? && FirstSome(ds, f) == FirstSome(ds[i..], f)
    {
      FirstSomeStep(ds, f, i);
      var trip := RoundTrip(ctx.o, ctx.input, home, ds[i], false);
      if trip.None? { continue; }
      activity := Some(ActivityForMovement(Phone, clock.id, None, clock.sequence, ds[i], home, trip.value, ctx.input.now));
      return;
    }
  }

  method BreakLoop(ctx: Ctx, w: Work, clock: Clock, home: Home, partner: Home) returns (activity: Option<Activity>)
    ensures activity == BreakWith(ctx, w, clock, home, partner)
  {
    var fixtures := BreakFixtures(ctx, w, home, partner);
    ghost var f := (x: Fixture) => TryBreak(ctx, clock, home, partner, x);
    activity := None;
    for i := 0 to |fixtures|
      invariant activity.None? && FirstSome(fixtures, f) == FirstSome(fixtures[i..], f)
    {
      FirstSomeStep(fixtures, f, i);
      var d, pd := WorldDestination(fixtures[i].moverAnchor), WorldDestination(fixtures[i].partnerAnchor);
      var mover := RoundTrip(ctx.o, ctx.input, home, d, true);
      var other := RoundTrip(ctx.o, ctx.input, partner, pd, true);
      if mover.None? || other.None? { continue; }
      activity := Some(ActivityForBreak(home, partner, clock.sequence, d, pd, mover.value, other.value, ctx.input.now));
      return;
    }
  }

  method SocialLoop(ctx: Ctx, w: Work, clock: Clock, home: Home, partner: Home) returns (activity: Option<Activity>)
    ensures activity == SocialWith(ctx, w, clock, home, partner)
  {
    var ds := SocialDestinations(ctx, w, clock.id, clock.sequence, partner);
    ghost var f := (d: Destination) => TryMovement(ctx, Social, clock, home, Some(partner.id), d, false);
    activity := None;
    for i := 0 to |ds|
      invariant activity.None? && FirstSome(ds, f) == FirstSome(ds[i..], f)
    {
      FirstSomeStep(ds, f, i);
      var trip := RoundTrip(ctx.o, ctx.input, home, ds[i], false);
      if trip.None? { continue; }
      activity := Some(ActivityForMovement(Social, clock.id, Some(partner.id), clock.sequence, ds[i], home, trip.value, ctx.input.now));
      return;
    }
  }

  method SoloLoop(ctx: Ctx, w: Work, clock: Clock, home: Home, r: Routine, kind: AnchorKind) returns (activity: Option<Activity>)
    ensures activity == FirstSome(FreeAnchors(ctx, w, kind, home),
              (a: WorldAnchor) => TryMovement(ctx, r, clock, home, None, WorldDestination(a), true))
  {
    var anchors := FreeAnchors(ctx, w, kind, home);
    ghost var f := (a: WorldAnchor) => TryMovement(ctx, r, clock, home, None, WorldDestination(a), true);
    activity := None;
    for i := 0 to |anchors|
      invariant activity.None? && FirstSome(anchors, f) == FirstSome(anchors[i..], f)
    {
      FirstSomeStep(anchors, f, i);
      var d := WorldDestination(anchors[i]);
      var trip := RoundTrip(ctx.o, ctx.input, home, d, true);
      if trip.None? { continue; }
      activity := Some(ActivityForMovement(r, clock.id, None, clock.sequence, d, home, trip.value, ctx.input.now));
      return;
    }
  }

  method BreakPartners(ctx: Ctx, w: Work, clock: Clock, home: Home) returns (activity: Option<Activity>)
    ensures activity == FirstSome(Partners(ctx, w, home, clock.id), (p: Home) => BreakWith(ctx, w, clock, home, p))
  {
    var partners := Partners(ctx, w, home, clock.id);
    ghost var f := (p: Home) => BreakWith(ctx, w, clock, home, p);
    activity := None;
    for i := 0 to |partners|
      invariant activity.None? && FirstSome(partners, f) == FirstSome(partners[i..], f)
    {
      FirstSomeStep(partners, f, i);
      activity := BreakLoop(ctx, w, clock, home, partners[i]);
      if activity.Some? { return; }
    }
  }

  method SocialPartners(ctx: Ctx, w: Work, clock: Clock, home: Home) returns (activity: Option<Activity>)
    ensures activity == FirstSome(Partners(ctx, w, home, clock.id), (p: Home) => SocialWith(ctx, w, clock, home, p))
  {
    var partners := Partners(ctx, w, home, clock.id);
    ghost var f := (p: Home) => SocialWith(ctx, w, clock, home, p);
    activity := None;
    for i := 0 to |partners|
      invariant activity.None? && FirstSome(partners, f) == FirstSome(partners[i..], f)
    {
      FirstSomeStep(partners, f, i);
      activity := SocialLoop(ctx, w, clock, home, partners[i]);
      if activity.Some? { return; }
    }
  }

  method RoutineStep(ctx: Ctx, w: Work, clock: Clock, home: Home, r: Routine) returns (activity: Option<Activity>)
    ensures activity == MovementChoice(ctx, w, clock, home, r)
  {
    activity := None;
    match r {
      case Break =>
        if !CanAdd(ctx, w, 2) || w.away + 2 > ctx.input.policy.maxAway { return; }
        activity := BreakPartners(ctx, w, clock, home);
      case Social =>
        if !CanAdd(ctx, w, 2) { return; }
        activity := SocialPartners(ctx, w, clock, home);
      case _ =>
        if !CanAdd(ctx, w, 1) { return; }
        activity := SoloLoop(ctx, w, clock, home, r, if r == Refreshment then RefreshmentStop else LibraryInspect);
    }
  }

  method MovementLoop(ctx: Ctx, w: Work, clock: Clock, home: Home, preferred: Routine) returns (activity: Option<Activity>)
    ensures activity == FirstSome(CyclicFrom(preferred), (r: Routine) => MovementChoice(ctx, w, clock, home, r))
  {
    var cycle := CyclicFrom(preferred);
    ghost var f := (r: Routine) => MovementChoice(ctx, w, clock, home, r);
    activity := None;
    for offset := 0 to |cycle|
      invariant activity.None? && FirstSome(cycle, f) == FirstSome(cycle[offset..], f)
    {
      FirstSomeStep(cycle, f, offset);
      activity := RoutineStep(ctx, w, clock, home, cycle[offset]);
      if activity.Some? { return; }
    }
  }

  method ChooseActivity(ctx: Ctx, w: Work, clock: Clock) returns (activity: Option<Activity>)
    ensures activity == Choose(ctx, w, clock)
  {
    var home := HomeOf(ctx.homes, clock.id);
    var preferred := RoutineFor(ctx.o, ctx.input.seed, clock.id, clock.sequence);
    activity := None;
    if preferred == Phone && home.Some? && SeatOr(home.value.posture, Sitting) == Sitting
       && w.away < ctx.input.policy.maxAway && CanAdd(ctx, w, 1) {
      activity := PhoneLoop(ctx, w, clock, home.value);
    }
    if activity.None? && preferred in MOVEMENT_ROUTINES && w.away < ctx.input.policy.maxAway && home.Some? {
      activity := MovementLoop(ctx, w, clock, home.value, preferred);
    }
    if activity.None? && CanAdd(ctx, w, 1) {
      activity := Some(ActivityForInPlace(FallbackFor(preferred, home), clock.id, clock.sequence, home, ctx.input.now));
    }
  }

  // ---- The boundary -------------------------------------------------------

  method RetainLoop(ctx: Ctx, sorted: seq<Activity>) returns (kept: Kept)
    ensures kept == KeepAll(ctx, sorted)
  {
    var retained: seq<Activity> := [];
    var participants: set<Id> := {};
    var away: nat := 0;
    for i := 0 to |sorted|
      invariant Kept(retained, participants, away) == KeepAll(ctx, sorted[..i])
    {
      var a := sorted[i];
      assert sorted[..i + 1][..i] == sorted[..i];
      if Invalid(ctx, Kept(retained, participants, away), a) { continue; }
      retained := retained + [a];
      away := away + AwayCount(a);
      participants := participants + AsSet(Participants(a));
    }
    assert sorted[..|sorted|] == sorted;
    kept := Kept(retained, participants, away);
  }

  method DueLoop(ctx: Ctx, start: Work, due: seq<Clock>) returns (w: Work)
    ensures w == AttemptAll(ctx, start, due)
  {
    w := start;
    for i := 0 to |due|
      invariant w == AttemptAll(ctx, start, due[..i])
    {
      assert due[..i + 1][..i] == due[..i];
      if due[i].id !in w.clocks || w.clocks[due[i].id].nextDueAt > ctx.input.now { continue; }
      var clock := w.clocks[due[i].id];
      if !OnRoster(ctx.actors, due[i].id) { continue; }
      if ctx.resumed || Busy(ctx.actors, clock.id) || clock.id in w.participants {
        w := Consume(ctx, w, clock);
        continue;
      }
      var activity := ChooseActivity(ctx, w, clock);
      if activity.Some? { w := Begin(ctx, w, activity.value); }
      w := Consume(ctx, w, clock);
    }
    assert due[..|due|] == due;
  }

  method AdvanceAmbientScheduler(o: Oracle, previous: Option<State>, input: Input) returns (snap: Snapshot)
    ensures snap == Advance(o, previous, input)
  {
    var base := Base(o, previous, input);
    var ctx := MakeCtx(o, base, input);
    var signature := SignatureOf(ctx.homes, input.prefabs, input.route);
    var started := StartClocks(o, base, input, ctx.actors);
    var kept := RetainLoop(ctx, Sort(ActivityLess, base.activities));
    if !input.policy.enabled {
      return Snapshot(State(VERSION, input.seed, base.startedAt, input.now, signature, started, []), [], Never);
    }
    var w := StartWork(ctx, kept, ClockMap(started));
    w := DueLoop(ctx, w, DueNow(w.clocks, ctx.actors, input.now));
    var clocks := Sort(ClockLess, Values(w.clocks, ctx.actors));
    var activities := Sort(ActivityLess, w.activities);
    var directions := DirectionsLoop(o, activities, input.now, input.seed);
    var next := NextBoundaryLoop(clocks, activities, input.now);
    snap := Snapshot(State(VERSION, input.seed, base.startedAt, input.now, signature, clocks, activities), directions, next);
  }
}
