// The ambient-life scheduler: one injected-clock boundary as a function of the
// previous state and the input. Seeding, routing and angles are oracles.
module Ambient {
  import opened Orders
  import opened Staging
  import opened Wrappers

  const VERSION := "office-ambient-v3"

  const FIRST_DUE_MIN_MS := 3_000
  const FIRST_DUE_MAX_MS := 9_000
  const NEXT_DUE_MIN_MS := 20_000
  const NEXT_DUE_MAX_MS := 75_000
  const SUSPENSION_LATENESS_MS := 5_000
  const OUTBOUND_MS := 4_000
  const RETURN_MS := 4_000
  const BREAK_DWELL_MS := 18_000
  const BREAK_SEGMENT_MS := 4_500
  const POSTURE_BUFFER_MS := 3_000
  const WALK_SPEED := 1.9
  const CROWDING := 0.36

  type Id = s: string | |s| > 0 witness "x"
  type Unit = r: real | 0.0 <= r < 1.0

  datatype Routine =
    | Refreshment | Library | Social | Break | Phone
    | SeatedShift | DeskFidget | LookAround | Stretch

  datatype Phase = Outbound | Dwell | Return

  datatype Actor = Actor(id: Id, busy: bool)
  datatype Home = Home(id: Id, x: real, z: real, facing: Option<real>, posture: Option<Posture>)
  datatype Clock = Clock(id: Id, sequence: nat, nextDueAt: int)
  datatype Destination = Destination(anchorId: AnchorId, x: real, z: real, facing: real, posture: Posture)

  datatype Activity = Activity(
    mover: Id, partner: Option<Id>, routine: Routine, sequence: nat, away: bool,
    destination: Option<Destination>, partnerDestination: Option<Destination>,
    homePosture: Posture, partnerHomePosture: Option<Posture>,
    startedAt: int, outboundEndsAt: int, dwellEndsAt: int, endsAt: int)

  datatype Signature = Signature(homes: seq<Home>, prefabs: seq<Prefab>, route: string)

  datatype State = State(
    version: string, seed: string, startedAt: int, lastAdvancedAt: int,
    signature: Signature, clocks: seq<Clock>, activities: seq<Activity>)

  datatype Policy = Policy(enabled: bool, maxAway: nat, maxActiveActors: nat)

  /** Blocked anchors are prefab anchors: instance id and local index. */
  datatype Input = Input(
    seed: string, now: int, actors: seq<Actor>, homes: seq<Home>, prefabs: seq<Prefab>,
    blocked: set<(string, nat)>, policy: Policy, routed: bool, route: string)

  datatype Spot = Spot(x: real, z: real, facing: real)

  datatype Performance = Idle(sitting: bool, variant: Option<int>) | Acting(name: Routine, seated: bool, lane: int)

  /**
   * What the scheduler takes as given: the seeded unit hash, the trigonometric
   * spots around a chair, and the renderer's route planner (distance or none).
   */
  datatype Oracle = Oracle(
    layout: Layout,
    unit: (string, string, nat, string) -> Unit,
    spots: (string, string, nat, Home) -> seq<Spot>,
    route: (real, real, real, real, bool) -> Option<real>)

  datatype Stage = Stage(actor: Id, affordance: AnchorKind, at: Destination)

  datatype Direction = Direction(
    employee: Id, routine: Routine, phase: Phase, away: bool, partner: Option<Id>,
    performance: Performance, staging: Option<Stage>)

  datatype Wake = Never | At(time: int)

  datatype Snapshot = Snapshot(state: State, directions: seq<Direction>, nextWakeAt: Wake)

  // ---- Small list helpers -------------------------------------------------

  function Filter<T(!new)>(s: seq<T>, p: T -> bool): (r: seq<T>)
    ensures forall x :: x in r <==> x in s && p(x)
  {
    if s == [] then []
    else
      var rest := Filter(s[1..], p);
      assert forall x :: x in s <==> x == s[0] || x in s[1..];
      if p(s[0]) then [s[0]] + rest else rest
  }

  /** The first result of `f` along the list, as the source's loops with `break`. */
  function FirstSome<X(!new), Y>(xs: seq<X>, f: X -> Option<Y>): (r: Option<Y>)
    ensures r.Some? ==> exists x :: x in xs && f(x) == r
    ensures r.None? ==> forall x | x in xs :: f(x).None?
  {
    if xs == [] then None
    else if f(xs[0]).Some? then f(xs[0])
    else FirstSome(xs[1..], f)
  }

  // ---- Seeded timing ------------------------------------------------------

  function SeededInteger(o: Oracle, seed: string, id: string, sequence: nat, domain: string, min: int, max: int): (r: int)
    requires min <= max
    ensures min <= r <= max
  {
    var u: real := o.unit(seed, id, sequence, domain);
    var n := (max - min + 1) as real;
    assert 0.0 <= u * n < n by { ScaledUnit(u, n); }
    min + (u * n).Floor
  }

  lemma {:induction false} ScaledUnit(u: real, n: real)
    requires 0.0 <= u < 1.0 && n > 0.0
    ensures 0.0 <= u * n < n
  {
    assert (1.0 - u) * n > 0.0;
  }

  function FirstDueAt(o: Oracle, seed: string, id: Id, joinedAt: int): int {
    joinedAt + SeededInteger(o, seed, id, 0, "first-due", FIRST_DUE_MIN_MS, FIRST_DUE_MAX_MS)
  }

  function ConsumeAttempt(o: Oracle, seed: string, clock: Clock, after: int): Clock {
    var next := clock.sequence + 1;
    Clock(clock.id, next, after + SeededInteger(o, seed, clock.id, next, "next-due", NEXT_DUE_MIN_MS, NEXT_DUE_MAX_MS))
  }

  const MOVEMENT_ROUTINES := [Refreshment, Library, Social, Break]
  const ROUTINE_MIX := [Refreshment, Library, Social, Break, Break, Phone, DeskFidget, DeskFidget,
                        LookAround, LookAround, Stretch, SeatedShift]

  function RoutineFor(o: Oracle, seed: string, id: Id, sequence: nat): Routine {
    var choices := if sequence == 0 then MOVEMENT_ROUTINES else ROUTINE_MIX;
    choices[SeededInteger(o, seed, id, sequence, "routine", 0, |choices| - 1)]
  }

  // ---- Geometry -----------------------------------------------------------

  function Sq(v: real): real { v * v }

  function Gap(ax: real, az: real, bx: real, bz: real): real { Sq(ax - bx) + Sq(az - bz) }

  function Ceil(r: real): int { -((-r).Floor) }

  function Max(a: int, b: int): int { if a < b then b else a }

  /** Solo movers may absorb the posture buffer into the floor. */
  function MovementTravelMs(distance: real, floorMs: int): int {
    Max(floorMs, Ceil(distance / WALK_SPEED * 1000.0) + POSTURE_BUFFER_MS)
  }

  /** Paired movers always pay the posture buffer on top. */
  function PairedTravelMs(a: real, b: real, floorMs: int): int {
    Max(floorMs, Ceil((if a < b then b else a) / WALK_SPEED * 1000.0)) + POSTURE_BUFFER_MS
  }

  function RouteDistance(o: Oracle, input: Input, fx: real, fz: real, tx: real, tz: real, allowBlocked: bool): Option<real> {
    if !input.routed then None
    else
      var d := o.route(fx, fz, tx, tz, allowBlocked);
      if d.Some? && d.value >= 0.0 then d else None
  }

  /** Outbound then return distance between a home and a destination. */
  function RoundTrip(o: Oracle, input: Input, home: Home, d: Destination, allowBlocked: bool): Option<(real, real)> {
    var out := RouteDistance(o, input, home.x, home.z, d.x, d.z, allowBlocked);
    var back := RouteDistance(o, input, d.x, d.z, home.x, home.z, true);
    if out.None? || back.None? then None else Some((out.value, back.value))
  }

  function Decimal(n: nat): string {
    if n < 10 then ["0123456789"[n]] else Decimal(n / 10) + ["0123456789"[n % 10]]
  }

  function AnchorName(a: WorldAnchor): string {
    if a.anchorId.OfPrefab? then a.instanceId + "#" + Decimal(a.anchorId.index) else a.instanceId
  }

  function WorldDestination(a: WorldAnchor): Destination {
    Destination(a.anchorId, a.x, a.z, a.facing, a.posture)
  }

  function SeatOr(p: Option<Posture>, default: Posture): Posture {
    if p.Some? then p.value else default
  }

  // ---- Activities ---------------------------------------------------------

  function DwellMs(r: Routine): int {
    match r
    case Refreshment => 7_000
    case Library => 8_000
    case Social => 12_000
    case Break => BREAK_DWELL_MS
    case Phone => 9_000
    case SeatedShift => 5_000
    case DeskFidget => 6_000
    case LookAround => 8_000
    case Stretch => 7_000
  }

  function ActivityForMovement(r: Routine, mover: Id, partner: Option<Id>, sequence: nat, d: Destination, home: Home,
                               distances: (real, real), now: int): Activity {
    var outbound := now + MovementTravelMs(distances.0, OUTBOUND_MS);
    var dwell := outbound + DwellMs(r);
    Activity(mover, partner, r, sequence, true, Some(d), None, SeatOr(home.posture, Sitting), None,
             now, outbound, dwell, dwell + MovementTravelMs(distances.1, RETURN_MS))
  }

  function ActivityForBreak(mover: Home, partner: Home, sequence: nat, d: Destination, pd: Destination,
                            md: (real, real), pdist: (real, real), now: int): Activity {
    var outbound := now + PairedTravelMs(md.0, pdist.0, OUTBOUND_MS);
    var dwell := outbound + BREAK_DWELL_MS;
    Activity(mover.id, Some(partner.id), Break, sequence, true, Some(d), Some(pd),
             SeatOr(mover.posture, Sitting), Some(SeatOr(partner.posture, Sitting)),
             now, outbound, dwell, dwell + PairedTravelMs(md.1, pdist.1, RETURN_MS))
  }

  function ActivityForInPlace(r: Routine, id: Id, sequence: nat, home: Option<Home>, now: int): Activity {
    var posture := if home.Some? then SeatOr(home.value.posture, Standing) else Standing;
    var resolved := if r == SeatedShift && posture != Sitting then Phone
                    else if r == DeskFidget && posture != Sitting then LookAround else r;
    var endsAt := now + DwellMs(resolved);
    Activity(id, None, resolved, sequence, false, None, None,
             if resolved == SeatedShift || resolved == DeskFidget then Sitting else posture, None,
             now, now, endsAt, endsAt)
  }

  function Participants(a: Activity): seq<Id> {
    [a.mover] + if a.partner.Some? then [a.partner.value] else []
  }

  function Destinations(a: Activity): seq<Destination> {
    (if a.destination.Some? then [a.destination.value] else []) +
    (if a.partnerDestination.Some? then [a.partnerDestination.value] else [])
  }

  function AwayCount(a: Activity): nat {
    if !a.away then 0 else if a.partnerDestination.None? then 1 else 2
  }

  // ---- One boundary: what is fixed during it ------------------------------

  datatype Ctx = Ctx(
    o: Oracle, input: Input, actors: seq<Actor>, homes: seq<Home>, anchors: seq<WorldAnchor>,
    anchorIds: set<AnchorId>, blockedFixtures: set<string>, geometryChanged: bool, resumed: bool)

  predicate ActorLess(a: Actor, b: Actor) { StrLess(a.id, b.id) }
  predicate HomeLess(a: Home, b: Home) { StrLess(a.id, b.id) }
  predicate ClockLess(a: Clock, b: Clock) { StrLess(a.id, b.id) }
  predicate DueLess(a: Clock, b: Clock) { IntThenStr((a.nextDueAt, a.id), (b.nextDueAt, b.id)) }
  predicate ActivityLess(a: Activity, b: Activity) { IntThenStr((a.startedAt, a.mover), (b.startedAt, b.mover)) }

  /** First row of each employee, as the source's findIndex filter keeps it. */
  function Distinct(actors: seq<Actor>): (r: seq<Actor>)
    ensures forall a | a in r :: a in actors
    ensures forall i, j | 0 <= i < j < |r| :: r[i].id != r[j].id
  {
    if actors == [] then []
    else
      var front := Distinct(actors[..|actors| - 1]);
      var last := actors[|actors| - 1];
      if exists a :: a in front && a.id == last.id then front else front + [last]
  }

  function Roster(actors: seq<Actor>): seq<Actor> {
    Sort(ActorLess, Distinct(actors))
  }

  predicate OnRoster(actors: seq<Actor>, id: Id) {
    exists a :: a in actors && a.id == id
  }

  predicate Busy(actors: seq<Actor>, id: Id) {
    exists a :: a in actors && a.id == id && a.busy
  }

  function HomesOf(input: Input): seq<Home> {
    var roster := Roster(input.actors);
    Sort(HomeLess, Filter(input.homes, (h: Home) => OnRoster(roster, h.id)))
  }

  /** `new Map(homes…)`: the last home of an employee wins. */
  function HomeOf(homes: seq<Home>, id: Id): (r: Option<Home>)
    ensures r.Some? ==> r.value in homes && r.value.id == id
  {
    if homes == [] then None
    else if homes[|homes| - 1].id == id then Some(homes[|homes| - 1])
    else HomeOf(homes[..|homes| - 1], id)
  }

  function ClockOf(clocks: seq<Clock>, id: Id): (r: Option<Clock>)
    ensures r.Some? ==> r.value in clocks && r.value.id == id
    ensures r.None? ==> forall c | c in clocks :: c.id != id
  {
    if clocks == [] then None
    else if clocks[|clocks| - 1].id == id then Some(clocks[|clocks| - 1])
    else ClockOf(clocks[..|clocks| - 1], id)
  }

  function NormalHome(h: Home): Home {
    h.(facing := Some(if h.facing.Some? then h.facing.value else 0.0), posture := Some(SeatOr(h.posture, Sitting)))
  }

  function NormalPrefab(p: Prefab): Prefab {
    p.(scale := Some(if p.scale.Some? then p.scale.value else 1.0))
  }

  function NormalPrefabs(ps: seq<Prefab>): seq<Prefab> {
    seq(|ps|, i requires 0 <= i < |ps| => NormalPrefab(ps[i]))
  }

  /** The geometry signature: the normalized data its JSON text spells out. */
  function SignatureOf(homes: seq<Home>, prefabs: seq<Prefab>, route: string): Signature {
    var hs := Sort(HomeLess, homes);
    Signature(seq(|hs|, i requires 0 <= i < |hs| => NormalHome(hs[i])), NormalPrefabs(Sort(PrefabLess, prefabs)), route)
  }

  function IdsOf(anchors: seq<WorldAnchor>): set<AnchorId> {
    set a | a in anchors :: a.anchorId
  }

  function FreshClocks(o: Oracle, input: Input, actors: seq<Actor>): seq<Clock> {
    seq(|actors|, i requires 0 <= i < |actors| =>
      Clock(actors[i].id, 0, FirstDueAt(o, input.seed, actors[i].id, input.now)))
  }

  function InitialState(o: Oracle, input: Input): State {
    State(VERSION, input.seed, input.now, input.now, SignatureOf(input.homes, input.prefabs, input.route),
          FreshClocks(o, input, Roster(input.actors)), [])
  }

  function Base(o: Oracle, previous: Option<State>, input: Input): State {
    if previous.Some? && previous.value.version == VERSION && previous.value.seed == input.seed then previous.value
    else InitialState(o, input)
  }

  // ---- Boundaries ---------------------------------------------------------

  function BreakBoundaries(from: int, until: int): seq<int>
    decreases until - from
  {
    if from < until then [from] + BreakBoundaries(from + BREAK_SEGMENT_MS, until) else []
  }

  function BoundariesOf(a: Activity): seq<int> {
    [a.outboundEndsAt, a.dwellEndsAt, a.endsAt] +
    if a.routine == Break then BreakBoundaries(a.outboundEndsAt + BREAK_SEGMENT_MS, a.dwellEndsAt) else []
  }

  /** `t` is a due time, or an activity boundary still ahead of `now`. */
  ghost predicate Boundary(clocks: seq<Clock>, activities: seq<Activity>, now: int, t: int) {
    || (exists c :: c in clocks && c.nextDueAt == t)
    || (t > now && exists a :: a in activities && t in BoundariesOf(a))
  }

  function Sooner(w: Wake, t: int): Wake {
    if w.Never? || t < w.time then At(t) else w
  }

  function SoonestAfter(w: Wake, ts: seq<int>, now: int): Wake {
    if ts == [] then w
    else
      var before := SoonestAfter(w, ts[..|ts| - 1], now);
      if ts[|ts| - 1] > now then Sooner(before, ts[|ts| - 1]) else before
  }

  function SoonestDue(clocks: seq<Clock>): Wake {
    if clocks == [] then Never else Sooner(SoonestDue(clocks[..|clocks| - 1]), clocks[|clocks| - 1].nextDueAt)
  }

  function SoonestOf(w: Wake, activities: seq<Activity>, now: int): Wake {
    if activities == [] then w
    else SoonestAfter(SoonestOf(w, activities[..|activities| - 1], now), BoundariesOf(activities[|activities| - 1]), now)
  }

  function NextBoundary(clocks: seq<Clock>, activities: seq<Activity>, now: int): Wake {
    SoonestOf(SoonestDue(clocks), activities, now)
  }

  function MakeCtx(o: Oracle, base: State, input: Input): Ctx {
    var actors := Roster(input.actors);
    var homes := HomesOf(input);
    var anchors := WorldAnchors(o.layout, input.prefabs);
    var ids := IdsOf(anchors);
    var wake := NextBoundary(base.clocks, base.activities, base.lastAdvancedAt);
    Ctx(o, input, actors, homes, anchors, ids,
        set b | b in input.blocked && OfPrefab(b.0, b.1) in ids && b.0 != "" :: b.0,
        base.signature != SignatureOf(homes, input.prefabs, input.route),
        wake.At? && input.now - wake.time > SUSPENSION_LATENESS_MS)
  }

  predicate AnchorBlocked(ctx: Ctx, id: AnchorId) {
    id.OfPrefab? && ((id.instanceId, id.index) in ctx.input.blocked || (id in ctx.anchorIds && id.instanceId in ctx.blockedFixtures))
  }

  // ---- Retaining running activities ---------------------------------------

  datatype Kept = Kept(activities: seq<Activity>, participants: set<Id>, away: nat)

  function AsSet(ids: seq<Id>): set<Id> { set x | x in ids }

  predicate Invalid(ctx: Ctx, kept: Kept, a: Activity) {
    || !ctx.input.policy.enabled
    || ctx.geometryChanged
    || ctx.resumed
    || a.endsAt <= ctx.input.now
    || (exists id :: id in Participants(a) &&
          (!OnRoster(ctx.actors, id) || Busy(ctx.actors, id) || id in kept.participants))
    || (exists d :: d in Destinations(a) && AnchorBlocked(ctx, d.anchorId))
    || kept.away + AwayCount(a) > ctx.input.policy.maxAway
    || |kept.participants| + |Participants(a)| > ctx.input.policy.maxActiveActors
  }

  function Keep(ctx: Ctx, kept: Kept, a: Activity): Kept {
    if Invalid(ctx, kept, a) then kept
    else Kept(kept.activities + [a], kept.participants + AsSet(Participants(a)), kept.away + AwayCount(a))
  }

  function KeepAll(ctx: Ctx, acts: seq<Activity>): Kept {
    if acts == [] then Kept([], {}, 0)
    else Keep(ctx, KeepAll(ctx, acts[..|acts| - 1]), acts[|acts| - 1])
  }

  // ---- Starting new activities --------------------------------------------

  datatype Work = Work(
    clocks: map<Id, Clock>, activities: seq<Activity>, participants: set<Id>,
    anchors: set<AnchorId>, fixtures: set<string>, away: nat, active: nat)

  function AnchorIdsOf(acts: seq<Activity>): set<AnchorId> {
    set a, d | a in acts && d in Destinations(a) :: d.anchorId
  }

  function FixturesOf(ctx: Ctx, ids: set<AnchorId>): set<string> {
    set id | id in ids && id in ctx.anchorIds && id.OfPrefab? :: id.instanceId
  }

  function BlockedIds(ctx: Ctx): set<AnchorId> {
    set b | b in ctx.input.blocked :: OfPrefab(b.0, b.1)
  }

  function StartWork(ctx: Ctx, kept: Kept, clocks: map<Id, Clock>): Work {
    var held := AnchorIdsOf(kept.activities);
    Work(clocks, kept.activities, kept.participants, BlockedIds(ctx) + held,
         ctx.blockedFixtures + FixturesOf(ctx, held), kept.away, |kept.participants|)
  }

  predicate CanAdd(ctx: Ctx, w: Work, n: nat) {
    w.active + n <= ctx.input.policy.maxActiveActors
  }

  predicate Reserved(w: Work, a: WorldAnchor) {
    a.anchorId in w.anchors || a.instanceId in w.fixtures
  }

  function FreeAnchors(ctx: Ctx, w: Work, kind: AnchorKind, home: Home): seq<WorldAnchor> {
    Sort((a: WorldAnchor, b: WorldAnchor) =>
           RealThenStr((Gap(a.x, a.z, home.x, home.z), AnchorName(a)), (Gap(b.x, b.z, home.x, home.z), AnchorName(b))),
         Filter(ctx.anchors, (a: WorldAnchor) => a.kind == kind && !Reserved(w, a)))
  }

  function Partners(ctx: Ctx, w: Work, home: Home, mover: Id): seq<Home> {
    Sort((a: Home, b: Home) =>
           RealThenStr((Gap(a.x, a.z, home.x, home.z), a.id), (Gap(b.x, b.z, home.x, home.z), b.id)),
         Filter(ctx.homes, (h: Home) =>
           h.id != mover && SeatOr(h.posture, Sitting) == Sitting && !Busy(ctx.actors, h.id) && h.id !in w.participants))
  }

  predicate Crowded(ctx: Ctx, w: Work, mover: Id, partner: Id, spot: Spot) {
    || (exists h :: h in ctx.homes && h.id != partner && h.id != mover && Gap(h.x, h.z, spot.x, spot.z) < CROWDING)
    || (exists a :: a in w.activities && a.destination.Some? &&
          Gap(a.destination.value.x, a.destination.value.z, spot.x, spot.z) < CROWDING)
  }

  /** Uncrowded standing spots around the partner's chair, numbered by candidate. */
  function SocialSpots(ctx: Ctx, w: Work, mover: Id, sequence: nat, partner: Home, spots: seq<Spot>): (r: seq<Destination>)
    ensures forall d | d in r :: d.anchorId.SocialSpot?
  {
    if spots == [] then []
    else
      var front := SocialSpots(ctx, w, mover, sequence, partner, spots[..|spots| - 1]);
      var spot := spots[|spots| - 1];
      if Crowded(ctx, w, mover, partner.id, spot) then front
      else front + [Destination(SocialSpot(mover, partner.id, sequence, |spots| - 1), spot.x, spot.z, spot.facing, Standing)]
  }

  function SocialDestinations(ctx: Ctx, w: Work, mover: Id, sequence: nat, partner: Home): seq<Destination> {
    SocialSpots(ctx, w, mover, sequence, partner, ctx.o.spots(ctx.input.seed, mover, sequence, partner))
  }

  function PhoneDestinations(ctx: Ctx, w: Work, clock: Clock, home: Home): (r: seq<Destination>)
    ensures forall d | d in r :: d.anchorId.PhoneSpot?
  {
    var ds := SocialDestinations(ctx, w, clock.id, clock.sequence, home);
    seq(|ds|, i requires 0 <= i < |ds| =>
      ds[i].(anchorId := PhoneSpot(clock.id, clock.sequence, i),
             facing := if home.facing.Some? then home.facing.value else 0.0))
  }

  datatype Fixture = Fixture(instanceId: string, moverAnchor: WorldAnchor, partnerAnchor: WorldAnchor, midpoint: real)

  function BreakSeats(ctx: Ctx, w: Work): seq<WorldAnchor> {
    Filter(ctx.anchors, (a: WorldAnchor) => a.kind == SocialSeat && a.posture == Sitting && !Reserved(w, a))
  }

  function FixtureIds(seats: seq<WorldAnchor>): (r: seq<string>)
    ensures forall f | f in r :: exists a :: a in seats && a.instanceId == f
  {
    if seats == [] then []
    else
      var front := FixtureIds(seats[..|seats| - 1]);
      var id := seats[|seats| - 1].instanceId;
      if id in front then front else front + [id]
  }

  function Sum(anchors: seq<WorldAnchor>, x: bool): real {
    if anchors == [] then 0.0
    else Sum(anchors[..|anchors| - 1], x) + (if x then anchors[|anchors| - 1].x else anchors[|anchors| - 1].z)
  }

  /** The fixture's first two seats by name, the nearer one for the mover. */
  function FixtureFor(mover: Home, partner: Home, id: string, group: seq<WorldAnchor>): Fixture
    requires |group| >= 2
  {
    var ordered := Sort((a: WorldAnchor, b: WorldAnchor) => StrLess(AnchorName(a), AnchorName(b)), group);
    var pair := Sort((a: WorldAnchor, b: WorldAnchor) =>
                       RealThenStr((Gap(a.x, a.z, mover.x, mover.z), AnchorName(a)), (Gap(b.x, b.z, mover.x, mover.z), AnchorName(b))),
                     [ordered[0], ordered[1]]);
    var n := |group| as real;
    Fixture(id, pair[0], pair[1],
            Gap(Sum(group, true) / n, Sum(group, false) / n, (mover.x + partner.x) / 2.0, (mover.z + partner.z) / 2.0))
  }

  function FixturesAmong(mover: Home, partner: Home, seats: seq<WorldAnchor>, ids: seq<string>): seq<Fixture> {
    if ids == [] then []
    else
      var front := FixturesAmong(mover, partner, seats, ids[..|ids| - 1]);
      var id := ids[|ids| - 1];
      var group := Filter(seats, (a: WorldAnchor) => a.instanceId == id);
      if |group| >= 2 then front + [FixtureFor(mover, partner, id, group)] else front
  }

  function BreakFixtures(ctx: Ctx, w: Work, mover: Home, partner: Home): seq<Fixture> {
    var seats := BreakSeats(ctx, w);
    Sort((a: Fixture, b: Fixture) => RealThenStr((a.midpoint, a.instanceId), (b.midpoint, b.instanceId)),
         FixturesAmong(mover, partner, seats, FixtureIds(seats)))
  }

  // ---- One candidate of each kind -----------------------------------------

  function TryMovement(ctx: Ctx, r: Routine, clock: Clock, home: Home, partner: Option<Id>, d: Destination, allowBlocked: bool): Option<Activity> {
    var trip := RoundTrip(ctx.o, ctx.input, home, d, allowBlocked);
    if trip.None? then None
    else Some(ActivityForMovement(r, clock.id, partner, clock.sequence, d, home, trip.value, ctx.input.now))
  }

  function TryBreak(ctx: Ctx, clock: Clock, home: Home, partner: Home, f: Fixture): Option<Activity> {
    var d, pd := WorldDestination(f.moverAnchor), WorldDestination(f.partnerAnchor);
    var mt := RoundTrip(ctx.o, ctx.input, home, d, true);
    var pt := RoundTrip(ctx.o, ctx.input, partner, pd, true);
    if mt.None? || pt.None? then None
    else Some(ActivityForBreak(home, partner, clock.sequence, d, pd, mt.value, pt.value, ctx.input.now))
  }

  function PhoneChoice(ctx: Ctx, w: Work, clock: Clock, home: Home): Option<Activity> {
    FirstSome(PhoneDestinations(ctx, w, clock, home), (d: Destination) => TryMovement(ctx, Phone, clock, home, None, d, false))
  }

  function BreakWith(ctx: Ctx, w: Work, clock: Clock, home: Home, partner: Home): Option<Activity> {
    FirstSome(BreakFixtures(ctx, w, home, partner), (f: Fixture) => TryBreak(ctx, clock, home, partner, f))
  }

  function SocialWith(ctx: Ctx, w: Work, clock: Clock, home: Home, partner: Home): Option<Activity> {
    FirstSome(SocialDestinations(ctx, w, clock.id, clock.sequence, partner),
              (d: Destination) => TryMovement(ctx, Social, clock, home, Some(partner.id), d, false))
  }

  function MovementChoice(ctx: Ctx, w: Work, clock: Clock, home: Home, r: Routine): Option<Activity> {
    match r
    case Break =>
      if !CanAdd(ctx, w, 2) || w.away + 2 > ctx.input.policy.maxAway then None
      else FirstSome(Partners(ctx, w, home, clock.id), (p: Home) => BreakWith(ctx, w, clock, home, p))
    case Social =>
      if !CanAdd(ctx, w, 2) then None
      else FirstSome(Partners(ctx, w, home, clock.id), (p: Home) => SocialWith(ctx, w, clock, home, p))
    case _ =>
      if !CanAdd(ctx, w, 1) then None
      else
        FirstSome(FreeAnchors(ctx, w, if r == Refreshment then RefreshmentStop else LibraryInspect, home),
                  (a: WorldAnchor) => TryMovement(ctx, r, clock, home, None, WorldDestination(a), true))
  }

  function IndexOf(r: Routine): nat {
    match r case Refreshment => 0 case Library => 1 case Social => 2 case _ => 3
  }

  /** The preferred routine first, then the others in cyclic order. */
  function CyclicFrom(r: Routine): seq<Routine> {
    seq(4, i requires 0 <= i < 4 => MOVEMENT_ROUTINES[(IndexOf(r) + i) % 4])
  }

  function FallbackFor(preferred: Routine, home: Option<Home>): Routine {
    if preferred in {Phone, SeatedShift, DeskFidget, LookAround, Stretch} then preferred
    else if home.Some? && SeatOr(home.value.posture, Standing) == Sitting then SeatedShift else Phone
  }

  function Choose(ctx: Ctx, w: Work, clock: Clock): Option<Activity> {
    var home := HomeOf(ctx.homes, clock.id);
    var preferred := RoutineFor(ctx.o, ctx.input.seed, clock.id, clock.sequence);
    var phone :=
      if preferred == Phone && home.Some? && SeatOr(home.value.posture, Sitting) == Sitting
         && w.away < ctx.input.policy.maxAway && CanAdd(ctx, w, 1)
      then PhoneChoice(ctx, w, clock, home.value) else None;
    var moved :=
      if phone.None? && preferred in MOVEMENT_ROUTINES && w.away < ctx.input.policy.maxAway && home.Some?
      then FirstSome(CyclicFrom(preferred), (r: Routine) => MovementChoice(ctx, w, clock, home.value, r)) else phone;
    if moved.None? && CanAdd(ctx, w, 1)
    then Some(ActivityForInPlace(FallbackFor(preferred, home), clock.id, clock.sequence, home, ctx.input.now))
    else moved
  }

  function Begin(ctx: Ctx, w: Work, a: Activity): Work {
    var ids := set d | d in Destinations(a) :: d.anchorId;
    w.(activities := w.activities + [a],
       participants := w.participants + AsSet(Participants(a)),
       anchors := w.anchors + ids,
       fixtures := w.fixtures + FixturesOf(ctx, ids),
       away := w.away + AwayCount(a),
       active := w.active + |Participants(a)|)
  }

  function Consume(ctx: Ctx, w: Work, clock: Clock): Work {
    w.(clocks := w.clocks[clock.id := ConsumeAttempt(ctx.o, ctx.input.seed, clock, ctx.input.now)])
  }

  /** One due employee: skip, or spend the attempt and perhaps start something. */
  function Attempt(ctx: Ctx, w: Work, due: Clock): Work {
    if due.id !in w.clocks || w.clocks[due.id].nextDueAt > ctx.input.now || !OnRoster(ctx.actors, due.id) then w
    else
      var clock := w.clocks[due.id];
      if ctx.resumed || Busy(ctx.actors, clock.id) || clock.id in w.participants then Consume(ctx, w, clock)
      else
        var a := Choose(ctx, w, clock);
        Consume(ctx, if a.None? then w else Begin(ctx, w, a.value), clock)
  }

  function AttemptAll(ctx: Ctx, w: Work, due: seq<Clock>): Work {
    if due == [] then w
    else Attempt(ctx, AttemptAll(ctx, w, due[..|due| - 1]), due[|due| - 1])
  }

  // ---- Directions ---------------------------------------------------------

  function PhaseOf(a: Activity, now: int): Phase {
    if now < a.outboundEndsAt then Outbound else if now < a.dwellEndsAt then Dwell else Return
  }

  function VariantFor(o: Oracle, seed: string, id: Id, sequence: nat, r: Routine): int {
    SeededInteger(o, seed, id, sequence, "performance-variant:" + RoutineName(r), 0, 3)
  }

  function RoutineName(r: Routine): string {
    match r
    case Refreshment => "refreshment"
    case Library => "library"
    case Social => "social"
    case Break => "break"
    case Phone => "phone"
    case SeatedShift => "seated-shift"
    case DeskFidget => "desk-fidget"
    case LookAround => "look-around"
    case Stretch => "stretch"
  }

  function DestinationPerformance(o: Oracle, a: Activity, seed: string, id: Id): Performance {
    var variant := VariantFor(o, seed, id, a.sequence, a.routine);
    if a.routine == Break then Idle(true, Some(variant)) else Acting(a.routine, false, variant)
  }

  predicate RankLess(a: (real, int), b: (real, int)) {
    a.0 < b.0 || (a.0 == b.0 && a.1 < b.1)
  }

  function Find(ranked: seq<(real, int)>, segment: int): int {
    if ranked == [] then -1
    else if ranked[0].1 == segment then 0
    else var rest := Find(ranked[1..], segment); if rest < 0 then -1 else rest + 1
  }

  function SegmentOf(a: Activity, now: int): int {
    (now - a.outboundEndsAt) / BREAK_SEGMENT_MS
  }

  function BreakDwellPerformance(o: Oracle, a: Activity, id: Id, segment: int, seed: string): Performance {
    var unit := (i: nat) => (o.unit(seed, id, a.sequence, "break-segment:" + Decimal(i)) as real, i as int);
    var rank := Find(Sort(RankLess, [unit(0), unit(1), unit(2), unit(3)]), segment);
    var variant := VariantFor(o, seed, id, a.sequence, Break);
    if rank < 2 then Acting(Social, true, variant)
    else if rank == 2 then Idle(true, Some(variant))
    else Acting(DeskFidget, false, variant)
  }

  function StageFor(a: Activity, phase: Phase, actor: Id, d: Option<Destination>): Option<Stage> {
    if phase == Return || d.None? then None
    else
      Some(Stage(actor,
        match a.routine
        case Refreshment => RefreshmentStop
        case Library => LibraryInspect
        case Social | Break => SocialSeat
        case _ => StandingReview, d.value))
  }

  function BreakDirection(o: Oracle, a: Activity, now: int, seed: string, id: Id, other: Id, home: Option<Posture>, d: Option<Destination>): Direction {
    var phase := PhaseOf(a, now);
    Direction(id, Break, phase, true, Some(other),
      match phase
      case Return => Idle(home == Some(Sitting), None)
      case Dwell => BreakDwellPerformance(o, a, id, SegmentOf(a, now), seed)
      case Outbound => DestinationPerformance(o, a, seed, id),
      StageFor(a, phase, id, d))
  }

  function DirectionsOf(o: Oracle, a: Activity, now: int, seed: string): seq<Direction> {
    var phase := PhaseOf(a, now);
    if a.routine == Break && a.partner.Some? && a.partnerDestination.Some? then
      [BreakDirection(o, a, now, seed, a.mover, a.partner.value, Some(a.homePosture), a.destination),
       BreakDirection(o, a, now, seed, a.partner.value, a.mover, a.partnerHomePosture, a.partnerDestination)]
    else
      var performance := if phase == Return then Idle(a.homePosture == Sitting, None)
                         else DestinationPerformance(o, a, seed, a.mover);
      [Direction(a.mover, a.routine, phase, a.away, a.partner, performance, StageFor(a, phase, a.mover, a.destination))] +
      if a.routine == Social && a.partner.Some? && phase == Dwell then
        [Direction(a.partner.value, Social, phase, false, Some(a.mover),
                   Acting(Social, true, VariantFor(o, seed, a.partner.value, a.sequence, Social)), None)]
      else []
  }

  function AllDirections(o: Oracle, acts: seq<Activity>, now: int, seed: string): seq<Direction> {
    if acts == [] then []
    else AllDirections(o, acts[..|acts| - 1], now, seed) + DirectionsOf(o, acts[|acts| - 1], now, seed)
  }

  predicate DirectionLess(a: Direction, b: Direction) {
    StrLess(a.employee, b.employee) ||
    (!StrLess(b.employee, a.employee) && StrLess(RoutineName(a.routine), RoutineName(b.routine)))
  }

  function DirectionsFor(o: Oracle, acts: seq<Activity>, now: int, seed: string): seq<Direction> {
    Sort(DirectionLess, AllDirections(o, acts, now, seed))
  }

  // ---- The whole boundary -------------------------------------------------

  function StartClocks(o: Oracle, base: State, input: Input, actors: seq<Actor>): (r: seq<Clock>)
    ensures |r| == |actors| && forall i | 0 <= i < |r| :: r[i].id == actors[i].id
  {
    seq(|actors|, i requires 0 <= i < |actors| =>
      var prior := ClockOf(base.clocks, actors[i].id);
      if prior.Some? then prior.value
      else Clock(actors[i].id, 0, FirstDueAt(o, input.seed, actors[i].id, input.now)))
  }

  function ClockMap(clocks: seq<Clock>): map<Id, Clock> {
    if clocks == [] then map[] else ClockMap(clocks[..|clocks| - 1])[clocks[|clocks| - 1].id := clocks[|clocks| - 1]]
  }

  /** The map's values in insertion order, which is roster order. */
  function Values(m: map<Id, Clock>, actors: seq<Actor>): seq<Clock> {
    if actors == [] then []
    else
      var front := Values(m, actors[..|actors| - 1]);
      var id := actors[|actors| - 1].id;
      if id in m then front + [m[id]] else front
  }

  function DueNow(m: map<Id, Clock>, actors: seq<Actor>, now: int): seq<Clock> {
    Sort(DueLess, Filter(Values(m, actors), (c: Clock) => c.nextDueAt <= now))
  }

  function Advance(o: Oracle, previous: Option<State>, input: Input): Snapshot {
    var base := Base(o, previous, input);
    var ctx := MakeCtx(o, base, input);
    var signature := SignatureOf(ctx.homes, input.prefabs, input.route);
    var started := StartClocks(o, base, input, ctx.actors);
    if !input.policy.enabled then
      Snapshot(State(VERSION, input.seed, base.startedAt, input.now, signature, started, []), [], Never)
    else
      var kept := KeepAll(ctx, Sort(ActivityLess, base.activities));
      var w0 := StartWork(ctx, kept, ClockMap(started));
      var w := AttemptAll(ctx, w0, DueNow(w0.clocks, ctx.actors, input.now));
      var clocks := Sort(ClockLess, Values(w.clocks, ctx.actors));
      var activities := Sort(ActivityLess, w.activities);
      Snapshot(State(VERSION, input.seed, base.startedAt, input.now, signature, clocks, activities),
               DirectionsFor(o, activities, input.now, input.seed),
               NextBoundary(clocks, activities, input.now))
  }
}
