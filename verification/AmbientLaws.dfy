// What every reachable ambient state keeps, over any sequence of inputs.
module AmbientInvariants {
  import opened Orders
  import opened Staging
  import opened Ambient
  import opened Wrappers

  // ---- Sums and permutations ----------------------------------------------

  function Total<T>(s: seq<T>, f: T -> nat): nat {
    if s == [] then 0 else Total(s[..|s| - 1], f) + f(s[|s| - 1])
  }

  lemma {:induction false} TotalJoin<T>(s: seq<T>, t: seq<T>, f: T -> nat)
    ensures Total(s + t, f) == Total(s, f) + Total(t, f)
  {
    if t == [] {
      assert s + t == s;
    } else {
      TotalJoin(s, t[..|t| - 1], f);
      assert (s + t)[..|s + t| - 1] == s + t[..|t| - 1];
    }
  }

  lemma {:induction false} TotalSnoc<T>(s: seq<T>, x: T, f: T -> nat)
    ensures Total(s + [x], f) == Total(s, f) + f(x)
  {
    assert (s + [x])[..|s|] == s;
  }

  lemma {:induction false} TotalCons<T>(x: T, s: seq<T>, f: T -> nat)
    ensures Total([x] + s, f) == f(x) + Total(s, f)
  {
    TotalJoin([x], s, f);
    TotalSnoc([], x, f);
    assert [] + [x] == [x];
  }

  lemma {:induction false} TotalInsert<T>(less: (T, T) -> bool, x: T, s: seq<T>, f: T -> nat)
    ensures Total(Insert(less, x, s), f) == Total(s, f) + f(x)
  {
    TotalCons(x, s, f);
    if s != [] {
      assert s == [s[0]] + s[1..];
      TotalInsert(less, x, s[1..], f);
      TotalCons(s[0], s[1..], f);
      TotalCons(s[0], Insert(less, x, s[1..]), f);
    } else {
      assert [x] + s == [x];
    }
  }

  lemma {:induction false} TotalSort<T>(less: (T, T) -> bool, s: seq<T>, f: T -> nat)
    ensures Total(Sort(less, s), f) == Total(s, f)
  {
    if s == [] {
    } else {
      TotalSort(less, s[..|s| - 1], f);
      TotalInsert(less, s[|s| - 1], Sort(less, s[..|s| - 1]), f);
    }
  }

  ghost predicate NoDup<T>(s: seq<T>) {
    forall i, j | 0 <= i < j < |s| :: s[i] != s[j]
  }

  lemma {:induction false} NoDupCounts<T(!new)>(s: seq<T>)
    requires NoDup(s)
    ensures forall x :: multiset(s)[x] <= 1
  {
    if s == [] {
    } else {
      var n := |s| - 1;
      NoDupCounts(s[..n]);
      assert s == s[..n] + [s[n]];
      assert s[n] !in s[..n];
    }
  }

  lemma {:induction false} NoDupPermute<T(!new)>(s: seq<T>, t: seq<T>)
    requires multiset(s) == multiset(t) && NoDup(s)
    ensures NoDup(t)
  {
    NoDupCounts(s);
    forall i, j | 0 <= i < j < |t| ensures t[i] != t[j] {
      assert t == t[..j] + t[j..];
      assert t[i] in t[..j] && t[j] in t[j..];
      assert multiset(t)[t[i]] <= 1;
    }
  }

  // ---- The invariant ------------------------------------------------------

  function PartCount(a: Activity): nat { |Participants(a)| }

  ghost function Parts(a: Activity): set<Id> { AsSet(Participants(a)) }

  ghost function PartsOf(acts: seq<Activity>): set<Id> {
    set a, id | a in acts && id in Participants(a) :: id
  }

  /** Prefab fixtures the activity occupies. */
  ghost function Held(a: Activity): set<string> {
    set d | d in Destinations(a) && d.anchorId.OfPrefab? :: d.anchorId.instanceId
  }

  ghost predicate WellTimed(a: Activity) {
    a.startedAt <= a.outboundEndsAt <= a.dwellEndsAt <= a.endsAt
  }

  ghost predicate Shaped(a: Activity) {
    && (a.partner.Some? ==> a.partner.value != a.mover)
    && (a.partnerDestination.Some? ==> a.destination.Some? && a.partner.Some?)
    && WellTimed(a)
  }

  /** Nobody and no fixture belongs to both. */
  ghost predicate Apart(a: Activity, b: Activity) {
    Parts(a) !! Parts(b) && Held(a) !! Held(b)
  }

  ghost predicate KnownAnchors(ids: set<AnchorId>, a: Activity) {
    forall d | d in Destinations(a) && d.anchorId.OfPrefab? :: d.anchorId in ids
  }

  /** What the state itself guarantees, whatever input comes next. */
  ghost predicate Shape(o: Oracle, st: State) {
    && (forall a | a in st.activities :: Shaped(a) && KnownAnchors(IdsOf(Expand(o.layout, st.signature.prefabs)), a))
    && (forall a, b | a in st.activities && b in st.activities && a != b :: Held(a) !! Held(b))
  }

  ghost predicate ActOk(ctx: Ctx, a: Activity) {
    && Shaped(a)
    && KnownAnchors(ctx.anchorIds, a)
    && (forall id | id in Participants(a) :: OnRoster(ctx.actors, id) && !Busy(ctx.actors, id))
    && (forall d | d in Destinations(a) :: !AnchorBlocked(ctx, d.anchorId))
  }

  ghost predicate ListOk(ctx: Ctx, acts: seq<Activity>) {
    && NoDup(acts)
    && (forall a | a in acts :: ActOk(ctx, a) && a.endsAt > ctx.input.now)
    && (forall a, b | a in acts && b in acts && a != b :: Apart(a, b))
    && Total(acts, PartCount) <= ctx.input.policy.maxActiveActors
    && Total(acts, AwayCount) <= ctx.input.policy.maxAway
  }

  /** The state an enabled boundary at `input.now` leaves behind. */
  ghost predicate Consistent(o: Oracle, st: State, input: Input) {
    var ctx := MakeCtx(o, st, input);
    && st.version == VERSION && st.seed == input.seed && st.lastAdvancedAt == input.now
    && st.signature == SignatureOf(ctx.homes, input.prefabs, input.route)
    && ListOk(ctx, st.activities)
    && Sorted(ActivityLess, st.activities)
    && |st.clocks| == |ctx.actors|
    && forall i | 0 <= i < |st.clocks| :: st.clocks[i].id == ctx.actors[i].id && st.clocks[i].nextDueAt > input.now
  }

  lemma {:induction false} PartsSize(a: Activity)
    requires Shaped(a)
    ensures |Parts(a)| == |Participants(a)|
  {
    if a.partner.Some? { assert Parts(a) == {a.mover, a.partner.value}; } else { assert Parts(a) == {a.mover}; }
  }

  lemma {:induction false} PartsSnoc(acts: seq<Activity>, a: Activity)
    ensures PartsOf(acts + [a]) == PartsOf(acts) + Parts(a)
  {
    assert forall x :: x in acts + [a] <==> x in acts || x == a;
  }

  lemma {:induction false} MoverTakesPart(a: Activity)
    ensures a.mover in Parts(a)
  {
    assert Participants(a)[0] == a.mover;
  }

  lemma {:induction false} UnionSize<T>(a: set<T>, b: set<T>)
    requires a !! b
    ensures |a + b| == |a| + |b|
  {
  }

  /** The counters the scheduler carries beside an activity list. */
  ghost predicate Counted(acts: seq<Activity>, participants: set<Id>, away: nat) {
    && participants == PartsOf(acts)
    && |participants| == Total(acts, PartCount)
    && away == Total(acts, AwayCount)
  }

  lemma {:induction false} CountedSnoc(acts: seq<Activity>, participants: set<Id>, away: nat, a: Activity)
    requires Counted(acts, participants, away) && Shaped(a) && Parts(a) !! participants
    ensures Counted(acts + [a], participants + Parts(a), away + AwayCount(a))
  {
    PartsSnoc(acts, a);
    PartsSize(a);
    UnionSize(participants, Parts(a));
    TotalSnoc(acts, a, PartCount);
    TotalSnoc(acts, a, AwayCount);
  }

  lemma {:induction false} NewcomerApart(acts: seq<Activity>, a: Activity)
    requires Parts(a) !! PartsOf(acts)
    ensures forall b | b in acts :: b != a && Parts(a) !! Parts(b)
  {
    MoverTakesPart(a);
    forall b | b in acts ensures b != a && Parts(a) !! Parts(b) {
      MoverTakesPart(b);
      assert Parts(b) <= PartsOf(acts);
    }
  }

  lemma {:induction false} NoDupSnoc<T>(s: seq<T>, x: T)
    requires NoDup(s) && x !in s
    ensures NoDup(s + [x])
  {
  }

  /** Appending an activity that shares nobody and no fixture keeps the list in order. */
  lemma {:induction false} ListSnoc(ctx: Ctx, acts: seq<Activity>, a: Activity)
    requires ListOk(ctx, acts) && ActOk(ctx, a) && a.endsAt > ctx.input.now
    requires Parts(a) !! PartsOf(acts)
    requires forall b | b in acts :: Held(a) !! Held(b)
    requires Total(acts, PartCount) + |Participants(a)| <= ctx.input.policy.maxActiveActors
    requires Total(acts, AwayCount) + AwayCount(a) <= ctx.input.policy.maxAway
    ensures ListOk(ctx, acts + [a])
  {
    NewcomerApart(acts, a);
    NoDupSnoc(acts, a);
    TotalSnoc(acts, a, PartCount);
    TotalSnoc(acts, a, AwayCount);
    var more := acts + [a];
    forall x | x in more ensures ActOk(ctx, x) && x.endsAt > ctx.input.now {
      assert x in acts || x == a;
    }
    forall x, y | x in more && y in more && x != y ensures Apart(x, y) {
      assert (x in acts || x == a) && (y in acts || y == a);
    }
  }

  // ---- Context ------------------------------------------------------------

  ghost predicate CtxOk(ctx: Ctx) {
    && ctx.anchorIds == IdsOf(ctx.anchors)
    && (forall a | a in ctx.anchors :: a.anchorId.OfPrefab? && a.anchorId.instanceId == a.instanceId)
    && (forall h | h in ctx.homes :: OnRoster(ctx.actors, h.id))
    && NoDupIds(ctx.actors)
  }

  ghost predicate NoDupIds(actors: seq<Actor>) {
    forall i, j | 0 <= i < j < |actors| :: StrLess(actors[i].id, actors[j].id)
  }

  lemma {:induction false} ActorLessWeak()
    ensures StrictWeak(ActorLess) && StrictWeak(HomeLess) && StrictWeak(ClockLess)
  {
    StrStrictWeak();
  }

  lemma {:induction false} DueLessWeak()
    ensures StrictWeak(DueLess) && StrictWeak(ActivityLess)
  {
    IntThenStrWeak();
    KeyedWeak<Clock, (int, string)>(IntThenStr, (c: Clock) => (c.nextDueAt, c.id), DueLess);
    KeyedWeak<Activity, (int, string)>(IntThenStr, (a: Activity) => (a.startedAt, a.mover), ActivityLess);
  }

  lemma {:induction false} RosterFacts(actors: seq<Actor>)
    ensures NoDup(Roster(actors)) && Sorted(ActorLess, Roster(actors))
    ensures forall a, b | a in Roster(actors) && b in Roster(actors) && a != b :: a.id != b.id
  {
    var d, r := Distinct(actors), Roster(actors);
    ActorLessWeak();
    SortSorted(ActorLess, d);
    assert NoDup(d);
    NoDupPermute(d, r);
    SameElements(d, r);
  }

  lemma {:induction false} RosterSorted(actors: seq<Actor>)
    ensures NoDupIds(Roster(actors))
  {
    var r := Roster(actors);
    RosterFacts(actors);
    forall i, j | 0 <= i < j < |r| ensures StrLess(r[i].id, r[j].id) {
      assert r[i] in r && r[j] in r && r[i] != r[j];
      StrTotal(r[i].id, r[j].id);
      assert !ActorLess(r[j], r[i]);
    }
  }

  lemma {:induction false} MakeCtxOk(o: Oracle, base: State, input: Input)
    ensures CtxOk(MakeCtx(o, base, input))
  {
    RosterSorted(input.actors);
    var roster := Roster(input.actors);
    var kept := Filter(input.homes, (h: Home) => OnRoster(roster, h.id));
    SameElements(kept, HomesOf(input));
  }

  /** The default scale is the scale that is used, so normalizing moves no anchor. */
  lemma {:induction false} PlaceNormalized(layout: Layout, p: Prefab, i: nat)
    requires i < |layout.affordances(p.prefabId)|
    ensures NormalPrefab(p).prefabId == p.prefabId && Place(layout, NormalPrefab(p), i) == Place(layout, p, i)
  {
    var q := NormalPrefab(p);
    assert q.instanceId == p.instanceId && q.prefabId == p.prefabId && q.rotation == p.rotation;
    assert q.x == p.x && q.z == p.z && ScaleOf(q) == ScaleOf(p);
  }

  lemma {:induction false} AnchorsNormalized(layout: Layout, p: Prefab)
    ensures AnchorsOf(layout, NormalPrefab(p)) == AnchorsOf(layout, p)
  {
    var a, b := AnchorsOf(layout, NormalPrefab(p)), AnchorsOf(layout, p);
    assert |a| == |b|;
    forall i: nat | i < |b| ensures a[i] == b[i] {
      PlaceNormalized(layout, p, i);
      AnchorsAt(layout, NormalPrefab(p), i);
      AnchorsAt(layout, p, i);
    }
  }

  lemma {:induction false} AnchorsAt(layout: Layout, p: Prefab, i: nat)
    requires i < |layout.affordances(p.prefabId)|
    ensures AnchorsOf(layout, p)[i] == Place(layout, p, i)
  {
  }

  lemma {:induction false} ExpandNormalized(layout: Layout, ps: seq<Prefab>)
    ensures Expand(layout, NormalPrefabs(ps)) == Expand(layout, ps)
  {
    if ps == [] {
    } else {
      var n := |ps| - 1;
      ExpandNormalized(layout, ps[..n]);
      assert NormalPrefabs(ps)[..n] == NormalPrefabs(ps[..n]);
      AnchorsNormalized(layout, ps[n]);
    }
  }

  /** Equal signatures mean equal anchors. */
  lemma {:induction false} SignatureAnchors(o: Oracle, homes: seq<Home>, prefabs: seq<Prefab>, route: string)
    ensures Expand(o.layout, SignatureOf(homes, prefabs, route).prefabs) == WorldAnchors(o.layout, prefabs)
  {
    ExpandNormalized(o.layout, Sort(PrefabLess, prefabs));
  }

  // ---- Retained activities ------------------------------------------------

  ghost predicate KeptOk(ctx: Ctx, kept: Kept) {
    ListOk(ctx, kept.activities) && Counted(kept.activities, kept.participants, kept.away)
  }

  lemma {:induction false} ValidActOk(ctx: Ctx, kept: Kept, a: Activity)
    requires !Invalid(ctx, kept, a) && Shaped(a)
    requires !ctx.geometryChanged ==> KnownAnchors(ctx.anchorIds, a)
    ensures ActOk(ctx, a) && Parts(a) !! kept.participants
  {
    forall id | id in Participants(a)
      ensures OnRoster(ctx.actors, id) && !Busy(ctx.actors, id) && id !in kept.participants
    {
    }
  }

  lemma {:induction false} KeepOne(ctx: Ctx, kept: Kept, a: Activity)
    requires KeptOk(ctx, kept) && Shaped(a)
    requires !ctx.geometryChanged ==> KnownAnchors(ctx.anchorIds, a)
    requires forall b | b in kept.activities && a != b :: Held(a) !! Held(b)
    ensures KeptOk(ctx, Keep(ctx, kept, a))
  {
    if !Invalid(ctx, kept, a) {
      ValidActOk(ctx, kept, a);
      NewcomerApart(kept.activities, a);
      ListSnoc(ctx, kept.activities, a);
      CountedSnoc(kept.activities, kept.participants, kept.away, a);
    }
  }

  /** Activities a new boundary may go through: well shaped, and no fixture shared. */
  ghost predicate Keepable(ctx: Ctx, acts: seq<Activity>) {
    && (forall a | a in acts :: Shaped(a) && (!ctx.geometryChanged ==> KnownAnchors(ctx.anchorIds, a)))
    && forall a, b | a in acts && b in acts && a != b :: Held(a) !! Held(b)
  }

  lemma {:induction false} KeepAllMembers(ctx: Ctx, acts: seq<Activity>)
    ensures forall a | a in KeepAll(ctx, acts).activities :: a in acts
  {
    if acts == [] {
    } else {
      KeepAllMembers(ctx, acts[..|acts| - 1]);
    }
  }

  lemma {:induction false} KeepableLast(ctx: Ctx, acts: seq<Activity>)
    requires Keepable(ctx, acts) && acts != []
    ensures var n := |acts| - 1;
            && Keepable(ctx, acts[..n])
            && Shaped(acts[n]) && (!ctx.geometryChanged ==> KnownAnchors(ctx.anchorIds, acts[n]))
            && forall b | b in acts[..n] && acts[n] != b :: Held(acts[n]) !! Held(b)
  {
    var n := |acts| - 1;
    assert acts[n] in acts && forall b | b in acts[..n] :: b in acts;
  }

  lemma {:induction false} KeepAllOk(ctx: Ctx, acts: seq<Activity>)
    requires Keepable(ctx, acts)
    ensures KeptOk(ctx, KeepAll(ctx, acts))
  {
    if acts == [] {
      assert PartsOf([]) == {};
    } else {
      var front := acts[..|acts| - 1];
      KeepableLast(ctx, acts);
      KeepAllOk(ctx, front);
      KeepAllMembers(ctx, front);
      KeepOne(ctx, KeepAll(ctx, front), acts[|acts| - 1]);
    }
  }

  // ---- New activities -----------------------------------------------------

  ghost predicate CountsOk(w: Work) {
    && Counted(w.activities, w.participants, w.away)
    && w.active == |w.participants|
  }

  ghost predicate ReservesOk(ctx: Ctx, w: Work) {
    && BlockedIds(ctx) <= w.anchors
    && ctx.blockedFixtures <= w.fixtures
    && forall a | a in w.activities :: Held(a) <= w.fixtures
  }

  ghost predicate WorkOk(ctx: Ctx, w: Work) {
    && ListOk(ctx, w.activities)
    && CountsOk(w)
    && ReservesOk(ctx, w)
    && forall id | id in w.clocks :: w.clocks[id].id == id
  }

  /** What the rest of the boundary relies on when something is started. */
  ghost predicate GoodChoice(ctx: Ctx, w: Work, id: Id, a: Activity) {
    && a.mover == id
    && Shaped(a) && a.endsAt > ctx.input.now
    && KnownAnchors(ctx.anchorIds, a)
    && (a.partner.Some? ==>
          a.partner.value !in w.participants && OnRoster(ctx.actors, a.partner.value) && !Busy(ctx.actors, a.partner.value))
    && w.active + |Participants(a)| <= ctx.input.policy.maxActiveActors
    && w.away + AwayCount(a) <= ctx.input.policy.maxAway
    && (forall d | d in Destinations(a) && d.anchorId.OfPrefab? ::
          d.anchorId !in w.anchors && d.anchorId.instanceId !in w.fixtures)
  }

  ghost predicate FreeAnchor(ctx: Ctx, w: Work, a: WorldAnchor) {
    a in ctx.anchors && !Reserved(w, a)
  }

  lemma {:induction false} MovementGood(ctx: Ctx, w: Work, r: Routine, clock: Clock, home: Home, partner: Option<Id>,
                                        d: Destination, blocked: bool)
    requires CtxOk(ctx)
    requires TryMovement(ctx, r, clock, home, partner, d, blocked).Some?
    requires w.away < ctx.input.policy.maxAway
    requires CanAdd(ctx, w, if partner.Some? then 2 else 1)
    requires partner.Some? ==> partner.value != clock.id && partner.value !in w.participants
                               && OnRoster(ctx.actors, partner.value) && !Busy(ctx.actors, partner.value)
    requires d.anchorId.OfPrefab? ==> exists a :: FreeAnchor(ctx, w, a) && WorldDestination(a) == d
    ensures GoodChoice(ctx, w, clock.id, TryMovement(ctx, r, clock, home, partner, d, blocked).value)
  {
    var a := TryMovement(ctx, r, clock, home, partner, d, blocked).value;
    assert Destinations(a) == [d];
  }

  lemma {:induction false} AnchorsAreFree(ctx: Ctx, w: Work, kind: AnchorKind, home: Home)
    ensures forall a | a in FreeAnchors(ctx, w, kind, home) :: FreeAnchor(ctx, w, a)
  {
    var free := Filter(ctx.anchors, (a: WorldAnchor) => a.kind == kind && !Reserved(w, a));
    SameElements(free, FreeAnchors(ctx, w, kind, home));
  }

  lemma {:induction false} PartnersAreFree(ctx: Ctx, w: Work, home: Home, mover: Id)
    requires CtxOk(ctx)
    ensures forall p | p in Partners(ctx, w, home, mover) ::
              p.id != mover && p.id !in w.participants && OnRoster(ctx.actors, p.id) && !Busy(ctx.actors, p.id)
  {
    var ok := Filter(ctx.homes, (h: Home) =>
      h.id != mover && SeatOr(h.posture, Sitting) == Sitting && !Busy(ctx.actors, h.id) && h.id !in w.participants);
    SameElements(ok, Partners(ctx, w, home, mover));
  }

  ghost predicate GoodFixture(ctx: Ctx, w: Work, f: Fixture) {
    FreeAnchor(ctx, w, f.moverAnchor) && FreeAnchor(ctx, w, f.partnerAnchor)
  }

  lemma {:induction false} PairFromGroup(mover: Home, partner: Home, id: string, group: seq<WorldAnchor>)
    requires |group| >= 2
    ensures FixtureFor(mover, partner, id, group).moverAnchor in group
    ensures FixtureFor(mover, partner, id, group).partnerAnchor in group
  {
    var ordered := Sort((a: WorldAnchor, b: WorldAnchor) => StrLess(AnchorName(a), AnchorName(b)), group);
    SameElements(group, ordered);
    var two := [ordered[0], ordered[1]];
    var pair := Sort((a: WorldAnchor, b: WorldAnchor) =>
                       RealThenStr((Gap(a.x, a.z, mover.x, mover.z), AnchorName(a)), (Gap(b.x, b.z, mover.x, mover.z), AnchorName(b))), two);
    SameElements(two, pair);
    assert pair[0] in two && pair[1] in two;
  }

  lemma {:induction false} AmongSeats(ctx: Ctx, w: Work, mover: Home, partner: Home, seats: seq<WorldAnchor>, ids: seq<string>)
    requires forall a | a in seats :: FreeAnchor(ctx, w, a)
    ensures forall f | f in FixturesAmong(mover, partner, seats, ids) :: GoodFixture(ctx, w, f)
  {
    if ids == [] {
    } else {
      AmongSeats(ctx, w, mover, partner, seats, ids[..|ids| - 1]);
      var id := ids[|ids| - 1];
      var group := Filter(seats, (a: WorldAnchor) => a.instanceId == id);
      if |group| >= 2 { PairFromGroup(mover, partner, id, group); }
    }
  }

  lemma {:induction false} FixturesAreFree(ctx: Ctx, w: Work, mover: Home, partner: Home)
    ensures forall f | f in BreakFixtures(ctx, w, mover, partner) :: GoodFixture(ctx, w, f)
  {
    var seats := BreakSeats(ctx, w);
    var found := FixturesAmong(mover, partner, seats, FixtureIds(seats));
    AmongSeats(ctx, w, mover, partner, seats, FixtureIds(seats));
    SameElements(found, BreakFixtures(ctx, w, mover, partner));
  }

  lemma {:induction false} BreakGood(ctx: Ctx, w: Work, clock: Clock, home: Home, partner: Home, f: Fixture)
    requires CtxOk(ctx) && home.id == clock.id
    requires TryBreak(ctx, clock, home, partner, f).Some? && GoodFixture(ctx, w, f)
    requires CanAdd(ctx, w, 2) && w.away + 2 <= ctx.input.policy.maxAway
    requires partner.id != clock.id && partner.id !in w.participants
             && OnRoster(ctx.actors, partner.id) && !Busy(ctx.actors, partner.id)
    ensures GoodChoice(ctx, w, clock.id, TryBreak(ctx, clock, home, partner, f).value)
  {
    var a := TryBreak(ctx, clock, home, partner, f).value;
    assert Destinations(a) == [WorldDestination(f.moverAnchor), WorldDestination(f.partnerAnchor)];
  }

  lemma {:induction false} BreakWithGood(ctx: Ctx, w: Work, clock: Clock, home: Home, partner: Home)
    requires CtxOk(ctx) && home.id == clock.id
    requires CanAdd(ctx, w, 2) && w.away + 2 <= ctx.input.policy.maxAway
    requires partner.id != clock.id && partner.id !in w.participants
             && OnRoster(ctx.actors, partner.id) && !Busy(ctx.actors, partner.id)
    requires BreakWith(ctx, w, clock, home, partner).Some?
    ensures GoodChoice(ctx, w, clock.id, BreakWith(ctx, w, clock, home, partner).value)
  {
    var result := BreakWith(ctx, w, clock, home, partner);
    FixturesAreFree(ctx, w, home, partner);
    var f :| f in BreakFixtures(ctx, w, home, partner) && TryBreak(ctx, clock, home, partner, f) == result;
    BreakGood(ctx, w, clock, home, partner, f);
  }

  lemma {:induction false} BreakPartner(ctx: Ctx, w: Work, clock: Clock, home: Home) returns (p: Home)
    requires MovementChoice(ctx, w, clock, home, Break).Some?
    ensures p in Partners(ctx, w, home, clock.id)
    ensures BreakWith(ctx, w, clock, home, p) == MovementChoice(ctx, w, clock, home, Break)
    ensures CanAdd(ctx, w, 2) && w.away + 2 <= ctx.input.policy.maxAway
  {
    var result := MovementChoice(ctx, w, clock, home, Break);
    p :| p in Partners(ctx, w, home, clock.id) && BreakWith(ctx, w, clock, home, p) == result;
  }

  lemma {:induction false} BreakChoiceGood(ctx: Ctx, w: Work, clock: Clock, home: Home)
    requires CtxOk(ctx) && home.id == clock.id
    requires MovementChoice(ctx, w, clock, home, Break).Some?
    ensures GoodChoice(ctx, w, clock.id, MovementChoice(ctx, w, clock, home, Break).value)
  {
    var p := BreakPartner(ctx, w, clock, home);
    PartnersAreFree(ctx, w, home, clock.id);
    BreakWithGood(ctx, w, clock, home, p);
  }

  lemma {:induction false} SocialChoiceGood(ctx: Ctx, w: Work, clock: Clock, home: Home)
    requires CtxOk(ctx) && home.id == clock.id && w.away < ctx.input.policy.maxAway
    requires MovementChoice(ctx, w, clock, home, Social).Some?
    ensures GoodChoice(ctx, w, clock.id, MovementChoice(ctx, w, clock, home, Social).value)
  {
    PartnersAreFree(ctx, w, home, clock.id);
    var result := MovementChoice(ctx, w, clock, home, Social);
    var p :| p in Partners(ctx, w, home, clock.id) && SocialWith(ctx, w, clock, home, p) == result;
    var d :| d in SocialDestinations(ctx, w, clock.id, clock.sequence, p)
             && TryMovement(ctx, Social, clock, home, Some(p.id), d, false) == result;
    MovementGood(ctx, w, Social, clock, home, Some(p.id), d, false);
  }

  lemma {:induction false} SoloChoiceGood(ctx: Ctx, w: Work, clock: Clock, home: Home, r: Routine)
    requires CtxOk(ctx) && w.away < ctx.input.policy.maxAway && r != Break && r != Social
    requires MovementChoice(ctx, w, clock, home, r).Some?
    ensures GoodChoice(ctx, w, clock.id, MovementChoice(ctx, w, clock, home, r).value)
  {
    var result := MovementChoice(ctx, w, clock, home, r);
    var kind := if r == Refreshment then RefreshmentStop else LibraryInspect;
    AnchorsAreFree(ctx, w, kind, home);
    var a :| a in FreeAnchors(ctx, w, kind, home)
             && TryMovement(ctx, r, clock, home, None, WorldDestination(a), true) == result;
    MovementGood(ctx, w, r, clock, home, None, WorldDestination(a), true);
  }

  lemma {:induction false} MovementChoiceGood(ctx: Ctx, w: Work, clock: Clock, home: Home, r: Routine)
    requires CtxOk(ctx) && home.id == clock.id && w.away < ctx.input.policy.maxAway
    requires MovementChoice(ctx, w, clock, home, r).Some?
    ensures GoodChoice(ctx, w, clock.id, MovementChoice(ctx, w, clock, home, r).value)
  {
    match r
    case Break => BreakChoiceGood(ctx, w, clock, home);
    case Social => SocialChoiceGood(ctx, w, clock, home);
    case _ => SoloChoiceGood(ctx, w, clock, home, r);
  }

  lemma {:induction false} ChooseGood(ctx: Ctx, w: Work, clock: Clock)
    requires CtxOk(ctx) && w.away <= ctx.input.policy.maxAway
    requires Choose(ctx, w, clock).Some?
    ensures GoodChoice(ctx, w, clock.id, Choose(ctx, w, clock).value)
  {
    var a := Choose(ctx, w, clock).value;
    var home := HomeOf(ctx.homes, clock.id);
    var preferred := RoutineFor(ctx.o, ctx.input.seed, clock.id, clock.sequence);
    if a.away {
      if a.routine == Phone && preferred == Phone && home.Some? && w.away < ctx.input.policy.maxAway
         && PhoneChoice(ctx, w, clock, home.value) == Some(a) && CanAdd(ctx, w, 1) {
        var d :| d in PhoneDestinations(ctx, w, clock, home.value)
                 && TryMovement(ctx, Phone, clock, home.value, None, d, false) == Some(a);
        MovementGood(ctx, w, Phone, clock, home.value, None, d, false);
      } else {
        var r :| r in CyclicFrom(preferred) && MovementChoice(ctx, w, clock, home.value, r) == Some(a);
        MovementChoiceGood(ctx, w, clock, home.value, r);
      }
    } else {
      NotAwayIsInPlace(ctx, w, clock);
      assert Destinations(a) == [];
    }
  }

  lemma {:induction false} MovementIsAway(ctx: Ctx, w: Work, clock: Clock, home: Home, r: Routine)
    requires MovementChoice(ctx, w, clock, home, r).Some?
    ensures MovementChoice(ctx, w, clock, home, r).value.away
  {
    match r {
      case Break => var p := BreakPartner(ctx, w, clock, home);
      case Social => SocialIsAway(ctx, w, clock, home);
      case _ =>
    }
  }

  lemma {:induction false} SocialIsAway(ctx: Ctx, w: Work, clock: Clock, home: Home)
    requires MovementChoice(ctx, w, clock, home, Social).Some?
    ensures MovementChoice(ctx, w, clock, home, Social).value.away
  {
    var result := MovementChoice(ctx, w, clock, home, Social);
    var p :| p in Partners(ctx, w, home, clock.id) && SocialWith(ctx, w, clock, home, p) == result;
  }

  lemma {:induction false} NotAwayIsInPlace(ctx: Ctx, w: Work, clock: Clock)
    requires Choose(ctx, w, clock).Some? && !Choose(ctx, w, clock).value.away
    ensures var home := HomeOf(ctx.homes, clock.id);
            var preferred := RoutineFor(ctx.o, ctx.input.seed, clock.id, clock.sequence);
            && CanAdd(ctx, w, 1)
            && Choose(ctx, w, clock).value ==
               ActivityForInPlace(FallbackFor(preferred, home), clock.id, clock.sequence, home, ctx.input.now)
  {
    var home := HomeOf(ctx.homes, clock.id);
    if home.Some? {
      var preferred := RoutineFor(ctx.o, ctx.input.seed, clock.id, clock.sequence);
      forall r | MovementChoice(ctx, w, clock, home.value, r).Some?
        ensures MovementChoice(ctx, w, clock, home.value, r).value.away
      {
        MovementIsAway(ctx, w, clock, home.value, r);
      }
    }
  }

  lemma {:induction false} ChoiceActOk(ctx: Ctx, w: Work, id: Id, a: Activity)
    requires WorkOk(ctx, w) && GoodChoice(ctx, w, id, a)
    requires OnRoster(ctx.actors, id) && !Busy(ctx.actors, id)
    ensures ActOk(ctx, a)
  {
    forall d | d in Destinations(a) ensures !AnchorBlocked(ctx, d.anchorId) {
      var at := d.anchorId;
      if at.OfPrefab? {
        assert at == OfPrefab(at.instanceId, at.index);
        assert (at.instanceId, at.index) in ctx.input.blocked ==> at in BlockedIds(ctx);
      }
    }
  }

  ghost function NewIds(a: Activity): set<AnchorId> {
    set d | d in Destinations(a) :: d.anchorId
  }

  lemma {:induction false} ChoiceHolds(ctx: Ctx, w: Work, id: Id, a: Activity)
    requires GoodChoice(ctx, w, id, a)
    ensures Held(a) !! w.fixtures && Held(a) <= FixturesOf(ctx, NewIds(a))
  {
    forall f | f in Held(a) ensures f in FixturesOf(ctx, NewIds(a)) && f !in w.fixtures {
      var d :| d in Destinations(a) && d.anchorId.OfPrefab? && d.anchorId.instanceId == f;
      assert d.anchorId in NewIds(a);
    }
  }

  lemma {:induction false} BeginList(ctx: Ctx, w: Work, id: Id, a: Activity)
    requires WorkOk(ctx, w) && GoodChoice(ctx, w, id, a)
    requires id !in w.participants && OnRoster(ctx.actors, id) && !Busy(ctx.actors, id)
    ensures ListOk(ctx, w.activities + [a]) && Parts(a) !! w.participants
  {
    ChoiceActOk(ctx, w, id, a);
    ChoiceHolds(ctx, w, id, a);
    assert Parts(a) !! w.participants;
    ListSnoc(ctx, w.activities, a);
  }

  lemma {:induction false} BeginReserves(ctx: Ctx, w: Work, id: Id, a: Activity)
    requires ReservesOk(ctx, w) && GoodChoice(ctx, w, id, a)
    ensures ReservesOk(ctx, Begin(ctx, w, a))
  {
    ChoiceHolds(ctx, w, id, a);
    var after := Begin(ctx, w, a);
    assert after.fixtures == w.fixtures + FixturesOf(ctx, NewIds(a));
    forall b | b in after.activities ensures Held(b) <= after.fixtures {
      assert b in w.activities || b == a;
    }
  }

  lemma {:induction false} MoreParticipants(participants: set<Id>, active: nat, a: Activity)
    requires active == |participants| && Shaped(a) && Parts(a) !! participants
    ensures |participants + Parts(a)| == active + |Participants(a)|
  {
    PartsSize(a);
    UnionSize(participants, Parts(a));
  }

  lemma {:induction false} CountsSnoc(w: Work, after: Work, a: Activity)
    requires CountsOk(w) && Shaped(a) && Parts(a) !! w.participants
    requires after.activities == w.activities + [a] && after.participants == w.participants + Parts(a)
    requires after.away == w.away + AwayCount(a) && after.active == w.active + |Participants(a)|
    ensures CountsOk(after)
  {
    CountedSnoc(w.activities, w.participants, w.away, a);
    MoreParticipants(w.participants, w.active, a);
  }

  lemma {:induction false} BeginOk(ctx: Ctx, w: Work, id: Id, a: Activity)
    requires WorkOk(ctx, w) && GoodChoice(ctx, w, id, a)
    requires id !in w.participants && OnRoster(ctx.actors, id) && !Busy(ctx.actors, id)
    ensures WorkOk(ctx, Begin(ctx, w, a))
  {
    BeginList(ctx, w, id, a);
    BeginReserves(ctx, w, id, a);
    CountsSnoc(w, Begin(ctx, w, a), a);
  }

  lemma {:induction false} AttemptOk(ctx: Ctx, w: Work, due: Clock)
    requires CtxOk(ctx) && WorkOk(ctx, w)
    ensures WorkOk(ctx, Attempt(ctx, w, due))
  {
    if due.id in w.clocks && OnRoster(ctx.actors, due.id) && !Busy(ctx.actors, due.id) && due.id !in w.participants {
      var clock := w.clocks[due.id];
      var a := Choose(ctx, w, clock);
      if a.Some? {
        ChooseGood(ctx, w, clock);
        BeginOk(ctx, w, clock.id, a.value);
        ConsumeOk(ctx, Begin(ctx, w, a.value), clock);
      }
      ConsumeOk(ctx, w, clock);
    } else if due.id in w.clocks {
      ConsumeOk(ctx, w, w.clocks[due.id]);
    }
  }

  lemma {:induction false} ConsumeOk(ctx: Ctx, w: Work, clock: Clock)
    requires WorkOk(ctx, w)
    ensures WorkOk(ctx, Consume(ctx, w, clock))
  {
  }

  lemma {:induction false} AttemptAllOk(ctx: Ctx, w: Work, due: seq<Clock>)
    requires CtxOk(ctx) && WorkOk(ctx, w)
    ensures WorkOk(ctx, AttemptAll(ctx, w, due))
  {
    if due == [] {
    } else {
      AttemptAllOk(ctx, w, due[..|due| - 1]);
      AttemptOk(ctx, AttemptAll(ctx, w, due[..|due| - 1]), due[|due| - 1]);
    }
  }

  lemma {:induction false} StartWorkOk(ctx: Ctx, kept: Kept, clocks: map<Id, Clock>)
    requires CtxOk(ctx) && KeptOk(ctx, kept)
    requires forall id | id in clocks :: clocks[id].id == id
    ensures WorkOk(ctx, StartWork(ctx, kept, clocks))
  {
    var w := StartWork(ctx, kept, clocks);
    forall a, f | a in w.activities && f in Held(a) ensures f in w.fixtures {
      var d :| d in Destinations(a) && d.anchorId.OfPrefab? && d.anchorId.instanceId == f;
      assert d.anchorId in AnchorIdsOf(kept.activities);
    }
  }
}
