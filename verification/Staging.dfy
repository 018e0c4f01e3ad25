// World-space interaction anchors and their greedy reservation by actors.
module Staging {
  import opened Orders
  import opened Wrappers

  datatype AnchorKind =
    | DeliveryShelf | Workstation | ServerInspect | ReadingSeat | LibraryInspect
    | RefreshmentStop | BoardPresenter | StandingReview | MeetingSeat | SocialSeat

  datatype Posture = Sitting | Standing

  /** Prefab anchors and the two synthetic ids the ambient scheduler makes up. */
  datatype AnchorId =
    | OfPrefab(instanceId: string, index: nat)
    | SocialSpot(mover: string, partner: string, sequence: nat, index: nat)
    | PhoneSpot(mover: string, sequence: nat, index: nat)

  datatype InteractionAnchor = InteractionAnchor(kind: AnchorKind, dx: real, dz: real, rotation: real, posture: Posture)

  datatype Prefab = Prefab(instanceId: string, prefabId: string, x: real, z: real, rotation: real, scale: Option<real>)

  datatype WorldAnchor = WorldAnchor(
    anchorId: AnchorId, instanceId: string, kind: AnchorKind, x: real, z: real, facing: real, posture: Posture)

  /** The affordance table and the trigonometric rotation, both uninterpreted. */
  datatype Layout = Layout(affordances: string -> seq<InteractionAnchor>, rotate: (real, real, real) -> (real, real))

  function NormalizeRotation(degrees: real): real {
    degrees - 360.0 * (degrees / 360.0).Floor as real
  }

  predicate PrefabLess(p: Prefab, q: Prefab) {
    StrLess(p.instanceId, q.instanceId)
  }

  function ScaleOf(prefab: Prefab): real { if prefab.scale.Some? then prefab.scale.value else 1.0 }

  /** An anchor of a prefab that stands at (x, z), turned and scaled. */
  function Stand(layout: Layout, id: AnchorId, instanceId: string, anchor: InteractionAnchor,
                 x: real, z: real, turn: real, scale: real): WorldAnchor
  {
    var (dx, dz) := layout.rotate(anchor.dx, anchor.dz, turn);
    WorldAnchor(id, instanceId, anchor.kind, x + dx * scale, z + dz * scale, NormalizeRotation(anchor.rotation + turn), anchor.posture)
  }

  function Place(layout: Layout, prefab: Prefab, index: nat): WorldAnchor
    requires index < |layout.affordances(prefab.prefabId)|
  {
    Stand(layout, OfPrefab(prefab.instanceId, index), prefab.instanceId, layout.affordances(prefab.prefabId)[index],
          prefab.x, prefab.z, prefab.rotation, ScaleOf(prefab))
  }

  function AnchorsOf(layout: Layout, prefab: Prefab): seq<WorldAnchor> {
    seq(|layout.affordances(prefab.prefabId)|,
        i requires 0 <= i < |layout.affordances(prefab.prefabId)| => Place(layout, prefab, i))
  }

  function Expand(layout: Layout, prefabs: seq<Prefab>): (r: seq<WorldAnchor>)
    ensures forall a | a in r :: a.anchorId.OfPrefab? && a.anchorId.instanceId == a.instanceId
  {
    if prefabs == [] then []
    else Expand(layout, prefabs[..|prefabs| - 1]) + AnchorsOf(layout, prefabs[|prefabs| - 1])
  }

  function WorldAnchors(layout: Layout, prefabs: seq<Prefab>): (r: seq<WorldAnchor>)
    ensures forall a | a in r :: a.anchorId.OfPrefab? && a.anchorId.instanceId == a.instanceId
  {
    Expand(layout, Sort(PrefabLess, prefabs))
  }

  method PushAnchors(layout: Layout, prefab: Prefab, before: seq<WorldAnchor>) returns (out: seq<WorldAnchor>)
    ensures out == before + AnchorsOf(layout, prefab)
  {
    out := before;
    var anchors := layout.affordances(prefab.prefabId);
    for index := 0 to |anchors|
      invariant out == before + AnchorsOf(layout, prefab)[..index]
    {
      out := out + [Place(layout, prefab, index)];
    }
  }

  lemma {:induction false} ExpandTake(layout: Layout, prefabs: seq<Prefab>, i: nat)
    requires i < |prefabs|
    ensures Expand(layout, prefabs[..i + 1]) == Expand(layout, prefabs[..i]) + AnchorsOf(layout, prefabs[i])
  {
    assert prefabs[..i + 1][..i] == prefabs[..i];
  }

  method WorldAnchorsFor(layout: Layout, prefabs: seq<Prefab>) returns (out: seq<WorldAnchor>)
    ensures out == WorldAnchors(layout, prefabs)
  {
    out := [];
    var sorted := Sort(PrefabLess, prefabs);
    for i := 0 to |sorted|
      invariant out == Expand(layout, sorted[..i])
    {
      out := PushAnchors(layout, sorted[i], out);
      ExpandTake(layout, sorted, i);
    }
    assert sorted[..|sorted|] == sorted;
  }

  // ---- Reservation --------------------------------------------------------

  datatype Request = Request(actorId: string, affordance: AnchorKind, priority: int, at: int, x: Option<real>, z: Option<real>)

  datatype Placement = Placement(actorId: string, affordance: AnchorKind, anchor: Option<WorldAnchor>)

  predicate RequestLess(p: Request, q: Request) {
    || p.priority > q.priority
    || (p.priority == q.priority && (p.at < q.at || (p.at == q.at && StrLess(p.actorId, q.actorId))))
  }

  lemma {:induction false} RequestLessWeak()
    ensures StrictWeak(RequestLess)
  {
    StrStrictWeak();
  }

  lemma {:induction false} PrefabLessWeak()
    ensures StrictWeak(PrefabLess)
  {
    StrStrictWeak();
  }

  function Square(v: real): real { v * v }

  function Key(anchors: seq<WorldAnchor>, req: Request, i: nat): real
    requires i < |anchors|
  {
    if req.x.Some? && req.z.Some?
    then Square(anchors[i].x - req.x.value) + Square(anchors[i].z - req.z.value)
    else i as real
  }

  /** Anchor `i` suits the request and none of the earlier choices took it. */
  ghost predicate Free(anchors: seq<WorldAnchor>, req: Request, taken: seq<int>, i: nat) {
    i < |anchors| && anchors[i].kind == req.affordance && i !in taken
  }

  /** `c` is the free anchor of least key, the lowest index among equals; -1 if none is free. */
  ghost predicate BestFree(anchors: seq<WorldAnchor>, req: Request, taken: seq<int>, c: int) {
    if c < 0 then c == -1 && forall i: nat | i < |anchors| :: !Free(anchors, req, taken, i)
    else
      && Free(anchors, req, taken, c)
      && forall i: nat | i < |anchors| && Free(anchors, req, taken, i) ::
           Key(anchors, req, c) < Key(anchors, req, i) || (Key(anchors, req, c) == Key(anchors, req, i) && c <= i)
  }

  ghost predicate Greedy(anchors: seq<WorldAnchor>, ordered: seq<Request>, choice: seq<int>) {
    && |choice| == |ordered|
    && forall k | 0 <= k < |choice| :: BestFree(anchors, ordered[k], choice[..k], choice[k])
  }

  function Chosen(anchors: seq<WorldAnchor>, req: Request, c: int): Placement
    requires c < |anchors|
  {
    Placement(req.actorId, req.affordance, if c < 0 then None else Some(anchors[c]))
  }

  /** The set of reserved indices is the set of those chosen so far. */
  ghost predicate Marked(n: nat, reserved: set<int>, choice: seq<int>) {
    forall i: nat | i < n :: i in reserved <==> i in choice
  }

  /** The inner scan: nearest free anchor, first index on ties, -1 if there is none. */
  method NearestFree(anchors: seq<WorldAnchor>, req: Request, reserved: set<int>, ghost taken: seq<int>)
    returns (bestIndex: int)
    requires Marked(|anchors|, reserved, taken)
    ensures bestIndex < |anchors| && BestFree(anchors, req, taken, bestIndex)
  {
    bestIndex := -1;
    var bestKey: Option<real> := None;
    for i := 0 to |anchors|
      invariant -1 <= bestIndex < i
      invariant bestIndex < 0 ==> bestKey == None && forall j: nat | j < i :: !Free(anchors, req, taken, j)
      invariant bestIndex >= 0 ==> Free(anchors, req, taken, bestIndex) && bestKey == Some(Key(anchors, req, bestIndex))
      invariant bestIndex >= 0 ==> forall j: nat | j < i && Free(anchors, req, taken, j) ::
                  Key(anchors, req, bestIndex) < Key(anchors, req, j)
                  || (Key(anchors, req, bestIndex) == Key(anchors, req, j) && bestIndex <= j)
    {
      if anchors[i].kind != req.affordance || i in reserved {
        continue;
      }
      var key := Key(anchors, req, i);
      if bestKey.None? || key < bestKey.value {
        bestKey, bestIndex := Some(key), i;
      }
    }
  }

  lemma {:induction false} GreedySnoc(anchors: seq<WorldAnchor>, ordered: seq<Request>, choice: seq<int>, req: Request, c: int)
    requires Greedy(anchors, ordered, choice) && BestFree(anchors, req, choice, c)
    ensures Greedy(anchors, ordered + [req], choice + [c])
  {
    var more := choice + [c];
    assert more[..|choice|] == choice;
    forall k | 0 <= k < |more| ensures BestFree(anchors, (ordered + [req])[k], more[..k], more[k]) {
      if k < |choice| { assert more[..k] == choice[..k]; }
    }
  }

  ghost predicate Placed(anchors: seq<WorldAnchor>, ordered: seq<Request>, choice: seq<int>, r: seq<Placement>) {
    && |r| == |ordered| == |choice|
    && forall k | 0 <= k < |r| :: choice[k] < |anchors| && r[k] == Chosen(anchors, ordered[k], choice[k])
  }

  lemma {:induction false} PlacedSnoc(anchors: seq<WorldAnchor>, ordered: seq<Request>, choice: seq<int>,
                                      r: seq<Placement>, req: Request, c: int)
    requires Placed(anchors, ordered, choice, r) && c < |anchors|
    ensures Placed(anchors, ordered + [req], choice + [c], r + [Chosen(anchors, req, c)])
  {
  }

  /** `r` is what greedy choices give, in priority, time and id order. */
  ghost predicate IsReservation(layout: Layout, prefabs: seq<Prefab>, requests: seq<Request>, r: seq<Placement>) {
    var anchors, ordered := WorldAnchors(layout, prefabs), Sort(RequestLess, requests);
    exists choice :: Greedy(anchors, ordered, choice) && Placed(anchors, ordered, choice, r)
  }

  /** One turn of the loop: the next request gets the best free anchor. */
  lemma {:induction false} ReserveStep(anchors: seq<WorldAnchor>, ordered: seq<Request>, k: nat, choice: seq<int>,
                                       r: seq<Placement>, c: int)
    requires k < |ordered| && Greedy(anchors, ordered[..k], choice) && Placed(anchors, ordered[..k], choice, r)
    requires c < |anchors| && BestFree(anchors, ordered[k], choice, c)
    ensures Greedy(anchors, ordered[..k + 1], choice + [c])
    ensures Placed(anchors, ordered[..k + 1], choice + [c], r + [Chosen(anchors, ordered[k], c)])
  {
    GreedySnoc(anchors, ordered[..k], choice, ordered[k], c);
    PlacedSnoc(anchors, ordered[..k], choice, r, ordered[k], c);
    assert ordered[..k + 1] == ordered[..k] + [ordered[k]];
  }

  lemma {:induction false} MarkedSnoc(n: nat, reserved: set<int>, choice: seq<int>, c: int)
    requires Marked(n, reserved, choice)
    ensures Marked(n, if c >= 0 then reserved + {c} else reserved, choice + [c])
  {
  }

  method ReserveStaging(layout: Layout, prefabs: seq<Prefab>, requests: seq<Request>) returns (r: seq<Placement>)
    ensures IsReservation(layout, prefabs, requests, r)
  {
    var anchors := WorldAnchorsFor(layout, prefabs);
    var ordered := Sort(RequestLess, requests);
    var reserved: set<int> := {};
    ghost var choice: seq<int> := [];
    r := [];
    for k := 0 to |ordered|
      invariant Greedy(anchors, ordered[..k], choice)
      invariant Placed(anchors, ordered[..k], choice, r)
      invariant Marked(|anchors|, reserved, choice)
    {
      var bestIndex := NearestFree(anchors, ordered[k], reserved, choice);
      ReserveStep(anchors, ordered, k, choice, r, bestIndex);
      MarkedSnoc(|anchors|, reserved, choice, bestIndex);
      if bestIndex >= 0 {
        reserved := reserved + {bestIndex};
      }
      r := r + [Chosen(anchors, ordered[k], bestIndex)];
      choice := choice + [bestIndex];
    }
    assert ordered[..|ordered|] == ordered;
  }

  // ---- What greedy reservation guarantees ---------------------------------

  lemma {:induction false} ChoicesDiffer(anchors: seq<WorldAnchor>, ordered: seq<Request>, choice: seq<int>, j: nat, k: nat)
    requires Greedy(anchors, ordered, choice)
    requires j < k < |choice| && choice[k] >= 0
    ensures choice[j] != choice[k]
  {
    assert BestFree(anchors, ordered[k], choice[..k], choice[k]);
    assert choice[..k][j] == choice[j];
  }

  lemma {:induction false} NoneAfterNone(anchors: seq<WorldAnchor>, ordered: seq<Request>, choice: seq<int>, j: nat, k: nat)
    requires Greedy(anchors, ordered, choice)
    requires j < k < |choice| && choice[j] < 0 && ordered[j].affordance == ordered[k].affordance
    ensures choice[k] < 0
  {
    assert BestFree(anchors, ordered[j], choice[..j], choice[j]);
    assert BestFree(anchors, ordered[k], choice[..k], choice[k]);
    assert forall i | i in choice[..j] :: i in choice[..k];
    forall i: nat | i < |anchors| ensures !Free(anchors, ordered[k], choice[..k], i) {
      assert !Free(anchors, ordered[j], choice[..j], i);
    }
  }

  /** Once a kind has run out, everyone later in the order goes without as well. */
  lemma {:induction false} UnplacedComeLast(layout: Layout, prefabs: seq<Prefab>, requests: seq<Request>, r: seq<Placement>, j: nat, k: nat)
    requires IsReservation(layout, prefabs, requests, r)
    requires j < k < |r| && r[j].anchor == None && r[j].affordance == r[k].affordance
    ensures |r| == |requests| && r[j].actorId == Sort(RequestLess, requests)[j].actorId
    ensures r[k].anchor == None
  {
    var anchors, ordered := WorldAnchors(layout, prefabs), Sort(RequestLess, requests);
    var choice :| Greedy(anchors, ordered, choice) && Placed(anchors, ordered, choice, r);
    NoneAfterNone(anchors, ordered, choice, j, k);
  }

  function AnchorsOfKind(anchors: seq<WorldAnchor>, kind: AnchorKind): set<int> {
    set i | 0 <= i < |anchors| && anchors[i].kind == kind
  }

  function RequestsOfKind(ordered: seq<Request>, kind: AnchorKind): set<int> {
    set k | 0 <= k < |ordered| && ordered[k].affordance == kind
  }

  function PlacedOfKind(ordered: seq<Request>, choice: seq<int>, kind: AnchorKind): set<int>
    requires |ordered| == |choice|
  {
    set k | 0 <= k < |ordered| && ordered[k].affordance == kind && choice[k] >= 0
  }

  function Used(choice: seq<int>, ks: set<int>): set<int>
    requires forall k | k in ks :: 0 <= k < |choice|
  {
    set k | k in ks :: choice[k]
  }

  lemma {:induction false} InjectiveImage(choice: seq<int>, ks: set<int>)
    requires forall k | k in ks :: 0 <= k < |choice|
    requires forall j, k | j in ks && k in ks && j != k :: choice[j] != choice[k]
    ensures |Used(choice, ks)| == |ks|
  {
    if ks != {} {
      var k := Pick(ks);
      InjectiveImage(choice, ks - {k});
      assert Used(choice, ks) == Used(choice, ks - {k}) + {choice[k]};
    }
  }

  lemma {:induction false} SubsetSize(a: set<int>, b: set<int>)
    requires a <= b
    ensures |a| <= |b|
  {
    assert |b| == |a| + |b - a|;
  }

  lemma {:induction false} PlacedApart(anchors: seq<WorldAnchor>, ordered: seq<Request>, choice: seq<int>, ks: set<int>)
    requires Greedy(anchors, ordered, choice) && forall k | k in ks :: 0 <= k < |choice| && choice[k] >= 0
    ensures |Used(choice, ks)| == |ks|
  {
    forall j, k | j in ks && k in ks && j != k ensures choice[j] != choice[k] {
      if j < k { ChoicesDiffer(anchors, ordered, choice, j, k); } else { ChoicesDiffer(anchors, ordered, choice, k, j); }
    }
    InjectiveImage(choice, ks);
  }

  lemma {:induction false} UsedAreOfKind(anchors: seq<WorldAnchor>, ordered: seq<Request>, choice: seq<int>, kind: AnchorKind)
    requires Greedy(anchors, ordered, choice)
    ensures Used(choice, PlacedOfKind(ordered, choice, kind)) <= AnchorsOfKind(anchors, kind)
  {
    var placed := PlacedOfKind(ordered, choice, kind);
    forall i | i in Used(choice, placed) ensures i in AnchorsOfKind(anchors, kind) {
      var k :| k in placed && choice[k] == i;
      assert BestFree(anchors, ordered[k], choice[..k], choice[k]);
    }
  }

  /** While somebody of a kind goes without, all its anchors are in use. */
  lemma {:induction false} AllUsed(anchors: seq<WorldAnchor>, ordered: seq<Request>, choice: seq<int>, k: nat)
    requires Greedy(anchors, ordered, choice) && k < |choice| && choice[k] < 0
    ensures AnchorsOfKind(anchors, ordered[k].affordance) <= Used(choice, PlacedOfKind(ordered, choice, ordered[k].affordance))
  {
    var kind := ordered[k].affordance;
    var placed := PlacedOfKind(ordered, choice, kind);
    forall i | i in AnchorsOfKind(anchors, kind) ensures i in Used(choice, placed) {
      assert BestFree(anchors, ordered[k], choice[..k], choice[k]);
      assert !Free(anchors, ordered[k], choice[..k], i);
      var j :| 0 <= j < k && choice[j] == i;
      assert BestFree(anchors, ordered[j], choice[..j], choice[j]);
      assert j in placed;
    }
  }

  lemma {:induction false} GreedyPlacesMost(anchors: seq<WorldAnchor>, ordered: seq<Request>, choice: seq<int>, kind: AnchorKind)
    requires Greedy(anchors, ordered, choice)
    ensures var a, q := |AnchorsOfKind(anchors, kind)|, |RequestsOfKind(ordered, kind)|;
            |PlacedOfKind(ordered, choice, kind)| == if q <= a then q else a
  {
    var placed, all, ofKind := PlacedOfKind(ordered, choice, kind), RequestsOfKind(ordered, kind), AnchorsOfKind(anchors, kind);
    PlacedApart(anchors, ordered, choice, placed);
    UsedAreOfKind(anchors, ordered, choice, kind);
    SubsetSize(Used(choice, placed), ofKind);
    SubsetSize(placed, all);
    if k :| k in all && k !in placed {
      AllUsed(anchors, ordered, choice, k);
      assert Used(choice, placed) == ofKind;
    } else {
      assert placed == all;
    }
  }

  /** The placements of a kind that got an anchor. */
  function Seated(r: seq<Placement>, kind: AnchorKind): set<int> {
    set k | 0 <= k < |r| && r[k].affordance == kind && r[k].anchor.Some?
  }

  lemma {:induction false} SeatedArePlaced(anchors: seq<WorldAnchor>, ordered: seq<Request>, choice: seq<int>,
                                           r: seq<Placement>, kind: AnchorKind)
    requires Placed(anchors, ordered, choice, r)
    ensures Seated(r, kind) == PlacedOfKind(ordered, choice, kind)
  {
    forall k ensures k in Seated(r, kind) <==> k in PlacedOfKind(ordered, choice, kind) {
      if 0 <= k < |r| { assert r[k] == Chosen(anchors, ordered[k], choice[k]); }
    }
  }

  /** Exactly min(requests, anchors) actors of each kind are placed. */
  lemma {:induction false} PlacesAsManyAsPossible(layout: Layout, prefabs: seq<Prefab>, requests: seq<Request>,
                                                  r: seq<Placement>, kind: AnchorKind)
    requires IsReservation(layout, prefabs, requests, r)
    ensures var a, q := |AnchorsOfKind(WorldAnchors(layout, prefabs), kind)|, |RequestsOfKind(requests, kind)|;
            |Seated(r, kind)| == if q <= a then q else a
  {
    var anchors, ordered := WorldAnchors(layout, prefabs), Sort(RequestLess, requests);
    var choice :| Greedy(anchors, ordered, choice) && Placed(anchors, ordered, choice, r);
    GreedyPlacesMost(anchors, ordered, choice, kind);
    SeatedArePlaced(anchors, ordered, choice, r, kind);
    SameNumberOfKind(requests, ordered, kind);
  }

  function KindOf(q: Request): AnchorKind { q.affordance }

  lemma {:induction false} OneMoreOfKind(s: seq<Request>, q: Request, kind: AnchorKind)
    ensures RequestsOfKind(s + [q], kind) == RequestsOfKind(s, kind) + if q.affordance == kind then {|s|} else {}
    ensures |s| !in RequestsOfKind(s, kind)
  {
  }

  lemma {:induction false} NumberOfKind(requests: seq<Request>, kind: AnchorKind)
    ensures |RequestsOfKind(requests, kind)| == multiset(Map(KindOf, requests))[kind]
  {
    if requests == [] {
    } else {
      var front, last := requests[..|requests| - 1], requests[|requests| - 1];
      assert requests == front + [last];
      NumberOfKind(front, kind);
      OneMoreOfKind(front, last, kind);
      assert Map(KindOf, requests) == Map(KindOf, front) + [KindOf(last)];
    }
  }

  lemma {:induction false} SameNumberOfKind(s: seq<Request>, t: seq<Request>, kind: AnchorKind)
    requires multiset(s) == multiset(t)
    ensures |RequestsOfKind(s, kind)| == |RequestsOfKind(t, kind)|
  {
    NumberOfKind(s, kind);
    NumberOfKind(t, kind);
    MapPermute(KindOf, s, t);
  }

  /** Where an anchor stands in the list, and which placements have it. */
  function StandsAt(anchors: seq<WorldAnchor>, a: WorldAnchor): set<int> {
    set i | 0 <= i < |anchors| && anchors[i] == a
  }

  function HeldBy(r: seq<Placement>, a: WorldAnchor): set<int> {
    set k | 0 <= k < |r| && r[k].anchor == Some(a)
  }

  /** No anchor is given out more often than it stands in the world: once, unless a prefab is listed twice. */
  lemma {:induction false} NoDoubleBooking(layout: Layout, prefabs: seq<Prefab>, requests: seq<Request>, r: seq<Placement>, a: WorldAnchor)
    requires IsReservation(layout, prefabs, requests, r)
    ensures |HeldBy(r, a)| <= |StandsAt(WorldAnchors(layout, prefabs), a)|
  {
    var anchors, ordered := WorldAnchors(layout, prefabs), Sort(RequestLess, requests);
    var choice :| Greedy(anchors, ordered, choice) && Placed(anchors, ordered, choice, r);
    var held := HeldBy(r, a);
    PlacedApart(anchors, ordered, choice, held);
    forall i | i in Used(choice, held) ensures i in StandsAt(anchors, a) {
      var k :| k in held && choice[k] == i;
      assert r[k] == Chosen(anchors, ordered[k], choice[k]);
    }
    SubsetSize(Used(choice, held), StandsAt(anchors, a));
  }

  lemma {:induction false} GreedyUnique(anchors: seq<WorldAnchor>, ordered: seq<Request>, c: seq<int>, d: seq<int>)
    requires Greedy(anchors, ordered, c) && Greedy(anchors, ordered, d)
    ensures c == d
  {
    if ordered == [] {
    } else {
      var n := |ordered| - 1;
      assert forall k | 0 <= k < n :: c[..n][..k] == c[..k] && d[..n][..k] == d[..k];
      GreedyUnique(anchors, ordered[..n], c[..n], d[..n]);
      assert BestFree(anchors, ordered[n], c[..n], c[n]);
      assert BestFree(anchors, ordered[n], d[..n], d[n]);
      assert c[n] == d[n];
      assert c == c[..n] + [c[n]] && d == d[..n] + [d[n]];
    }
  }

  ghost predicate DistinctPrefabs(prefabs: seq<Prefab>) {
    forall p, q | p in prefabs && q in prefabs && p != q :: p.instanceId != q.instanceId
  }

  ghost predicate DistinctActors(requests: seq<Request>) {
    forall p, q | p in requests && q in requests && p != q :: p.actorId != q.actorId
  }

  lemma {:induction false} SameAnchors(layout: Layout, prefabs: seq<Prefab>, shuffled: seq<Prefab>)
    requires multiset(prefabs) == multiset(shuffled) && DistinctPrefabs(prefabs)
    ensures WorldAnchors(layout, prefabs) == WorldAnchors(layout, shuffled)
  {
    PrefabLessWeak();
    forall p, q | p in prefabs && q in prefabs && p != q ensures PrefabLess(p, q) || PrefabLess(q, p) {
      StrTotal(p.instanceId, q.instanceId);
    }
    SortPermutation(PrefabLess, prefabs, shuffled);
  }

  lemma {:induction false} SameOrder(requests: seq<Request>, shuffled: seq<Request>)
    requires multiset(requests) == multiset(shuffled) && DistinctActors(requests)
    ensures Sort(RequestLess, requests) == Sort(RequestLess, shuffled)
  {
    RequestLessWeak();
    forall p, q | p in requests && q in requests && p != q ensures RequestLess(p, q) || RequestLess(q, p) {
      StrTotal(p.actorId, q.actorId);
    }
    SortPermutation(RequestLess, requests, shuffled);
  }

  lemma {:induction false} ReservationUnique(layout: Layout, prefabs: seq<Prefab>, requests: seq<Request>,
                                             r: seq<Placement>, s: seq<Placement>)
    requires IsReservation(layout, prefabs, requests, r) && IsReservation(layout, prefabs, requests, s)
    ensures r == s
  {
    var anchors, ordered := WorldAnchors(layout, prefabs), Sort(RequestLess, requests);
    var c :| Greedy(anchors, ordered, c) && Placed(anchors, ordered, c, r);
    var d :| Greedy(anchors, ordered, d) && Placed(anchors, ordered, d, s);
    GreedyUnique(anchors, ordered, c, d);
  }

  /** With distinct actor and instance ids neither input order can change the reservation. */
  lemma {:induction false} OrderIndependent(
      layout: Layout, prefabs: seq<Prefab>, prefabs': seq<Prefab>, requests: seq<Request>, requests': seq<Request>,
      r: seq<Placement>, r': seq<Placement>)
    requires multiset(prefabs) == multiset(prefabs') && multiset(requests) == multiset(requests')
    requires DistinctPrefabs(prefabs) && DistinctActors(requests)
    requires IsReservation(layout, prefabs, requests, r) && IsReservation(layout, prefabs', requests', r')
    ensures r == r'
  {
    SameAnchors(layout, prefabs, prefabs');
    SameOrder(requests, requests');
    ReservationUnique(layout, prefabs, requests, r, r');
  }
}
