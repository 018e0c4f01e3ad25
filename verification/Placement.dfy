// Where prefabs may stand in a zone: bounds, overlap, and the nearest free spot for
// each one in turn. Coordinates are exact; offsets that were rounded are whole hundredths.
module Placement {
  import opened Orders
  import opened Wrappers

  datatype Rotation = R0 | R90 | R180 | R270

  datatype Footprint = Footprint(offsetX: real, offsetZ: real, halfW: real, halfD: real, padding: real)

  type Catalog = string -> Footprint

  datatype Prefab = Prefab(prefabId: string, x: real, z: real, rotation: Rotation)

  /** `id` is what findPrefabPlacementOverlaps skips. */
  datatype Input = Input(id: Option<nat>, prefab: Prefab)

  datatype Bounds = Bounds(minX: real, maxX: real, minZ: real, maxZ: real)

  datatype Zone = Zone(cx: real, cz: real, w: real, d: real)

  const EPSILON := 0.000001

  // ---- Bounds and overlap ----------------------------------------------------

  /** rotateLocalXZ at the four quarter turns. */
  function Rotate(x: real, z: real, r: Rotation): (real, real) {
    match r
    case R0 => (x, z)
    case R90 => (z, -x)
    case R180 => (-x, -z)
    case R270 => (-z, x)
  }

  function BoundsOf(catalog: Catalog, p: Prefab): Bounds {
    var base := catalog(p.prefabId);
    var rotated := p.rotation == R90 || p.rotation == R270;
    var halfW := (if rotated then base.halfD else base.halfW) + base.padding;
    var halfD := (if rotated then base.halfW else base.halfD) + base.padding;
    var (dx, dz) := Rotate(base.offsetX, base.offsetZ, p.rotation);
    Bounds(p.x + dx - halfW, p.x + dx + halfW, p.z + dz - halfD, p.z + dz + halfD)
  }

  predicate Inside(b: Bounds, x: real, z: real) { b.minX <= x <= b.maxX && b.minZ <= z <= b.maxZ }

  /** The bounds are the padded local box turned with the prefab: no more and no less. */
  lemma {:induction false} BoundsAreTheTurnedBox(catalog: Catalog, p: Prefab, x: real, z: real)
    ensures var upright := Prefab(p.prefabId, 0.0, 0.0, R0);
            var (dx, dz) := Rotate(x, z, p.rotation);
            Inside(BoundsOf(catalog, upright), x, z) <==> Inside(BoundsOf(catalog, p), p.x + dx, p.z + dz)
  {
    match p.rotation
    case R0 =>
    case R90 =>
    case R180 =>
    case R270 =>
  }

  predicate Overlap(a: Bounds, b: Bounds) {
    !(a.maxX <= b.minX + EPSILON || a.minX >= b.maxX - EPSILON || a.maxZ <= b.minZ + EPSILON || a.minZ >= b.maxZ - EPSILON)
  }

  predicate FitsZone(b: Bounds, zone: Zone) {
    && b.minX >= zone.cx - zone.w / 2.0 - EPSILON && b.maxX <= zone.cx + zone.w / 2.0 + EPSILON
    && b.minZ >= zone.cz - zone.d / 2.0 - EPSILON && b.maxZ <= zone.cz + zone.d / 2.0 + EPSILON
  }

  predicate Collide(catalog: Catalog, a: Prefab, b: Prefab) { Overlap(BoundsOf(catalog, a), BoundsOf(catalog, b)) }

  lemma {:induction false} CollideSymmetric(catalog: Catalog, a: Prefab, b: Prefab)
    ensures Collide(catalog, a, b) == Collide(catalog, b, a)
  {
  }

  function Overlaps(catalog: Catalog, candidate: Input, others: seq<Input>): seq<Input> {
    if others == [] then []
    else
      var rest, o := Overlaps(catalog, candidate, others[..|others| - 1]), others[|others| - 1];
      if (candidate.id.Some? && o.id == candidate.id) || !Collide(catalog, candidate.prefab, o.prefab) then rest else rest + [o]
  }

  lemma {:induction false} OverlapsIff(catalog: Catalog, candidate: Input, others: seq<Input>)
    ensures Overlaps(catalog, candidate, others) == [] <==>
            forall o | o in others :: (candidate.id.Some? && o.id == candidate.id) || !Collide(catalog, candidate.prefab, o.prefab)
  {
    if others == [] {
    } else {
      var front, o := others[..|others| - 1], others[|others| - 1];
      OverlapsIff(catalog, candidate, front);
      assert others == front + [o];
      if forall x | x in front :: (candidate.id.Some? && x.id == candidate.id) || !Collide(catalog, candidate.prefab, x.prefab) {
      } else {
        var x :| x in front && !((candidate.id.Some? && x.id == candidate.id) || !Collide(catalog, candidate.prefab, x.prefab));
        assert x in others;
      }
    }
  }

  datatype Verdict = Valid | NoZone | OutsideZone | OverlapsOthers(others: seq<Input>)

  /** evaluatePrefabPlacement */
  function Evaluate(catalog: Catalog, candidate: Input, zone: Option<Zone>, obstacles: seq<Input>): Verdict {
    if zone.None? then NoZone
    else if !FitsZone(BoundsOf(catalog, candidate.prefab), zone.value) then OutsideZone
    else if Overlaps(catalog, candidate, obstacles) != [] then OverlapsOthers(Overlaps(catalog, candidate, obstacles))
    else Valid
  }

  /** The placements numbered by their position, as the resolver compares them. */
  function Numbered(prefabs: seq<Prefab>): seq<Input> {
    seq(|prefabs|, (i: nat) requires i < |prefabs| => Input(Some(i), prefabs[i]))
  }

  function FitsAt(catalog: Catalog, p: Prefab, index: nat, accepted: seq<Prefab>, zone: Option<Zone>): bool {
    && (zone.Some? ==> FitsZone(BoundsOf(catalog, p), zone.value))
    && Overlaps(catalog, Input(Some(index), p), Numbered(accepted)) == []
  }

  /** At the next free index no accepted placement has the candidate's id, so none is skipped. */
  lemma {:induction false} FitsAtNext(catalog: Catalog, p: Prefab, accepted: seq<Prefab>, zone: Option<Zone>)
    ensures FitsAt(catalog, p, |accepted|, accepted, zone) <==>
            (zone.Some? ==> FitsZone(BoundsOf(catalog, p), zone.value)) && forall q | q in accepted :: !Collide(catalog, p, q)
  {
    var me, others := Input(Some(|accepted|), p), Numbered(accepted);
    OverlapsIff(catalog, me, others);
    if forall q | q in accepted :: !Collide(catalog, p, q) {
      forall o | o in others ensures (me.id.Some? && o.id == me.id) || !Collide(catalog, p, o.prefab) {
        assert o.prefab in accepted;
      }
    } else {
      var i :| 0 <= i < |accepted| && Collide(catalog, p, accepted[i]);
      assert others[i] == Input(Some(i), accepted[i]) && others[i] in others;
    }
  }

  // ---- Candidates --------------------------------------------------------------

  /** A rounded offset, in hundredths. */
  datatype Point = Point(x: int, z: int)

  /** toFixed(2): to the nearest hundredth, halves away from zero. */
  function Hundredths(v: real): int {
    if v < 0.0 then -((-v * 100.0 + 0.5).Floor) else (v * 100.0 + 0.5).Floor
  }

  function Rounded(x: real, z: real): Point { Point(Hundredths(x), Hundredths(z)) }

  function Moved(p: Prefab, at: Point): Prefab { p.(x := at.x as real / 100.0, z := at.z as real / 100.0) }

  lemma {:induction false} HundredthsExact(n: int)
    ensures Hundredths(n as real / 100.0) == n
  {
    var v := n as real / 100.0;
    assert v * 100.0 == n as real && -v * 100.0 == -(n as real);
    if n < 0 {
      assert -v * 100.0 + 0.5 == (-n) as real + 0.5;
      assert ((-n) as real + 0.5).Floor == -n;
    } else {
      assert (n as real + 0.5).Floor == n;
    }
  }

  function Ring(p: Prefab, ring: nat): seq<Point> {
    var d := ring as real * 0.5;
    [Rounded(p.x + d, p.z), Rounded(p.x - d, p.z), Rounded(p.x, p.z + d), Rounded(p.x, p.z - d),
     Rounded(p.x + d, p.z + d), Rounded(p.x + d, p.z - d), Rounded(p.x - d, p.z + d), Rounded(p.x - d, p.z - d),
     Rounded(p.x + d * 2.0, p.z), Rounded(p.x - d * 2.0, p.z), Rounded(p.x, p.z + d * 2.0), Rounded(p.x, p.z - d * 2.0)]
  }

  const RINGS := 12

  function Rings(p: Prefab, n: nat): seq<Point> {
    if n == 0 then [] else Rings(p, n - 1) + Ring(p, n)
  }

  function Column(x: real, z: real, maxZ: real): seq<Point>
    decreases 2.0 * (maxZ + EPSILON - z)
  {
    if z <= maxZ + EPSILON then [Rounded(x, z)] + Column(x, z + 0.5, maxZ) else []
  }

  function Grid(x: real, maxX: real, minZ: real, maxZ: real): seq<Point>
    decreases 2.0 * (maxX + EPSILON - x)
  {
    if x <= maxX + EPSILON then Column(x, minZ, maxZ) + Grid(x + 0.5, maxX, minZ, maxZ) else []
  }

  function ZoneGrid(zone: Option<Zone>): seq<Point> {
    if zone.None? then []
    else Grid(-zone.value.w / 2.0, zone.value.w / 2.0, -zone.value.d / 2.0, zone.value.d / 2.0)
  }

  /** Every point the code adds, in its order. */
  function Offered(p: Prefab, zone: Option<Zone>): seq<Point> {
    [Rounded(p.x, p.z)] + Rings(p, RINGS) + ZoneGrid(zone)
  }

  /** A Map keyed by the rounded coordinates keeps one entry per point. */
  function Added(points: seq<Point>, p: Point): seq<Point> {
    if p in points then points else points + [p]
  }

  function AddedAll(points: seq<Point>, more: seq<Point>): seq<Point> {
    if more == [] then points else Added(AddedAll(points, more[..|more| - 1]), more[|more| - 1])
  }

  function Distance(p: Prefab, at: Point): real {
    (at.x as real / 100.0 - p.x) * (at.x as real / 100.0 - p.x) + (at.z as real / 100.0 - p.z) * (at.z as real / 100.0 - p.z)
  }

  /** Squared distance orders as hypot does. */
  function Key(p: Prefab, at: Point): (real, int, int) { (Distance(p, at), at.z, at.x) }

  predicate KeyLess(a: (real, int, int), b: (real, int, int)) {
    a.0 < b.0 || (a.0 == b.0 && (a.1 < b.1 || (a.1 == b.1 && a.2 < b.2)))
  }

  function Nearer(p: Prefab): (Point, Point) -> bool { (a: Point, b: Point) => KeyLess(Key(p, a), Key(p, b)) }

  function Candidates(p: Prefab, zone: Option<Zone>): seq<Point> {
    Sort(Nearer(p), AddedAll([], Offered(p, zone)))
  }

  lemma {:induction false} NearerOrders(p: Prefab)
    ensures StrictWeak(Nearer(p))
    ensures forall a, b :: a != b ==> Nearer(p)(a, b) || Nearer(p)(b, a)
  {
    KeyedWeak(KeyLess, (a: Point) => Key(p, a), Nearer(p));
  }

  lemma {:induction false} AddedAllMembers(points: seq<Point>, more: seq<Point>)
    ensures forall x :: x in AddedAll(points, more) <==> x in points || x in more
  {
    if more == [] {
    } else {
      AddedAllMembers(points, more[..|more| - 1]);
      assert more == more[..|more| - 1] + [more[|more| - 1]];
    }
  }

  lemma {:induction false} CandidateMembers(p: Prefab, zone: Option<Zone>)
    ensures forall x :: x in Candidates(p, zone) <==> x in Offered(p, zone)
  {
    AddedAllMembers([], Offered(p, zone));
    SameElements(Candidates(p, zone), AddedAll([], Offered(p, zone)));
  }

  // ---- The resolver ---------------------------------------------------------------

  /** offsetPlacementFits for one zone and catalog. */
  type Fit = (Prefab, nat, seq<Prefab>) -> bool

  function FirstFit(fit: Fit, p: Prefab, index: nat, points: seq<Point>, accepted: seq<Prefab>): (r: Option<Point>)
    ensures r.Some? ==> r.value in points && fit(Moved(p, r.value), index, accepted)
    ensures r.None? ==> forall x | x in points :: !fit(Moved(p, x), index, accepted)
  {
    if points == [] then None
    else if fit(Moved(p, points[0]), index, accepted) then Some(points[0])
    else FirstFit(fit, p, index, points[1..], accepted)
  }

  function ResolveWith(fit: Fit, offers: Prefab -> seq<Point>, prefabs: seq<Prefab>): Option<seq<Prefab>> {
    if prefabs == [] then Some([])
    else
      var index := |prefabs| - 1;
      match ResolveWith(fit, offers, prefabs[..index])
      case None => None
      case Some(accepted) =>
        match FirstFit(fit, prefabs[index], index, offers(prefabs[index]), accepted)
        case None => None
        case Some(at) => Some(accepted + [Moved(prefabs[index], at)])
  }

  function Local(zone: Option<Zone>): Option<Zone> {
    if zone.None? then None else Some(Zone(0.0, 0.0, zone.value.w, zone.value.d))
  }

  function FitIn(catalog: Catalog, zone: Option<Zone>): Fit {
    (p: Prefab, index: nat, accepted: seq<Prefab>) => FitsAt(catalog, p, index, accepted, zone)
  }

  function OffersIn(zone: Option<Zone>): Prefab -> seq<Point> { (p: Prefab) => Candidates(p, zone) }

  /** None is the thrown error. */
  function Resolve(catalog: Catalog, prefabs: seq<Prefab>, zone: Option<Zone>): Option<seq<Prefab>> {
    ResolveWith(FitIn(catalog, Local(zone)), OffersIn(Local(zone)), prefabs)
  }

  lemma {:induction false} ResolveSnoc(fit: Fit, offers: Prefab -> seq<Point>, front: seq<Prefab>, p: Prefab)
    ensures ResolveWith(fit, offers, front + [p]) ==
            match ResolveWith(fit, offers, front)
            case None => None
            case Some(accepted) =>
              match FirstFit(fit, p, |front|, offers(p), accepted)
              case None => None
              case Some(at) => Some(accepted + [Moved(p, at)])
  {
    assert (front + [p])[..|front|] == front;
  }

  lemma {:induction false} ResolveLength(fit: Fit, offers: Prefab -> seq<Point>, prefabs: seq<Prefab>)
    requires ResolveWith(fit, offers, prefabs).Some?
    ensures |ResolveWith(fit, offers, prefabs).value| == |prefabs|
  {
    if prefabs == [] {
    } else {
      ResolveLength(fit, offers, prefabs[..|prefabs| - 1]);
    }
  }

  lemma {:induction false} ResolvePrefix(fit: Fit, offers: Prefab -> seq<Point>, prefabs: seq<Prefab>, k: nat)
    requires ResolveWith(fit, offers, prefabs).Some? && k <= |prefabs|
    ensures |ResolveWith(fit, offers, prefabs).value| == |prefabs|
    ensures ResolveWith(fit, offers, prefabs[..k]) == Some(ResolveWith(fit, offers, prefabs).value[..k])
  {
    ResolveLength(fit, offers, prefabs);
    if k < |prefabs| {
      var front := prefabs[..|prefabs| - 1];
      ResolveLength(fit, offers, front);
      ResolvePrefix(fit, offers, front, k);
      assert front[..k] == prefabs[..k];
      var out, outFront := ResolveWith(fit, offers, prefabs).value, ResolveWith(fit, offers, front).value;
      assert out == outFront + [out[|front|]];
      assert out[..k] == outFront[..k];
    } else {
      var out := ResolveWith(fit, offers, prefabs).value;
      assert prefabs[..k] == prefabs && out[..k] == out;
    }
  }

  lemma {:induction false} FailureSticks(fit: Fit, offers: Prefab -> seq<Point>, prefabs: seq<Prefab>, k: nat)
    requires k <= |prefabs| && ResolveWith(fit, offers, prefabs[..k]).None?
    ensures ResolveWith(fit, offers, prefabs).None?
    decreases |prefabs|
  {
    if k < |prefabs| {
      var front := prefabs[..|prefabs| - 1];
      assert front[..k] == prefabs[..k];
      FailureSticks(fit, offers, front, k);
    } else {
      assert prefabs[..k] == prefabs;
    }
  }

  /** The first prefab that no offered point can hold. */
  lemma {:induction false} FailureHasAFirst(fit: Fit, offers: Prefab -> seq<Point>, prefabs: seq<Prefab>) returns (k: nat)
    requires ResolveWith(fit, offers, prefabs).None?
    ensures k < |prefabs| && ResolveWith(fit, offers, prefabs[..k]).Some?
    ensures FirstFit(fit, prefabs[k], k, offers(prefabs[k]), ResolveWith(fit, offers, prefabs[..k]).value).None?
    decreases |prefabs|
  {
    var index := |prefabs| - 1;
    var front := prefabs[..index];
    if ResolveWith(fit, offers, front).None? {
      k := FailureHasAFirst(fit, offers, front);
      assert front[..k] == prefabs[..k];
    } else {
      k := index;
    }
  }

  // ---- A clear layout ---------------------------------------------------------------

  /** A layout whose prefabs are in the zone and do not collide. */
  ghost predicate Clear(catalog: Catalog, prefabs: seq<Prefab>, zone: Option<Zone>) {
    && (forall i | 0 <= i < |prefabs| && zone.Some? :: FitsZone(BoundsOf(catalog, prefabs[i]), zone.value))
    && forall i, j | 0 <= i < j < |prefabs| :: !Collide(catalog, prefabs[i], prefabs[j])
  }

  lemma {:induction false} ClearSnoc(catalog: Catalog, accepted: seq<Prefab>, p: Prefab, zone: Option<Zone>)
    requires Clear(catalog, accepted, zone) && FitsAt(catalog, p, |accepted|, accepted, zone)
    ensures Clear(catalog, accepted + [p], zone)
  {
    FitsAtNext(catalog, p, accepted, zone);
    forall i | 0 <= i < |accepted| ensures !Collide(catalog, accepted[i], p) {
      CollideSymmetric(catalog, p, accepted[i]);
    }
  }

  predicate SamePrefab(a: Prefab, b: Prefab) { a.prefabId == b.prefabId && a.rotation == b.rotation }

  lemma {:induction false} ClearWith(catalog: Catalog, zone: Option<Zone>, offers: Prefab -> seq<Point>, prefabs: seq<Prefab>)
    requires ResolveWith(FitIn(catalog, zone), offers, prefabs).Some?
    ensures var out := ResolveWith(FitIn(catalog, zone), offers, prefabs).value;
            && |out| == |prefabs|
            && (forall i | 0 <= i < |prefabs| :: SamePrefab(out[i], prefabs[i]))
            && Clear(catalog, out, zone)
  {
    if prefabs == [] {
    } else {
      var fit, index := FitIn(catalog, zone), |prefabs| - 1;
      var accepted := ResolveWith(fit, offers, prefabs[..index]).value;
      var at := FirstFit(fit, prefabs[index], index, offers(prefabs[index]), accepted).value;
      ClearWith(catalog, zone, offers, prefabs[..index]);
      ClearSnoc(catalog, accepted, Moved(prefabs[index], at), zone);
    }
  }

  /** Same prefabs in the same order, each inside the zone, no two colliding. */
  lemma {:induction false} ResolvedIsClear(catalog: Catalog, prefabs: seq<Prefab>, zone: Option<Zone>)
    requires Resolve(catalog, prefabs, zone).Some?
    ensures var out := Resolve(catalog, prefabs, zone).value;
            && |out| == |prefabs|
            && (forall i | 0 <= i < |prefabs| :: SamePrefab(out[i], prefabs[i]))
            && Clear(catalog, out, Local(zone))
  {
    ClearWith(catalog, Local(zone), OffersIn(Local(zone)), prefabs);
  }

  // ---- Nearest, fixed points, failure -------------------------------------------------

  ghost predicate InOrder(p: Prefab, points: seq<Point>) {
    && Sorted(Nearer(p), points)
    && StrictWeak(Nearer(p))
    && forall a, b :: a != b ==> Nearer(p)(a, b) || Nearer(p)(b, a)
  }

  lemma {:induction false} CandidatesInOrder(p: Prefab, zone: Option<Zone>)
    ensures InOrder(p, Candidates(p, zone))
  {
    NearerOrders(p);
    SortSorted(Nearer(p), AddedAll([], Offered(p, zone)));
  }

  /** `at` fits, and is strictly nearer (ties by z, then x) than every other point that fits. */
  ghost predicate NearestFit(fit: Fit, p: Prefab, at: Point, index: nat, points: seq<Point>, accepted: seq<Prefab>) {
    && at in points && fit(Moved(p, at), index, accepted)
    && forall x | x in points && x != at && fit(Moved(p, x), index, accepted) :: Nearer(p)(at, x)
  }

  lemma {:induction false} FirstFitIsFirst(fit: Fit, p: Prefab, index: nat, points: seq<Point>, accepted: seq<Prefab>)
    returns (k: nat)
    requires FirstFit(fit, p, index, points, accepted).Some?
    ensures k < |points| && FirstFit(fit, p, index, points, accepted) == Some(points[k])
    ensures forall j | 0 <= j < k :: !fit(Moved(p, points[j]), index, accepted)
  {
    if fit(Moved(p, points[0]), index, accepted) {
      k := 0;
    } else {
      var rest := FirstFitIsFirst(fit, p, index, points[1..], accepted);
      k := rest + 1;
      forall j | 0 <= j < k ensures !fit(Moved(p, points[j]), index, accepted) {
        if j > 0 { assert points[j] == points[1..][j - 1]; }
      }
    }
  }

  lemma {:induction false} FirstFitIsNearest(fit: Fit, p: Prefab, index: nat, points: seq<Point>, accepted: seq<Prefab>)
    requires InOrder(p, points) && FirstFit(fit, p, index, points, accepted).Some?
    ensures NearestFit(fit, p, FirstFit(fit, p, index, points, accepted).value, index, points, accepted)
  {
    var k := FirstFitIsFirst(fit, p, index, points, accepted);
    var at := points[k];
    forall x | x in points && x != at && fit(Moved(p, x), index, accepted) ensures Nearer(p)(at, x) {
      var j :| 0 <= j < |points| && points[j] == x;
      assert j > k;
      assert !Nearer(p)(points[j], points[k]);
    }
  }

  lemma {:induction false} NearestIsUnique(fit: Fit, p: Prefab, a: Point, b: Point, index: nat, points: seq<Point>, accepted: seq<Prefab>)
    requires InOrder(p, points)
    requires NearestFit(fit, p, a, index, points, accepted) && NearestFit(fit, p, b, index, points, accepted)
    ensures a == b
  {
    assert Nearer(p)(a, b) ==> !Nearer(p)(b, a);
  }

  /** Prefab `i` is put at the first of its points that fits beside the ones before it. */
  lemma {:induction false} PutAtFirstFit(fit: Fit, offers: Prefab -> seq<Point>, prefabs: seq<Prefab>, i: nat)
    requires ResolveWith(fit, offers, prefabs).Some? && i < |prefabs|
    ensures |ResolveWith(fit, offers, prefabs).value| == |prefabs|
    ensures var out := ResolveWith(fit, offers, prefabs).value;
            var first := FirstFit(fit, prefabs[i], i, offers(prefabs[i]), out[..i]);
            first.Some? && out[i] == Moved(prefabs[i], first.value)
  {
    var out := ResolveWith(fit, offers, prefabs).value;
    ResolvePrefix(fit, offers, prefabs, i);
    ResolvePrefix(fit, offers, prefabs, i + 1);
    assert prefabs[..i + 1] == prefabs[..i] + [prefabs[i]];
    ResolveSnoc(fit, offers, prefabs[..i], prefabs[i]);
    assert out[..i + 1][i] == out[i];
  }

  lemma {:induction false} NearestWith(fit: Fit, offers: Prefab -> seq<Point>, prefabs: seq<Prefab>, i: nat)
    requires ResolveWith(fit, offers, prefabs).Some? && i < |prefabs| && InOrder(prefabs[i], offers(prefabs[i]))
    ensures |ResolveWith(fit, offers, prefabs).value| == |prefabs|
    ensures var out := ResolveWith(fit, offers, prefabs).value;
            exists at :: out[i] == Moved(prefabs[i], at) && NearestFit(fit, prefabs[i], at, i, offers(prefabs[i]), out[..i])
  {
    var out := ResolveWith(fit, offers, prefabs).value;
    PutAtFirstFit(fit, offers, prefabs, i);
    FirstFitIsNearest(fit, prefabs[i], i, offers(prefabs[i]), out[..i]);
  }

  /** Each prefab goes to the nearest spot left by the ones before it. */
  lemma {:induction false} EachAtTheNearest(catalog: Catalog, prefabs: seq<Prefab>, zone: Option<Zone>, i: nat)
    requires Resolve(catalog, prefabs, zone).Some? && i < |prefabs|
    ensures |Resolve(catalog, prefabs, zone).value| == |prefabs|
    ensures var out, p := Resolve(catalog, prefabs, zone).value, prefabs[i];
            exists at :: out[i] == Moved(p, at) && NearestFit(FitIn(catalog, Local(zone)), p, at, i, Candidates(p, Local(zone)), out[..i])
    ensures forall x :: x in Candidates(prefabs[i], Local(zone)) <==> x in Offered(prefabs[i], Local(zone))
  {
    CandidatesInOrder(prefabs[i], Local(zone));
    CandidateMembers(prefabs[i], Local(zone));
    NearestWith(FitIn(catalog, Local(zone)), OffersIn(Local(zone)), prefabs, i);
  }

  predicate OnHundredths(p: Prefab) { p == Moved(p, Rounded(p.x, p.z)) }

  lemma {:induction false} MovedIsOnHundredths(p: Prefab, at: Point)
    ensures OnHundredths(Moved(p, at)) && Rounded(Moved(p, at).x, Moved(p, at).z) == at
  {
    HundredthsExact(at.x);
    HundredthsExact(at.z);
  }

  lemma {:induction false} Square(a: real)
    ensures a * a >= 0.0
    ensures a != 0.0 ==> a * a > 0.0
  {
    if a < 0.0 { assert a * a == (-a) * (-a); }
  }

  /** A prefab that already stands on a hundredth is its own nearest candidate. */
  lemma {:induction false} OwnSpotIsNearest(p: Prefab, x: Point)
    requires OnHundredths(p) && x != Rounded(p.x, p.z)
    ensures Nearer(p)(Rounded(p.x, p.z), x)
  {
    var at := Rounded(p.x, p.z);
    assert Distance(p, at) == 0.0;
    Square(x.x as real / 100.0 - p.x);
    Square(x.z as real / 100.0 - p.z);
    if Distance(p, x) == 0.0 {
      HundredthsExact(x.x);
      HundredthsExact(x.z);
    }
  }

  /** What the own spot must offer for a prefab not to move. */
  ghost predicate OwnSpotFirst(p: Prefab, points: seq<Point>) {
    && InOrder(p, points) && Rounded(p.x, p.z) in points
    && forall x | x in points && x != Rounded(p.x, p.z) :: Nearer(p)(Rounded(p.x, p.z), x)
  }

  lemma {:induction false} CandidatesOwnSpotFirst(p: Prefab, zone: Option<Zone>)
    requires OnHundredths(p)
    ensures OwnSpotFirst(p, Candidates(p, zone))
  {
    var points := Candidates(p, zone);
    CandidatesInOrder(p, zone);
    CandidateMembers(p, zone);
    assert Rounded(p.x, p.z) in Offered(p, zone);
    forall x | x in points && x != Rounded(p.x, p.z) ensures Nearer(p)(Rounded(p.x, p.z), x) {
      OwnSpotIsNearest(p, x);
    }
  }

  lemma {:induction false} FirstFitStays(fit: Fit, p: Prefab, index: nat, points: seq<Point>, accepted: seq<Prefab>)
    requires OnHundredths(p) && OwnSpotFirst(p, points) && fit(p, index, accepted)
    ensures FirstFit(fit, p, index, points, accepted) == Some(Rounded(p.x, p.z))
  {
    var at := Rounded(p.x, p.z);
    assert Moved(p, at) == p;
    FirstFitIsNearest(fit, p, index, points, accepted);
    NearestIsUnique(fit, p, at, FirstFit(fit, p, index, points, accepted).value, index, points, accepted);
  }

  lemma {:induction false} LastFits(catalog: Catalog, prefabs: seq<Prefab>, zone: Option<Zone>)
    requires prefabs != [] && Clear(catalog, prefabs, zone)
    ensures var n := |prefabs| - 1;
            Clear(catalog, prefabs[..n], zone) && FitsAt(catalog, prefabs[n], n, prefabs[..n], zone)
  {
    var n := |prefabs| - 1;
    forall q | q in prefabs[..n] ensures !Collide(catalog, prefabs[n], q) {
      var i :| 0 <= i < n && prefabs[..n][i] == q;
      CollideSymmetric(catalog, prefabs[i], prefabs[n]);
    }
    FitsAtNext(catalog, prefabs[n], prefabs[..n], zone);
  }

  lemma {:induction false} KeptWith(catalog: Catalog, zone: Option<Zone>, offers: Prefab -> seq<Point>, prefabs: seq<Prefab>)
    requires Clear(catalog, prefabs, zone)
    requires forall p | p in prefabs :: OnHundredths(p) && OwnSpotFirst(p, offers(p))
    ensures ResolveWith(FitIn(catalog, zone), offers, prefabs) == Some(prefabs)
  {
    if prefabs == [] {
    } else {
      var n := |prefabs| - 1;
      LastFits(catalog, prefabs, zone);
      assert prefabs == prefabs[..n] + [prefabs[n]];
      assert prefabs[n] in prefabs && forall q | q in prefabs[..n] :: q in prefabs;
      KeptWith(catalog, zone, offers, prefabs[..n]);
      FirstFitStays(FitIn(catalog, zone), prefabs[n], n, offers(prefabs[n]), prefabs[..n]);
    }
  }

  lemma {:induction false} ClearIsKept(catalog: Catalog, prefabs: seq<Prefab>, zone: Option<Zone>)
    requires Clear(catalog, prefabs, Local(zone)) && forall p | p in prefabs :: OnHundredths(p)
    ensures Resolve(catalog, prefabs, zone) == Some(prefabs)
  {
    forall p | p in prefabs ensures OwnSpotFirst(p, OffersIn(Local(zone))(p)) {
      CandidatesOwnSpotFirst(p, Local(zone));
    }
    KeptWith(catalog, Local(zone), OffersIn(Local(zone)), prefabs);
  }

  lemma {:induction false} OutputOnHundredths(catalog: Catalog, prefabs: seq<Prefab>, zone: Option<Zone>, p: Prefab)
    requires Resolve(catalog, prefabs, zone).Some? && p in Resolve(catalog, prefabs, zone).value
    ensures OnHundredths(p)
  {
    var out := Resolve(catalog, prefabs, zone).value;
    ResolveLength(FitIn(catalog, Local(zone)), OffersIn(Local(zone)), prefabs);
    var i :| 0 <= i < |out| && out[i] == p;
    EachAtTheNearest(catalog, prefabs, zone, i);
    var at :| out[i] == Moved(prefabs[i], at);
    MovedIsOnHundredths(prefabs[i], at);
  }

  /** The resolver leaves a layout alone exactly when it is clear and already rounded. */
  lemma {:induction false} UnchangedIffClear(catalog: Catalog, prefabs: seq<Prefab>, zone: Option<Zone>)
    ensures Resolve(catalog, prefabs, zone) == Some(prefabs) <==>
            Clear(catalog, prefabs, Local(zone)) && forall p | p in prefabs :: OnHundredths(p)
  {
    if Resolve(catalog, prefabs, zone) == Some(prefabs) {
      ResolvedIsClear(catalog, prefabs, zone);
      forall p | p in prefabs ensures OnHundredths(p) {
        OutputOnHundredths(catalog, prefabs, zone, p);
      }
    }
    if Clear(catalog, prefabs, Local(zone)) && forall p | p in prefabs :: OnHundredths(p) {
      ClearIsKept(catalog, prefabs, zone);
    }
  }

  /** Resolving its own output again changes nothing. */
  lemma {:induction false} ResolveIdempotent(catalog: Catalog, prefabs: seq<Prefab>, zone: Option<Zone>)
    requires Resolve(catalog, prefabs, zone).Some?
    ensures Resolve(catalog, Resolve(catalog, prefabs, zone).value, zone) == Resolve(catalog, prefabs, zone)
  {
    var out := Resolve(catalog, prefabs, zone).value;
    ResolvedIsClear(catalog, prefabs, zone);
    forall p | p in out ensures OnHundredths(p) {
      OutputOnHundredths(catalog, prefabs, zone, p);
    }
    ClearIsKept(catalog, out, zone);
  }

  lemma {:induction false} ValidMeans(catalog: Catalog, prefabs: seq<Prefab>, zone: Zone, i: nat)
    requires i < |prefabs|
    ensures Evaluate(catalog, Input(Some(i), prefabs[i]), Some(zone), Numbered(prefabs)) == Valid <==>
            FitsZone(BoundsOf(catalog, prefabs[i]), zone)
            && forall j | 0 <= j < |prefabs| && j != i :: !Collide(catalog, prefabs[i], prefabs[j])
  {
    var me, all := Input(Some(i), prefabs[i]), Numbered(prefabs);
    OverlapsIff(catalog, me, all);
    if Overlaps(catalog, me, all) == [] {
      forall j | 0 <= j < |prefabs| && j != i ensures !Collide(catalog, prefabs[i], prefabs[j]) {
        assert all[j] in all && all[j] == Input(Some(j), prefabs[j]);
      }
    } else {
      var o :| o in all && !(o.id == me.id) && Collide(catalog, prefabs[i], o.prefab);
      var j :| 0 <= j < |all| && all[j] == o;
      assert Collide(catalog, prefabs[i], prefabs[j]);
    }
  }

  /** The live preview agrees: a layout is clear exactly when every prefab is valid among the others. */
  lemma {:induction false} ClearIffAllValid(catalog: Catalog, prefabs: seq<Prefab>, zone: Zone)
    ensures Clear(catalog, prefabs, Some(zone)) <==>
            forall i | 0 <= i < |prefabs| :: Evaluate(catalog, Input(Some(i), prefabs[i]), Some(zone), Numbered(prefabs)) == Valid
  {
    forall i | 0 <= i < |prefabs|
      ensures Evaluate(catalog, Input(Some(i), prefabs[i]), Some(zone), Numbered(prefabs)) == Valid <==>
              FitsZone(BoundsOf(catalog, prefabs[i]), zone)
              && forall j | 0 <= j < |prefabs| && j != i :: !Collide(catalog, prefabs[i], prefabs[j])
    {
      ValidMeans(catalog, prefabs, zone, i);
    }
    forall i, j | 0 <= i < |prefabs| && 0 <= j < |prefabs| ensures Collide(catalog, prefabs[i], prefabs[j]) == Collide(catalog, prefabs[j], prefabs[i]) {
      CollideSymmetric(catalog, prefabs[i], prefabs[j]);
    }
  }

  // ---- When it throws ---------------------------------------------------------------

  function GridPoint(zone: Zone, i: nat, j: nat): Point {
    Rounded(-zone.w / 2.0 + i as real * 0.5, -zone.d / 2.0 + j as real * 0.5)
  }

  predicate InGrid(zone: Zone, i: nat, j: nat) {
    -zone.w / 2.0 + i as real * 0.5 <= zone.w / 2.0 + EPSILON && -zone.d / 2.0 + j as real * 0.5 <= zone.d / 2.0 + EPSILON
  }

  lemma {:induction false} ColumnHas(x: real, z: real, maxZ: real, j: nat)
    requires z + j as real * 0.5 <= maxZ + EPSILON
    ensures Rounded(x, z + j as real * 0.5) in Column(x, z, maxZ)
    decreases j
  {
    if j > 0 {
      ColumnHas(x, z + 0.5, maxZ, j - 1);
      assert z + 0.5 + (j - 1) as real * 0.5 == z + j as real * 0.5;
    }
  }

  lemma {:induction false} GridHas(x: real, maxX: real, minZ: real, maxZ: real, i: nat, j: nat)
    requires x + i as real * 0.5 <= maxX + EPSILON && minZ + j as real * 0.5 <= maxZ + EPSILON
    ensures Rounded(x + i as real * 0.5, minZ + j as real * 0.5) in Grid(x, maxX, minZ, maxZ)
    decreases i
  {
    if i > 0 {
      GridHas(x + 0.5, maxX, minZ, maxZ, i - 1, j);
      assert x + 0.5 + (i - 1) as real * 0.5 == x + i as real * 0.5;
    } else {
      ColumnHas(x, minZ, maxZ, j);
    }
  }

  lemma {:induction false} GridIsOffered(p: Prefab, zone: Zone, i: nat, j: nat)
    requires InGrid(zone, i, j)
    ensures GridPoint(zone, i, j) in Candidates(p, Local(Some(zone)))
  {
    var local := Local(Some(zone));
    GridHas(-zone.w / 2.0, zone.w / 2.0, -zone.d / 2.0, zone.d / 2.0, i, j);
    assert GridPoint(zone, i, j) in ZoneGrid(local);
    assert GridPoint(zone, i, j) in Offered(p, local);
    CandidateMembers(p, local);
  }

  ghost predicate NoRoom(catalog: Catalog, q: Prefab, zone: Zone, accepted: seq<Prefab>) {
    !FitsZone(BoundsOf(catalog, q), Zone(0.0, 0.0, zone.w, zone.d)) || exists a :: a in accepted && Collide(catalog, q, a)
  }

  lemma {:induction false} NoRoomAt(catalog: Catalog, q: Prefab, zone: Zone, accepted: seq<Prefab>)
    requires !FitIn(catalog, Local(Some(zone)))(q, |accepted|, accepted)
    ensures NoRoom(catalog, q, zone, accepted)
  {
    FitsAtNext(catalog, q, accepted, Local(Some(zone)));
  }

  /** An error means the half-unit grid is full: each of its points leaves the zone or hits a placed prefab. */
  lemma {:induction false} ThrowsOnlyWhenTheGridIsFull(catalog: Catalog, prefabs: seq<Prefab>, zone: Zone) returns (k: nat)
    requires Resolve(catalog, prefabs, Some(zone)).None?
    ensures k < |prefabs| && Resolve(catalog, prefabs[..k], Some(zone)).Some?
    ensures forall i: nat, j: nat | InGrid(zone, i, j) ::
              NoRoom(catalog, Moved(prefabs[k], GridPoint(zone, i, j)), zone, Resolve(catalog, prefabs[..k], Some(zone)).value)
  {
    var local := Local(Some(zone));
    k := FailureHasAFirst(FitIn(catalog, local), OffersIn(local), prefabs);
    ResolveLength(FitIn(catalog, local), OffersIn(local), prefabs[..k]);
    var accepted := Resolve(catalog, prefabs[..k], Some(zone)).value;
    forall i: nat, j: nat | InGrid(zone, i, j) ensures NoRoom(catalog, Moved(prefabs[k], GridPoint(zone, i, j)), zone, accepted) {
      GridIsOffered(prefabs[k], zone, i, j);
      NoRoomAt(catalog, Moved(prefabs[k], GridPoint(zone, i, j)), zone, accepted);
    }
  }

  // ---- The loops --------------------------------------------------------------------

  lemma {:induction false} AddedAllAppend(points: seq<Point>, a: seq<Point>, b: seq<Point>)
    ensures AddedAll(points, a + b) == AddedAll(AddedAll(points, a), b)
    decreases |b|
  {
    if b == [] {
      assert a + b == a;
    } else {
      assert (a + b)[..|a + b| - 1] == a + b[..|b| - 1];
      AddedAllAppend(points, a, b[..|b| - 1]);
    }
  }

  method AddRings(p: Prefab, rings: nat, start: seq<Point>) returns (points: seq<Point>)
    ensures points == AddedAll(start, Rings(p, rings))
  {
    points := start;
    for ring := 1 to rings + 1
      invariant points == AddedAll(start, Rings(p, ring - 1))
    {
      var offsets := Ring(p, ring);
      AddedAllAppend(start, Rings(p, ring - 1), offsets);
      points := AddEach(points, offsets);
    }
  }

  method AddEach(start: seq<Point>, offsets: seq<Point>) returns (points: seq<Point>)
    ensures points == AddedAll(start, offsets)
  {
    points := start;
    for k := 0 to |offsets|
      invariant points == AddedAll(start, offsets[..k])
    {
      points := Added(points, offsets[k]);
      assert offsets[..k + 1][..k] == offsets[..k];
    }
    assert offsets[..|offsets|] == offsets;
  }

  method AddColumn(x: real, minZ: real, maxZ: real, start: seq<Point>) returns (points: seq<Point>)
    ensures points == AddedAll(start, Column(x, minZ, maxZ))
  {
    points := start;
    var z := minZ;
    while z <= maxZ + EPSILON
      invariant AddedAll(points, Column(x, z, maxZ)) == AddedAll(start, Column(x, minZ, maxZ))
      decreases 2.0 * (maxZ + EPSILON - z)
    {
      AddedAllAppend(points, [Rounded(x, z)], Column(x, z + 0.5, maxZ));
      assert [Rounded(x, z)][..0] == [];
      points := Added(points, Rounded(x, z));
      z := z + 0.5;
    }
  }

  method AddGrid(minX: real, maxX: real, minZ: real, maxZ: real, start: seq<Point>) returns (points: seq<Point>)
    ensures points == AddedAll(start, Grid(minX, maxX, minZ, maxZ))
  {
    points := start;
    var x := minX;
    while x <= maxX + EPSILON
      invariant AddedAll(points, Grid(x, maxX, minZ, maxZ)) == AddedAll(start, Grid(minX, maxX, minZ, maxZ))
      decreases 2.0 * (maxX + EPSILON - x)
    {
      AddedAllAppend(points, Column(x, minZ, maxZ), Grid(x + 0.5, maxX, minZ, maxZ));
      points := AddColumn(x, minZ, maxZ, points);
      x := x + 0.5;
    }
  }

  method AddZoneGrid(zone: Option<Zone>, start: seq<Point>) returns (points: seq<Point>)
    ensures points == AddedAll(start, ZoneGrid(zone))
  {
    points := start;
    if zone.Some? {
      points := AddGrid(-zone.value.w / 2.0, zone.value.w / 2.0, -zone.value.d / 2.0, zone.value.d / 2.0, points);
    }
  }

  lemma {:induction false} AddedInThree(origin: Point, rings: seq<Point>, grid: seq<Point>)
    ensures AddedAll([], [origin] + rings + grid) == AddedAll(AddedAll(Added([], origin), rings), grid)
  {
    assert [origin][..0] == [] && AddedAll([], [origin]) == Added([], origin);
    AddedAllAppend([], [origin], rings);
    AddedAllAppend([], [origin] + rings, grid);
  }

  method PlacementCandidates(p: Prefab, zone: Option<Zone>) returns (sorted: seq<Point>)
    ensures sorted == Candidates(p, zone)
  {
    var points := AddRings(p, RINGS, Added([], Rounded(p.x, p.z)));
    points := AddZoneGrid(zone, points);
    AddedInThree(Rounded(p.x, p.z), Rings(p, RINGS), ZoneGrid(zone));
    assert points == AddedAll([], Offered(p, zone));
    sorted := Sort(Nearer(p), points);
  }

  method CandidatesFor(p: Prefab, zone: Option<Zone>, ghost offers: Prefab -> seq<Point>) returns (sorted: seq<Point>)
    requires offers == OffersIn(zone)
    ensures sorted == offers(p)
  {
    sorted := PlacementCandidates(p, zone);
  }

  method PlaceOne(fit: Fit, p: Prefab, index: nat, points: seq<Point>, accepted: seq<Prefab>) returns (r: Option<Point>)
    ensures r == FirstFit(fit, p, index, points, accepted)
  {
    for k := 0 to |points|
      invariant FirstFit(fit, p, index, points, accepted) == FirstFit(fit, p, index, points[k..], accepted)
    {
      if fit(Moved(p, points[k]), index, accepted) {
        return Some(points[k]);
      }
      assert points[k..][1..] == points[k + 1..];
    }
    r := None;
  }

  method ResolveNonOverlapping(catalog: Catalog, prefabs: seq<Prefab>, zone: Option<Zone>) returns (r: Option<seq<Prefab>>)
    ensures r == Resolve(catalog, prefabs, zone)
  {
    r := ResolveEach(prefabs, FitIn(catalog, Local(zone)), Local(zone), OffersIn(Local(zone)));
  }

  method ResolveEach(prefabs: seq<Prefab>, fit: Fit, zone: Option<Zone>, ghost offers: Prefab -> seq<Point>)
    returns (r: Option<seq<Prefab>>)
    requires offers == OffersIn(zone)
    ensures r == ResolveWith(fit, offers, prefabs)
  {
    var accepted := [];
    for index := 0 to |prefabs|
      invariant ResolveWith(fit, offers, prefabs[..index]) == Some(accepted)
    {
      var points := CandidatesFor(prefabs[index], zone, offers);
      var at := PlaceOne(fit, prefabs[index], index, points, accepted);
      ResolveStep(fit, offers, prefabs, index, accepted, at);
      if at.None? {
        return None;
      }
      accepted := accepted + [Moved(prefabs[index], at.value)];
    }
    assert prefabs[..|prefabs|] == prefabs;
    r := Some(accepted);
  }

  lemma {:induction false} ResolveStep(fit: Fit, offers: Prefab -> seq<Point>, prefabs: seq<Prefab>, index: nat,
                                       accepted: seq<Prefab>, at: Option<Point>)
    requires index < |prefabs| && ResolveWith(fit, offers, prefabs[..index]) == Some(accepted)
    requires at == FirstFit(fit, prefabs[index], index, offers(prefabs[index]), accepted)
    ensures at.None? ==> ResolveWith(fit, offers, prefabs) == None
    ensures at.Some? ==> ResolveWith(fit, offers, prefabs[..index + 1]) == Some(accepted + [Moved(prefabs[index], at.value)])
  {
    assert prefabs[..index + 1] == prefabs[..index] + [prefabs[index]];
    ResolveSnoc(fit, offers, prefabs[..index], prefabs[index]);
    if at.None? { FailureSticks(fit, offers, prefabs, index + 1); }
  }
}
