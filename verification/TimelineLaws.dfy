// What every composed timeline satisfies, proved over the fold.
module TimelineLaws {
  import opened Orders
  import opened Beats
  import opened Wrappers

  /** A beat without its end, which later events may still move. */
  function Bare(b: Beat): Beat { b.(endsAt := 0) }

  lemma {:induction false} ClampAllBare(beats: seq<Beat>, indices: seq<nat>, at: int)
    ensures forall i | 0 <= i < |beats| :: Bare(ClampAll(beats, indices, at)[i]) == Bare(beats[i])
  {
    if indices == [] {
    } else {
      ClampAllBare(beats, indices[..|indices| - 1], at);
    }
  }

  lemma {:induction false} ResolveView(s: Composition, e: Event)
    ensures var p := Resolve(s, e);
            && p.actors == s.actors && p.counts == s.counts && p.variants == s.variants && p.running == s.running
            && |p.beats| == |s.beats|
            && forall i | 0 <= i < |s.beats| :: Bare(p.beats[i]) == Bare(s.beats[i])
  {
    ClampAllBare(s.beats, IssuesOf(s, e.runId), e.timestamp);
  }

  /** Counting the running children touches nothing else. */
  lemma {:induction false} TrackView(s: Composition, e: Event)
    ensures TrackStart(s, e) == s.(running := TrackStart(s, e).running)
    ensures TrackEnd(s, e) == s.(running := TrackEnd(s, e).running)
  {
  }

  lemma {:induction false} PrepareView(s: Composition, e: Event)
    ensures var p := Prepare(s, e);
            && p.actors == s.actors && p.counts == s.counts && p.variants == s.variants
            && |p.beats| == |s.beats|
            && forall i | 0 <= i < |s.beats| :: Bare(p.beats[i]) == Bare(s.beats[i])
  {
    TrackView(s, e);
    var a := TrackStart(s, e);
    ResolveView(a, e);
    TrackView(Resolve(a, e), e);
  }

  ghost function StageEmission(cfg: Config, p: Composition, g: Signal, parallel: bool): Option<Beat> {
    var v := Decide(TimingForPace(cfg), ActorOf(p, g.Key()), g, parallel);
    if v.emits then Some(MakeBeat(cfg, p, g, v.movement, v.parallel)) else None
  }

  /** The beat an event adds, if any. */
  ghost function Emission(cfg: Config, s: Composition, e: Event): Option<Beat> {
    if Normalize(e).None? then None
    else StageEmission(cfg, Prepare(s, e), Normalize(e).value, StartsParallel(s, e))
  }

  /** The combinations of flags normalization can produce. */
  ghost predicate WellFormed(g: Signal) {
    && (g.interrupt ==> !g.milestone && !IsActivityKind(g.kind))
    && (g.milestone ==> g.movement && IsActivityKind(g.kind))
  }

  lemma {:induction false} NormalizeWellFormed(e: Event)
    requires Normalize(e).Some?
    ensures WellFormed(Normalize(e).value) && Normalize(e).value.at == e.timestamp
    ensures Normalize(e).value.runId == e.runId && Normalize(e).value.employeeId == e.employeeId
  {
  }

  /** `t` has the beats of `s`, some ending earlier, and perhaps one more. */
  ghost predicate Extends(s: Composition, t: Composition, b: Option<Beat>) {
    && |t.beats| == |s.beats| + (if b.Some? then 1 else 0)
    && (forall i | 0 <= i < |s.beats| :: Bare(t.beats[i]) == Bare(s.beats[i]))
    && (b.Some? ==> t.beats[|s.beats|] == b.value)
  }

  lemma {:induction false} EmitBeats(cfg: Config, p: Composition, q: Composition, g: Signal, movement: bool, parallel: bool)
    requires q == p.(actors := q.actors)
    ensures Extends(p, EmitBeat(cfg, q, g, movement, parallel), Some(MakeBeat(cfg, p, g, movement, parallel)))
  {
    assert MakeBeat(cfg, q, g, movement, parallel) == MakeBeat(cfg, p, g, movement, parallel);
  }

  lemma {:induction false} StageBeats(cfg: Config, p: Composition, g: Signal, parallel: bool)
    ensures Extends(p, Stage(cfg, p, g, parallel), StageEmission(cfg, p, g, parallel))
  {
    var v := Decide(TimingForPace(cfg), ActorOf(p, g.Key()), g, parallel);
    EmitBeats(cfg, p, p.(actors := p.actors[g.Key() := v.actor]), g, v.movement, v.parallel);
  }

  lemma {:induction false} StepBeats(cfg: Config, s: Composition, e: Event)
    ensures Extends(s, Step(cfg, s, e), Emission(cfg, s, e))
    ensures Emission(cfg, s, e).Some? ==> Emission(cfg, s, e).value.at == e.timestamp
  {
    var p := Prepare(s, e);
    PrepareView(s, e);
    if Normalize(e).Some? {
      var g := Normalize(e).value;
      NormalizeWellFormed(e);
      StageBeats(cfg, p, g, StartsParallel(s, e));
      var t := Stage(cfg, p, g, StartsParallel(s, e));
      assert forall i | 0 <= i < |p.beats| :: Bare(t.beats[i]) == Bare(p.beats[i]);
    }
  }

  ghost predicate Emitted(b: Option<Beat>, key: string) { b.Some? && b.value.Key() == key }

  /** Only a movement beat moves its own actor's last movement, and only once it has cooled down. */
  ghost predicate MoveFacts(cfg: Config, s: Composition, t: Composition, b: Option<Beat>) {
    && (forall k :: ActorOf(t, k).lastMovementAt ==
          if Emitted(b, k) && b.value.movement then Some(b.value.at) else ActorOf(s, k).lastMovementAt)
    && (b.Some? && b.value.movement && !b.value.artifact ==>
          CooledDown(TimingForPace(cfg), ActorOf(s, b.value.Key()), b.value.at))
  }

  lemma {:induction false} DecideMoves(timing: Timing, actor: ActorState, g: Signal, parallel: bool)
    requires WellFormed(g)
    ensures var v := Decide(timing, actor, g, parallel);
            && v.actor.lastMovementAt == actor.lastMovementAt
            && (v.emits && v.movement && !g.milestone ==> CooledDown(timing, actor, g.at))
  {
  }

  /** Only the signal's own actor changes, and a movement beat is when it last moved. */
  lemma {:induction false} StageActors(cfg: Config, p: Composition, g: Signal, parallel: bool, k: string)
    ensures var v := Decide(TimingForPace(cfg), ActorOf(p, g.Key()), g, parallel);
            ActorOf(Stage(cfg, p, g, parallel), k) ==
            if k != g.Key() then ActorOf(p, k)
            else if v.emits && v.movement then v.actor.(lastMovementAt := Some(g.at)) else v.actor
  {
  }

  lemma {:induction false} StageMoves(cfg: Config, p: Composition, g: Signal, parallel: bool)
    requires WellFormed(g)
    ensures MoveFacts(cfg, p, Stage(cfg, p, g, parallel), StageEmission(cfg, p, g, parallel))
  {
    DecideMoves(TimingForPace(cfg), ActorOf(p, g.Key()), g, parallel);
    var t, b := Stage(cfg, p, g, parallel), StageEmission(cfg, p, g, parallel);
    forall k
      ensures ActorOf(t, k).lastMovementAt ==
              if Emitted(b, k) && b.value.movement then Some(b.value.at) else ActorOf(p, k).lastMovementAt
    {
      StageActors(cfg, p, g, parallel, k);
    }
  }

  lemma {:induction false} StepMoves(cfg: Config, s: Composition, e: Event)
    ensures MoveFacts(cfg, s, Step(cfg, s, e), Emission(cfg, s, e))
  {
    PrepareView(s, e);
    var p := Prepare(s, e);
    assert forall k :: ActorOf(p, k) == ActorOf(s, k);
    if Normalize(e).Some? {
      NormalizeWellFormed(e);
      StageMoves(cfg, p, Normalize(e).value, StartsParallel(s, e));
    }
  }

  /** How the beat an actor is given relates to the activity stream it has open. */
  ghost predicate StreamFact(micro: int, was: Option<Stream>, now: Option<Stream>, b: Beat) {
    if b.artifact then now == was
    else if !IsActivityKind(b.kind) then now == None
    else if b.movement then
      was.Some? && was.value.kind == b.kind && !was.value.relocated
      && now == Some(was.value.(lastAt := b.at, relocated := true))
    else
      && now == Some(Stream(b.kind, b.at, b.at, false))
      && (was.Some? && was.value.kind == b.kind ==> b.at - was.value.lastAt > micro)
  }

  ghost predicate StreamFacts(cfg: Config, s: Composition, t: Composition, b: Option<Beat>, at: int) {
    forall k ::
      var was, now := ActorOf(s, k).activity, ActorOf(t, k).activity;
      if Emitted(b, k) then StreamFact(TimingForPace(cfg).microMinMs, was, now, b.value)
      else now == was || (was.Some? && now == Some(was.value.(lastAt := at)))
  }

  lemma {:induction false} DecideStreams(timing: Timing, actor: ActorState, g: Signal, parallel: bool, b: Beat)
    requires WellFormed(g)
    requires var v := Decide(timing, actor, g, parallel);
             b.kind == g.kind && b.at == g.at && b.artifact == g.milestone && b.movement == v.movement
    ensures var v, was := Decide(timing, actor, g, parallel), actor.activity;
            if v.emits then StreamFact(timing.microMinMs, was, v.actor.activity, b)
            else v.actor.activity == was || (was.Some? && v.actor.activity == Some(was.value.(lastAt := g.at)))
  {
  }

  lemma {:induction false} StageStreams(cfg: Config, p: Composition, g: Signal, parallel: bool)
    requires WellFormed(g)
    ensures StreamFacts(cfg, p, Stage(cfg, p, g, parallel), StageEmission(cfg, p, g, parallel), g.at)
  {
    var v := Decide(TimingForPace(cfg), ActorOf(p, g.Key()), g, parallel);
    DecideStreams(TimingForPace(cfg), ActorOf(p, g.Key()), g, parallel, MakeBeat(cfg, p, g, v.movement, v.parallel));
    forall k {
      StageActors(cfg, p, g, parallel, k);
    }
  }

  lemma {:induction false} StepStreams(cfg: Config, s: Composition, e: Event)
    ensures StreamFacts(cfg, s, Step(cfg, s, e), Emission(cfg, s, e), e.timestamp)
  {
    PrepareView(s, e);
    var p := Prepare(s, e);
    assert forall k :: ActorOf(p, k) == ActorOf(s, k);
    if Normalize(e).Some? {
      NormalizeWellFormed(e);
      StageStreams(cfg, p, Normalize(e).value, StartsParallel(s, e));
    }
  }

  /** Each beat takes the next index of its actor and kind, and avoids the last variant. */
  ghost predicate CounterFacts(cfg: Config, s: Composition, t: Composition, b: Option<Beat>) {
    if b.None? then t.counts == s.counts && t.variants == s.variants
    else
      var k := (b.value.Key(), b.value.kind);
      && b.value.id == BeatId(b.value.runId, b.value.kind, CountOf(s, k))
      && t.counts == s.counts[k := CountOf(s, k) + 1]
      && t.variants == s.variants[k := b.value.variant]
      && (VariantCount(cfg) > 1 && k in s.variants ==> s.variants[k] != b.value.variant)
  }

  lemma {:induction false} NextVariantDiffers(v: int, n: int)
    requires n > 1 && 0 <= v < n
    ensures (v + 1) % n != v
  {
    if v + 1 == n { assert (v + 1) % n == 0; } else { assert (v + 1) % n == v + 1; }
  }

  lemma {:induction false} VariantMoves(cfg: Config, s: Composition, g: Signal, index: nat)
    requires VariantCount(cfg) > 1 && (g.Key(), g.kind) in s.variants
    ensures PickVariant(cfg, s, g, index) != s.variants[(g.Key(), g.kind)]
  {
    var n := VariantCount(cfg);
    NextVariantDiffers(cfg.hash(g.rootRunId, g.runId, g.employeeId, g.kind, index) % n, n);
  }

  lemma {:induction false} EmitCounters(cfg: Config, p: Composition, q: Composition, g: Signal, movement: bool, parallel: bool)
    requires q == p.(actors := q.actors)
    ensures CounterFacts(cfg, p, EmitBeat(cfg, q, g, movement, parallel), Some(MakeBeat(cfg, p, g, movement, parallel)))
  {
    var b := MakeBeat(cfg, p, g, movement, parallel);
    assert MakeBeat(cfg, q, g, movement, parallel) == b;
    if VariantCount(cfg) > 1 && (g.Key(), g.kind) in p.variants {
      VariantMoves(cfg, p, g, CountOf(p, (g.Key(), g.kind)));
    }
  }

  lemma {:induction false} StageCounters(cfg: Config, p: Composition, g: Signal, parallel: bool)
    ensures CounterFacts(cfg, p, Stage(cfg, p, g, parallel), StageEmission(cfg, p, g, parallel))
  {
    var v := Decide(TimingForPace(cfg), ActorOf(p, g.Key()), g, parallel);
    EmitCounters(cfg, p, p.(actors := p.actors[g.Key() := v.actor]), g, v.movement, v.parallel);
  }

  lemma {:induction false} SameCounters(cfg: Config, p: Composition, s: Composition, t: Composition, b: Option<Beat>)
    requires p.counts == s.counts && p.variants == s.variants && CounterFacts(cfg, p, t, b)
    ensures CounterFacts(cfg, s, t, b)
  {
    if b.Some? { assert CountOf(p, (b.value.Key(), b.value.kind)) == CountOf(s, (b.value.Key(), b.value.kind)); }
  }

  lemma {:induction false} StepCounters(cfg: Config, s: Composition, e: Event)
    ensures CounterFacts(cfg, s, Step(cfg, s, e), Emission(cfg, s, e))
  {
    PrepareView(s, e);
    var p, parallel := Prepare(s, e), StartsParallel(s, e);
    if Normalize(e).Some? {
      var g := Normalize(e).value;
      StageCounters(cfg, p, g, parallel);
      SameCounters(cfg, p, s, Stage(cfg, p, g, parallel), StageEmission(cfg, p, g, parallel));
    }
  }

  // ---- Time ---------------------------------------------------------------

  ghost predicate Ordered(events: seq<Event>) {
    forall i, j | 0 <= i < j < |events| :: events[i].timestamp <= events[j].timestamp
  }

  ghost predicate NoLaterThan(s: Composition, now: int) {
    forall i | 0 <= i < |s.beats| :: s.beats[i].at <= now
  }

  lemma {:induction false} BeatsInTime(cfg: Config, events: seq<Event>, now: int)
    requires forall e | e in events :: e.timestamp <= now
    ensures NoLaterThan(Fold(cfg, events), now)
  {
    if events == [] {
    } else {
      var front, e := events[..|events| - 1], events[|events| - 1];
      BeatsInTime(cfg, front, now);
      StepBeats(cfg, Fold(cfg, front), e);
      var s, t := Fold(cfg, front), Fold(cfg, events);
      forall i | 0 <= i < |t.beats| ensures t.beats[i].at <= now {
        if i < |s.beats| { assert Bare(t.beats[i]) == Bare(s.beats[i]); }
      }
    }
  }

  lemma {:induction false} EarlierBeats(cfg: Config, events: seq<Event>)
    requires Ordered(events) && events != []
    ensures NoLaterThan(Fold(cfg, events[..|events| - 1]), events[|events| - 1].timestamp)
  {
    var n := |events| - 1;
    forall e | e in events[..n] ensures e.timestamp <= events[n].timestamp {
      var i :| 0 <= i < n && events[i] == e;
    }
    BeatsInTime(cfg, events[..n], events[n].timestamp);
  }

  // ---- Movement cooldown --------------------------------------------------

  ghost predicate LastMoveKnown(s: Composition) {
    forall i | 0 <= i < |s.beats| && s.beats[i].movement ::
      var last := ActorOf(s, s.beats[i].Key()).lastMovementAt;
      last.Some? && s.beats[i].at <= last.value
  }

  /** Apart from deliveries, no actor walks again before the cooldown is over. */
  ghost predicate MovesSpaced(cfg: Config, beats: seq<Beat>) {
    forall i, j | 0 <= i < j < |beats| && beats[i].movement && beats[j].movement && !beats[j].artifact
                  && beats[i].Key() == beats[j].Key() ::
      beats[j].at - beats[i].at >= TimingForPace(cfg).movementCooldownMs
  }

  lemma {:induction false} LastMoveStep(cfg: Config, s: Composition, t: Composition, b: Option<Beat>)
    requires LastMoveKnown(s) && Extends(s, t, b) && MoveFacts(cfg, s, t, b)
    requires b.Some? ==> NoLaterThan(s, b.value.at)
    ensures LastMoveKnown(t)
  {
    forall i | 0 <= i < |t.beats| && t.beats[i].movement
      ensures var last := ActorOf(t, t.beats[i].Key()).lastMovementAt;
              last.Some? && t.beats[i].at <= last.value
    {
      if i < |s.beats| { assert Bare(t.beats[i]) == Bare(s.beats[i]); }
    }
  }

  lemma {:induction false} MovesStep(cfg: Config, s: Composition, t: Composition, b: Option<Beat>)
    requires LastMoveKnown(s) && MovesSpaced(cfg, s.beats) && Extends(s, t, b) && MoveFacts(cfg, s, t, b)
    ensures MovesSpaced(cfg, t.beats)
  {
    forall i, j | 0 <= i < j < |t.beats| && t.beats[i].movement && t.beats[j].movement && !t.beats[j].artifact
                  && t.beats[i].Key() == t.beats[j].Key()
      ensures t.beats[j].at - t.beats[i].at >= TimingForPace(cfg).movementCooldownMs
    {
      assert Bare(t.beats[i]) == Bare(s.beats[i]);
      if j < |s.beats| { assert Bare(t.beats[j]) == Bare(s.beats[j]); }
    }
  }

  lemma {:induction false} MovementCooldown(cfg: Config, events: seq<Event>)
    requires Ordered(events)
    ensures LastMoveKnown(Fold(cfg, events)) && MovesSpaced(cfg, Fold(cfg, events).beats)
  {
    if events == [] {
    } else {
      var front, e := events[..|events| - 1], events[|events| - 1];
      MovementCooldown(cfg, front);
      EarlierBeats(cfg, events);
      var s, t := Fold(cfg, front), Fold(cfg, events);
      StepBeats(cfg, s, e);
      StepMoves(cfg, s, e);
      LastMoveStep(cfg, s, t, Emission(cfg, s, e));
      MovesStep(cfg, s, t, Emission(cfg, s, e));
    }
  }

  // ---- Chatter ------------------------------------------------------------

  ghost predicate InPlace(b: Beat) { IsActivityKind(b.kind) && !b.artifact && !b.movement }

  ghost predicate Relocation(b: Beat) { IsActivityKind(b.kind) && !b.artifact && b.movement }

  /** An interrupt, a major beat or another activity ends a stream of `kind`; a delivery does not. */
  ghost predicate Breaks(b: Beat, kind: BeatKind) { !b.artifact && b.kind != kind }

  /** Beat `m` of the same actor, strictly between i and j, starts or ends a stream. */
  ghost predicate Separated(beats: seq<Beat>, i: int, j: int)
    requires 0 <= i < |beats| && j <= |beats|
  {
    exists m | i < m < j :: beats[m].Key() == beats[i].Key() && (Breaks(beats[m], beats[i].kind) || InPlace(beats[m]))
  }

  ghost predicate Broken(beats: seq<Beat>, i: int, j: int)
    requires 0 <= i < |beats| && j <= |beats|
  {
    exists m | i < m < j :: beats[m].Key() == beats[i].Key() && Breaks(beats[m], beats[i].kind)
  }

  /** An unbroken stream is still open at its actor, and remembers whether it relocated. */
  ghost predicate StreamsOpen(s: Composition) {
    forall i: nat | i < |s.beats| :: InPlaceOpen(s, i) && RelocatedOpen(s, i)
  }

  /** Consecutive in-place beats of one stream kind are more than the micro minimum apart. */
  ghost predicate NoChatter(cfg: Config, beats: seq<Beat>) {
    forall i, j | 0 <= i < j < |beats| && InPlace(beats[i]) && InPlace(beats[j])
                  && beats[i].Key() == beats[j].Key() && beats[i].kind == beats[j].kind && !Broken(beats, i, j) ::
      beats[j].at - beats[i].at > TimingForPace(cfg).microMinMs
  }

  /** Two relocations of one kind never belong to the same stream. */
  ghost predicate OneRelocation(beats: seq<Beat>) {
    forall i, j | 0 <= i < j < |beats| && Relocation(beats[i]) && Relocation(beats[j])
                  && beats[i].Key() == beats[j].Key() && beats[i].kind == beats[j].kind ::
      Separated(beats, i, j)
  }

  lemma {:induction false} BareBeat(x: Beat, y: Beat)
    requires Bare(x) == Bare(y)
    ensures x.Key() == y.Key() && x.kind == y.kind && x.at == y.at && x.artifact == y.artifact
    ensures InPlace(x) == InPlace(y) && Relocation(x) == Relocation(y)
  {
  }

  lemma {:induction false} BareBroken(s: Composition, t: Composition, b: Option<Beat>, i: nat, j: nat)
    requires Extends(s, t, b) && i < |s.beats| && j <= |s.beats|
    ensures Broken(s.beats, i, j) == Broken(t.beats, i, j) && Separated(s.beats, i, j) == Separated(t.beats, i, j)
  {
    forall m | 0 <= m < |s.beats|
      ensures s.beats[m].Key() == t.beats[m].Key() && s.beats[m].kind == t.beats[m].kind
              && s.beats[m].artifact == t.beats[m].artifact && InPlace(s.beats[m]) == InPlace(t.beats[m])
    {
      assert Bare(t.beats[m]) == Bare(s.beats[m]);
      BareBeat(s.beats[m], t.beats[m]);
    }
  }

  /** A beat that breaks or restarts the stream of beat `i` shows as such from now on. */
  lemma {:induction false} NewBreak(s: Composition, t: Composition, b: Option<Beat>, i: nat)
    requires Extends(s, t, b) && i < |s.beats| && Emitted(b, t.beats[i].Key())
    ensures Breaks(b.value, t.beats[i].kind) ==> Broken(t.beats, i, |t.beats|)
    ensures Breaks(b.value, t.beats[i].kind) || InPlace(b.value) ==> Separated(t.beats, i, |t.beats|)
    ensures Broken(t.beats, i, |s.beats|) ==> Broken(t.beats, i, |t.beats|)
    ensures Separated(t.beats, i, |s.beats|) ==> Separated(t.beats, i, |t.beats|)
  {
    assert t.beats[|s.beats|] == b.value;
  }

  ghost predicate InPlaceOpen(s: Composition, i: nat)
    requires i < |s.beats|
  {
    InPlace(s.beats[i]) && !Broken(s.beats, i, |s.beats|) ==>
      var a := ActorOf(s, s.beats[i].Key()).activity;
      a.Some? && a.value.kind == s.beats[i].kind && s.beats[i].at <= a.value.lastAt
  }

  ghost predicate RelocatedOpen(s: Composition, i: nat)
    requires i < |s.beats|
  {
    Relocation(s.beats[i]) && !Separated(s.beats, i, |s.beats|) ==>
      var a := ActorOf(s, s.beats[i].Key()).activity;
      a.Some? && a.value.kind == s.beats[i].kind && a.value.relocated
  }

  lemma {:induction false} OldBeatOpen(cfg: Config, s: Composition, t: Composition, b: Option<Beat>, at: int, i: nat)
    requires Extends(s, t, b) && StreamFacts(cfg, s, t, b, at)
    requires i < |s.beats| && InPlaceOpen(s, i) && RelocatedOpen(s, i) && s.beats[i].at <= at
    requires b.Some? ==> b.value.at == at
    ensures InPlaceOpen(t, i) && RelocatedOpen(t, i)
  {
    assert Bare(t.beats[i]) == Bare(s.beats[i]);
    BareBeat(t.beats[i], s.beats[i]);
    BareBroken(s, t, b, i, |s.beats|);
    if Emitted(b, t.beats[i].Key()) { NewBreak(s, t, b, i); }
  }

  lemma {:induction false} OpenStep(cfg: Config, s: Composition, t: Composition, b: Option<Beat>, at: int)
    requires Extends(s, t, b) && StreamFacts(cfg, s, t, b, at)
    requires StreamsOpen(s) && NoLaterThan(s, at)
    requires b.Some? ==> b.value.at == at
    ensures StreamsOpen(t)
  {
    forall i: nat | i < |t.beats| ensures InPlaceOpen(t, i) && RelocatedOpen(t, i) {
      if i < |s.beats| { OldBeatOpen(cfg, s, t, b, at, i); }
    }
  }

  lemma {:induction false} ChatterPair(cfg: Config, s: Composition, t: Composition, b: Option<Beat>, at: int, i: nat, j: nat)
    requires Extends(s, t, b) && StreamFacts(cfg, s, t, b, at) && StreamsOpen(s)
    requires i < j < |t.beats| && t.beats[i].Key() == t.beats[j].Key() && t.beats[i].kind == t.beats[j].kind
    requires NoChatter(cfg, s.beats) && OneRelocation(s.beats)
    ensures InPlace(t.beats[i]) && InPlace(t.beats[j]) && !Broken(t.beats, i, j) ==>
              t.beats[j].at - t.beats[i].at > TimingForPace(cfg).microMinMs
    ensures Relocation(t.beats[i]) && Relocation(t.beats[j]) ==> Separated(t.beats, i, j)
  {
    assert Bare(t.beats[i]) == Bare(s.beats[i]);
    BareBeat(t.beats[i], s.beats[i]);
    BareBroken(s, t, b, i, j);
    if j < |s.beats| {
      assert Bare(t.beats[j]) == Bare(s.beats[j]);
      BareBeat(t.beats[j], s.beats[j]);
    } else {
      assert InPlaceOpen(s, i) && RelocatedOpen(s, i);
    }
  }

  lemma {:induction false} ChatterStep(cfg: Config, s: Composition, t: Composition, b: Option<Beat>, at: int)
    requires Extends(s, t, b) && StreamFacts(cfg, s, t, b, at) && StreamsOpen(s)
    requires NoChatter(cfg, s.beats) && OneRelocation(s.beats)
    ensures NoChatter(cfg, t.beats) && OneRelocation(t.beats)
  {
    forall i, j | 0 <= i < j < |t.beats| && t.beats[i].Key() == t.beats[j].Key() && t.beats[i].kind == t.beats[j].kind
      ensures InPlace(t.beats[i]) && InPlace(t.beats[j]) && !Broken(t.beats, i, j) ==>
                t.beats[j].at - t.beats[i].at > TimingForPace(cfg).microMinMs
      ensures Relocation(t.beats[i]) && Relocation(t.beats[j]) ==> Separated(t.beats, i, j)
    {
      ChatterPair(cfg, s, t, b, at, i, j);
    }
  }

  lemma {:induction false} ChatterLimits(cfg: Config, events: seq<Event>)
    requires Ordered(events)
    ensures StreamsOpen(Fold(cfg, events)) && NoChatter(cfg, Fold(cfg, events).beats) && OneRelocation(Fold(cfg, events).beats)
  {
    if events == [] {
    } else {
      var front, e := events[..|events| - 1], events[|events| - 1];
      ChatterLimits(cfg, front);
      EarlierBeats(cfg, events);
      var s, t := Fold(cfg, front), Fold(cfg, events);
      StepBeats(cfg, s, e);
      StepStreams(cfg, s, e);
      OpenStep(cfg, s, t, Emission(cfg, s, e), e.timestamp);
      ChatterStep(cfg, s, t, Emission(cfg, s, e), e.timestamp);
    }
  }

  // ---- Where each beat comes from -----------------------------------------

  /** Position of the event behind each beat. */
  ghost function Origins(cfg: Config, events: seq<Event>): seq<nat> {
    if events == [] then []
    else
      var n := |events| - 1;
      var front := Origins(cfg, events[..n]);
      if Emission(cfg, Fold(cfg, events[..n]), events[n]).Some? then front + [n] else front
  }

  ghost predicate ComesFrom(cfg: Config, events: seq<Event>, b: Beat, o: nat) {
    && o < |events|
    && Emission(cfg, Fold(cfg, events[..o]), events[o]).Some?
    && Bare(b) == Bare(Emission(cfg, Fold(cfg, events[..o]), events[o]).value)
  }

  lemma {:induction false} ComesFromLater(cfg: Config, front: seq<Event>, e: Event, b: Beat, later: Beat, o: nat)
    requires ComesFrom(cfg, front, b, o) && Bare(later) == Bare(b)
    ensures ComesFrom(cfg, front + [e], later, o)
  {
    assert (front + [e])[..o] == front[..o];
  }

  lemma {:induction false} ComesFromLast(cfg: Config, front: seq<Event>, e: Event, s: Composition, b: Beat)
    requires s == Fold(cfg, front) && Emission(cfg, s, e) == Some(b)
    ensures ComesFrom(cfg, front + [e], b, |front|)
  {
    assert (front + [e])[..|front|] == front;
  }

  lemma {:induction false} Snoc<T(!new)>(P: (T, nat) -> bool, Q: (T, nat) -> bool, s: seq<T>, t: seq<T>, os: seq<nat>, n: nat)
    requires |os| == |s| && |s| <= |t| <= |s| + 1
    requires forall i | 0 <= i < |s| :: P(s[i], os[i]) && os[i] < n
    requires forall i | 0 <= i < |s| :: P(s[i], os[i]) ==> Q(t[i], os[i])
    requires |t| > |s| ==> Q(t[|s|], n)
    requires forall i, j | 0 <= i < j < |os| :: os[i] < os[j]
    ensures var us := if |t| > |s| then os + [n] else os;
            && |us| == |t| && (forall i | 0 <= i < |us| :: Q(t[i], us[i]))
            && forall i, j | 0 <= i < j < |us| :: us[i] < us[j]
  {
  }

  lemma {:induction false} OriginsSnoc(cfg: Config, front: seq<Event>, e: Event, s: Composition, t: Composition, os: seq<nat>)
    requires s == Fold(cfg, front) && Extends(s, t, Emission(cfg, s, e)) && |os| == |s.beats|
    requires forall i | 0 <= i < |os| :: ComesFrom(cfg, front, s.beats[i], os[i])
    requires forall i, j | 0 <= i < j < |os| :: os[i] < os[j]
    ensures var us := if |t.beats| > |s.beats| then os + [|front|] else os;
            && |us| == |t.beats|
            && (forall i | 0 <= i < |us| :: ComesFrom(cfg, front + [e], t.beats[i], us[i]))
            && forall i, j | 0 <= i < j < |us| :: us[i] < us[j]
  {
    var P := (b: Beat, o: nat) => ComesFrom(cfg, front, b, o);
    var Q := (b: Beat, o: nat) => ComesFrom(cfg, front + [e], b, o);
    forall i | 0 <= i < |s.beats| ensures P(s.beats[i], os[i]) && os[i] < |front| && Q(t.beats[i], os[i]) {
      assert ComesFrom(cfg, front, s.beats[i], os[i]);
      ComesFromLater(cfg, front, e, s.beats[i], t.beats[i], os[i]);
    }
    if |t.beats| > |s.beats| { ComesFromLast(cfg, front, e, s, t.beats[|s.beats|]); }
    Snoc(P, Q, s.beats, t.beats, os, |front|);
    var us := if |t.beats| > |s.beats| then os + [|front|] else os;
    assert forall i | 0 <= i < |us| :: Q(t.beats[i], us[i]);
  }

  /** Every beat comes from one event, in the order of the events. */
  lemma {:induction false} OriginsOk(cfg: Config, events: seq<Event>)
    ensures var s, os := Fold(cfg, events), Origins(cfg, events);
            && |os| == |s.beats|
            && (forall i | 0 <= i < |os| :: ComesFrom(cfg, events, s.beats[i], os[i]))
            && forall i, j | 0 <= i < j < |os| :: os[i] < os[j]
  {
    if events == [] {
    } else {
      var front, e := events[..|events| - 1], events[|events| - 1];
      assert events == front + [e];
      OriginsOk(cfg, front);
      StepBeats(cfg, Fold(cfg, front), e);
      OriginsSnoc(cfg, front, e, Fold(cfg, front), Fold(cfg, events), Origins(cfg, front));
    }
  }

  lemma {:induction false} EmissionEvent(cfg: Config, s: Composition, e: Event)
    requires Emission(cfg, s, e).Some?
    ensures var b := Emission(cfg, s, e).value;
            b.runId == e.runId && b.employeeId == e.employeeId && b.at == e.timestamp
  {
    NormalizeWellFormed(e);
  }

  lemma {:induction false} BeatEvent(cfg: Config, events: seq<Event>, b: Beat, o: nat)
    requires ComesFrom(cfg, events, b, o)
    ensures b.runId == events[o].runId && b.employeeId == events[o].employeeId && b.at == events[o].timestamp
  {
    EmissionEvent(cfg, Fold(cfg, events[..o]), events[o]);
  }

  // ---- Ids and variants ---------------------------------------------------

  ghost predicate SameTrack(a: Beat, b: Beat) { a.Key() == b.Key() && a.kind == b.kind }

  ghost predicate Indexed(s: Composition) {
    && (forall i | 0 <= i < |s.beats| ::
          var b := s.beats[i];
          b.id.runId == b.runId && b.id.kind == b.kind && b.id.index < CountOf(s, (b.Key(), b.kind)))
    && forall i, j | 0 <= i < j < |s.beats| && SameTrack(s.beats[i], s.beats[j]) :: s.beats[i].id.index < s.beats[j].id.index
  }

  ghost predicate LastOfTrack(beats: seq<Beat>, i: int)
    requires 0 <= i < |beats|
  {
    forall m | i < m < |beats| :: !SameTrack(beats[i], beats[m])
  }

  ghost predicate VariantsKnown(s: Composition) {
    forall i | 0 <= i < |s.beats| && LastOfTrack(s.beats, i) ::
      var k := (s.beats[i].Key(), s.beats[i].kind);
      k in s.variants && s.variants[k] == s.beats[i].variant
  }

  /** Neighbours on one actor's track of one kind look different. */
  ghost predicate NoRepeat(beats: seq<Beat>) {
    forall i, j | 0 <= i < j < |beats| && SameTrack(beats[i], beats[j])
                  && (forall m | i < m < j :: !SameTrack(beats[i], beats[m])) ::
      beats[i].variant != beats[j].variant
  }

  lemma {:induction false} BareTrack(x: Beat, y: Beat)
    requires Bare(x) == Bare(y)
    ensures x.Key() == y.Key() && x.kind == y.kind && x.id == y.id && x.variant == y.variant && x.runId == y.runId
  {
  }

  lemma {:induction false} IndexedStep(cfg: Config, s: Composition, t: Composition, b: Option<Beat>)
    requires Indexed(s) && Extends(s, t, b) && CounterFacts(cfg, s, t, b)
    ensures Indexed(t)
  {
    forall i | 0 <= i < |s.beats| ensures Bare(t.beats[i]) == Bare(s.beats[i]) && t.beats[i].id == s.beats[i].id {
      BareTrack(t.beats[i], s.beats[i]);
    }
    forall i | 0 <= i < |t.beats|
      ensures t.beats[i].id.runId == t.beats[i].runId && t.beats[i].id.kind == t.beats[i].kind
              && t.beats[i].id.index < CountOf(t, (t.beats[i].Key(), t.beats[i].kind))
    {
      if i < |s.beats| { BareTrack(t.beats[i], s.beats[i]); }
    }
    forall i, j | 0 <= i < j < |t.beats| && SameTrack(t.beats[i], t.beats[j])
      ensures t.beats[i].id.index < t.beats[j].id.index
    {
      BareTrack(t.beats[i], s.beats[i]);
      if j < |s.beats| { BareTrack(t.beats[j], s.beats[j]); }
    }
  }

  lemma {:induction false} SameTracks(s: Composition, t: Composition, b: Option<Beat>, i: nat, j: nat)
    requires Extends(s, t, b) && i < |s.beats| && j < |s.beats|
    ensures SameTrack(t.beats[i], t.beats[j]) == SameTrack(s.beats[i], s.beats[j])
    ensures t.beats[i].variant == s.beats[i].variant
    ensures t.beats[i].Key() == s.beats[i].Key() && t.beats[i].kind == s.beats[i].kind
  {
    assert Bare(t.beats[i]) == Bare(s.beats[i]) && Bare(t.beats[j]) == Bare(s.beats[j]);
    BareTrack(t.beats[i], s.beats[i]);
    BareTrack(t.beats[j], s.beats[j]);
  }

  lemma {:induction false} StillLast(s: Composition, t: Composition, b: Option<Beat>, i: nat, j: nat)
    requires Extends(s, t, b) && i < |s.beats| && i < j <= |s.beats|
    requires forall m | i < m < j :: !SameTrack(t.beats[i], t.beats[m])
    ensures forall m | i < m < j :: !SameTrack(s.beats[i], s.beats[m])
  {
    forall m | i < m < j ensures !SameTrack(s.beats[i], s.beats[m]) { SameTracks(s, t, b, i, m); }
  }

  lemma {:induction false} VariantKnownStep(cfg: Config, s: Composition, t: Composition, b: Option<Beat>)
    requires VariantsKnown(s) && Extends(s, t, b) && CounterFacts(cfg, s, t, b)
    ensures VariantsKnown(t)
  {
    var n := |s.beats|;
    forall i | 0 <= i < |t.beats| && LastOfTrack(t.beats, i)
      ensures var k := (t.beats[i].Key(), t.beats[i].kind); k in t.variants && t.variants[k] == t.beats[i].variant
    {
      if i < n {
        StillLast(s, t, b, i, n);
        assert LastOfTrack(s.beats, i);
        SameTracks(s, t, b, i, i);
        if b.Some? { assert !SameTrack(t.beats[i], t.beats[n]); }
      }
    }
  }

  lemma {:induction false} VariantPair(cfg: Config, s: Composition, t: Composition, b: Option<Beat>, i: nat, j: nat)
    requires VariantsKnown(s) && Extends(s, t, b) && CounterFacts(cfg, s, t, b)
    requires VariantCount(cfg) > 1 && NoRepeat(s.beats)
    requires i < j < |t.beats| && SameTrack(t.beats[i], t.beats[j])
    requires forall m | i < m < j :: !SameTrack(t.beats[i], t.beats[m])
    ensures t.beats[i].variant != t.beats[j].variant
  {
    StillLast(s, t, b, i, j);
    SameTracks(s, t, b, i, i);
    if j < |s.beats| {
      SameTracks(s, t, b, i, j);
      SameTracks(s, t, b, j, i);
    } else {
      assert LastOfTrack(s.beats, i);
    }
  }

  lemma {:induction false} VariantStep(cfg: Config, s: Composition, t: Composition, b: Option<Beat>)
    requires VariantsKnown(s) && Extends(s, t, b) && CounterFacts(cfg, s, t, b)
    requires VariantCount(cfg) > 1 && NoRepeat(s.beats)
    ensures NoRepeat(t.beats)
  {
    forall i, j | 0 <= i < j < |t.beats| && SameTrack(t.beats[i], t.beats[j])
                  && (forall m | i < m < j :: !SameTrack(t.beats[i], t.beats[m]))
      ensures t.beats[i].variant != t.beats[j].variant
    {
      VariantPair(cfg, s, t, b, i, j);
    }
  }

  /** Beat `i` is number `n` of track `k`. */
  ghost predicate IsNumber(beats: seq<Beat>, i: nat, k: (string, BeatKind), n: nat) {
    i < |beats| && (beats[i].Key(), beats[i].kind) == k && beats[i].id.index == n
  }

  ghost predicate HasNumber(beats: seq<Beat>, k: (string, BeatKind), n: nat) { exists i: nat :: IsNumber(beats, i, k, n) }

  ghost predicate Gapless(s: Composition) {
    forall k, n: nat | n < CountOf(s, k) :: HasNumber(s.beats, k, n)
  }

  lemma {:induction false} GaplessStep(cfg: Config, s: Composition, t: Composition, b: Option<Beat>)
    requires Gapless(s) && Extends(s, t, b) && CounterFacts(cfg, s, t, b)
    ensures Gapless(t)
  {
    forall k, n: nat | n < CountOf(t, k) ensures HasNumber(t.beats, k, n) {
      if n < CountOf(s, k) {
        assert HasNumber(s.beats, k, n);
        var i: nat :| IsNumber(s.beats, i, k, n);
        BareTrack(t.beats[i], s.beats[i]);
        assert IsNumber(t.beats, i, k, n);
      } else {
        assert IsNumber(t.beats, |s.beats|, k, n);
      }
    }
  }

  /** The beats of one actor and kind are numbered 0, 1, 2, ... in order. */
  lemma {:induction false} TracksIndexed(cfg: Config, events: seq<Event>)
    ensures Indexed(Fold(cfg, events)) && Gapless(Fold(cfg, events))
  {
    if events == [] {
    } else {
      var front, e := events[..|events| - 1], events[|events| - 1];
      TracksIndexed(cfg, front);
      var s := Fold(cfg, front);
      StepBeats(cfg, s, e);
      StepCounters(cfg, s, e);
      IndexedStep(cfg, s, Fold(cfg, events), Emission(cfg, s, e));
      GaplessStep(cfg, s, Fold(cfg, events), Emission(cfg, s, e));
    }
  }

  lemma {:induction false} VariantsAlternate(cfg: Config, events: seq<Event>)
    requires VariantCount(cfg) > 1
    ensures VariantsKnown(Fold(cfg, events)) && NoRepeat(Fold(cfg, events).beats)
  {
    if events == [] {
    } else {
      var front, e := events[..|events| - 1], events[|events| - 1];
      VariantsAlternate(cfg, front);
      var s := Fold(cfg, front);
      StepBeats(cfg, s, e);
      StepCounters(cfg, s, e);
      VariantKnownStep(cfg, s, Fold(cfg, events), Emission(cfg, s, e));
      VariantStep(cfg, s, Fold(cfg, events), Emission(cfg, s, e));
    }
  }

  /** When every run belongs to one employee, no two beats share an id. */
  lemma {:induction false} IdsUnique(cfg: Config, events: seq<Event>, i: nat, j: nat)
    requires forall e, f | e in events && f in events && e.runId == f.runId :: e.employeeId == f.employeeId
    requires i < j < |Fold(cfg, events).beats|
    ensures Fold(cfg, events).beats[i].id != Fold(cfg, events).beats[j].id
  {
    var beats, os := Fold(cfg, events).beats, Origins(cfg, events);
    OriginsOk(cfg, events);
    TracksIndexed(cfg, events);
    BeatEvent(cfg, events, beats[i], os[i]);
    BeatEvent(cfg, events, beats[j], os[j]);
    if beats[i].id == beats[j].id {
      assert events[os[i]].runId == events[os[j]].runId;
      assert SameTrack(beats[i], beats[j]);
    }
  }

  // ---- Parallel fan-out ---------------------------------------------------

  /** A child of `root` that has started and not ended since. */
  ghost predicate OpenChild(events: seq<Event>, root: string, run: string) {
    exists p | 0 <= p < |events| ::
      && StartsChild(events[p]) && events[p].rootRunId == root && events[p].runId == run
      && forall q | p < q < |events| :: !(EndsRun(events[q]) && events[q].rootRunId == root && events[q].runId == run)
  }

  lemma {:induction false} OpenSnoc(front: seq<Event>, e: Event, root: string, run: string)
    ensures OpenChild(front + [e], root, run) <==>
            if StartsChild(e) && e.rootRunId == root && e.runId == run then true
            else OpenChild(front, root, run) && !(EndsRun(e) && e.rootRunId == root && e.runId == run)
  {
    var all, n := front + [e], |front|;
    assert forall q | 0 <= q < n :: all[q] == front[q];
    if StartsChild(e) && e.rootRunId == root && e.runId == run { assert all[n] == e; }
    if OpenChild(all, root, run) && !(StartsChild(e) && e.rootRunId == root && e.runId == run) {
      var p :| 0 <= p < |all| && StartsChild(all[p]) && all[p].rootRunId == root && all[p].runId == run
               && forall q | p < q < |all| :: !(EndsRun(all[q]) && all[q].rootRunId == root && all[q].runId == run);
      assert p < n && StartsChild(front[p]);
      assert all[n] == e;
    }
    if OpenChild(front, root, run) {
      var p :| 0 <= p < n && StartsChild(front[p]) && front[p].rootRunId == root && front[p].runId == run
               && forall q | p < q < n :: !(EndsRun(front[q]) && front[q].rootRunId == root && front[q].runId == run);
      assert StartsChild(all[p]);
    }
  }

  lemma {:induction false} StageRunning(cfg: Config, p: Composition, g: Signal, parallel: bool)
    ensures Stage(cfg, p, g, parallel).running == p.running
  {
  }

  lemma {:induction false} PrepareRunning(s: Composition, e: Event, root: string)
    ensures RunningOf(Prepare(s, e), root) ==
            if root != e.rootRunId then RunningOf(s, root)
            else if StartsChild(e) then RunningOf(s, root) + {e.runId}
            else if EndsRun(e) then RunningOf(s, root) - {e.runId} else RunningOf(s, root)
  {
    ResolveView(TrackStart(s, e), e);
  }

  lemma {:induction false} StepRunning(cfg: Config, s: Composition, e: Event, root: string)
    ensures RunningOf(Step(cfg, s, e), root) == RunningOf(Prepare(s, e), root)
  {
    if Normalize(e).Some? { StageRunning(cfg, Prepare(s, e), Normalize(e).value, StartsParallel(s, e)); }
  }

  lemma {:induction false} RunningIsOpen(cfg: Config, events: seq<Event>, root: string, run: string)
    ensures run in RunningOf(Fold(cfg, events), root) <==> OpenChild(events, root, run)
  {
    if events == [] {
    } else {
      var front, e := events[..|events| - 1], events[|events| - 1];
      RunningIsOpen(cfg, front, root, run);
      StepRunning(cfg, Fold(cfg, front), e, root);
      PrepareRunning(Fold(cfg, front), e, root);
      OpenSnoc(front, e, root, run);
      assert events == front + [e];
    }
  }

  lemma {:induction false} EmissionParallel(cfg: Config, s: Composition, e: Event)
    requires Emission(cfg, s, e).Some?
    ensures Emission(cfg, s, e).value.parallel <==> StartsParallel(s, e)
  {
  }

  /** A beat is parallel iff it stages a child start while a child of the same root was open. */
  lemma {:induction false} ParallelMeansOpenSibling(cfg: Config, events: seq<Event>, i: nat)
    requires i < |Fold(cfg, events).beats|
    ensures |Origins(cfg, events)| == |Fold(cfg, events).beats| && Origins(cfg, events)[i] < |events|
    ensures var o := Origins(cfg, events)[i];
            Fold(cfg, events).beats[i].parallel <==>
            StartsChild(events[o]) && exists run :: OpenChild(events[..o], events[o].rootRunId, run)
  {
    OriginsOk(cfg, events);
    var b, o := Fold(cfg, events).beats[i], Origins(cfg, events)[i];
    assert ComesFrom(cfg, events, b, o);
    var s, root := Fold(cfg, events[..o]), events[o].rootRunId;
    EmissionParallel(cfg, s, events[o]);
    forall run ensures run in RunningOf(s, root) <==> OpenChild(events[..o], root, run) {
      RunningIsOpen(cfg, events[..o], root, run);
    }
    if RunningOf(s, root) != {} {
      var run := Pick(RunningOf(s, root));
      assert OpenChild(events[..o], root, run);
    }
  }
}
