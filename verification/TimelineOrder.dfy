// When the arrival order of events with equal sort keys can show in the timeline.
module TimelineOrder {
  import opened Orders
  import opened Wrappers
  import opened Beats
  import opened TimelineLaws
  import opened TimelineIssues

  /** The key that orders events. */
  function OrderKey(e: Event): (int, int, string) { (e.timestamp, Rank(e.what), Discriminator(e)) }

  /** What `quiet`, which stages nothing, does to the tables is not seen by `other`. */
  predicate Unseen(quiet: Event, other: Event) {
    && !(StartsChild(quiet) && StartsChild(other) && quiet.rootRunId == other.rootRunId)
    && !(Resolves(quiet.what) && quiet.runId == other.runId)
  }

  /** Both stage the same, or nothing; or one stages nothing and is not seen by the other. */
  predicate Interchangeable(a: Event, b: Event) {
    || Normalize(a) == Normalize(b)
    || (Normalize(a).None? && Unseen(a, b))
    || (Normalize(b).None? && Unseen(b, a))
  }

  ghost predicate EqualKeysInterchangeable(events: seq<Event>) {
    forall a, b | a in events && b in events && a != b && OrderKey(a) == OrderKey(b) :: Interchangeable(a, b)
  }

  // ---- Interchangeable events commute in every state -------------------------

  lemma {:induction false} ClampAllAt(beats: seq<Beat>, indices: seq<nat>, at: int)
    ensures forall i: nat | i < |beats| ::
              ClampAll(beats, indices, at)[i] == if i in indices then Clamp(beats[i], at) else beats[i]
  {
    if indices == [] {
    } else {
      var n := |indices| - 1;
      ClampAllAt(beats, indices[..n], at);
      assert indices == indices[..n] + [indices[n]];
    }
  }

  lemma {:induction false} ClampsCommute(beats: seq<Beat>, xs: seq<nat>, ys: seq<nat>, at: int)
    ensures ClampAll(ClampAll(beats, xs, at), ys, at) == ClampAll(ClampAll(beats, ys, at), xs, at)
  {
    ClampAllAt(beats, xs, at);
    ClampAllAt(beats, ys, at);
    ClampAllAt(ClampAll(beats, xs, at), ys, at);
    ClampAllAt(ClampAll(beats, ys, at), xs, at);
  }

  lemma {:induction false} OtherResolves(s: Composition, a: Event, b: Event)
    requires Resolves(b.what) && IssuesOf(s, b.runId) != [] && a.runId != b.runId
    ensures var x := Resolve(s, a);
            Resolve(x, b) == x.(beats := ClampAll(x.beats, IssuesOf(s, b.runId), b.timestamp), issues := x.issues[b.runId := []])
  {
    assert IssuesOf(Resolve(s, a), b.runId) == IssuesOf(s, b.runId);
  }

  lemma {:induction false} OthersCommute(s: Composition, a: Event, b: Event)
    requires a.timestamp == b.timestamp && a.runId != b.runId && Resolves(a.what) && Resolves(b.what)
    requires IssuesOf(s, a.runId) != [] && IssuesOf(s, b.runId) != []
    ensures Resolve(Resolve(s, a), b) == Resolve(Resolve(s, b), a)
  {
    OtherResolves(s, a, b);
    OtherResolves(s, b, a);
    ClampsCommute(s.beats, IssuesOf(s, a.runId), IssuesOf(s, b.runId), a.timestamp);
    assert s.issues[a.runId := []][b.runId := []] == s.issues[b.runId := []][a.runId := []];
  }

  lemma {:induction false} NothingToResolve(s: Composition, a: Event, b: Event)
    requires !Resolves(a.what) || IssuesOf(s, a.runId) == []
    ensures Resolve(s, a) == s && Resolve(Resolve(s, b), a) == Resolve(s, b)
  {
  }

  lemma {:induction false} ResolvedOnce(s: Composition, a: Event, b: Event)
    requires a.timestamp == b.timestamp && a.runId == b.runId && Resolves(a.what) && Resolves(b.what)
    ensures Resolve(s, a) == Resolve(s, b) && Resolve(Resolve(s, a), b) == Resolve(s, a)
  {
  }

  lemma {:induction false} ResolvesCommute(s: Composition, a: Event, b: Event)
    requires a.timestamp == b.timestamp
    ensures Resolve(Resolve(s, a), b) == Resolve(Resolve(s, b), a)
  {
    if !Resolves(a.what) || IssuesOf(s, a.runId) == [] {
      NothingToResolve(s, a, b);
    } else if !Resolves(b.what) || IssuesOf(s, b.runId) == [] {
      NothingToResolve(s, b, a);
    } else if a.runId == b.runId {
      ResolvedOnce(s, a, b);
      ResolvedOnce(s, b, a);
    } else {
      OthersCommute(s, a, b);
    }
  }

  lemma {:induction false} StartsCommute(s: Composition, a: Event, b: Event)
    ensures TrackStart(TrackStart(s, a), b) == TrackStart(TrackStart(s, b), a)
  {
    if StartsChild(a) && StartsChild(b) {
      var x, y := TrackStart(TrackStart(s, a), b), TrackStart(TrackStart(s, b), a);
      assert RunningOf(s, a.rootRunId) + {a.runId} + {b.runId} == RunningOf(s, a.rootRunId) + {b.runId} + {a.runId};
      assert x.running == y.running;
    }
  }

  lemma {:induction false} StartPrepares(s: Composition, e: Event)
    requires e.what.RunStarted?
    ensures Prepare(s, e) == TrackStart(s, e)
  {
  }

  lemma {:induction false} QuietPrepares(s: Composition, e: Event)
    requires !e.what.RunStarted? && !EndsRun(e)
    ensures Prepare(s, e) == Resolve(s, e)
  {
  }

  /** Two events that stage nothing, of one rank. */
  lemma {:induction false} PreparesCommute(s: Composition, a: Event, b: Event)
    requires a.timestamp == b.timestamp && Rank(a.what) == Rank(b.what) && Normalize(a).None? && Normalize(b).None?
    ensures Prepare(Prepare(s, a), b) == Prepare(Prepare(s, b), a)
  {
    if a.what.RunStarted? {
      StartPrepares(s, a);
      StartPrepares(s, b);
      StartPrepares(TrackStart(s, a), b);
      StartPrepares(TrackStart(s, b), a);
      StartsCommute(s, a, b);
    } else {
      QuietPrepares(s, a);
      QuietPrepares(s, b);
      QuietPrepares(Resolve(s, a), b);
      QuietPrepares(Resolve(s, b), a);
      ResolvesCommute(s, a, b);
    }
  }

  lemma {:induction false} SignalNames(e: Event)
    requires Normalize(e).Some?
    ensures var g := Normalize(e).value;
            g.runId == e.runId && g.rootRunId == e.rootRunId && g.at == e.timestamp
    ensures e.what.RunStarted? <==> Rank(e.what) == 0
    ensures EndsRun(e) <==> Rank(e.what) == 6
    ensures Resolves(e.what) <==> !e.what.RunStarted?
  {
  }

  lemma {:induction false} SameSignalSameEvent(a: Event, b: Event)
    requires Rank(a.what) == Rank(b.what) && Normalize(a) == Normalize(b) && Normalize(a).Some?
    ensures a.runId == b.runId && a.rootRunId == b.rootRunId && a.timestamp == b.timestamp
    ensures StartsChild(a) == StartsChild(b) && EndsRun(a) == EndsRun(b) && Resolves(a.what) == Resolves(b.what)
  {
    SignalNames(a);
    SignalNames(b);
  }

  lemma {:induction false} SamePrepare(s: Composition, a: Event, b: Event)
    requires a.runId == b.runId && a.rootRunId == b.rootRunId && a.timestamp == b.timestamp
    requires StartsChild(a) == StartsChild(b) && EndsRun(a) == EndsRun(b) && Resolves(a.what) == Resolves(b.what)
    ensures Prepare(s, a) == Prepare(s, b) && StartsParallel(s, a) == StartsParallel(s, b)
  {
  }

  /** Events of one rank that stage the same signal do the same. */
  lemma {:induction false} SameSignalSameStep(cfg: Config, s: Composition, a: Event, b: Event)
    requires Rank(a.what) == Rank(b.what) && Normalize(a) == Normalize(b) && Normalize(a).Some?
    ensures Step(cfg, s, a) == Step(cfg, s, b)
  {
    SameSignalSameEvent(a, b);
    SamePrepare(s, a, b);
  }

  lemma {:induction false} PushBesideRunning(s: Composition, b: Beat, movement: bool, running: map<string, set<string>>)
    ensures PushBeat(s.(running := running), b, movement) == PushBeat(s, b, movement).(running := running)
    ensures PushBeat(s, b, movement).running == s.running
  {
  }

  /** Staging neither looks at the running children nor changes them. */
  lemma {:induction false} StageBesideRunning(cfg: Config, s: Composition, g: Signal, parallel: bool, running: map<string, set<string>>)
    ensures Stage(cfg, s.(running := running), g, parallel) == Stage(cfg, s, g, parallel).(running := running)
    ensures Stage(cfg, s, g, parallel).running == s.running
  {
    var v := Decide(TimingForPace(cfg), ActorOf(s, g.Key()), g, parallel);
    var u := s.(actors := s.actors[g.Key() := v.actor]);
    assert MakeBeat(cfg, u.(running := running), g, v.movement, v.parallel) == MakeBeat(cfg, u, g, v.movement, v.parallel);
    PushBesideRunning(u, MakeBeat(cfg, u, g, v.movement, v.parallel), v.movement, running);
  }

  lemma {:induction false} ResolveTables(s: Composition, e: Event)
    requires Tracked(s) && Resolves(e.what) && IssuesOf(s, e.runId) != []
    ensures var p, xs := Resolve(s, e), IssuesOf(s, e.runId);
            && p.issues == s.issues[e.runId := []] && |p.beats| == |s.beats|
            && p.actors == s.actors && p.counts == s.counts && p.variants == s.variants && p.running == s.running
            && forall i: nat | i < |s.beats| :: p.beats[i] == if i in xs then Clamp(s.beats[i], e.timestamp) else s.beats[i]
  {
    ResolveView(s, e);
    ClampAllAt(s.beats, IssuesOf(s, e.runId), e.timestamp);
  }

  /** Recording a beat of another run, and ending the issue beats of this one. */
  lemma {:induction false} PushBesideResolve(s: Composition, b: Beat, movement: bool, e: Event)
    requires Tracked(s) && e.runId != b.runId
    ensures PushBeat(Resolve(s, e), b, movement) == Resolve(PushBeat(s, b, movement), e)
  {
    var xs, t := IssuesOf(s, e.runId), PushBeat(s, b, movement);
    assert IssuesOf(t, e.runId) == xs;
    if Resolves(e.what) && xs != [] {
      ResolveTables(s, e);
      ClampAllAt(t.beats, xs, e.timestamp);
      var u := PushBeat(Resolve(s, e), b, movement);
      assert u.beats == ClampAll(t.beats, xs, e.timestamp);
      assert u.issues == t.issues[e.runId := []];
    }
  }

  lemma {:induction false} ResolveBesideActors(s: Composition, e: Event, actors: map<string, ActorState>)
    ensures Resolve(s.(actors := actors), e) == Resolve(s, e).(actors := actors)
    ensures Tracked(s) ==> Tracked(s.(actors := actors))
  {
    assert forall run :: IssuesOf(s.(actors := actors), run) == IssuesOf(s, run);
  }

  lemma {:induction false} SameCountersSameBeat(cfg: Config, s: Composition, t: Composition, g: Signal, movement: bool, parallel: bool)
    requires s.counts == t.counts && s.variants == t.variants
    ensures MakeBeat(cfg, s, g, movement, parallel) == MakeBeat(cfg, t, g, movement, parallel)
  {
  }

  lemma {:induction false} StageBesideResolve(cfg: Config, s: Composition, g: Signal, parallel: bool, e: Event)
    requires Tracked(s) && e.runId != g.runId
    ensures Stage(cfg, Resolve(s, e), g, parallel) == Resolve(Stage(cfg, s, g, parallel), e)
  {
    ResolveView(s, e);
    var v := Decide(TimingForPace(cfg), ActorOf(s, g.Key()), g, parallel);
    var s', p := s.(actors := s.actors[g.Key() := v.actor]), Resolve(s, e);
    ResolveBesideActors(s, e, s'.actors);
    if v.emits {
      SameCountersSameBeat(cfg, s', Resolve(s', e), g, v.movement, v.parallel);
      PushBesideResolve(s', MakeBeat(cfg, s', g, v.movement, v.parallel), v.movement, e);
    }
  }

  lemma {:induction false} NothingHappens(cfg: Config, s: Composition, e: Event)
    requires Normalize(e).None? && !e.what.RunStarted? && !e.what.ToolCompleted?
    ensures Step(cfg, s, e) == s
  {
    QuietPrepares(s, e);
  }

  /** A quiet event that `b` does not see: it may come before or after. */
  lemma {:induction false} UnseenCommutes(cfg: Config, s: Composition, a: Event, b: Event)
    requires Tracked(s) && a.timestamp == b.timestamp && Rank(a.what) == Rank(b.what)
    requires Normalize(a).None? && Normalize(b).Some? && Unseen(a, b)
    ensures Step(cfg, Step(cfg, s, a), b) == Step(cfg, Step(cfg, s, b), a)
  {
    if a.what.RunStarted? {
      StartBeside(cfg, s, a, b);
    } else if a.what.ToolCompleted? {
      ResolveBeside(cfg, s, a, b);
    } else {
      NothingHappens(cfg, s, a);
      NothingHappens(cfg, Step(cfg, s, b), a);
    }
  }

  lemma {:induction false} StartSteps(cfg: Config, s: Composition, e: Event)
    requires e.what.RunStarted?
    ensures Step(cfg, s, e) ==
            if Normalize(e).None? then TrackStart(s, e)
            else Stage(cfg, TrackStart(s, e), Normalize(e).value, StartsParallel(s, e))
  {
    StartPrepares(s, e);
  }

  lemma {:induction false} StartRunning(s: Composition, e: Event, running: map<string, set<string>>)
    requires s.running == running
    ensures TrackStart(s, e) == s.(running := TrackStart(s, e).running)
    ensures TrackStart(s, e).running == TrackStart(EMPTY.(running := running), e).running
  {
  }

  lemma {:induction false} StartBeside(cfg: Config, s: Composition, a: Event, b: Event)
    requires a.what.RunStarted? && b.what.RunStarted? && Normalize(a).None? && Normalize(b).Some? && Unseen(a, b)
    ensures Step(cfg, Step(cfg, s, a), b) == Step(cfg, Step(cfg, s, b), a)
  {
    var g, p, x, y := Normalize(b).value, StartsParallel(s, b), TrackStart(s, a), TrackStart(s, b);
    var w := Stage(cfg, y, g, p);
    StartSteps(cfg, s, a);
    StartSteps(cfg, x, b);
    StartSteps(cfg, s, b);
    StartSteps(cfg, w, a);
    StartsCommute(s, a, b);
    assert StartsParallel(x, b) == p;
    StageBesideRunning(cfg, y, g, p, TrackStart(y, a).running);
    StartRunning(y, a, y.running);
    StartRunning(w, a, y.running);
  }

  lemma {:induction false} ToolSteps(cfg: Config, s: Composition, e: Event)
    requires e.what.ToolCompleted?
    ensures Step(cfg, s, e) == if Normalize(e).None? then Resolve(s, e) else Stage(cfg, Resolve(s, e), Normalize(e).value, false)
    ensures Tracked(s) ==> Tracked(Resolve(s, e))
  {
    QuietPrepares(s, e);
    if Tracked(s) { TrackedPrepare(s, e); }
  }

  lemma {:induction false} ResolveBeside(cfg: Config, s: Composition, a: Event, b: Event)
    requires Tracked(s) && a.timestamp == b.timestamp
    requires a.what.ToolCompleted? && b.what.ToolCompleted? && Normalize(a).None? && Normalize(b).Some? && Unseen(a, b)
    ensures Step(cfg, Step(cfg, s, a), b) == Step(cfg, Step(cfg, s, b), a)
  {
    var g := Normalize(b).value;
    NormalizeWellFormed(b);
    ToolSteps(cfg, s, a);
    ToolSteps(cfg, Resolve(s, a), b);
    ToolSteps(cfg, s, b);
    ToolSteps(cfg, Step(cfg, s, b), a);
    ResolvesCommute(s, a, b);
    StageBesideResolve(cfg, Resolve(s, b), g, false, a);
  }

  /** Interchangeable events of one time and rank commute in every state a stream leads to. */
  lemma {:induction false} InterchangeableCommute(cfg: Config, s: Composition, a: Event, b: Event)
    requires Tracked(s) && a.timestamp == b.timestamp && Rank(a.what) == Rank(b.what) && Interchangeable(a, b)
    ensures Step(cfg, Step(cfg, s, a), b) == Step(cfg, Step(cfg, s, b), a)
  {
    if Normalize(a).None? && Normalize(b).None? {
      PreparesCommute(s, a, b);
    } else if Normalize(a) == Normalize(b) {
      SameSignalSameStep(cfg, s, a, b);
      SameSignalSameStep(cfg, Step(cfg, s, a), a, b);
    } else if Normalize(a).None? {
      UnseenCommutes(cfg, s, a, b);
    } else {
      UnseenCommutes(cfg, s, b, a);
    }
  }

  // ---- Every permutation -------------------------------------------------------

  lemma {:induction false} NeitherLessIsEqualKey(a: Event, b: Event)
    ensures !EventLess(a, b) && !EventLess(b, a) <==> OrderKey(a) == OrderKey(b)
  {
    StrTotal(Discriminator(a), Discriminator(b));
    StrTotal(Discriminator(a), Discriminator(a));
  }

  lemma {:induction false} FoldTracked(cfg: Config, events: seq<Event>)
    ensures Tracked(Fold(cfg, events))
  {
    IssueBeatsEndWhenResolved(cfg, events);
  }

  lemma {:induction false} SwapLast(cfg: Config, front: seq<Event>, a: Event, b: Event)
    requires OrderKey(a) == OrderKey(b) && Interchangeable(a, b)
    ensures Fold(cfg, front + [a] + [b]) == Fold(cfg, front + [b] + [a])
  {
    FoldTracked(cfg, front);
    InterchangeableCommute(cfg, Fold(cfg, front), a, b);
    FoldSnoc(cfg, front, a);
    FoldSnoc(cfg, front, b);
    FoldSnoc(cfg, front + [a], b);
    FoldSnoc(cfg, front + [b], a);
  }

  lemma {:induction false} SwapBehind(cfg: Config, p: seq<Event>, q: seq<Event>, x: Event, y: Event)
    requires Fold(cfg, p) == Fold(cfg, q + [x]) && OrderKey(x) == OrderKey(y) && Interchangeable(x, y)
    ensures Fold(cfg, p + [y]) == Fold(cfg, q + [y] + [x])
  {
    SwapLast(cfg, q, x, y);
    FoldSnoc(cfg, p, y);
    FoldSnoc(cfg, q + [x], y);
  }

  lemma {:induction false} Rejoin<T>(front: seq<T>, x: T, init: seq<T>, y: T)
    ensures front + [x] + (init + [y]) == front + [x] + init + [y]
    ensures front + (init + [y]) + [x] == front + init + [y] + [x]
  {
  }

  ghost predicate Swaps(x: Event, y: Event) { OrderKey(x) == OrderKey(y) && Interchangeable(x, y) }

  /** An event may move behind all later ones of its key that it can change places with. */
  lemma {:induction false} MoveToEnd(cfg: Config, front: seq<Event>, x: Event, rest: seq<Event>)
    requires forall k | 0 <= k < |rest| :: Swaps(x, rest[k])
    ensures Fold(cfg, front + [x] + rest) == Fold(cfg, front + rest + [x])
    decreases |rest|
  {
    if rest == [] {
      assert front + [x] + rest == front + rest + [x];
    } else {
      var init, y := rest[..|rest| - 1], rest[|rest| - 1];
      assert rest == init + [y];
      MoveToEnd(cfg, front, x, init);
      SwapBehind(cfg, front + [x] + init, front + init, x, y);
      Rejoin(front, x, init, y);
    }
  }

  lemma {:induction false} SortedAt<T(!new)>(less: (T, T) -> bool, s: seq<T>, i: nat, j: nat)
    requires Sorted(less, s) && i < j < |s|
    ensures !less(s[j], s[i])
  {
  }

  /** Behind an event that some sorted arrangement puts last, only events of its key follow. */
  lemma {:induction false} FollowerSharesKey(s: seq<Event>, t: seq<Event>, i: nat, j: nat)
    requires Sorted(EventLess, s) && Sorted(EventLess, t) && multiset(s) == multiset(t)
    requires s != [] && i < j < |t| && t[i] == s[|s| - 1]
    ensures t[j] in s && OrderKey(t[i]) == OrderKey(t[j])
  {
    SameElements(s, t);
    SortedAt(EventLess, t, i, j);
    assert t[j] in t;
    var k :| 0 <= k < |s| && s[k] == t[j];
    if k < |s| - 1 { SortedAt(EventLess, s, k, |s| - 1); }
    if t[i] != t[j] { NeitherLessIsEqualKey(t[i], t[j]); }
  }

  lemma {:induction false} WithoutSorted(t: seq<Event>, i: nat)
    requires Sorted(EventLess, t) && i < |t|
    ensures Sorted(EventLess, t[..i] + t[i + 1..]) && multiset(t[..i] + t[i + 1..]) == multiset(t) - multiset{t[i]}
  {
    var u := t[..i] + t[i + 1..];
    forall a, b | 0 <= a < b < |u| ensures !EventLess(u[b], u[a]) {
      assert u[a] == t[if a < i then a else a + 1] && u[b] == t[if b < i then b else b + 1];
    }
    Without(t, i);
  }

  lemma {:induction false} FewerInterchangeable(s: seq<Event>, t: seq<Event>)
    requires EqualKeysInterchangeable(s) && forall e | e in t :: e in s
    ensures EqualKeysInterchangeable(t)
  {
  }

  lemma {:induction false} SwapsIn(s: seq<Event>, x: Event, y: Event)
    requires EqualKeysInterchangeable(s) && x in s && y in s && OrderKey(x) == OrderKey(y)
    ensures Swaps(x, y)
  {
  }

  lemma {:induction false} FollowerSwaps(s: seq<Event>, t: seq<Event>, i: nat, j: nat)
    requires Sorted(EventLess, s) && Sorted(EventLess, t) && multiset(s) == multiset(t)
    requires EqualKeysInterchangeable(s) && s != [] && i < j < |t| && t[i] == s[|s| - 1]
    ensures Swaps(t[i], t[j])
  {
    FollowerSharesKey(s, t, i, j);
    assert s[|s| - 1] in s;
    SwapsIn(s, t[i], t[j]);
  }

  lemma {:induction false} FollowersSwap(s: seq<Event>, t: seq<Event>, i: nat)
    requires Sorted(EventLess, s) && Sorted(EventLess, t) && multiset(s) == multiset(t)
    requires EqualKeysInterchangeable(s) && s != [] && i < |t| && t[i] == s[|s| - 1]
    ensures forall j | i < j < |t| :: Swaps(t[i], t[j])
  {
    forall j | i < j < |t| ensures Swaps(t[i], t[j]) {
      FollowerSwaps(s, t, i, j);
    }
  }

  lemma {:induction false} SplitAt<T>(t: seq<T>, i: nat)
    requires i < |t|
    ensures t == t[..i] + [t[i]] + t[i + 1..]
  {
  }

  lemma {:induction false} FollowersOf(t: seq<Event>, i: nat)
    requires i < |t| && forall j | i < j < |t| :: Swaps(t[i], t[j])
    ensures var rest := t[i + 1..]; forall k | 0 <= k < |rest| :: Swaps(t[i], rest[k])
  {
    var rest := t[i + 1..];
    forall k | 0 <= k < |rest| ensures Swaps(t[i], rest[k]) {
      assert rest[k] == t[i + 1 + k];
    }
  }

  lemma {:induction false} MovedOut(cfg: Config, t: seq<Event>, i: nat)
    requires i < |t| && forall j | i < j < |t| :: Swaps(t[i], t[j])
    ensures Fold(cfg, t) == Fold(cfg, t[..i] + t[i + 1..] + [t[i]])
  {
    FollowersOf(t, i);
    SplitAt(t, i);
    MoveToEnd(cfg, t[..i], t[i], t[i + 1..]);
  }

  lemma {:induction false} FoldsAgreeSnoc(cfg: Config, p: seq<Event>, q: seq<Event>, x: Event)
    requires Fold(cfg, p) == Fold(cfg, q)
    ensures Fold(cfg, p + [x]) == Fold(cfg, q + [x])
  {
    FoldSnoc(cfg, p, x);
    FoldSnoc(cfg, q, x);
  }

  lemma {:induction false} Occurs(s: seq<Event>, t: seq<Event>) returns (i: nat)
    requires multiset(s) == multiset(t) && s != []
    ensures i < |t| && t[i] == s[|s| - 1]
  {
    SameElements(s, t);
    assert s[|s| - 1] in t;
    i :| 0 <= i < |t| && t[i] == s[|s| - 1];
  }

  /** Two sorted arrangements of one stream whose equal keys are harmless. */
  ghost predicate Arranged(s: seq<Event>, t: seq<Event>) {
    Sorted(EventLess, s) && Sorted(EventLess, t) && multiset(s) == multiset(t) && EqualKeysInterchangeable(s)
  }

  lemma {:induction false} ArrangedWithout(s: seq<Event>, t: seq<Event>, i: nat)
    requires Arranged(s, t) && s != [] && i < |t| && t[i] == s[|s| - 1]
    ensures Arranged(s[..|s| - 1], t[..i] + t[i + 1..])
  {
    var front := s[..|s| - 1];
    WithoutSorted(t, i);
    SortedPrefix(EventLess, s, |s| - 1);
    DropLast(s);
    assert forall e | e in front :: e in s;
    FewerInterchangeable(s, front);
  }

  lemma {:induction false} ArrangedMovedOut(cfg: Config, s: seq<Event>, t: seq<Event>, i: nat)
    requires Arranged(s, t) && s != [] && i < |t| && t[i] == s[|s| - 1]
    ensures Fold(cfg, t) == Fold(cfg, t[..i] + t[i + 1..] + [t[i]])
  {
    FollowersSwap(s, t, i);
    MovedOut(cfg, t, i);
  }

  lemma {:induction false} LastAdded(cfg: Config, s: seq<Event>, u: seq<Event>)
    requires s != [] && Fold(cfg, s[..|s| - 1]) == Fold(cfg, u)
    ensures Fold(cfg, s) == Fold(cfg, u + [s[|s| - 1]])
  {
    FoldsAgreeSnoc(cfg, s[..|s| - 1], u, s[|s| - 1]);
    assert s == s[..|s| - 1] + [s[|s| - 1]];
  }

  lemma {:induction false} ArrangedOccurs(s: seq<Event>, t: seq<Event>) returns (i: nat)
    requires Arranged(s, t) && s != []
    ensures i < |t| && t[i] == s[|s| - 1] && Arranged(s[..|s| - 1], t[..i] + t[i + 1..])
  {
    i := Occurs(s, t);
    ArrangedWithout(s, t, i);
  }

  lemma {:induction false} ArrangedFoldsAgree(cfg: Config, s: seq<Event>, t: seq<Event>)
    requires Arranged(s, t)
    ensures Fold(cfg, s) == Fold(cfg, t)
    decreases |s|
  {
    if s == [] {
      SameElements(s, t);
    } else {
      var i := ArrangedOccurs(s, t);
      ArrangedMovedOut(cfg, s, t, i);
      ArrangedFoldsAgree(cfg, s[..|s| - 1], t[..i] + t[i + 1..]);
      LastAdded(cfg, s, t[..i] + t[i + 1..]);
    }
  }

  /** When events of equal keys are interchangeable the async bus cannot influence the timeline. */
  lemma {:induction false} ArrivalOrderIrrelevant(cfg: Config, events: seq<Event>, shuffled: seq<Event>)
    requires multiset(events) == multiset(shuffled) && EqualKeysInterchangeable(events)
    ensures Compose(cfg, events) == Compose(cfg, shuffled)
  {
    var s, t := Sort(EventLess, events), Sort(EventLess, shuffled);
    EventLessWeak();
    SortSorted(EventLess, events);
    SortSorted(EventLess, shuffled);
    SameElements(events, s);
    FewerInterchangeable(events, s);
    ArrangedFoldsAgree(cfg, s, t);
  }

  // ---- Exactly when the order of two equal keys shows --------------------------

  lemma {:induction false} FoldTwo(cfg: Config, a: Event, b: Event)
    ensures Fold(cfg, [a, b]) == Step(cfg, Step(cfg, EMPTY, a), b)
  {
    FoldSnoc(cfg, [], a);
    FoldSnoc(cfg, [a], b);
    assert [] + [a] == [a] && [a] + [b] == [a, b];
  }

  lemma {:induction false} ComposeTwo(cfg: Config, a: Event, b: Event)
    requires OrderKey(a) == OrderKey(b)
    ensures Compose(cfg, [a, b]) == Step(cfg, Step(cfg, EMPTY, a), b).beats
  {
    NeitherLessIsEqualKey(a, b);
    SortFixpoint(EventLess, [a, b]);
    FoldTwo(cfg, a, b);
  }

  /** The first beat of a signal shows all of it but whether sustained activity relocates. */
  ghost predicate Shows(b: Beat, g: Signal) {
    && b.id == BeatId(g.runId, g.kind, 0) && b.kind == g.kind && b.priority == g.priority
    && b.rootRunId == g.rootRunId && b.runId == g.runId && b.employeeId == g.employeeId
    && b.affordance == g.affordance && b.movement == g.movement && b.interrupt == g.interrupt
    && b.artifact == g.milestone && b.detail == g.detail && b.at == g.at
  }

  lemma {:induction false} StageFirst(cfg: Config, p: Composition, g: Signal, parallel: bool)
    requires p.beats == [] && p.actors == map[] && p.counts == map[]
    requires WellFormed(g) && (g.interrupt || (IsActivityKind(g.kind) && !g.milestone) ==> !g.movement)
    ensures var beats := Stage(cfg, p, g, parallel).beats;
            && |beats| == 1 && Shows(beats[0], g)
            && beats[0].parallel == (parallel && !g.interrupt && !IsActivityKind(g.kind))
            && (IsIssue(g.kind) ==> beats[0].endsAt == g.at + ISSUE_MS)
  {
    assert ActorOf(p, g.Key()) == ActorState(None, None);
  }

  lemma {:induction false} InPlaceSignals(e: Event)
    requires Normalize(e).Some?
    ensures var g := Normalize(e).value;
            && (g.interrupt || (IsActivityKind(g.kind) && !g.milestone) ==> !g.movement)
            && (e.what.RunStarted? ==> !g.interrupt && !IsActivityKind(g.kind))
  {
  }

  lemma {:induction false} StepFirst(cfg: Config, s: Composition, e: Event)
    requires s.beats == [] && s.actors == map[] && s.counts == map[] && Normalize(e).Some?
    ensures var beats, g := Step(cfg, s, e).beats, Normalize(e).value;
            && |beats| == 1 && Shows(beats[0], g)
            && beats[0].parallel == (StartsParallel(s, e) && !g.interrupt && !IsActivityKind(g.kind))
            && (IsIssue(g.kind) ==> beats[0].endsAt == g.at + ISSUE_MS)
  {
    PrepareView(s, e);
    NormalizeWellFormed(e);
    InPlaceSignals(e);
    StageFirst(cfg, Prepare(s, e), Normalize(e).value, StartsParallel(s, e));
  }

  lemma {:induction false} ShownIsTheSame(x: Beat, y: Beat, g: Signal)
    requires Bare(x) == Bare(y) && Shows(x, g)
    ensures Shows(y, g)
  {
  }

  lemma {:induction false} RelocatesShown(e: Event)
    requires Normalize(e).Some?
    ensures var g := Normalize(e).value;
            g.relocates == (g.detail.activityKind.Some? && Relocates(g.detail.activityKind.value))
  {
  }

  lemma {:induction false} ShownTwice(b: Beat, g: Signal, h: Signal)
    requires Shows(b, g) && Shows(b, h) && g.relocates == h.relocates
    ensures g == h
  {
  }

  lemma {:induction false} FirstShows(cfg: Config, a: Event, b: Event)
    requires OrderKey(a) == OrderKey(b) && Normalize(a).Some?
    ensures Compose(cfg, [a, b]) != [] && Shows(Compose(cfg, [a, b])[0], Normalize(a).value)
  {
    ComposeTwo(cfg, a, b);
    StepFirst(cfg, EMPTY, a);
    StepBeats(cfg, Step(cfg, EMPTY, a), b);
    ShownIsTheSame(Step(cfg, EMPTY, a).beats[0], Compose(cfg, [a, b])[0], Normalize(a).value);
  }

  lemma {:induction false} TwoSignalsShow(cfg: Config, a: Event, b: Event)
    requires OrderKey(a) == OrderKey(b) && Normalize(a).Some? && Normalize(b).Some? && Normalize(a) != Normalize(b)
    ensures Compose(cfg, [a, b]) != Compose(cfg, [b, a])
  {
    FirstShows(cfg, a, b);
    FirstShows(cfg, b, a);
    RelocatesShown(a);
    RelocatesShown(b);
    var first, g, h := Compose(cfg, [a, b])[0], Normalize(a).value, Normalize(b).value;
    if Shows(first, h) { ShownTwice(first, g, h); }
  }

  /** A child start without an employee makes the next child start of its root parallel. */
  lemma {:induction false} QuietStartSteps(cfg: Config, a: Event, b: Event)
    requires Normalize(a).None? && Normalize(b).Some?
    requires StartsChild(a) && StartsChild(b) && a.rootRunId == b.rootRunId
    ensures Step(cfg, Step(cfg, EMPTY, a), b).beats != Step(cfg, Step(cfg, EMPTY, b), a).beats
  {
    var x, y := TrackStart(EMPTY, a), Step(cfg, EMPTY, b);
    StartSteps(cfg, EMPTY, a);
    assert a.runId in RunningOf(x, b.rootRunId);
    InPlaceSignals(b);
    StepFirst(cfg, x, b);
    assert RunningOf(EMPTY, b.rootRunId) == {};
    StepFirst(cfg, EMPTY, b);
    StartSteps(cfg, y, a);
  }

  lemma {:induction false} QuietOnEmpty(cfg: Config, e: Event)
    requires Normalize(e).None? && e.what.ToolCompleted?
    ensures Step(cfg, EMPTY, e) == EMPTY
  {
    QuietPrepares(EMPTY, e);
  }

  /** A tool of the run that succeeded in the same millisecond ends the failure beat before it. */
  lemma {:induction false} QuietEndsFailure(cfg: Config, a: Event, b: Event)
    requires Normalize(a).None? && a.what.ToolCompleted? && Normalize(b).Some? && b.what.ToolCompleted? && a.runId == b.runId
    ensures var beats := Step(cfg, Step(cfg, EMPTY, b), a).beats;
            beats != [] && beats[0].endsAt <= a.timestamp
  {
    var y := Step(cfg, EMPTY, b);
    FirstTracked(cfg, b);
    FailureIsTracked(cfg, b);
    StepFirst(cfg, EMPTY, b);
    ToolSteps(cfg, y, a);
    ResolveTables(y, a);
  }

  lemma {:induction false} FirstTracked(cfg: Config, e: Event)
    ensures Tracked(Step(cfg, EMPTY, e))
  {
    FoldTracked(cfg, [e]);
    FoldSnoc(cfg, [], e);
    assert [] + [e] == [e];
  }

  lemma {:induction false} FailureLasts(cfg: Config, e: Event)
    requires Normalize(e).Some? && e.what.ToolCompleted?
    ensures var beats := Step(cfg, EMPTY, e).beats;
            beats != [] && beats[0].endsAt == e.timestamp + ISSUE_MS
  {
    NormalizeWellFormed(e);
    StepFirst(cfg, EMPTY, e);
  }

  lemma {:induction false} QuietResolveSteps(cfg: Config, a: Event, b: Event)
    requires Normalize(a).None? && Normalize(b).Some? && a.timestamp == b.timestamp && a.runId == b.runId
    requires a.what.ToolCompleted? && b.what.ToolCompleted?
    ensures Step(cfg, Step(cfg, EMPTY, a), b).beats != Step(cfg, Step(cfg, EMPTY, b), a).beats
  {
    QuietOnEmpty(cfg, a);
    QuietEndsFailure(cfg, a, b);
    FailureLasts(cfg, b);
  }

  lemma {:induction false} FailureIsTracked(cfg: Config, e: Event)
    requires Normalize(e).Some? && e.what.ToolCompleted?
    ensures IssuesOf(Step(cfg, EMPTY, e), e.runId) == [0]
  {
    var p := Prepare(EMPTY, e);
    QuietPrepares(EMPTY, e);
    NormalizeWellFormed(e);
    StageIssues(cfg, p, Normalize(e).value, StartsParallel(EMPTY, e));
  }

  lemma {:induction false} SeenSteps(cfg: Config, a: Event, b: Event)
    requires a.timestamp == b.timestamp && Rank(a.what) == Rank(b.what)
    requires Normalize(a).None? && Normalize(b).Some? && !Unseen(a, b)
    ensures Step(cfg, Step(cfg, EMPTY, a), b).beats != Step(cfg, Step(cfg, EMPTY, b), a).beats
  {
    if a.what.RunStarted? { QuietStartSteps(cfg, a, b); } else { QuietResolveSteps(cfg, a, b); }
  }

  lemma {:induction false} SeenShows(cfg: Config, a: Event, b: Event)
    requires OrderKey(a) == OrderKey(b) && Normalize(a).None? && Normalize(b).Some? && !Unseen(a, b)
    ensures Compose(cfg, [a, b]) != Compose(cfg, [b, a])
  {
    ComposeTwo(cfg, a, b);
    ComposeTwo(cfg, b, a);
    SeenSteps(cfg, a, b);
  }

  lemma {:induction false} PairPermutes(a: Event, b: Event)
    requires Interchangeable(a, b)
    ensures multiset([a, b]) == multiset([b, a]) && EqualKeysInterchangeable([a, b])
  {
  }

  /** The order of two events with one key shows exactly when they are not interchangeable. */
  lemma {:induction false} OrderShowsIff(cfg: Config, a: Event, b: Event)
    requires OrderKey(a) == OrderKey(b)
    ensures Compose(cfg, [a, b]) == Compose(cfg, [b, a]) <==> Interchangeable(a, b)
  {
    if Interchangeable(a, b) {
      PairPermutes(a, b);
      ArrivalOrderIrrelevant(cfg, [a, b], [b, a]);
    } else if Normalize(a).None? {
      SeenShows(cfg, a, b);
    } else if Normalize(b).None? {
      SeenShows(cfg, b, a);
    } else {
      TwoSignalsShow(cfg, a, b);
    }
  }

  /** Two artifacts of one run in one millisecond share a key, and two employees deliver them. */
  lemma {:induction false} SameMillisecondArtifacts(cfg: Config)
    ensures var a := Event(ArtifactCreated, "thread", "root", "run", Some("ann"), None, "", "", 0);
            var b := a.(employeeId := Some("bob"));
            OrderKey(a) == OrderKey(b) && Compose(cfg, [a, b]) != Compose(cfg, [b, a])
  {
    var a := Event(ArtifactCreated, "thread", "root", "run", Some("ann"), None, "", "", 0);
    var b := a.(employeeId := Some("bob"));
    assert "ann"[0] != "bob"[0];
    assert Normalize(a).value.employeeId != Normalize(b).value.employeeId;
    OrderShowsIff(cfg, a, b);
  }
}
