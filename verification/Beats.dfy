// The beat composer as a fold over the ordered event stream.
module Beats {
  import opened Orders
  import opened Wrappers

  datatype ActivityKind = Read | Search | Write | Edit | Shell | Build | Test | Inspect | Wait

  datatype BeatKind =
    | ReceiveTask | Plan | Delegate | Review | Join | Approval | Failure | Cancelled | Complete
    | Activity | Research | Produce | Compute

  datatype Affordance =
    | Workstation | ServerInspect | ReadingSeat | BoardPresenter | StandingReview | DeliveryShelf

  datatype EventType =
    | RunStarted(review: bool)
    | RunDelta
    | ToolStarted(tool: ActivityKind)
    | ToolCompleted(failed: bool)
    | ArtifactCreated
    | ApprovalRequested
    | ComputerTargetSelected
    | ComputerSensitivePaused
    | RunCompleted
    | RunFailed
    | RunCancelled

  /**
   * `payloadId` is the tool-call, request, objective or status text of the payload, `intent` the
   * artifact or failure kind in it.
   */
  datatype Event = Event(
    what: EventType, threadId: string, rootRunId: string, runId: string, employeeId: Option<string>,
    workKind: Option<string>, payloadId: string, intent: string, timestamp: int)

  /** What a beat shows of its event beside its kind; visual and flow are tables over this and the kind. */
  datatype Detail = Detail(
    threadId: string, workKind: Option<string>, activityKind: Option<ActivityKind>, intent: Option<string>)

  datatype Timing = Timing(microMinMs: int, movementCooldownMs: int, sustainedRelocationMs: int)

  const DEFAULT_TIMING := Timing(2500, 8000, 4000)

  datatype Config = Config(
    timing: Timing, beatHold: real, transition: real, variantCount: int,
    hash: (string, string, Option<string>, BeatKind, nat) -> nat)

  /** A beat id is the text run:kind:index, which determines the three parts. */
  datatype BeatId = BeatId(runId: string, kind: BeatKind, index: nat)

  datatype Beat = Beat(
    id: BeatId, kind: BeatKind, priority: int, rootRunId: string, runId: string, employeeId: Option<string>,
    affordance: Option<Affordance>, movement: bool, parallel: bool, interrupt: bool, artifact: bool,
    detail: Detail, variant: int, at: int, endsAt: int)
  {
    function Key(): string { if employeeId.Some? then employeeId.value else runId }
  }

  datatype Signal = Signal(
    rootRunId: string, runId: string, employeeId: Option<string>, kind: BeatKind, priority: int,
    affordance: Option<Affordance>, movement: bool, interrupt: bool, relocates: bool, milestone: bool,
    detail: Detail, at: int)
  {
    function Key(): string { if employeeId.Some? then employeeId.value else runId }
  }

  // ---- Timing -------------------------------------------------------------

  function BeatLifespanMs(kind: BeatKind): int {
    match kind
    case Approval | Failure => 600_000
    case Delegate | Review | Join => 8_000
    case Complete | Cancelled => 4_500
    case Activity | Research | Produce | Compute => 3_000
    case ReceiveTask | Plan => 6_000
  }

  function Round(r: real): int { (r + 0.5).Floor }

  function BoundedMultiplier(m: real): real {
    if m < 0.55 then 0.55 else if m > 1.0 then 1.0 else m
  }

  function AtLeast(floor: int, v: int): int { if v < floor then floor else v }

  function TimingForPace(cfg: Config): Timing {
    var m := BoundedMultiplier(cfg.transition);
    Timing(AtLeast(1_200, Round(cfg.timing.microMinMs as real * m)),
           AtLeast(4_500, Round(cfg.timing.movementCooldownMs as real * m)),
           AtLeast(2_200, Round(cfg.timing.sustainedRelocationMs as real * m)))
  }

  function PacedLifespanMs(kind: BeatKind, hold: real): int {
    if kind == Approval || kind == Failure then BeatLifespanMs(kind)
    else AtLeast(1_800, Round(BeatLifespanMs(kind) as real * BoundedMultiplier(hold)))
  }

  const DELIVERY_MS := 24_000

  // ---- Normalization ------------------------------------------------------

  function KindOf(t: ActivityKind): BeatKind {
    match t
    case Read | Search => Research
    case Write | Edit => Produce
    case Shell | Build | Test => Compute
    case Inspect | Wait => Activity
  }

  function Relocates(t: ActivityKind): bool {
    t in {Read, Search, Shell, Build, Test}
  }

  function AffordanceOf(t: ActivityKind): Option<Affordance> {
    match t
    case Read | Search => Some(ReadingSeat)
    case Write | Edit | Inspect => Some(Workstation)
    case Shell | Build | Test => Some(ServerInspect)
    case Wait => None
  }

  predicate IsChild(e: Event) { e.runId != e.rootRunId }

  function Normalize(e: Event): Option<Signal> {
    var base := (kind: BeatKind, priority: int, affordance: Option<Affordance>, movement: bool, interrupt: bool) =>
      Signal(e.rootRunId, e.runId, e.employeeId, kind, priority, affordance, movement, interrupt, false, false,
             Detail(e.threadId, e.workKind, None, None), e.timestamp);
    match e.what
    case RunStarted(review) =>
      if e.employeeId.None? || e.employeeId.value == "" then None
      else if e.workKind == Some("plan") then Some(base(Plan, 60, Some(BoardPresenter), true, false))
      else if review then Some(base(Review, 75, Some(StandingReview), true, false))
      else if IsChild(e) then Some(base(Delegate, 75, Some(Workstation), true, false))
      else Some(base(ReceiveTask, 10, Some(Workstation), false, false))
    case ToolStarted(t) =>
      Some(base(KindOf(t), if t == Inspect || t == Wait then 10 else 30, AffordanceOf(t), false, false)
           .(relocates := Relocates(t), detail := Detail(e.threadId, e.workKind, Some(t), None)))
    case ToolCompleted(failed) => if failed then Some(base(Failure, 90, None, false, true)) else None
    case ArtifactCreated =>
      Some(base(Produce, 30, Some(DeliveryShelf), true, false)
           .(milestone := true, detail := Detail(e.threadId, e.workKind, None, Some(e.intent))))
    case ApprovalRequested => Some(base(Approval, 100, None, false, true))
    case RunFailed =>
      Some(base(Failure, 90, None, false, true).(detail := Detail(e.threadId, e.workKind, None, Some(e.intent))))
    case RunCancelled => Some(base(Cancelled, 60, None, false, true))
    case RunCompleted =>
      if IsChild(e) then Some(base(Join, 75, Some(StandingReview), true, false))
      else Some(base(Complete, 60, Some(BoardPresenter), true, false))
    case _ => None
  }

  predicate IsActivityKind(k: BeatKind) { k == Research || k == Produce || k == Compute || k == Activity }

  predicate IsIssue(k: BeatKind) { k == Approval || k == Failure }

  // ---- Canonical order ----------------------------------------------------

  function Rank(t: EventType): int {
    match t
    case RunStarted(_) => 0
    case RunDelta => 1
    case ToolStarted(_) => 2
    case ToolCompleted(_) => 3
    case ArtifactCreated => 4
    case ApprovalRequested | ComputerTargetSelected | ComputerSensitivePaused => 5
    case RunCompleted | RunFailed | RunCancelled => 6
  }

  function TypeName(t: EventType): string {
    match t
    case RunStarted(_) => "run.started"
    case RunDelta => "run.delta"
    case ToolStarted(_) => "tool.started"
    case ToolCompleted(_) => "tool.completed"
    case ArtifactCreated => "artifact.created"
    case ApprovalRequested => "approval.requested"
    case ComputerTargetSelected => "computer.target.selected"
    case ComputerSensitivePaused => "computer.sensitive.paused"
    case RunCompleted => "run.completed"
    case RunFailed => "run.failed"
    case RunCancelled => "run.cancelled"
  }

  function Discriminator(e: Event): string {
    e.runId + "|" + TypeName(e.what) + "|" + e.payloadId
  }

  /** Timestamp, then rank, then discriminator; the stable sort keeps arrival order of equals. */
  predicate EventLess(a: Event, b: Event) {
    || a.timestamp < b.timestamp
    || (a.timestamp == b.timestamp && IntThenStr((Rank(a.what), Discriminator(a)), (Rank(b.what), Discriminator(b))))
  }

  // ---- State --------------------------------------------------------------

  datatype Stream = Stream(kind: BeatKind, startedAt: int, lastAt: int, relocated: bool)

  datatype ActorState = ActorState(lastMovementAt: Option<int>, activity: Option<Stream>)

  datatype Composition = Composition(
    beats: seq<Beat>,
    actors: map<string, ActorState>,
    running: map<string, set<string>>,
    counts: map<(string, BeatKind), nat>,
    variants: map<(string, BeatKind), int>,
    issues: map<string, seq<nat>>)

  const EMPTY := Composition([], map[], map[], map[], map[], map[])

  function ActorOf(s: Composition, key: string): ActorState {
    if key in s.actors then s.actors[key] else ActorState(None, None)
  }

  function CountOf(s: Composition, k: (string, BeatKind)): nat {
    if k in s.counts then s.counts[k] else 0
  }

  function IssuesOf(s: Composition, run: string): seq<nat> {
    if run in s.issues then s.issues[run] else []
  }

  function RunningOf(s: Composition, root: string): set<string> {
    if root in s.running then s.running[root] else {}
  }

  // ---- Steps --------------------------------------------------------------

  predicate StartsChild(e: Event) { e.what.RunStarted? && IsChild(e) }

  predicate EndsRun(e: Event) { e.what.RunCompleted? || e.what.RunFailed? || e.what.RunCancelled? }

  function TrackStart(s: Composition, e: Event): Composition {
    if StartsChild(e) then s.(running := s.running[e.rootRunId := RunningOf(s, e.rootRunId) + {e.runId}]) else s
  }

  function TrackEnd(s: Composition, e: Event): Composition {
    if EndsRun(e) && e.rootRunId in s.running
    then s.(running := s.running[e.rootRunId := s.running[e.rootRunId] - {e.runId}]) else s
  }

  predicate Resolves(t: EventType) {
    t.ToolStarted? || t.ToolCompleted? || t.ArtifactCreated? || t.ApprovalRequested?
    || t.RunCompleted? || t.RunFailed? || t.RunCancelled?
  }

  /** A live beat ends at the resolving event. */
  function Clamp(b: Beat, at: int): Beat {
    if b.endsAt > at then b.(endsAt := at) else b
  }

  function ClampAll(beats: seq<Beat>, indices: seq<nat>, at: int): (r: seq<Beat>)
    ensures |r| == |beats|
  {
    if indices == [] then beats
    else
      var front := ClampAll(beats, indices[..|indices| - 1], at);
      var i := indices[|indices| - 1];
      if i < |front| then front[i := Clamp(front[i], at)] else front
  }

  function Resolve(s: Composition, e: Event): Composition {
    if !Resolves(e.what) || IssuesOf(s, e.runId) == [] then s
    else s.(beats := ClampAll(s.beats, IssuesOf(s, e.runId), e.timestamp), issues := s.issues[e.runId := []])
  }

  function VariantCount(cfg: Config): int { AtLeast(1, cfg.variantCount) }

  function PickVariant(cfg: Config, s: Composition, g: Signal, index: nat): int {
    var n := VariantCount(cfg);
    var v := cfg.hash(g.rootRunId, g.runId, g.employeeId, g.kind, index) % n;
    var k := (g.Key(), g.kind);
    if n > 1 && k in s.variants && s.variants[k] == v then (v + 1) % n else v
  }

  function MakeBeat(cfg: Config, s: Composition, g: Signal, movement: bool, parallel: bool): Beat {
    var index := CountOf(s, (g.Key(), g.kind));
    Beat(BeatId(g.runId, g.kind, index), g.kind, g.priority, g.rootRunId, g.runId, g.employeeId,
         g.affordance, movement, parallel, g.interrupt, g.milestone, g.detail, PickVariant(cfg, s, g, index), g.at,
         g.at + if g.milestone then DELIVERY_MS else PacedLifespanMs(g.kind, cfg.beatHold))
  }

  /** Record a finished beat in every table. */
  function PushBeat(s: Composition, b: Beat, movement: bool): Composition {
    var k := (b.Key(), b.kind);
    Composition(
      s.beats + [b],
      if movement then s.actors[b.Key() := ActorOf(s, b.Key()).(lastMovementAt := Some(b.at))] else s.actors,
      s.running,
      s.counts[k := CountOf(s, k) + 1],
      s.variants[k := b.variant],
      if IsIssue(b.kind) then s.issues[b.runId := IssuesOf(s, b.runId) + [|s.beats|]] else s.issues)
  }

  function EmitBeat(cfg: Config, s: Composition, g: Signal, movement: bool, parallel: bool): Composition {
    PushBeat(s, MakeBeat(cfg, s, g, movement, parallel), movement)
  }

  predicate CooledDown(t: Timing, actor: ActorState, at: int) {
    actor.lastMovementAt.None? || at - actor.lastMovementAt.value >= t.movementCooldownMs
  }

  predicate Continues(t: Timing, actor: ActorState, g: Signal) {
    actor.activity.Some? && actor.activity.value.kind == g.kind && g.at - actor.activity.value.lastAt <= t.microMinMs
  }

  /** What a signal does to its actor, and whether and how it is staged. */
  datatype Verdict = Verdict(actor: ActorState, emits: bool, movement: bool, parallel: bool)

  function Decide(t: Timing, actor: ActorState, g: Signal, parallel: bool): Verdict {
    if g.interrupt then Verdict(actor.(activity := None), true, false, false)
    else if g.milestone then Verdict(actor, true, g.movement, false)
    else if IsActivityKind(g.kind) then
      if Continues(t, actor, g) then
        var kept := actor.activity.value.(lastAt := g.at);
        if g.relocates && !kept.relocated && g.at - kept.startedAt >= t.sustainedRelocationMs && CooledDown(t, actor, g.at)
        then Verdict(actor.(activity := Some(kept.(relocated := true))), true, true, false)
        else Verdict(actor.(activity := Some(kept)), false, false, false)
      else Verdict(actor.(activity := Some(Stream(g.kind, g.at, g.at, false))), true, false, false)
    else Verdict(actor.(activity := None), true, g.movement && CooledDown(t, actor, g.at), parallel)
  }

  function Stage(cfg: Config, s: Composition, g: Signal, parallel: bool): Composition {
    var v := Decide(TimingForPace(cfg), ActorOf(s, g.Key()), g, parallel);
    var s' := s.(actors := s.actors[g.Key() := v.actor]);
    if v.emits then EmitBeat(cfg, s', g, v.movement, v.parallel) else s'
  }

  predicate StartsParallel(s: Composition, e: Event) {
    StartsChild(e) && RunningOf(s, e.rootRunId) != {}
  }

  /** Everything an event does before its own signal is staged. */
  function Prepare(s: Composition, e: Event): Composition {
    TrackEnd(Resolve(TrackStart(s, e), e), e)
  }

  function Step(cfg: Config, s: Composition, e: Event): Composition {
    var g := Normalize(e);
    if g.None? then Prepare(s, e) else Stage(cfg, Prepare(s, e), g.value, StartsParallel(s, e))
  }

  function Fold(cfg: Config, events: seq<Event>): Composition {
    if events == [] then EMPTY else Step(cfg, Fold(cfg, events[..|events| - 1]), events[|events| - 1])
  }

  function Compose(cfg: Config, events: seq<Event>): seq<Beat> {
    Fold(cfg, Sort(EventLess, events)).beats
  }
}
