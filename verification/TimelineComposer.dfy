// composeBeats in its own form: one object whose fields are the function's
// mutable locals, proved step by step against the fold.
module TimelineComposer {
  import opened Orders
  import opened Beats
  import opened Wrappers

  class Composer {
    const cfg: Config
    var beats: seq<Beat>
    var actors: map<string, ActorState>
    var running: map<string, set<string>>
    var counts: map<(string, BeatKind), nat>
    var variants: map<(string, BeatKind), int>
    var issues: map<string, seq<nat>>

    ghost function View(): Composition
      reads this
    {
      Composition(beats, actors, running, counts, variants, issues)
    }

    constructor (cfg: Config)
      ensures View() == EMPTY && this.cfg == cfg
    {
      this.cfg := cfg;
      beats, actors, running, counts, variants, issues := [], map[], map[], map[], map[], map[];
    }

    method TrackRunStart(e: Event) returns (parallel: bool)
      modifies this`running
      ensures View() == TrackStart(old(View()), e)
      ensures parallel == StartsParallel(old(View()), e)
    {
      if !e.what.RunStarted? || e.runId == e.rootRunId {
        return false;
      }
      var children: set<string> := {};
      if e.rootRunId in running {
        children := running[e.rootRunId];
      }
      parallel := children != {};
      running := running[e.rootRunId := children + {e.runId}];
    }

    method TrackRunEnd(e: Event)
      modifies this`running
      ensures View() == TrackEnd(old(View()), e)
    {
      if EndsRun(e) && e.rootRunId in running {
        running := running[e.rootRunId := running[e.rootRunId] - {e.runId}];
      }
    }

    /** Earlier issue beats of the run end here; the run's list starts over. */
    method ResolveIssueBeats(e: Event)
      modifies this`beats, this`issues
      ensures View() == Resolve(old(View()), e)
    {
      if !Resolves(e.what) || e.runId !in issues || issues[e.runId] == [] {
        return;
      }
      var indices := issues[e.runId];
      for k := 0 to |indices|
        invariant beats == ClampAll(old(beats), indices[..k], e.timestamp)
        modifies this`beats
      {
        assert indices[..k + 1][..k] == indices[..k];
        var i := indices[k];
        if i < |beats| && beats[i].endsAt > e.timestamp {
          beats := beats[i := beats[i].(endsAt := e.timestamp)];
        }
      }
      assert indices[..|indices|] == indices;
      issues := issues[e.runId := []];
    }

    /** The seeded variant, moved on by one when the track used it last. */
    method NextVariant(g: Signal, index: nat) returns (variant: int)
      ensures variant == PickVariant(cfg, View(), g, index)
    {
      var k := (g.Key(), g.kind);
      var n := VariantCount(cfg);
      variant := cfg.hash(g.rootRunId, g.runId, g.employeeId, g.kind, index) % n;
      if n > 1 && k in variants && variants[k] == variant {
        variant := (variant + 1) % n;
      }
    }

    method Push(beat: Beat, movement: bool)
      modifies this`beats, this`actors, this`counts, this`variants, this`issues
      ensures View() == PushBeat(old(View()), beat, movement)
    {
      var k := (beat.Key(), beat.kind);
      counts := counts[k := (if k in counts then counts[k] else 0) + 1];
      variants := variants[k := beat.variant];
      if beat.kind == Approval || beat.kind == Failure {
        var indices := if beat.runId in issues then issues[beat.runId] else [];
        issues := issues[beat.runId := indices + [|beats|]];
      }
      beats := beats + [beat];
      if movement {
        var actor := if beat.Key() in actors then actors[beat.Key()] else ActorState(None, None);
        actors := actors[beat.Key() := actor.(lastMovementAt := Some(beat.at))];
      }
    }

    method Emit(g: Signal, movement: bool, parallel: bool)
      modifies this`beats, this`actors, this`counts, this`variants, this`issues
      ensures View() == EmitBeat(cfg, old(View()), g, movement, parallel)
    {
      var k := (g.Key(), g.kind);
      var index := if k in counts then counts[k] else 0;
      var variant := NextVariant(g, index);
      var lifespan := if g.milestone then DELIVERY_MS else PacedLifespanMs(g.kind, cfg.beatHold);
      Push(Beat(BeatId(g.runId, g.kind, index), g.kind, g.priority, g.rootRunId, g.runId, g.employeeId,
                g.affordance, movement, parallel, g.interrupt, g.milestone, g.detail, variant, g.at, g.at + lifespan), movement);
    }

    /** A tool event continues its actor's stream, perhaps relocating once, or starts a new one. */
    method StageActivity(g: Signal, actor: ActorState, parallel: bool)
      requires IsActivityKind(g.kind) && !g.interrupt && !g.milestone
      requires actor == ActorOf(View(), g.Key())
      modifies this`beats, this`actors, this`counts, this`variants, this`issues
      ensures View() == Stage(cfg, old(View()), g, parallel)
    {
      var timing := TimingForPace(cfg);
      if actor.activity.Some? && actor.activity.value.kind == g.kind
         && g.at - actor.activity.value.lastAt <= timing.microMinMs {
        var current := actor.activity.value.(lastAt := g.at);
        if g.relocates && !current.relocated && g.at - current.startedAt >= timing.sustainedRelocationMs
           && CooledDown(timing, actor, g.at) {
          actors := actors[g.Key() := actor.(activity := Some(current.(relocated := true)))];
          Emit(g, true, false);
        } else {
          actors := actors[g.Key() := actor.(activity := Some(current))];
        }
        return;
      }
      actors := actors[g.Key() := actor.(activity := Some(Stream(g.kind, g.at, g.at, false)))];
      Emit(g, false, false);
    }

    /** The branch structure of the loop body, once a signal is known. */
    method StageSignal(g: Signal, parallel: bool)
      modifies this`beats, this`actors, this`counts, this`variants, this`issues
      ensures View() == Stage(cfg, old(View()), g, parallel)
    {
      var actor := if g.Key() in actors then actors[g.Key()] else ActorState(None, None);
      if g.interrupt {
        actors := actors[g.Key() := actor.(activity := None)];
        Emit(g, false, false);
      } else if g.milestone {
        actors := actors[g.Key() := actor];
        Emit(g, g.movement, false);
      } else if IsActivityKind(g.kind) {
        StageActivity(g, actor, parallel);
      } else {
        actors := actors[g.Key() := actor.(activity := None)];
        var allowMovement := CooledDown(TimingForPace(cfg), actor, g.at);
        Emit(g, g.movement && allowMovement, parallel);
      }
    }

    method Accept(e: Event)
      modifies this
      ensures View() == Step(cfg, old(View()), e)
    {
      var parallel := TrackRunStart(e);
      ResolveIssueBeats(e);
      var signal := Normalize(e);
      TrackRunEnd(e);
      if signal.Some? {
        StageSignal(signal.value, parallel);
      }
    }
  }

  lemma {:induction false} FoldTake(cfg: Config, events: seq<Event>, i: nat)
    requires i < |events|
    ensures Fold(cfg, events[..i + 1]) == Step(cfg, Fold(cfg, events[..i]), events[i])
  {
    assert events[..i + 1][..i] == events[..i];
  }

  method ComposeBeats(events: seq<Event>, cfg: Config) returns (beats: seq<Beat>)
    ensures beats == Compose(cfg, events)
  {
    var ordered := Sort(EventLess, events);
    var composer := new Composer(cfg);
    for i := 0 to |ordered|
      invariant composer.cfg == cfg && fresh(composer)
      invariant composer.View() == Fold(cfg, ordered[..i])
    {
      FoldTake(cfg, ordered, i);
      composer.Accept(ordered[i]);
    }
    assert ordered[..|ordered|] == ordered;
    beats := composer.beats;
  }
}
