/**
 * The session of the tap-the-target game: the per-frame update that ends
 * the game or spawns waves, the tap handling that scores, costs lives and
 * moves the calm meter, the target rotation and the once-only game over.
 *
 * Rendering, effects, animation timing and hit-testing by the scene graph
 * are outside this model; the random choices of a frame are parameters.
 */
module Scene {

  import opened Wrappers
  import opened Sequences
  import opened GameConfig
  import opened CalmMeter

  /** A shape on the field as the session sees it: its kind and whether it is the target. */
  datatype ShapeNode = ShapeNode(kind: ShapeKind, isTarget: bool)

  datatype Point = Point(x: real, y: real)

  /** A shape added to the field by a wave: its node, position and lifespan in seconds. */
  datatype Placement = Placement(node: ShapeNode, at: Point, lifespan: real)

  /** What the game-over callback receives: the final score and the accuracy (0 to 1). */
  datatype GameOverReport = GameOverReport(score: int, accuracy: real)

  /** What one frame update did. */
  datatype FrameOutcome =
    | Halted                        // the game was already over: nothing happened
    | Ended(report: GameOverReport) // this frame ended the game
    | Waiting                       // the game runs and no wave was due
    | Spawned(wave: seq<Placement>) // the game runs and a wave was spawned

  /** The tap counters: correct taps (the score), wrong taps and all taps. */
  datatype Tally = Tally(score: int, wrongTaps: int, totalTaps: int)

  /** The session state that taps and game over change: the tap counters, lives, the game-over flag and the calm meter. */
  datatype Counters = Counters(tally: Tally, livesLeft: int, gameOver: bool, calm: int)

  /** The default shape size, and the margin kept between a shape's centre and the field's edges. */
  const ShapeDefaultSize: real := 52.0
  const SpawnMargin: real := ShapeDefaultSize + 10.0

  /** The rectangle in which shape centres are drawn: clear of the edges, the bottom meter and the top HUD. */
  predicate InSpawnArea(frameMaxX: real, frameMaxY: real, p: Point)
  {
    && SpawnMargin <= p.x <= frameMaxX - SpawnMargin
    && SpawnMargin + 60.0 <= p.y <= frameMaxY - SpawnMargin - 140.0
  }

  /** Correct taps over all taps, or 1.0 when nothing was tapped. */
  function Accuracy(score: int, totalTaps: int): real
  {
    if totalTaps > 0 then score as real / totalTaps as real else 1.0
  }

  /** With no more correct taps than taps, accuracy lies in [0, 1] and is 1 exactly when no tap was wrong. */
  lemma AccuracyBounds(score: int, totalTaps: int)
    requires 0 <= score <= totalTaps
    ensures 0.0 <= Accuracy(score, totalTaps) <= 1.0
    ensures Accuracy(score, totalTaps) == 1.0 <==> score == totalTaps
  {
    if totalTaps > 0 {
      var a := score as real / totalTaps as real;
      assert a * totalTaps as real == score as real;
      if a == 1.0 {
        assert score as real == totalTaps as real;
      }
    }
  }

  /** The counters after a tap on a node: a target scores, any other shape costs a life and may end the game. */
  function AfterTap(c: Counters, isTarget: bool): Counters
  {
    if isTarget then
      c.(tally := c.tally.(score := c.tally.score + 1, totalTaps := c.tally.totalTaps + 1), calm := Hit(c.calm))
    else
      c.(tally := c.tally.(wrongTaps := c.tally.wrongTaps + 1, totalTaps := c.tally.totalTaps + 1), livesLeft := c.livesLeft - 1,
         calm := WrongTap(c.calm), gameOver := c.gameOver || c.livesLeft - 1 <= 0)
  }

  /** The counters agree: every tap was right or wrong, each wrong tap cost one of the starting lives, the meter is in range. */
  predicate Consistent(c: Counters, lives: int)
  {
    && 0 <= c.tally.score && 0 <= c.tally.wrongTaps
    && c.tally.score + c.tally.wrongTaps == c.tally.totalTaps
    && c.livesLeft == lives - c.tally.wrongTaps
    && 0 <= c.calm <= 100
  }

  /** A session whose player has lives left, or whose game has ended when they ran out. */
  predicate LivesGuarded(c: Counters)
  {
    0 <= c.livesLeft && (c.livesLeft == 0 ==> c.gameOver)
  }

  /**
   * A tap counts once, and either scores (a target: lives and game state
   * untouched) or costs a life (any other shape), and keeps the counters
   * consistent.
   */
  lemma AfterTapCounts(c: Counters, isTarget: bool, lives: int)
    requires Consistent(c, lives)
    ensures var d := AfterTap(c, isTarget);
      && Consistent(d, lives)
      && d.tally.totalTaps == c.tally.totalTaps + 1
      && (isTarget ==> d.tally.score == c.tally.score + 1 && d.tally.wrongTaps == c.tally.wrongTaps
                       && d.livesLeft == c.livesLeft && d.gameOver == c.gameOver && d.calm >= c.calm)
      && (!isTarget ==> d.tally.score == c.tally.score && d.tally.wrongTaps == c.tally.wrongTaps + 1
                        && d.livesLeft == c.livesLeft - 1 && d.calm <= c.calm)
  {
    StepInRange(c.calm, if isTarget then HitEvent else WrongTapEvent);
  }

  /** A tap that loses the last life ends the game in the same tap; a game never resumes. */
  lemma AfterTapEndsOnLastLife(c: Counters, isTarget: bool)
    ensures c.gameOver ==> AfterTap(c, isTarget).gameOver
    ensures AfterTap(c, isTarget).gameOver <==> c.gameOver || (!isTarget && c.livesLeft <= 1)
  {
  }

  /** A tap on a running game with lives left never leaves the player below zero lives or with zero lives still playing. */
  lemma GuardedTapKeepsLives(c: Counters, isTarget: bool)
    requires LivesGuarded(c) && !c.gameOver
    ensures LivesGuarded(AfterTap(c, isTarget))
  {
  }

  /** A wave: the target at the first position, then the first `count` shuffled decoys, all with one lifespan. */
  predicate IsWave(wave: seq<Placement>, target: ShapeKind, shuffledDecoys: seq<ShapeKind>,
                   count: int, lifespan: real, positions: seq<Point>)
  {
    && 0 <= count && |wave| == 1 + count && count <= |shuffledDecoys| && |wave| <= |positions|
    && wave[0] == Placement(ShapeNode(target, true), positions[0], lifespan)
    && forall i :: 1 <= i < |wave| ==> wave[i] == Placement(ShapeNode(shuffledDecoys[i - 1], false), positions[i], lifespan)
  }

  /** Every shape after the first is a non-target of another kind than `target`, and no two of them share a kind. */
  predicate DistinctDecoys(wave: seq<Placement>, target: ShapeKind)
  {
    && (forall i :: 1 <= i < |wave| ==> !wave[i].node.isTarget && wave[i].node.kind != target)
    && (forall i, j :: 1 <= i < j < |wave| ==> wave[i].node.kind != wave[j].node.kind)
  }

  /** The decoys of a wave drawn from a shuffle of the target's decoys are distinct and none is the target. */
  lemma WaveDecoysDistinct(wave: seq<Placement>, target: ShapeKind, shuffledDecoys: seq<ShapeKind>,
                           count: int, lifespan: real, positions: seq<Point>)
    requires IsDecoyShuffle(shuffledDecoys, target)
    requires IsWave(wave, target, shuffledDecoys, count, lifespan, positions)
    ensures DistinctDecoys(wave, target)
  {
    forall i | 1 <= i < |wave| ensures wave[i].node.kind != target {
      assert wave[i].node.kind == shuffledDecoys[i - 1];
    }
    forall i, j | 1 <= i < j < |wave| ensures wave[i].node.kind != wave[j].node.kind {
      assert wave[i].node.kind == shuffledDecoys[i - 1] && wave[j].node.kind == shuffledDecoys[j - 1];
    }
  }

  /** A shuffle of the target's decoys has room for every decoy count. */
  lemma DecoyCountFits(d: Difficulty, elapsed: real, total: real, target: ShapeKind, shuffledDecoys: seq<ShapeKind>)
    requires total > 0.0 && IsDecoyShuffle(shuffledDecoys, target)
    ensures 0 <= d.DecoyCount(elapsed, total) <= |shuffledDecoys|
  {
    DecoyCountRange(d, elapsed, total, target);
    DecoysSpec(target);
  }

  /** `kinds.map { ($0, false) }`: a non-target node for each kind. */
  function AsDecoyNodes(kinds: seq<ShapeKind>): (nodes: seq<ShapeNode>)
    ensures |nodes| == |kinds|
    ensures forall i :: 0 <= i < |kinds| ==> nodes[i] == ShapeNode(kinds[i], false)
  {
    if kinds == [] then [] else [ShapeNode(kinds[0], false)] + AsDecoyNodes(kinds[1..])
  }

  class GameScene {
    const config: Config
    const frameMaxX: real
    const frameMaxY: real
    const ninja: NinjaCalmMeter

    var score: int
    var wrongTaps: int
    var totalTaps: int
    var livesLeft: int
    var gameOver: bool
    var startTime: real
    var lastSpawnTime: real
    var currentTarget: ShapeKind

    function Snapshot(): Counters
      reads this`score, this`wrongTaps, this`totalTaps, this`livesLeft, this`gameOver, ninja
    {
      Counters(Tally(score, wrongTaps, totalTaps), livesLeft, gameOver, ninja.value)
    }

    ghost predicate Valid()
      reads this`score, this`wrongTaps, this`totalTaps, this`livesLeft, this`gameOver, ninja
    {
      ninja.Valid() && Consistent(Snapshot(), config.lives)
    }

    /** The session length in seconds, as the ramps take it. */
    function SessionLength(): (t: real)
      reads this
      ensures t >= 30.0
    {
      config.duration.Seconds() as real
    }

    /** The scene as presented: lives from the configuration and a first target drawn by the caller. */
    constructor(config: Config, frameMaxX: real, frameMaxY: real, firstTarget: ShapeKind)
      ensures Valid() && fresh(ninja)
      ensures this.config == config && this.frameMaxX == frameMaxX && this.frameMaxY == frameMaxY
      ensures score == 0 && wrongTaps == 0 && totalTaps == 0 && livesLeft == config.lives && !gameOver
      ensures ninja.value == InitialCalm
      ensures startTime == 0.0 && lastSpawnTime == 0.0 && currentTarget == firstTarget
    {
      this.config := config;
      this.frameMaxX := frameMaxX;
      this.frameMaxY := frameMaxY;
      ninja := new NinjaCalmMeter();
      score, wrongTaps, totalTaps := 0, 0, 0;
      livesLeft := config.lives;
      gameOver := false;
      startTime, lastSpawnTime := 0.0, 0.0;
      currentTarget := firstTarget;
    }

    /** Ends the game once: the first call reports the score and accuracy, any later call does nothing. */
    method TriggerGameOver() returns (report: Option<GameOverReport>)
      requires Valid()
      modifies this`gameOver
      ensures Valid() && gameOver
      ensures Snapshot() == old(Snapshot()).(gameOver := true)
      ensures report == if old(gameOver) then None else Some(GameOverReport(score, Accuracy(score, totalTaps)))
      ensures report.Some? ==> 0.0 <= report.value.accuracy <= 1.0
    {
      if gameOver {
        return None;
      }
      gameOver := true;
      AccuracyBounds(score, totalTaps);
      report := Some(GameOverReport(score, Accuracy(score, totalTaps)));
    }

    /** Places one shape of a wave at a position drawn inside the spawn area. */
    function SpawnShape(node: ShapeNode, lifespan: real, at: Point): (p: Placement)
      reads this
      requires InSpawnArea(frameMaxX, frameMaxY, at)
      ensures InSpawnArea(frameMaxX, frameMaxY, p.at)
    {
      Placement(node, at, lifespan)
    }

    /**
     * What a spawn at `elapsed` seconds into the session places: the wave of
     * the current target with the decoy count and lifespan of that moment,
     * whose decoys are distinct and none of them the target.
     */
    predicate IsSpawnedWave(wave: seq<Placement>, elapsed: real, shuffledDecoys: seq<ShapeKind>, positions: seq<Point>)
      reads this
    {
      && IsWave(wave, currentTarget, shuffledDecoys, config.difficulty.DecoyCount(elapsed, SessionLength()),
                config.difficulty.Lifespan(elapsed, SessionLength()), positions)
      && DistinctDecoys(wave, currentTarget)
    }

    /**
     * Builds a wave: the current target, then the first decoyCount entries of
     * a shuffle of its decoys, each placed at the next drawn position with the
     * lifespan for this point of the session.
     */
    method SpawnWave(elapsed: real, shuffledDecoys: seq<ShapeKind>, positions: seq<Point>) returns (wave: seq<Placement>)
      requires IsDecoyShuffle(shuffledDecoys, currentTarget)
      requires |positions| >= 4 && forall i :: 0 <= i < |positions| ==> InSpawnArea(frameMaxX, frameMaxY, positions[i])
      ensures IsSpawnedWave(wave, elapsed, shuffledDecoys, positions)
      ensures forall i :: 0 <= i < |wave| ==> InSpawnArea(frameMaxX, frameMaxY, wave[i].at)
    {
      var total := SessionLength();
      var lifespan := config.difficulty.Lifespan(elapsed, total);
      var decoyCount := config.difficulty.DecoyCount(elapsed, total);
      DecoyCountFits(config.difficulty, elapsed, total, currentTarget, shuffledDecoys);
      var decoys := shuffledDecoys[..decoyCount];
      var toSpawn := [ShapeNode(currentTarget, true)] + AsDecoyNodes(decoys);
      wave := [];
      for i := 0 to |toSpawn|
        invariant |wave| == i
        invariant forall k :: 0 <= k < i ==> wave[k] == Placement(toSpawn[k], positions[k], lifespan)
      {
        wave := wave + [SpawnShape(toSpawn[i], lifespan, positions[i])];
      }
      assert IsWave(wave, currentTarget, shuffledDecoys, decoyCount, lifespan, positions);
      WaveDecoysDistinct(wave, currentTarget, shuffledDecoys, decoyCount, lifespan, positions);
    }

    /**
     * One frame. Does nothing once the game is over. Otherwise latches the
     * start time on the first frame, ends the game when the session time is
     * used up or no lives are left (before any spawn), and otherwise spawns a
     * wave exactly when a spawn interval has passed since the last one.
     */
    method Update(currentTime: real, shuffledDecoys: seq<ShapeKind>, positions: seq<Point>) returns (outcome: FrameOutcome)
      requires Valid()
      requires IsDecoyShuffle(shuffledDecoys, currentTarget)
      requires |positions| >= 4 && forall i :: 0 <= i < |positions| ==> InSpawnArea(frameMaxX, frameMaxY, positions[i])
      modifies this`startTime, this`lastSpawnTime, this`gameOver
      ensures Valid()
      ensures old(gameOver) ==>
        outcome == Halted && gameOver && startTime == old(startTime) && lastSpawnTime == old(lastSpawnTime)
      ensures !old(gameOver) ==> startTime == if old(startTime) == 0.0 then currentTime else old(startTime)
      ensures !old(gameOver) && (currentTime - startTime >= SessionLength() || livesLeft <= 0) ==>
        && outcome == Ended(GameOverReport(score, Accuracy(score, totalTaps)))
        && gameOver && lastSpawnTime == old(lastSpawnTime)
      ensures !old(gameOver) && !(currentTime - startTime >= SessionLength() || livesLeft <= 0) ==>
        var elapsed := currentTime - startTime;
        && !gameOver
        && (outcome.Spawned? || outcome == Waiting)
        && (outcome.Spawned? <==> currentTime - old(lastSpawnTime) >= config.difficulty.SpawnInterval(elapsed, SessionLength()))
        && lastSpawnTime == (if outcome.Spawned? then currentTime else old(lastSpawnTime))
        && (outcome.Spawned? ==> IsSpawnedWave(outcome.wave, elapsed, shuffledDecoys, positions))
      ensures Snapshot() == old(Snapshot()).(gameOver := gameOver)
    {
      if gameOver {
        return Halted;
      }
      if startTime == 0.0 {
        startTime := currentTime;
      }
      var total := SessionLength();
      var elapsed := currentTime - startTime;
      var remaining := RealMax(0.0, total - elapsed);
      if remaining <= 0.0 || livesLeft <= 0 {
        var report := TriggerGameOver();
        return Ended(report.value);
      }
      outcome := SpawnIfDue(currentTime, elapsed, shuffledDecoys, positions);
    }

    /** The spawning half of a frame: a wave when a spawn interval has passed since the last one. */
    method SpawnIfDue(currentTime: real, elapsed: real, shuffledDecoys: seq<ShapeKind>, positions: seq<Point>) returns (outcome: FrameOutcome)
      requires IsDecoyShuffle(shuffledDecoys, currentTarget)
      requires |positions| >= 4 && forall i :: 0 <= i < |positions| ==> InSpawnArea(frameMaxX, frameMaxY, positions[i])
      modifies this`lastSpawnTime
      ensures outcome.Spawned? || outcome == Waiting
      ensures outcome.Spawned? <==> currentTime - old(lastSpawnTime) >= config.difficulty.SpawnInterval(elapsed, SessionLength())
      ensures lastSpawnTime == if outcome.Spawned? then currentTime else old(lastSpawnTime)
      ensures outcome.Spawned? ==> IsSpawnedWave(outcome.wave, elapsed, shuffledDecoys, positions)
    {
      var interval := config.difficulty.SpawnInterval(elapsed, SessionLength());
      if currentTime - lastSpawnTime >= interval {
        var wave := SpawnWave(elapsed, shuffledDecoys, positions);
        lastSpawnTime := currentTime;
        return Spawned(wave);
      }
      return Waiting;
    }

    /** A tap on a shape node: counted, then scored or charged a life; the last life ends the game at once. */
    method HandleTap(node: ShapeNode) returns (report: Option<GameOverReport>)
      requires Valid()
      modifies this`score, this`wrongTaps, this`totalTaps, this`livesLeft, this`gameOver, ninja
      ensures Valid()
      ensures Snapshot() == AfterTap(old(Snapshot()), node.isTarget)
      ensures report == if !old(gameOver) && gameOver then Some(GameOverReport(score, Accuracy(score, totalTaps))) else None
    {
      totalTaps := totalTaps + 1;
      if node.isTarget {
        score := score + 1;
        ninja.RecordHit();
        report := None;
      } else {
        wrongTaps := wrongTaps + 1;
        livesLeft := livesLeft - 1;
        ninja.RecordWrongTap();
        if livesLeft <= 0 {
          report := TriggerGameOver();
        } else {
          report := None;
        }
      }
    }

    /**
     * A touch: ignored once the game is over or when no shape lies under it
     * (tapping empty space costs nothing); otherwise the shape found is tapped.
     */
    method TouchesBegan(hit: Option<ShapeNode>) returns (report: Option<GameOverReport>)
      requires Valid()
      modifies this`score, this`wrongTaps, this`totalTaps, this`livesLeft, this`gameOver, ninja
      ensures Valid()
      ensures old(gameOver) || hit.None? ==> Snapshot() == old(Snapshot())
      ensures !old(gameOver) && hit.Some? ==> Snapshot() == AfterTap(old(Snapshot()), hit.value.isTarget)
      ensures report == if !old(gameOver) && gameOver then Some(GameOverReport(score, Accuracy(score, totalTaps))) else None
      ensures old(LivesGuarded(Snapshot())) ==> LivesGuarded(Snapshot())
    {
      if gameOver || hit.None? {
        return None;
      }
      report := HandleTap(hit.value);
      if LivesGuarded(old(Snapshot())) {
        GuardedTapKeepsLives(old(Snapshot()), hit.value.isTarget);
      }
    }

    /** After a correct tap: a new target, different from the current one, unless the game is over. */
    method RotateTarget(choice: nat)
      requires choice < 3
      modifies this`currentTarget
      ensures old(gameOver) ==> currentTarget == old(currentTarget)
      ensures !old(gameOver) ==> currentTarget == Decoys(old(currentTarget))[choice]
      ensures currentTarget != old(currentTarget) <==> !old(gameOver)
    {
      if gameOver {
        return;
      }
      var others := Without(AllShapeKinds, currentTarget);
      DecoysSpec(currentTarget);
      currentTarget := others[choice];
    }

    /** Test support: taps a freshly made node without the touch guard, so it also acts after game over. */
    method SimulateTap(kind: ShapeKind, isTarget: bool) returns (report: Option<GameOverReport>)
      requires Valid()
      modifies this`score, this`wrongTaps, this`totalTaps, this`livesLeft, this`gameOver, ninja
      ensures Valid()
      ensures Snapshot() == AfterTap(old(Snapshot()), isTarget)
      ensures report == if !old(gameOver) && gameOver then Some(GameOverReport(score, Accuracy(score, totalTaps))) else None
    {
      report := HandleTap(ShapeNode(kind, isTarget));
    }
  }

  /** Every kind other than the current target can be chosen by the rotation. */
  lemma RotationReachesEveryOtherKind(current: ShapeKind, next: ShapeKind)
    requires next != current
    ensures exists choice :: 0 <= choice < 3 && Decoys(current)[choice] == next
  {
    DecoysSpec(current);
    assert next in Decoys(current);
    var choice :| 0 <= choice < |Decoys(current)| && Decoys(current)[choice] == next;
  }

  // ---------------------------------------------------------------------
  // Sessions played through the scene's operations
  // ---------------------------------------------------------------------

  /** On an easy 30-second session the first frame latches the clock and spawns the target with one decoy. */
  method FirstFrameSpawns() returns (outcome: FrameOutcome)
    ensures outcome.Spawned? && |outcome.wave| == 2
    ensures outcome.wave[0].node == ShapeNode(Circle, true) && outcome.wave[1].node == ShapeNode(Square, false)
  {
    var scene := new GameScene(Config(Quick, Easy, 3), 400.0, 800.0, Circle);
    var positions := [Point(100.0, 200.0), Point(200.0, 300.0), Point(300.0, 400.0), Point(150.0, 500.0)];
    outcome := scene.Update(100.0, [Square, Triangle, Diamond], positions);
    assert 0.0 / 30.0 == 0.0;
  }

  /** Once the game is over the next frame does nothing, and a second game over reports nothing. */
  method FrameAfterGameOverHalts() returns (next: FrameOutcome, again: Option<GameOverReport>)
    ensures next == Halted && again == None
  {
    var scene := new GameScene(Config(Quick, Easy, 1), 400.0, 800.0, Circle);
    var r := scene.TriggerGameOver();
    var positions := [Point(100.0, 200.0), Point(200.0, 300.0), Point(300.0, 400.0), Point(150.0, 500.0)];
    next := scene.Update(101.0, [Square, Triangle, Diamond], positions);
    again := scene.TriggerGameOver();
  }

  /** Once the game is over a touch on the target is ignored: no report and no score. */
  method TouchAfterGameOverIgnored() returns (report: Option<GameOverReport>, score: int)
    ensures report == None && score == 0
  {
    var scene := new GameScene(Config(Quick, Easy, 1), 400.0, 800.0, Circle);
    var r := scene.SimulateTap(Square, false);
    report := scene.TouchesBegan(Some(ShapeNode(Circle, true)));
    score := scene.score;
  }

  /** A touch on empty space costs nothing: no tap is counted and no life is lost. */
  method EmptyTouchIsFree() returns (taps: int, lives: int)
    ensures taps == 0 && lives == 3
  {
    var scene := new GameScene(DefaultConfig, 400.0, 800.0, Circle);
    var r := scene.TouchesBegan(None);
    taps, lives := scene.totalTaps, scene.livesLeft;
  }

  /** The test-support tap skips the guard: with one life, two wrong taps leave the lives at -1. */
  method SimulatedTapsBypassGuard() returns (livesLeft: int, gameOver: bool)
    ensures livesLeft == -1 && gameOver
  {
    var scene := new GameScene(Config(Classic, Normal, 1), 400.0, 800.0, Diamond);
    var r := scene.SimulateTap(Circle, false);
    r := scene.SimulateTap(Circle, false);
    livesLeft, gameOver := scene.livesLeft, scene.gameOver;
  }
}
