/**
 * Shapes, difficulty ramps, session lengths, star ratings and the
 * session configuration of the tap-the-target game.
 *
 * The ramps are computed on `real`: every constant of a difficulty is a
 * short decimal, and exact arithmetic on them is what the game intends.
 */
module GameConfig {

  import opened Sequences

  // ---------------------------------------------------------------------
  // Shapes
  // ---------------------------------------------------------------------

  /** The four shapes used in play, in declaration (raw value) order. */
  datatype ShapeKind = Circle | Square | Triangle | Diamond

  /** Every shape kind, in declaration order. */
  const AllShapeKinds: seq<ShapeKind> := [Circle, Square, Triangle, Diamond]

  /** The decoy shapes for target `k`: every kind except `k`, in declaration order. */
  function Decoys(k: ShapeKind): seq<ShapeKind>
  {
    Without(AllShapeKinds, k)
  }

  /** The decoys of each kind, written out. */
  lemma DecoysListed(k: ShapeKind)
    ensures k == Circle ==> Decoys(k) == [Square, Triangle, Diamond]
    ensures k == Square ==> Decoys(k) == [Circle, Triangle, Diamond]
    ensures k == Triangle ==> Decoys(k) == [Circle, Square, Diamond]
    ensures k == Diamond ==> Decoys(k) == [Circle, Square, Triangle]
  {
    var s := AllShapeKinds;
    assert s[1..] == [Square, Triangle, Diamond];
    assert s[1..][1..] == [Triangle, Diamond];
    assert s[1..][1..][1..] == [Diamond];
    assert s[1..][1..][1..][1..] == [];
  }

  /** There are exactly three decoys, all distinct; `k` is not among them and every other kind is. */
  lemma DecoysSpec(k: ShapeKind)
    ensures |Decoys(k)| == 3
    ensures k !in Decoys(k)
    ensures forall j :: j != k ==> j in Decoys(k)
    ensures Distinct(Decoys(k))
  {
    DecoysListed(k);
  }

  /** A possible value of `decoys().shuffled()` for `k`: three kinds, no two alike, none of them `k`. */
  predicate IsDecoyShuffle(shuffled: seq<ShapeKind>, k: ShapeKind)
  {
    |shuffled| == 3 && Distinct(shuffled) && k !in shuffled
  }

  /** A rearrangement of the decoys of `k` is a decoy shuffle. */
  lemma PermutedDecoysAreAShuffle(k: ShapeKind, shuffled: seq<ShapeKind>)
    requires multiset(shuffled) == multiset(Decoys(k))
    ensures IsDecoyShuffle(shuffled, k)
  {
    DecoysSpec(k);
    PermutationKeepsDistinct(shuffled, Decoys(k));
    assert k !in multiset(Decoys(k));
    assert |shuffled| == |multiset(shuffled)| == |multiset(Decoys(k))| == 3;
  }

  /** A decoy shuffle of `k` is a rearrangement of its decoys. */
  lemma ShuffleRearrangesDecoys(k: ShapeKind, shuffled: seq<ShapeKind>)
    requires IsDecoyShuffle(shuffled, k)
    ensures multiset(shuffled) == multiset(Decoys(k))
  {
    DecoysSpec(k);
    ThreeRearranged(shuffled, Decoys(k));
  }

  /** The decoy shuffles of `k` are exactly the rearrangements of its decoys. */
  lemma ShuffledDecoys(k: ShapeKind, shuffled: seq<ShapeKind>)
    ensures IsDecoyShuffle(shuffled, k) <==> multiset(shuffled) == multiset(Decoys(k))
  {
    if IsDecoyShuffle(shuffled, k) {
      ShuffleRearrangesDecoys(k, shuffled);
    }
    if multiset(shuffled) == multiset(Decoys(k)) {
      PermutedDecoysAreAShuffle(k, shuffled);
    }
  }

  // ---------------------------------------------------------------------
  // Session lengths
  // ---------------------------------------------------------------------

  /** The three session lengths. */
  datatype Duration = Quick | Classic | Marathon {

    /** The raw value: the session length in seconds. */
    function Seconds(): (s: int)
      ensures s > 0 && s % 30 == 0
    {
      match this
      case Quick => 30
      case Classic => 60
      case Marathon => 90
    }
  }

  // ---------------------------------------------------------------------
  // Difficulty
  // ---------------------------------------------------------------------

  /** The number of correct taps needed for one, two and three stars. */
  datatype Thresholds = Thresholds(one: int, two: int, three: int)

  function RealMax(a: real, b: real): real { if a >= b then a else b }

  function RealMin(a: real, b: real): real { if a <= b then a else b }

  /** The three difficulty tiers and their tuning constants. */
  datatype Difficulty = Easy | Normal | Hard {

    function RawValue(): int
    {
      match this
      case Easy => 0
      case Normal => 1
      case Hard => 2
    }

    /** Seconds between waves at the start of a session. */
    function InitialSpawnInterval(): real
    {
      match this
      case Easy => 1.8
      case Normal => 1.3
      case Hard => 0.9
    }

    /** How much the spawn interval shrinks over a whole session. */
    function SpawnRamp(): real
    {
      match this
      case Easy => 0.6
      case Normal => 0.9
      case Hard => 0.5
    }

    function MinSpawnInterval(): real
    {
      match this
      case Easy => 0.9
      case Normal => 0.5
      case Hard => 0.3
    }

    /** Seconds a shape stays on the field at the start of a session. */
    function InitialLifespan(): real
    {
      match this
      case Easy => 3.2
      case Normal => 2.5
      case Hard => 1.8
    }

    function LifespanRamp(): real
    {
      match this
      case Easy => 0.8
      case Normal => 1.4
      case Hard => 0.6
    }

    function MinLifespan(): real
    {
      match this
      case Easy => 2.0
      case Normal => 1.0
      case Hard => 0.8
    }

    /** How many decoys accompany the target in a wave, by session progress. */
    function DecoyCount(elapsed: real, totalDuration: real): (n: int)
      requires totalDuration > 0.0
      ensures 1 <= n <= 3
    {
      var progress := elapsed / totalDuration;
      match this
      case Easy => if progress < 0.5 then 1 else 2
      case Normal => if progress < 0.33 then 1 else if progress < 0.66 then 2 else 3
      case Hard => if progress < 0.25 then 2 else 3
    }

    /** Seconds between waves; the progress is NOT clamped to 1 here. */
    function SpawnInterval(elapsed: real, totalDuration: real): (r: real)
      requires totalDuration > 0.0
      ensures r >= MinSpawnInterval()
    {
      var progress := elapsed / totalDuration;
      RealMax(MinSpawnInterval(), InitialSpawnInterval() - progress * SpawnRamp())
    }

    /** Seconds a new shape lives; the progress IS clamped to 1 here. */
    function Lifespan(elapsed: real, totalDuration: real): (r: real)
      requires totalDuration > 0.0
      ensures r >= MinLifespan()
    {
      var progress := RealMin(1.0, elapsed / totalDuration);
      RealMax(MinLifespan(), InitialLifespan() - progress * LifespanRamp())
    }

    /** Star thresholds for a session length; the base is seconds / 10 in integer division. */
    function StarThresholds(duration: Duration): (t: Thresholds)
      ensures 0 < t.one < t.two < t.three
    {
      var base := duration.Seconds() / 10;
      match this
      case Easy => Thresholds(base * 1, base * 2, base * 4)
      case Normal => Thresholds(base * 2, base * 4, base * 7)
      case Hard => Thresholds(base * 3, base * 6, base * 10)
    }

    /** The star rating of a final score: the highest threshold reached, checked from three down. */
    function Stars(score: int, duration: Duration): (s: int)
      ensures 0 <= s <= 3
    {
      var t := StarThresholds(duration);
      if score >= t.three then 3
      else if score >= t.two then 2
      else if score >= t.one then 1
      else 0
    }
  }

  // ---------------------------------------------------------------------
  // Properties of the ramps
  // ---------------------------------------------------------------------

  /** Dividing by a positive session length keeps the order of elapsed times. */
  lemma ProgressMonotone(e1: real, e2: real, total: real)
    requires total > 0.0 && e1 <= e2
    ensures e1 / total <= e2 / total
  {
  }

  /** The spawn interval never drops below the difficulty's floor and, from the start on, never exceeds its starting value. */
  lemma SpawnIntervalBounds(d: Difficulty, elapsed: real, total: real)
    requires total > 0.0
    ensures d.SpawnInterval(elapsed, total) >= d.MinSpawnInterval()
    ensures elapsed >= 0.0 ==> d.SpawnInterval(elapsed, total) <= d.InitialSpawnInterval()
  {
    if elapsed >= 0.0 {
      ProgressMonotone(0.0, elapsed, total);
    }
  }

  /** Later in a session, waves come at least as often. */
  lemma SpawnIntervalNonIncreasing(d: Difficulty, e1: real, e2: real, total: real)
    requires total > 0.0 && e1 <= e2
    ensures d.SpawnInterval(e2, total) <= d.SpawnInterval(e1, total)
  {
    ProgressMonotone(e1, e2, total);
  }

  /** On a normal 60-second session the interval at 55 s is the floor 0.5, below the starting 1.3. */
  lemma SpawnIntervalRampsDown()
    ensures Normal.SpawnInterval(0.0, 60.0) == 1.3
    ensures Normal.SpawnInterval(55.0, 60.0) == 0.5
    ensures Normal.SpawnInterval(55.0, 60.0) < Normal.SpawnInterval(0.0, 60.0)
  {
    assert 55.0 / 60.0 * 0.9 == 0.825;
  }

  /** The lifespan never drops below the difficulty's floor. */
  lemma LifespanBounds(d: Difficulty, elapsed: real, total: real)
    requires total > 0.0
    ensures d.Lifespan(elapsed, total) >= d.MinLifespan()
    ensures elapsed >= 0.0 ==> d.Lifespan(elapsed, total) <= d.InitialLifespan()
  {
    if elapsed >= 0.0 {
      ProgressMonotone(0.0, elapsed, total);
    }
  }

  /** Later in a session, shapes live at most as long. */
  lemma LifespanNonIncreasing(d: Difficulty, e1: real, e2: real, total: real)
    requires total > 0.0 && e1 <= e2
    ensures d.Lifespan(e2, total) <= d.Lifespan(e1, total)
  {
    ProgressMonotone(e1, e2, total);
  }

  /**
   * Once the session length is reached the lifespan stops shrinking: it is
   * the starting lifespan minus the whole ramp, which stays above the floor.
   */
  lemma LifespanSettles(d: Difficulty, elapsed: real, total: real)
    requires total > 0.0 && elapsed >= total
    ensures d.Lifespan(elapsed, total) == d.InitialLifespan() - d.LifespanRamp()
    ensures d.Lifespan(elapsed, total) > d.MinLifespan()
  {
    ProgressMonotone(total, elapsed, total);
    assert total / total == 1.0;
  }

  /** Decoy counts per difficulty: easy 1-2, normal 1-3, hard 2-3; never more than there are decoy kinds. */
  lemma DecoyCountRange(d: Difficulty, elapsed: real, total: real, target: ShapeKind)
    requires total > 0.0
    ensures d == Easy ==> 1 <= d.DecoyCount(elapsed, total) <= 2
    ensures d == Normal ==> 1 <= d.DecoyCount(elapsed, total) <= 3
    ensures d == Hard ==> 2 <= d.DecoyCount(elapsed, total) <= 3
    ensures 1 <= d.DecoyCount(elapsed, total) <= |Decoys(target)|
  {
    DecoysSpec(target);
  }

  /** Later in a session, waves carry at least as many decoys. */
  lemma DecoyCountNonDecreasing(d: Difficulty, e1: real, e2: real, total: real)
    requires total > 0.0 && e1 <= e2
    ensures d.DecoyCount(e1, total) <= d.DecoyCount(e2, total)
  {
    ProgressMonotone(e1, e2, total);
  }

  // ---------------------------------------------------------------------
  // Properties of the star rating
  // ---------------------------------------------------------------------

  /**
   * The thresholds are positive and ordered, and the three-star threshold is
   * at most one correct tap per second of the session.
   */
  lemma StarThresholdsOrdered(d: Difficulty, duration: Duration)
    ensures var t := d.StarThresholds(duration);
      1 <= t.one <= t.two <= t.three <= duration.Seconds()
  {
  }

  /** The normal, 60-second thresholds are 12, 24 and 42. */
  lemma NormalClassicThresholds()
    ensures Normal.StarThresholds(Classic) == Thresholds(12, 24, 42)
    ensures Normal.Stars(0, Classic) == 0
    ensures Normal.Stars(100, Classic) == 3
  {
  }

  /**
   * The star rating is between 0 and 3, and a score earns at least n stars
   * exactly when it reaches the n-th threshold.
   */
  lemma StarsCharacterised(d: Difficulty, duration: Duration, score: int)
    ensures 0 <= d.Stars(score, duration) <= 3
    ensures d.Stars(score, duration) >= 1 <==> score >= d.StarThresholds(duration).one
    ensures d.Stars(score, duration) >= 2 <==> score >= d.StarThresholds(duration).two
    ensures d.Stars(score, duration) == 3 <==> score >= d.StarThresholds(duration).three
  {
    StarThresholdsOrdered(d, duration);
  }

  /** A higher score never earns fewer stars. */
  lemma StarsMonotone(d: Difficulty, duration: Duration, s1: int, s2: int)
    requires s1 <= s2
    ensures d.Stars(s1, duration) <= d.Stars(s2, duration)
  {
    StarThresholdsOrdered(d, duration);
  }

  // ---------------------------------------------------------------------
  // Session configuration
  // ---------------------------------------------------------------------

  /** A session's settings, fixed before play. */
  datatype Config = Config(duration: Duration, difficulty: Difficulty, lives: int)

  /** The default settings: a 60-second normal session with three lives. */
  const DefaultConfig: Config := Config(Classic, Normal, 3)
}
