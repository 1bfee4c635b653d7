/**
 * The web demo: a 30-second round in which seven shapes are scattered on a
 * canvas, exactly one of them is the target, and every tap on a shape counts
 * as a hit or a miss and reshuffles the field.
 *
 * `Math.random()` is an injected stream `random` of values in [0, 1) read
 * through a draw counter, so every random choice the demo makes is the value
 * of the stream at a known position. Coordinates are `real`: the model is
 * exact where the browser rounds to double precision.
 */
module Demo {

  import opened Wrappers
  import opened Sequences

  // ---------------------------------------------------------------------
  // Constants
  // ---------------------------------------------------------------------

  const GameDuration: int := 30
  const ShapeCount: int := 7
  const BaseSize: int := 34
  const TargetSize: int := 44
  /** Shapes are kept this far from the canvas edges. */
  const Margin: int := TargetSize + 8
  /** The position of a shape is drawn at most this many times. */
  const MaxTries: int := 40

  /** The demo's five shape types, in the order of its shape list. */
  datatype DemoShape = Circle | Square | Triangle | Star | Diamond

  const Shapes: seq<DemoShape> := [Circle, Square, Triangle, Star, Diamond]

  const Palette: seq<string> := ["#6366f1", "#f97316", "#10b981", "#ef4444",
                                 "#f59e0b", "#06b6d4", "#8b5cf6", "#ec4899"]

  /** The shape types that are not the target, in shape-list order. */
  function NonTargets(target: DemoShape): seq<DemoShape>
  {
    Without(Shapes, target)
  }

  /** Four non-target types, none of them the target. */
  lemma NonTargetsSpec(target: DemoShape)
    ensures |NonTargets(target)| == 4
    ensures forall k :: 0 <= k < 4 ==> NonTargets(target)[k] != target
  {
    var s := Shapes;
    assert s[1..] == [Square, Triangle, Star, Diamond];
    assert s[1..][1..] == [Triangle, Star, Diamond];
    assert s[1..][1..][1..] == [Star, Diamond];
    assert s[1..][1..][1..][1..] == [Diamond];
    assert s[1..][1..][1..][1..][1..] == [];
  }

  // ---------------------------------------------------------------------
  // Random numbers
  // ---------------------------------------------------------------------

  /** One value of `Math.random()`. */
  type Unit = r: real | 0.0 <= r < 1.0 witness 0.0

  /** A value of `Math.random()` scales a non-negative width to no more than it, and a positive one to below it. */
  lemma ScaleBelow(u: Unit, w: real)
    ensures w >= 0.0 ==> 0.0 <= u * w <= w
    ensures w > 0.0 ==> u * w < w
  {
    if w >= 0.0 {
      assert w - u * w == (1.0 - u) * w;
    }
  }

  /** `rand(min, max)`: a real between `min` and `max`, reaching `max` only if they are equal. */
  function RandOf(u: Unit, min: real, max: real): (v: real)
    ensures min <= max ==> min <= v <= max
    ensures min < max ==> v < max
  {
    var w := max - min;
    ScaleBelow(u, w);
    min + u * w
  }

  /**
   * `randInt(min, max)`: the floor of `rand(min, max + 0.999)`, an integer in
   * [min, max] whenever min <= max.
   */
  function RandIntOf(u: Unit, min: int, max: int): (v: int)
    ensures min <= max ==> min <= v <= max
  {
    var x := RandOf(u, min as real, max as real + 0.999);
    assert min <= max ==> x < (max + 1) as real;
    x.Floor
  }

  // ---------------------------------------------------------------------
  // Accuracy
  // ---------------------------------------------------------------------

  /** JavaScript's `Math.round` on an exact value: the nearest integer, halves rounded up. */
  function JsRound(x: real): int
  {
    (x + 0.5).Floor
  }

  /** The floor of an exact quotient of integers is their integer quotient. */
  lemma FloorOfQuotient(a: int, b: int)
    requires b > 0
    ensures (a as real / b as real).Floor == a / b
  {
    var q, m := a / b, a % b;
    assert a == q * b + m;
    assert a as real == q as real * b as real + m as real;
    assert a as real / b as real == q as real + m as real / b as real;
    assert 0.0 <= m as real / b as real < 1.0;
  }

  lemma CancelFactor(x: real, y: real, c: real)
    requires c > 0.0 && x * c == y * c
    ensures x == y
  {
  }

  /** The rounded-up percentage is an exact quotient of integers. */
  lemma PercentAsQuotient(hits: nat, total: nat)
    requires total > 0
    ensures hits as real / total as real * 100.0 + 0.5 == (200 * hits + total) as real / (2 * total) as real
  {
    var h, t := hits as real, total as real;
    var x := h / t * 100.0 + 0.5;
    var y := (200 * hits + total) as real / (2 * total) as real;
    assert h / t * t == h;
    assert x * (2.0 * t) == 200.0 * h + t;
    assert y * (2.0 * t) == 200.0 * h + t;
    CancelFactor(x, y, 2.0 * t);
  }

  /**
   * `getAccuracy`: 0 before any tap, otherwise hits as a rounded percentage of
   * all taps. The result is the integer `(200 * hits + taps) / (2 * taps)`,
   * so it lies in [0, 100].
   */
  function Accuracy(hits: nat, misses: nat): (r: int)
    ensures hits + misses == 0 ==> r == 0
    ensures hits + misses > 0 ==> r == (200 * hits + (hits + misses)) / (2 * (hits + misses))
    ensures 0 <= r <= 100
  {
    var total := hits + misses;
    if total == 0 then 0
    else
      var pct := hits as real / total as real * 100.0;
      PercentAsQuotient(hits, total);
      FloorOfQuotient(200 * hits + total, 2 * total);
      QuotientIsPercentage(hits, total);
      JsRound(pct)
  }

  /** The rounded percentage of `hits` out of `total` taps lies in [0, 100]. */
  lemma QuotientIsPercentage(hits: nat, total: nat)
    requires 0 < total && hits <= total
    ensures 0 <= (200 * hits + total) / (2 * total) <= 100
  {
    MonotoneDivision(200 * hits + total, 200 * total + total, 2 * total);
    DivIs(200 * total + total, 2 * total, 100);
  }

  /** One hit in three rounds down to 33%, two in three up to 67%, one in two is 50%. */
  lemma AccuracyExamples()
    ensures Accuracy(1, 2) == 33 && Accuracy(2, 1) == 67 && Accuracy(1, 1) == 50
  {
  }

  /** Only hits is 100%, only misses is 0%. */
  lemma AccuracyExtremes(n: nat)
    requires n > 0
    ensures Accuracy(n, 0) == 100 && Accuracy(0, n) == 0
  {
    DivIs(200 * n + n, 2 * n, 100);
    DivIs(n, 2 * n, 0);
  }

  lemma AtLeastOnce(k: int, d: int)
    requires k >= 1 && d > 0
    ensures k * d >= d
  {
    assert k * d == (k - 1) * d + d;
  }

  /** The integer quotient is the one multiple that fits. */
  lemma DivIs(a: int, d: int, q: int)
    requires d > 0 && q * d <= a < q * d + d
    ensures a / d == q
  {
    var r, m := a / d, a % d;
    assert a == r * d + m && 0 <= m < d;
    if r < q {
      AtLeastOnce(q - r, d);
    } else if r > q {
      AtLeastOnce(r - q, d);
    }
  }

  /** More hits with the same number of taps never gives a lower accuracy. */
  lemma AccuracyMonotone(h1: nat, m1: nat, h2: nat, m2: nat)
    requires h1 + m1 == h2 + m2 && h1 <= h2
    ensures Accuracy(h1, m1) <= Accuracy(h2, m2)
  {
    var t := h1 + m1;
    if t > 0 {
      MonotoneDivision(200 * h1 + t, 200 * h2 + t, 2 * t);
    }
  }

  lemma MonotoneDivision(a: int, b: int, d: int)
    requires a <= b && d > 0
    ensures a / d <= b / d
  {
    var qa, qb := a / d, b / d;
    assert qa * d <= a && b < (qb + 1) * d;
    if qa > qb {
      assert false;
    }
  }

  // ---------------------------------------------------------------------
  // Shapes on the canvas and hit testing
  // ---------------------------------------------------------------------

  /** A shape on the canvas: its type, centre, size, target flag and palette index. */
  datatype Placed = Placed(kind: DemoShape, x: real, y: real, size: int, isTarget: bool, colour: int)

  function Abs(x: real): real { if x < 0.0 then -x else x }

  /**
   * `hitTest`: whether a tap at (cx, cy) lands on `s`, with a reach of half the
   * size plus 8. Diamonds use a widened taxicab distance, circles and stars
   * the Euclidean distance (compared squared, which is the same test for a
   * non-negative reach), every other type a square box.
   */
  predicate HitTest(s: Placed, cx: real, cy: real)
  {
    var dx, dy := cx - s.x, cy - s.y;
    var r := s.size as real / 2.0 + 8.0;
    match s.kind
    case Diamond => Abs(dx) + Abs(dy) <= r * 1.2
    case Circle => r >= 0.0 && dx * dx + dy * dy <= r * r
    case Star => r >= 0.0 && dx * dx + dy * dy <= r * r
    case _ => Abs(dx) <= r && Abs(dy) <= r
  }

  /** A tap on the centre of a shape always hits it. */
  lemma CentreHits(s: Placed)
    requires s.size >= 0
    ensures HitTest(s, s.x, s.y)
  {
  }

  /** The first shape, in list order, that a tap hits. */
  function FirstHit(shapes: seq<Placed>, cx: real, cy: real): (r: Option<nat>)
    ensures r.Some? ==> r.value < |shapes| && HitTest(shapes[r.value], cx, cy)
    ensures r.Some? ==> forall k :: 0 <= k < r.value ==> !HitTest(shapes[k], cx, cy)
    ensures r.None? <==> forall k :: 0 <= k < |shapes| ==> !HitTest(shapes[k], cx, cy)
    decreases |shapes|
  {
    if shapes == [] then None
    else if HitTest(shapes[0], cx, cy) then Some(0)
    else
      match FirstHit(shapes[1..], cx, cy)
      case None => None
      case Some(k) => Some(k + 1)
  }

  // ---------------------------------------------------------------------
  // Colours (see README, Findings)
  // ---------------------------------------------------------------------

  /** JavaScript's `%`: the remainder takes the sign of the dividend. */
  function JsRem(a: int, b: int): int
    requires b > 0
  {
    if a >= 0 then a % b else -((-a) % b)
  }

  /** The palette index of the shape at position `i`, as the demo computes it. */
  function ColourIndexAsWritten(i: int, isTarget: bool): (c: int)
    ensures isTarget ==> c == 0
    ensures !isTarget && i >= 1 ==> 1 <= c < |Palette|
  {
    if isTarget then 0 else 1 + JsRem(i - 1, |Palette| - 1)
  }

  /** A non-target in the first position gets the target's colour. */
  lemma FirstDecoyGetsTargetColour()
    ensures ColourIndexAsWritten(0, false) == ColourIndexAsWritten(0, true) == 0
  {
  }

  /**
   * The palette index with the remainder taken in [0, 6]: the target has
   * colour 0 and every other shape one of colours 1 to 7, cycling with its
   * position. It agrees with the demo's index everywhere except a
   * non-target in the first position.
   */
  function ColourIndex(i: int, isTarget: bool): (c: int)
    ensures isTarget <==> c == 0
    ensures 0 <= c < |Palette|
    ensures i >= 1 ==> c == ColourIndexAsWritten(i, isTarget)
  {
    if isTarget then 0 else 1 + (i - 1) % (|Palette| - 1)
  }

  // ---------------------------------------------------------------------
  // Shuffling
  // ---------------------------------------------------------------------

  function Swap<T>(s: seq<T>, i: int, j: int): (r: seq<T>)
    requires 0 <= i < |s| && 0 <= j < |s|
    ensures |r| == |s|
  {
    s[i := s[j]][j := s[i]]
  }

  /** Swapping two positions rearranges the list. */
  lemma SwapPermutes<T>(s: seq<T>, i: int, j: int)
    requires 0 <= i < |s| && 0 <= j < |s|
    ensures multiset(Swap(s, i, j)) == multiset(s)
  {
  }

  /** Indices a Fisher-Yates pass over `n` positions may use: position i swaps with one in [0, i]. */
  predicate ValidPicks(picks: seq<int>, n: nat)
  {
    |picks| == n && forall i :: 1 <= i < n ==> 0 <= picks[i] <= i
  }

  /**
   * The Fisher-Yates pass over the first `n` positions: position n - 1 is
   * swapped with position `picks[n - 1]`, then the pass goes on down to position 1.
   */
  function ShuffledBy<T>(s: seq<T>, n: nat, picks: seq<int>): seq<T>
    requires n <= |s| && |picks| >= n && ValidPicks(picks[..n], n)
    decreases n
  {
    if n <= 1 then s
    else
      assert ValidPicks(picks[..n - 1], n - 1) by {
        assert forall i :: 1 <= i < n - 1 ==> picks[..n - 1][i] == picks[..n][i];
      }
      ShuffledBy(Swap(s, n - 1, picks[n - 1]), n - 1, picks)
  }

  /**
   * The indices the demo's pass over `n` positions draws: `randInt(0, i)` for
   * position i, from the last position down, at stream positions d, d + 1, ...
   */
  function Picks(random: nat -> Unit, d: nat, n: nat): (picks: seq<int>)
    ensures ValidPicks(picks, n)
  {
    var picks := seq(n, i requires 0 <= i < n => if i == 0 then 0 else RandIntOf(random(d + (n - 1 - i)), 0, i));
    assert forall i :: 1 <= i < n ==> picks[i] == RandIntOf(random(d + (n - 1 - i)), 0, i);
    picks
  }

  /** The whole list shuffled by the draws from stream position `d` on. */
  function Shuffled<T>(s: seq<T>, random: nat -> Unit, d: nat): seq<T>
  {
    var picks := Picks(random, d, |s|);
    assert picks[..|s|] == picks;
    ShuffledBy(s, |s|, picks)
  }

  /** The shuffle rearranges the list: same length, same elements with the same counts. */
  lemma {:induction false} ShuffledPermutes<T>(s: seq<T>, n: nat, picks: seq<int>)
    requires n <= |s| && |picks| >= n && ValidPicks(picks[..n], n)
    ensures |ShuffledBy(s, n, picks)| == |s|
    ensures multiset(ShuffledBy(s, n, picks)) == multiset(s)
    decreases n
  {
    if n > 1 {
      assert ValidPicks(picks[..n - 1], n - 1) by {
        assert forall i :: 1 <= i < n - 1 ==> picks[..n - 1][i] == picks[..n][i];
      }
      assert picks[n - 1] == picks[..n][n - 1];
      SwapPermutes(s, n - 1, picks[n - 1]);
      ShuffledPermutes(Swap(s, n - 1, picks[n - 1]), n - 1, picks);
    }
  }

  /**
   * The type list built from the stream at position `d`: the target, then
   * `nonTargets[randInt(0, 3)]` for each of the other six positions.
   */
  function TypeList(target: DemoShape, random: nat -> Unit, d: nat): (types: seq<DemoShape>)
    ensures |types| == ShapeCount && types[0] == target
    ensures forall i :: 1 <= i < ShapeCount ==> types[i] != target
  {
    NonTargetsSpec(target);
    [target] + Drawn(NonTargets(target), target, random, d, ShapeCount - 1)
  }

  /** `n` members of a four-entry pool, each picked by the next draw. */
  function Drawn(pool: seq<DemoShape>, avoid: DemoShape, random: nat -> Unit, d: nat, n: nat): (r: seq<DemoShape>)
    requires |pool| == 4 && forall k :: 0 <= k < 4 ==> pool[k] != avoid
    ensures |r| == n && forall i :: 0 <= i < n ==> r[i] != avoid
  {
    var r := seq(n, i requires 0 <= i < n => pool[RandIntOf(random(d + i), 0, 3)]);
    assert forall i :: 0 <= i < n ==> r[i] == pool[RandIntOf(random(d + i), 0, 3)];
    r
  }

  /** The type list after the shuffle that follows it in the stream. */
  function ShuffledTypeList(target: DemoShape, random: nat -> Unit, d: nat): seq<DemoShape>
  {
    Shuffled(TypeList(target, random, d), random, d + ShapeCount - 1)
  }

  // ---------------------------------------------------------------------
  // A well-placed field of shapes
  // ---------------------------------------------------------------------

  /** A shape's size, colour and, on a canvas wide and tall enough, its margins. */
  predicate ShapeFits(p: Placed, k: int, width: int, height: int)
  {
    p.size == (if p.isTarget then TargetSize else BaseSize)
    && p.colour == ColourIndex(k, p.isTarget)
    && (width >= 2 * Margin ==> Margin as real <= p.x <= (width - Margin) as real)
    && (height >= 2 * Margin ==> Margin as real <= p.y <= (height - Margin) as real)
  }

  /**
   * What `placeShapes` promises: seven shapes, exactly one flagged as the
   * target, the flagged one and only it of the target's type, and every shape
   * sized, coloured and kept within the margins.
   */
  predicate WellPlaced(placed: seq<Placed>, target: DemoShape, width: int, height: int)
  {
    |placed| == ShapeCount
    && (exists t :: 0 <= t < |placed| && placed[t].isTarget
          && forall k :: 0 <= k < |placed| && k != t ==> !placed[k].isTarget)
    && (forall k :: 0 <= k < |placed| ==> (placed[k].isTarget <==> placed[k].kind == target))
    && (forall k :: 0 <= k < |placed| ==> ShapeFits(placed[k], k, width, height))
  }

  /** Whether a shape of `size` centred at (x, y) comes closer than allowed to one already placed. */
  predicate TooClose(p: Placed, x: real, y: real, size: int)
  {
    var minD := (size + p.size) as real / 2.0 + 12.0;
    (x - p.x) * (x - p.x) + (y - p.y) * (y - p.y) < minD * minD
  }

  predicate Overlaps(placed: seq<Placed>, x: real, y: real, size: int)
  {
    exists k :: 0 <= k < |placed| && TooClose(placed[k], x, y, size)
  }

  // ---------------------------------------------------------------------
  // The demo's state and game flow
  // ---------------------------------------------------------------------

  class DemoGame {
    const width: int
    const height: int
    /** The values `Math.random()` returns, in order. */
    const random: nat -> Unit
    /** How many random values have been drawn. */
    var draws: nat

    var gameRunning: bool
    var hits: nat
    var misses: nat
    var timeLeft: int
    var targetType: Option<DemoShape>
    var placedShapes: seq<Placed>

    /** The state on page load, before the start button is pressed. */
    constructor(width: int, height: int, random: nat -> Unit)
      ensures this.width == width && this.height == height && this.random == random && draws == 0
      ensures !gameRunning && hits == 0 && misses == 0 && timeLeft == GameDuration
      ensures targetType == None && placedShapes == []
    {
      this.width, this.height, this.random := width, height, random;
      draws := 0;
      gameRunning := false;
      hits, misses := 0, 0;
      timeLeft := GameDuration;
      targetType := None;
      placedShapes := [];
    }

    /** Accuracy of the taps so far. */
    function GetAccuracy(): (r: int)
      reads this
      ensures 0 <= r <= 100
      ensures hits + misses == 0 ==> r == 0
    {
      Accuracy(hits, misses)
    }

    method Rand(min: real, max: real) returns (v: real)
      modifies this`draws
      ensures v == RandOf(random(old(draws)), min, max) && draws == old(draws) + 1
    {
      v := RandOf(random(draws), min, max);
      draws := draws + 1;
    }

    method RandInt(min: int, max: int) returns (v: int)
      modifies this`draws
      ensures v == RandIntOf(random(old(draws)), min, max) && draws == old(draws) + 1
      ensures min <= max ==> min <= v <= max
    {
      v := RandIntOf(random(draws), min, max);
      draws := draws + 1;
    }

    /**
     * The type list: the target first, then six types drawn from the
     * non-target types, so the target occurs exactly once.
     */
    method BuildTypes(target: DemoShape) returns (types: array<DemoShape>)
      modifies this`draws
      ensures fresh(types) && types[..] == TypeList(target, random, old(draws))
      ensures draws == old(draws) + ShapeCount - 1
    {
      NonTargetsSpec(target);
      var nonTargets := NonTargets(target);
      types := new DemoShape[ShapeCount](_ => target);
      for i := 1 to ShapeCount
        invariant draws == old(draws) + i - 1
        invariant types[0] == target
        invariant forall k :: 1 <= k < i ==>
                    types[k] == nonTargets[RandIntOf(random(old(draws) + k - 1), 0, 3)]
      {
        var pick := RandInt(0, |nonTargets| - 1);
        types[i] := nonTargets[pick];
      }
      assert forall k :: 0 <= k < ShapeCount ==> types[k] == TypeList(target, random, old(draws))[k];
    }

    /**
     * The retry loop: draws a centre within the margins until it keeps clear
     * of every shape already placed, giving up after 40 draws.
     */
    method PickPosition(placed: seq<Placed>, size: int) returns (x: real, y: real, tries: nat)
      modifies this`draws
      ensures 1 <= tries <= MaxTries
      ensures tries < MaxTries ==> !Overlaps(placed, x, y, size)
      ensures draws == old(draws) + 2 * tries
      ensures width >= 2 * Margin ==> Margin as real <= x <= (width - Margin) as real
      ensures height >= 2 * Margin ==> Margin as real <= y <= (height - Margin) as real
      ensures x == RandOf(random(draws - 2), Margin as real, (width - Margin) as real)
      ensures y == RandOf(random(draws - 1), Margin as real, (height - Margin) as real)
    {
      x := Rand(Margin as real, (width - Margin) as real);
      y := Rand(Margin as real, (height - Margin) as real);
      tries := 1;
      while tries < MaxTries && Overlaps(placed, x, y, size)
        invariant 1 <= tries <= MaxTries
        invariant draws == old(draws) + 2 * tries
        invariant x == RandOf(random(draws - 2), Margin as real, (width - Margin) as real)
        invariant y == RandOf(random(draws - 1), Margin as real, (height - Margin) as real)
        decreases MaxTries - tries
      {
        x := Rand(Margin as real, (width - Margin) as real);
        y := Rand(Margin as real, (height - Margin) as real);
        tries := tries + 1;
      }
    }

    /**
     * The type list after the shuffle: a rearrangement of the target and six
     * non-target types, so the target sits at exactly one position `t`.
     */
    method ShuffledTypes(target: DemoShape) returns (kinds: seq<DemoShape>, ghost t: nat)
      modifies this`draws
      ensures kinds == ShuffledTypeList(target, random, old(draws))
      ensures |kinds| == ShapeCount && t < |kinds| && kinds[t] == target
      ensures forall k :: 0 <= k < |kinds| && k != t ==> kinds[k] != target
      ensures draws == old(draws) + 2 * (ShapeCount - 1)
    {
      var types := BuildTypes(target);
      OnceAtTheFront(types[..], target);
      ShuffleInPlace(types, random, draws);
      draws := draws + (types.Length - 1);
      kinds := types[..];
      t := SingleOccurrence(kinds, target);
    }

    /** `placeShapes`: a fresh, well-placed field for the given target type. */
    method PlaceShapes(target: DemoShape) returns (placed: seq<Placed>)
      modifies this`draws
      ensures WellPlaced(placed, target, width, height)
      ensures old(draws) + 2 * (ShapeCount - 1) + 2 * ShapeCount <= draws
      ensures draws <= old(draws) + 2 * (ShapeCount - 1) + 2 * MaxTries * ShapeCount
    {
      var kinds, t := ShuffledTypes(target);
      placed := PlaceField(kinds, t, target);
    }

    /**
     * The placement loop of `placeShapes` over the shuffled type list, whose
     * only shape of the target type sits at position `t`: that one is flagged
     * as the target, and every shape gets a centre from the retry loop.
     */
    method PlaceField(kinds: seq<DemoShape>, ghost t: nat, target: DemoShape) returns (placed: seq<Placed>)
      requires |kinds| == ShapeCount && t < |kinds| && kinds[t] == target
      requires forall k :: 0 <= k < |kinds| && k != t ==> kinds[k] != target
      modifies this`draws
      ensures WellPlaced(placed, target, width, height)
      ensures forall k :: 0 <= k < |placed| ==> placed[k].kind == kinds[k]
      ensures old(draws) + 2 * ShapeCount <= draws <= old(draws) + 2 * MaxTries * ShapeCount
    {
      placed := [];
      var targetAssigned := false;
      for i := 0 to ShapeCount
        invariant |placed| == i
        invariant targetAssigned <==> t < i
        invariant forall k :: 0 <= k < i ==> PlacedAt(placed[k], k, kinds, t, width, height)
        invariant old(draws) + 2 * i <= draws <= old(draws) + 2 * MaxTries * i
      {
        var kind := kinds[i];
        var isTarget := kind == target && !targetAssigned;
        if isTarget {
          targetAssigned := true;
        }
        var shape := PlaceShape(placed, kind, i, isTarget);
        assert 2 * MaxTries * (i + 1) == 2 * MaxTries * i + 2 * MaxTries;
        assert PlacedAt(shape, i, kinds, t, width, height);
        ghost var before := placed;
        placed := placed + [shape];
        assert forall k :: 0 <= k < i ==> placed[k] == before[k];
      }
      FieldIsWellPlaced(placed, kinds, t, target, width, height);
    }

    /** One shape of the field: its size and colour, and a centre from the retry loop. */
    method PlaceShape(placed: seq<Placed>, kind: DemoShape, i: int, isTarget: bool) returns (shape: Placed)
      modifies this`draws
      ensures shape.kind == kind && shape.isTarget == isTarget && ShapeFits(shape, i, width, height)
      ensures old(draws) + 2 <= draws <= old(draws) + 2 * MaxTries
    {
      var size := if isTarget then TargetSize else BaseSize;
      var colour := ColourIndex(i, isTarget);
      var x, y, tries := PickPosition(placed, size);
      shape := Placed(kind, x, y, size, isTarget, colour);
    }

    /** `startGame`: resets the counters and the clock, picks a target type and places the shapes. */
    method StartGame()
      modifies this`draws, this`gameRunning, this`hits, this`misses, this`timeLeft,
               this`targetType, this`placedShapes
      ensures gameRunning && hits == 0 && misses == 0 && timeLeft == GameDuration
      ensures targetType.Some? && targetType.value in Shapes
      ensures targetType.value == Shapes[RandIntOf(random(old(draws)), 0, 4)]
      ensures WellPlaced(placedShapes, targetType.value, width, height)
    {
      hits, misses, timeLeft := 0, 0, GameDuration;
      gameRunning := true;
      var pick := RandInt(0, |Shapes| - 1);
      targetType := Some(Shapes[pick]);
      placedShapes := PlaceShapes(Shapes[pick]);
    }

    /** The shape refresh timer: a new field for the current target type. */
    method RenderTick()
      requires gameRunning && targetType.Some?
      modifies this`draws, this`placedShapes
      ensures WellPlaced(placedShapes, targetType.value, width, height)
    {
      placedShapes := PlaceShapes(targetType.value);
    }

    /**
     * The target timer: a new target type, drawn from all five. The field is
     * left as it is, so its flagged shape keeps the previous target's type
     * until the next refresh.
     */
    method TargetTick()
      requires gameRunning
      modifies this`draws, this`targetType
      ensures targetType.Some? && targetType.value in Shapes
      ensures targetType.value == Shapes[RandIntOf(random(old(draws)), 0, 4)]
      ensures draws == old(draws) + 1
    {
      var pick := RandInt(0, |Shapes| - 1);
      targetType := Some(Shapes[pick]);
    }

    /** `endGame`: stops the round and reports the final accuracy. */
    method EndGame() returns (accuracy: int)
      modifies this`gameRunning
      ensures !gameRunning && accuracy == Accuracy(hits, misses)
    {
      gameRunning := false;
      accuracy := GetAccuracy();
    }

    /** The one-second timer: counts down and ends the round when the time is up. */
    method TimerTick() returns (result: Option<int>)
      requires gameRunning
      modifies this`timeLeft, this`gameRunning
      ensures timeLeft == old(timeLeft) - 1
      ensures result.Some? <==> timeLeft <= 0
      ensures result.Some? ==> !gameRunning && result.value == Accuracy(hits, misses)
      ensures result.None? ==> gameRunning
    {
      timeLeft := timeLeft - 1;
      result := None;
      if timeLeft <= 0 {
        var accuracy := EndGame();
        result := Some(accuracy);
      }
    }

    /**
     * `handleInput` at canvas coordinates (cx, cy): ignored unless a round is
     * running and the tap lands on a shape; otherwise the first shape hit, in
     * list order, decides between a hit and a miss, and the field is refreshed.
     */
    method HandleInput(cx: real, cy: real)
      requires gameRunning ==> targetType.Some?
      modifies this`draws, this`hits, this`misses, this`placedShapes
      ensures !old(gameRunning) || FirstHit(old(placedShapes), cx, cy).None? ==>
                draws == old(draws) && hits == old(hits) && misses == old(misses)
                && placedShapes == old(placedShapes)
      ensures old(gameRunning) && FirstHit(old(placedShapes), cx, cy).Some? ==>
                var first := old(placedShapes)[FirstHit(old(placedShapes), cx, cy).value];
                hits == old(hits) + (if first.isTarget then 1 else 0)
                && misses == old(misses) + (if first.isTarget then 0 else 1)
                && WellPlaced(placedShapes, targetType.value, width, height)
    {
      if !gameRunning {
        return;
      }
      var i := 0;
      while i < |placedShapes| && !HitTest(placedShapes[i], cx, cy)
        invariant 0 <= i <= |placedShapes|
        invariant forall k :: 0 <= k < i ==> !HitTest(placedShapes[k], cx, cy)
      {
        i := i + 1;
      }
      if i == |placedShapes| {
        return;
      }
      var hitTarget := placedShapes[i].isTarget;
      if hitTarget {
        hits := hits + 1;
      } else {
        misses := misses + 1;
      }
      placedShapes := PlaceShapes(targetType.value);
    }
  }

  /** The placement loop's facts, shape by shape, make a well-placed field. */
  lemma FieldIsWellPlaced(placed: seq<Placed>, kinds: seq<DemoShape>, t: nat, target: DemoShape,
                          width: int, height: int)
    requires |placed| == |kinds| == ShapeCount && t < |kinds| && kinds[t] == target
    requires forall k :: 0 <= k < |kinds| && k != t ==> kinds[k] != target
    requires forall k :: 0 <= k < |placed| ==> PlacedAt(placed[k], k, kinds, t, width, height)
    ensures WellPlaced(placed, target, width, height)
  {
    assert placed[t].isTarget;
  }

  /** The shape at position `k` of the field has the k-th type, is flagged exactly when k is `t`, and fits. */
  predicate PlacedAt(p: Placed, k: int, kinds: seq<DemoShape>, t: int, width: int, height: int)
  {
    0 <= k < |kinds| && p.kind == kinds[k] && (p.isTarget <==> k == t) && ShapeFits(p, k, width, height)
  }

  /**
   * The in-place Fisher-Yates shuffle, drawing `randInt(0, i)` for each
   * position i from the last down to 1 from the stream positions `d`, d + 1, ...
   */
  method ShuffleInPlace<T>(a: array<T>, random: nat -> Unit, d: nat)
    modifies a
    ensures a[..] == Shuffled(old(a[..]), random, d)
    ensures multiset(a[..]) == multiset(old(a[..]))
  {
    ghost var picks := Picks(random, d, a.Length);
    assert picks[..a.Length] == picks;
    ghost var shuffled := ShuffledBy(a[..], a.Length, picks);
    var i := a.Length - 1;
    while i > 0
      invariant -1 <= i < a.Length && (a.Length > 0 ==> i >= 0)
      invariant ValidPicks(picks[..i + 1], i + 1)
      invariant ShuffledBy(a[..], i + 1, picks) == shuffled
      decreases i
    {
      ghost var before := a[..];
      var j := RandIntOf(random(d + (a.Length - 1 - i)), 0, i);
      assert j == picks[i];
      a[i], a[j] := a[j], a[i];
      assert a[..] == Swap(before, i, j);
      assert ValidPicks(picks[..i], i) by {
        assert forall k :: 1 <= k < i ==> picks[..i][k] == picks[..i + 1][k];
      }
      i := i - 1;
    }
    ShuffledPermutes(old(a[..]), a.Length, picks);
  }

  /** A list whose first element is `x` and whose other elements are not holds `x` exactly once. */
  lemma OnceAtTheFront<T>(s: seq<T>, x: T)
    requires |s| >= 1 && s[0] == x
    requires forall i :: 1 <= i < |s| ==> s[i] != x
    ensures multiset(s)[x] == 1
  {
    assert s == [s[0]] + s[1..];
    assert x !in s[1..];
  }

  // ---------------------------------------------------------------------
  // Rounds the demo plays
  // ---------------------------------------------------------------------

  /** On a 600 by 400 canvas, a started round has seven well-placed shapes within the margins. */
  method StartedRound(random: nat -> Unit) returns (game: DemoGame)
    ensures game.gameRunning && game.hits == 0 && game.misses == 0 && game.GetAccuracy() == 0
    ensures |game.placedShapes| == ShapeCount
    ensures forall k :: 0 <= k < ShapeCount ==>
              52.0 <= game.placedShapes[k].x <= 548.0 && 52.0 <= game.placedShapes[k].y <= 348.0
  {
    game := new DemoGame(600, 400, random);
    game.StartGame();
    assert forall k :: 0 <= k < ShapeCount ==> ShapeFits(game.placedShapes[k], k, 600, 400);
  }

  /** Tapping the centre of the first shape counts one tap: a hit if it is the target, a miss otherwise. */
  method TapFirstShape(random: nat -> Unit) returns (hits: nat, misses: nat, accuracy: int)
    ensures hits + misses == 1
    ensures accuracy == (if hits == 1 then 100 else 0)
  {
    var game := new DemoGame(600, 400, random);
    game.StartGame();
    var first := game.placedShapes[0];
    CentreHits(first);
    game.HandleInput(first.x, first.y);
    hits, misses, accuracy := game.hits, game.misses, game.GetAccuracy();
  }
}
