/**
 * The ninja calm meter: a score between 0 and 100 that correct taps raise,
 * wrong taps lower, and whose five bands give the player's calm tier.
 *
 * The meter only ever starts at 50 and moves in whole steps (+8, -5, -12),
 * so its value is an integer.
 */
module CalmMeter {

  const InitialCalm: int := 50

  function Min(a: int, b: int): int { if a <= b then a else b }

  function Max(a: int, b: int): int { if a >= b then a else b }

  /** The value after a correct tap: up 8, capped at 100. */
  function Hit(v: int): (r: int)
    ensures r <= 100 && r >= Min(v, 100)
  {
    Min(100, v + 8)
  }

  /** The value after a miss: down 5, floored at 0. */
  function Miss(v: int): (r: int)
    ensures r >= 0 && r <= Max(v, 0)
  {
    Max(0, v - 5)
  }

  /** The value after a wrong tap: down 12, floored at 0. */
  function WrongTap(v: int): (r: int)
    ensures r >= 0 && r <= Miss(v)
  {
    Max(0, v - 12)
  }

  /** One recorded event. */
  datatype CalmEvent = HitEvent | MissEvent | WrongTapEvent

  function Step(v: int, e: CalmEvent): int
  {
    match e
    case HitEvent => Hit(v)
    case MissEvent => Miss(v)
    case WrongTapEvent => WrongTap(v)
  }

  /** The value reached from `v` by recording `events` in order. */
  function Replay(v: int, events: seq<CalmEvent>): int
    decreases events
  {
    if events == [] then v else Replay(Step(v, events[0]), events[1..])
  }

  /** `n` copies of the same event. */
  function Repeat(e: CalmEvent, n: nat): (r: seq<CalmEvent>)
    ensures |r| == n && forall i :: 0 <= i < n ==> r[i] == e
  {
    if n == 0 then [] else [e] + Repeat(e, n - 1)
  }

  /**
   * The calm tier: 4 zen (80 and up), 3 calm (60 and up), 2 steady (40 and up),
   * 1 distracted (20 and up), 0 frantic. Each band includes its lower bound,
   * so on a non-negative value the tier is the value's twentieth, at most 4.
   */
  function TierOf(v: int): (t: int)
    ensures 0 <= t <= 4
    ensures v >= 0 ==> t == Min(4, v / 20)
  {
    if v >= 80 then 4
    else if v >= 60 then 3
    else if v >= 40 then 2
    else if v >= 20 then 1
    else 0
  }

  /** A calmer value never has a lower tier. */
  lemma TierMonotone(a: int, b: int)
    requires a <= b
    ensures TierOf(a) <= TierOf(b)
  {
  }

  /** Each recorded event keeps the meter within [0, 100]. */
  lemma StepInRange(v: int, e: CalmEvent)
    requires 0 <= v <= 100
    ensures 0 <= Step(v, e) <= 100
  {
  }

  /** Any sequence of recorded events keeps the meter within [0, 100]. */
  lemma {:induction false} ReplayInRange(v: int, events: seq<CalmEvent>)
    requires 0 <= v <= 100
    ensures 0 <= Replay(v, events) <= 100
    decreases events
  {
    if events != [] {
      StepInRange(v, events[0]);
      ReplayInRange(Step(v, events[0]), events[1..]);
    }
  }

  /** Recording `a` and then `b` is recording `a + b`. */
  lemma {:induction false} ReplayAppend(v: int, a: seq<CalmEvent>, b: seq<CalmEvent>)
    ensures Replay(v, a + b) == Replay(Replay(v, a), b)
    decreases a
  {
    if a != [] {
      assert (a + b)[0] == a[0];
      assert (a + b)[1..] == a[1..] + b;
      ReplayAppend(Step(v, a[0]), a[1..], b);
    } else {
      assert a + b == b;
    }
  }

  /** `n` correct taps raise the meter by 8 each, capped at 100. */
  lemma {:induction false} RepeatedHits(v: int, n: nat)
    requires v <= 100
    ensures Replay(v, Repeat(HitEvent, n)) == Min(100, v + 8 * n)
    decreases n
  {
    if n > 0 {
      assert Repeat(HitEvent, n)[1..] == Repeat(HitEvent, n - 1);
      RepeatedHits(Hit(v), n - 1);
    }
  }

  /** `n` wrong taps lower the meter by 12 each, floored at 0. */
  lemma {:induction false} RepeatedWrongTaps(v: int, n: nat)
    requires v >= 0
    ensures Replay(v, Repeat(WrongTapEvent, n)) == Max(0, v - 12 * n)
    decreases n
  {
    if n > 0 {
      assert Repeat(WrongTapEvent, n)[1..] == Repeat(WrongTapEvent, n - 1);
      RepeatedWrongTaps(WrongTap(v), n - 1);
    }
  }

  /**
   * The meter of one session. Its value is always the replay of the events
   * recorded on it, starting from 50.
   */
  class NinjaCalmMeter {
    var value: int
    ghost var history: seq<CalmEvent>

    ghost predicate Valid()
      reads this
    {
      value == Replay(InitialCalm, history) && 0 <= value <= 100
    }

    constructor()
      ensures Valid() && value == InitialCalm && history == []
    {
      value := InitialCalm;
      history := [];
    }

    method RecordHit()
      requires Valid()
      modifies this
      ensures Valid() && value == Hit(old(value)) && history == old(history) + [HitEvent]
    {
      ReplayAppend(InitialCalm, history, [HitEvent]);
      StepInRange(value, HitEvent);
      value := Min(100, value + 8);
      history := history + [HitEvent];
    }

    method RecordMiss()
      requires Valid()
      modifies this
      ensures Valid() && value == Miss(old(value)) && history == old(history) + [MissEvent]
    {
      ReplayAppend(InitialCalm, history, [MissEvent]);
      StepInRange(value, MissEvent);
      value := Max(0, value - 5);
      history := history + [MissEvent];
    }

    method RecordWrongTap()
      requires Valid()
      modifies this
      ensures Valid() && value == WrongTap(old(value)) && history == old(history) + [WrongTapEvent]
    {
      ReplayAppend(InitialCalm, history, [WrongTapEvent]);
      StepInRange(value, WrongTapEvent);
      value := Max(0, value - 12);
      history := history + [WrongTapEvent];
    }

    function Tier(): (t: int)
      reads this
      ensures 0 <= t <= 4
      ensures value >= 0 ==> t == Min(4, value / 20)
    {
      TierOf(value)
    }
  }

  // ---------------------------------------------------------------------
  // The meter's behaviour on the sequences its unit tests exercise
  // ---------------------------------------------------------------------

  /** A new meter reads 50, tier 2 (steady). */
  method InitialValue() returns (value: int, tier: int)
    ensures value == 50 && tier == 2
  {
    var meter := new NinjaCalmMeter();
    value, tier := meter.value, meter.Tier();
  }

  /** Three correct taps from 50 give 74, tier 3 (calm). */
  method HitRaisesValue() returns (value: int, tier: int)
    ensures value == 74 && tier == 3
  {
    var meter := new NinjaCalmMeter();
    meter.RecordHit();
    meter.RecordHit();
    meter.RecordHit();
    value, tier := meter.value, meter.Tier();
  }

  /** Three wrong taps from 50 give 14, tier 0 (frantic). */
  method WrongTapLowersValue() returns (value: int, tier: int)
    ensures value == 14 && tier == 0
  {
    var meter := new NinjaCalmMeter();
    meter.RecordWrongTap();
    meter.RecordWrongTap();
    meter.RecordWrongTap();
    value, tier := meter.value, meter.Tier();
  }

  /** Twenty correct taps cap the meter at 100; twenty wrong taps after that floor it at 0. */
  method Clamping() returns (afterHits: int, afterWrongTaps: int)
    ensures afterHits == 100 && afterWrongTaps == 0
  {
    var meter := new NinjaCalmMeter();
    for i := 0 to 20
      invariant meter.Valid() && meter.history == Repeat(HitEvent, i)
    {
      assert Repeat(HitEvent, i + 1) == Repeat(HitEvent, i) + [HitEvent];
      meter.RecordHit();
    }
    RepeatedHits(InitialCalm, 20);
    afterHits := meter.value;
    ghost var hits := meter.history;
    for i := 0 to 20
      invariant meter.Valid() && meter.history == hits + Repeat(WrongTapEvent, i)
    {
      assert Repeat(WrongTapEvent, i + 1) == Repeat(WrongTapEvent, i) + [WrongTapEvent];
      meter.RecordWrongTap();
    }
    ReplayAppend(InitialCalm, hits, Repeat(WrongTapEvent, 20));
    RepeatedWrongTaps(100, 20);
    afterWrongTaps := meter.value;
  }
}
