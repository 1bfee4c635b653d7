/**
 * The player's persistent progress: one best score per (session length,
 * difficulty) pair and two lifetime counters, all kept in a key-value
 * store of integers (the platform's user defaults).
 *
 * The store is a `map<string, int>`; reading a key that was never written
 * gives 0, as the platform store does.
 */
module Progress {

  import opened GameConfig

  /** A stored integer; 0 for a key that was never written. */
  function Lookup(store: map<string, int>, key: string): int
  {
    if key in store then store[key] else 0
  }

  const TotalCorrectTapsKey: string := "totalCorrectTaps"
  const SessionsPlayedKey: string := "sessionsPlayed"

  // ---------------------------------------------------------------------
  // Best-score keys
  // ---------------------------------------------------------------------

  /** The ASCII digit of `d`. */
  function Digit(d: nat): char
    requires d < 10
  {
    ('0' as int + d) as char
  }

  predicate IsDigit(c: char) { '0' <= c <= '9' }

  predicate AllDigits(s: string) { forall i :: 0 <= i < |s| ==> IsDigit(s[i]) }

  /** The decimal text of `n`, most significant digit first, with no leading zeros. */
  function Decimal(n: nat): (r: string)
    ensures |r| >= 1 && AllDigits(r)
    ensures n < 10 <==> |r| == 1
    ensures r[|r| - 1] == Digit(n % 10)
    decreases n
  {
    if n < 10 then [Digit(n)] else Decimal(n / 10) + [Digit(n % 10)]
  }

  /** Below its last digit, the text of a number of two or more digits is the text of its tenth. */
  lemma DecimalPrefix(n: nat)
    requires n >= 10
    ensures Decimal(n)[..|Decimal(n)| - 1] == Decimal(n / 10)
  {
    var r := Decimal(n / 10) + [Digit(n % 10)];
    assert r[..|r| - 1] == Decimal(n / 10);
  }

  /** Different numbers have different decimal texts. */
  lemma {:induction false} DecimalInjective(a: nat, b: nat)
    requires Decimal(a) == Decimal(b)
    ensures a == b
    decreases a
  {
    var sa, sb := Decimal(a), Decimal(b);
    assert a % 10 == b % 10 by {
      assert Digit(a % 10) == sa[|sa| - 1] == sb[|sb| - 1] == Digit(b % 10);
    }
    if a >= 10 {
      assert b >= 10;
      DecimalPrefix(a);
      DecimalPrefix(b);
      DecimalInjective(a / 10, b / 10);
    }
  }

  /** The store key of the best score of a configuration: its session length and difficulty raw values. */
  function BestScoreKey(config: Config): (key: string)
    ensures |key| > 6 && key[..6] == "bs_dur"
  {
    "bs_dur" + Decimal(config.duration.Seconds()) + "_dif" + Decimal(config.difficulty.RawValue())
  }

  /** In a digit string followed by the separator, the separator's position is the first non-digit. */
  lemma SeparatorIsFirstNonDigit(x: string, y: string)
    requires AllDigits(x)
    ensures forall i :: 0 <= i < |x| ==> IsDigit((x + "_dif" + y)[i])
    ensures !IsDigit((x + "_dif" + y)[|x|])
  {
  }

  /** Two digit strings followed by the same separator can be split apart again. */
  lemma SplitAtSeparator(x: string, y: string, x': string, y': string)
    requires AllDigits(x) && AllDigits(x')
    requires x + "_dif" + y == x' + "_dif" + y'
    ensures x == x' && y == y'
  {
    var s, s' := x + "_dif" + y, x' + "_dif" + y';
    SeparatorIsFirstNonDigit(x, y);
    SeparatorIsFirstNonDigit(x', y');
    if |x| < |x'| {
      assert false;
    } else if |x'| < |x| {
      assert false;
    }
    assert x == s[..|x|] == s'[..|x|] == x';
    assert y == s[|x| + 4..] == s'[|x| + 4..] == y';
  }

  /**
   * Two configurations share a best-score key exactly when they have the same
   * session length and difficulty; the number of lives plays no part.
   */
  lemma BestScoreKeyInjective(c1: Config, c2: Config)
    ensures BestScoreKey(c1) == BestScoreKey(c2)
      <==> c1.duration == c2.duration && c1.difficulty == c2.difficulty
  {
    if BestScoreKey(c1) == BestScoreKey(c2) {
      var d1, r1 := Decimal(c1.duration.Seconds()), Decimal(c1.difficulty.RawValue());
      var d2, r2 := Decimal(c2.duration.Seconds()), Decimal(c2.difficulty.RawValue());
      assert "bs_dur" + d1 + "_dif" + r1 == "bs_dur" + (d1 + "_dif" + r1);
      assert "bs_dur" + d2 + "_dif" + r2 == "bs_dur" + (d2 + "_dif" + r2);
      assert d1 + "_dif" + r1 == BestScoreKey(c1)[6..] == BestScoreKey(c2)[6..] == d2 + "_dif" + r2;
      SplitAtSeparator(d1, r1, d2, r2);
      DecimalInjective(c1.duration.Seconds(), c2.duration.Seconds());
      DecimalInjective(c1.difficulty.RawValue(), c2.difficulty.RawValue());
    }
  }

  /** No best-score key is one of the two counter keys. */
  lemma BestScoreKeyIsNotACounter(config: Config)
    ensures BestScoreKey(config) != TotalCorrectTapsKey
    ensures BestScoreKey(config) != SessionsPlayedKey
  {
    assert BestScoreKey(config)[0] == 'b';
  }

  /** The key of the default configuration. */
  lemma DefaultBestScoreKey()
    ensures BestScoreKey(DefaultConfig) == "bs_dur60_dif1"
  {
    assert Decimal(60) == Decimal(6) + [Digit(0)];
  }

  // ---------------------------------------------------------------------
  // The progress object
  // ---------------------------------------------------------------------

  class PlayerProgress {
    var store: map<string, int>
    var totalCorrectTaps: int
    var sessionsPlayed: int

    /** The two counters mirror what the store holds under their keys. */
    ghost predicate Valid()
      reads this
    {
      totalCorrectTaps == Lookup(store, TotalCorrectTapsKey)
      && sessionsPlayed == Lookup(store, SessionsPlayedKey)
    }

    /** Opens the progress kept in `defaults`, reading both counters from it. */
    constructor(defaults: map<string, int>)
      ensures Valid() && store == defaults
      ensures totalCorrectTaps == Lookup(defaults, TotalCorrectTapsKey)
      ensures sessionsPlayed == Lookup(defaults, SessionsPlayedKey)
    {
      store := defaults;
      totalCorrectTaps := Lookup(defaults, TotalCorrectTapsKey);
      sessionsPlayed := Lookup(defaults, SessionsPlayedKey);
    }

    /** The best score stored for a configuration; 0 if none was recorded. */
    function BestScore(config: Config): (best: int)
      reads this
      ensures BestScoreKey(config) in store ==> best == store[BestScoreKey(config)]
      ensures BestScoreKey(config) !in store ==> best == 0
    {
      Lookup(store, BestScoreKey(config))
    }

    /**
     * Records a finished session: adds the score to the lifetime total, counts
     * the session, and stores the score as the new best for the configuration
     * when it beats the stored one. Returns whether it did.
     */
    method Record(score: int, config: Config) returns (isNew: bool)
      requires Valid()
      modifies this
      ensures Valid()
      ensures totalCorrectTaps == old(totalCorrectTaps) + score
      ensures sessionsPlayed == old(sessionsPlayed) + 1
      ensures isNew <==> score > old(BestScore(config))
      ensures BestScore(config) == if isNew then score else old(BestScore(config))
      ensures BestScore(config) >= old(BestScore(config)) && BestScore(config) >= score
      ensures forall c: Config :: c.duration != config.duration || c.difficulty != config.difficulty
                ==> BestScore(c) == old(BestScore(c))
      ensures store == (var counted := old(store)[TotalCorrectTapsKey := totalCorrectTaps]
                                                   [SessionsPlayedKey := sessionsPlayed];
                        if isNew then counted[BestScoreKey(config) := score] else counted)
    {
      totalCorrectTaps := totalCorrectTaps + score;
      sessionsPlayed := sessionsPlayed + 1;
      store := store[TotalCorrectTapsKey := totalCorrectTaps];
      store := store[SessionsPlayedKey := sessionsPlayed];

      var key := BestScoreKey(config);
      BestScoreKeyIsNotACounter(config);
      var previous := Lookup(store, key);
      isNew := score > previous;
      if isNew {
        store := store[key := score];
      }
      forall c: Config | c.duration != config.duration || c.difficulty != config.difficulty
        ensures BestScore(c) == old(BestScore(c))
      {
        BestScoreKeyInjective(c, config);
        BestScoreKeyIsNotACounter(c);
      }
    }
  }

  // ---------------------------------------------------------------------
  // Behaviour on the sequences the unit tests exercise (a fresh, empty store)
  // ---------------------------------------------------------------------

  /** A first session of 10 on the default configuration is a new best of 10, one session, 10 taps. */
  method RecordSession() returns (isNew: bool, best: int, sessions: int, total: int)
    ensures isNew && best == 10 && sessions == 1 && total == 10
  {
    var progress := new PlayerProgress(map[]);
    isNew := progress.Record(10, DefaultConfig);
    best, sessions, total := progress.BestScore(DefaultConfig), progress.sessionsPlayed, progress.totalCorrectTaps;
  }

  /** Scores 5, 3 and 10 in a row: only the first and the last beat the stored best. */
  method NewBestFlag() returns (first: bool, second: bool, third: bool)
    ensures first && !second && third
  {
    var progress := new PlayerProgress(map[]);
    first := progress.Record(5, DefaultConfig);
    second := progress.Record(3, DefaultConfig);
    third := progress.Record(10, DefaultConfig);
  }

  /** A configuration nobody has played yet reads as best 0, even after another one was recorded. */
  method UnplayedConfigReadsZero() returns (best: int)
    ensures best == 0
  {
    var progress := new PlayerProgress(map[]);
    var _ := progress.Record(25, DefaultConfig);
    best := progress.BestScore(Config(Marathon, Hard, 3));
  }
}
