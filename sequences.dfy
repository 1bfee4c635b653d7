/** Small facts about sequences that the shape lists rely on. */
module Sequences {

  /** The elements of `s` that differ from `k`, in their original order. */
  function Without<T(==)>(s: seq<T>, k: T): seq<T>
  {
    if s == [] then [] else (if s[0] == k then [] else [s[0]]) + Without(s[1..], k)
  }

  /** No element occurs twice. */
  predicate Distinct<T(==)>(s: seq<T>)
  {
    forall i, j :: 0 <= i < j < |s| ==> s[i] != s[j]
  }

  /** Filtering out `k` drops exactly the copies of `k` and keeps distinctness. */
  lemma {:induction false} WithoutSpec<T>(s: seq<T>, k: T)
    ensures forall x :: x in Without(s, k) <==> x in s && x != k
    ensures |Without(s, k)| == |s| - multiset(s)[k]
    ensures Distinct(s) ==> Distinct(Without(s, k))
  {
    if s != [] {
      WithoutSpec(s[1..], k);
      assert s == [s[0]] + s[1..];
      assert multiset(s) == multiset{s[0]} + multiset(s[1..]);
      var head := if s[0] == k then [] else [s[0]];
      assert Without(s, k) == head + Without(s[1..], k);
      if Distinct(s) {
        assert Distinct(s[1..]) by {
          forall i, j | 0 <= i < j < |s[1..]| ensures s[1..][i] != s[1..][j] {
            assert s[1..][i] == s[i + 1] && s[1..][j] == s[j + 1];
          }
        }
        assert s[0] !in s[1..] by {
          forall i | 0 <= i < |s[1..]| ensures s[1..][i] != s[0] {
            assert s[1..][i] == s[i + 1];
          }
        }
        assert s[0] !in Without(s[1..], k);
        var w := Without(s, k);
        forall i, j | 0 <= i < j < |w| ensures w[i] != w[j] {
          if head != [] && i == 0 {
            assert w[j] == Without(s[1..], k)[j - 1];
            assert w[j] in Without(s[1..], k);
          } else if head != [] {
            assert w[i] == Without(s[1..], k)[i - 1] && w[j] == Without(s[1..], k)[j - 1];
          }
        }
      }
    }
  }

  /** A list without repeats holds each value at most once. */
  lemma {:induction false} DistinctCountAtMostOne<T>(t: seq<T>, x: T)
    requires Distinct(t)
    ensures multiset(t)[x] <= 1
    decreases t
  {
    if t != [] {
      assert t == [t[0]] + t[1..];
      assert Distinct(t[1..]) by {
        forall i, j | 0 <= i < j < |t[1..]| ensures t[1..][i] != t[1..][j] {
          assert t[1..][i] == t[i + 1] && t[1..][j] == t[j + 1];
        }
      }
      DistinctCountAtMostOne(t[1..], x);
      if t[0] == x {
        assert x !in t[1..] by {
          forall i | 0 <= i < |t[1..]| ensures t[1..][i] != x {
            assert t[1..][i] == t[i + 1];
          }
        }
      }
    }
  }

  /** A value at two different positions occurs at least twice. */
  lemma RepeatedValueCountsTwice<T>(s: seq<T>, i: int, j: int)
    requires 0 <= i < j < |s| && s[i] == s[j]
    ensures multiset(s)[s[i]] >= 2
  {
    assert s == s[..j] + s[j..];
    assert s[i] == s[..j][i];
    assert s[j] == s[j..][0];
    assert multiset(s) == multiset(s[..j]) + multiset(s[j..]);
  }

  /** Any rearrangement of a list without repeats has no repeats. */
  lemma PermutationKeepsDistinct<T>(s: seq<T>, t: seq<T>)
    requires multiset(s) == multiset(t) && Distinct(t)
    ensures Distinct(s)
  {
    forall i, j | 0 <= i < j < |s| ensures s[i] != s[j] {
      if s[i] == s[j] {
        RepeatedValueCountsTwice(s, i, j);
        DistinctCountAtMostOne(t, s[i]);
        assert false;
      }
    }
  }

  /** A value counted once in a list sits at exactly one position. */
  lemma {:induction false} SingleOccurrence<T>(s: seq<T>, x: T) returns (k: nat)
    requires multiset(s)[x] == 1
    ensures k < |s| && s[k] == x
    ensures forall i :: 0 <= i < |s| && i != k ==> s[i] != x
  {
    assert x in multiset(s);
    var k0 :| 0 <= k0 < |s| && s[k0] == x;
    k := k0;
    forall i | 0 <= i < |s| && i != k ensures s[i] != x {
      if s[i] == x {
        if i < k { RepeatedValueCountsTwice(s, i, k); } else { RepeatedValueCountsTwice(s, k, i); }
        assert false;
      }
    }
  }

  /** Three different values drawn from three different values are those three, rearranged. */
  lemma ThreeOfThree<T>(a: T, b: T, c: T, x: T, y: T, z: T)
    requires x != y && x != z && y != z
    requires a != b && a != c && b != c
    requires (a == x || a == y || a == z) && (b == x || b == y || b == z) && (c == x || c == y || c == z)
    ensures multiset{a, b, c} == multiset{x, y, z}
  {
    if a == x {
      if b == y { assert c == z; } else { assert b == z && c == y; }
    } else if a == y {
      if b == x { assert c == z; } else { assert b == z && c == x; }
    } else {
      if b == x { assert c == y; } else { assert b == y && c == x; }
    }
  }

  /** Two lists of three distinct values, each value of the first found in the second, are rearrangements of each other. */
  lemma ThreeRearranged<T>(s: seq<T>, d: seq<T>)
    requires |s| == 3 && |d| == 3 && Distinct(s) && Distinct(d)
    requires forall i :: 0 <= i < 3 ==> s[i] in d
    ensures multiset(s) == multiset(d)
  {
    assert s == [s[0], s[1], s[2]];
    assert d == [d[0], d[1], d[2]];
    assert s[0] in d && s[1] in d && s[2] in d;
    ThreeOfThree(s[0], s[1], s[2], d[0], d[1], d[2]);
  }
}
