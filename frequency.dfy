/**
 * Occurrence counts and the mode. `statistics.mode` (Python 3.8 and later)
 * counts the values with a `Counter`, whose keys keep the order of first
 * occurrence, and returns the first key with the highest count: among values
 * that occur equally often, the one that appears first in the data wins.
 */
module Frequency {

  /** Number of times `x` occurs in `s`. */
  function Count(s: seq<real>, x: real): nat
  {
    multiset(s)[x]
  }

  /** The distinct values of `s`, `set(s)`. */
  function Elements(s: seq<real>): set<real>
  {
    set x | x in s
  }

  /** No value occurs twice. */
  predicate Distinct(s: seq<real>)
  {
    forall i, j :: 0 <= i < j < |s| ==> s[i] != s[j]
  }

  /** Position of the first occurrence of `x`. */
  function IndexOf(s: seq<real>, x: real): (k: nat)
    requires x in s
    ensures k < |s| && s[k] == x
    ensures forall j :: 0 <= j < k ==> s[j] != x
  {
    if s[0] == x then 0 else 1 + IndexOf(s[1..], x)
  }

  /** `r` occurs in `s` at least as often as any value, and every value that
      appears before the first occurrence of `r` occurs strictly less often. */
  predicate IsFirstMostCommon(s: seq<real>, r: real)
  {
    && r in s
    && (forall j :: 0 <= j < |s| ==> Count(s, s[j]) <= Count(s, r))
    && (forall j :: 0 <= j < IndexOf(s, r) ==> Count(s, s[j]) < Count(s, r))
  }

  /** Scans `s[i..]` for a value occurring strictly more often than `s[b]`,
      the first most common value of `s[..i]`, first seen at position `b`;
      returns the position of the first most common value of `s`. */
  function ModeFrom(s: seq<real>, i: nat, b: nat): (k: nat)
    requires b < i <= |s|
    requires forall j :: 0 <= j < b ==> s[j] != s[b] && Count(s, s[j]) < Count(s, s[b])
    requires forall j :: 0 <= j < i ==> Count(s, s[j]) <= Count(s, s[b])
    ensures k < |s|
    ensures forall j :: 0 <= j < k ==> s[j] != s[k] && Count(s, s[j]) < Count(s, s[k])
    ensures forall j :: 0 <= j < |s| ==> Count(s, s[j]) <= Count(s, s[k])
    decreases |s| - i
  {
    if i == |s| then b
    else if Count(s, s[i]) > Count(s, s[b]) then ModeFrom(s, i + 1, i)
    else ModeFrom(s, i + 1, b)
  }

  /** `statistics.mode(s)` for non-empty data. */
  function Mode(s: seq<real>): (r: real)
    requires |s| > 0
    ensures IsFirstMostCommon(s, r)
  {
    var k := ModeFrom(s, 1, 0);
    assert IndexOf(s, s[k]) == k;
    s[k]
  }

  /** The first most common value is unique, so `Mode` is the only value
      satisfying `IsFirstMostCommon`. */
  lemma FirstMostCommonUnique(s: seq<real>, r1: real, r2: real)
    requires IsFirstMostCommon(s, r1) && IsFirstMostCommon(s, r2)
    ensures r1 == r2
  {
    var i1, i2 := IndexOf(s, r1), IndexOf(s, r2);
    assert Count(s, s[i1]) == Count(s, s[i2]);
  }

  /** Two equal entries at different positions make their value occur twice. */
  lemma RepeatCount(s: seq<real>, i: nat, j: nat)
    requires i < j < |s| && s[i] == s[j]
    ensures Count(s, s[i]) >= 2
  {
    assert s == s[..i] + [s[i]] + s[i + 1..j] + [s[j]] + s[j + 1..];
  }

  /** `len(set(s)) < len(s)` holds exactly when some value repeats. */
  lemma {:induction false} ElementsCardinality(s: seq<real>)
    ensures |Elements(s)| <= |s|
    ensures |Elements(s)| == |s| <==> Distinct(s)
  {
    if |s| > 0 {
      ElementsCardinality(s[1..]);
      assert Elements(s) == {s[0]} + Elements(s[1..]);
      if s[0] in s[1..] {
        assert Elements(s) == Elements(s[1..]);
        var k :| 0 <= k < |s[1..]| && s[1..][k] == s[0];
        assert s[k + 1] == s[0];
      } else {
        assert s[0] !in Elements(s[1..]);
        assert Distinct(s) <==> Distinct(s[1..]) by {
          if Distinct(s[1..]) {
            forall i, j | 0 <= i < j < |s| ensures s[i] != s[j] {
              if i > 0 {
                assert s[i] == s[1..][i - 1] && s[j] == s[1..][j - 1];
              } else {
                assert s[j] in s[1..];
              }
            }
          }
          if Distinct(s) {
            forall i, j | 0 <= i < j < |s[1..]| ensures s[1..][i] != s[1..][j] {
              assert s[1..][i] == s[i + 1] && s[1..][j] == s[j + 1];
            }
          }
        }
      }
    }
  }

  /** When some value repeats, the mode occurs at least twice. */
  lemma ModeRepeats(s: seq<real>)
    requires |s| > 0 && !Distinct(s)
    ensures Count(s, Mode(s)) >= 2
  {
    var i, j :| 0 <= i < j < |s| && s[i] == s[j];
    RepeatCount(s, i, j);
  }
}
