/**
 The ranking a stream's reverse range reads: every field of the score map once,
 highest score first.  Among equal scores the field that is lexicographically
 greater comes first, which is the order a sorted set's reverse range gives.
 */
module Ranking {
  import FieldOrder

  /** Field `a` with score `sa` is ranked ahead of field `b` with score `sb`. */
  predicate Ahead(sa: int, a: string, sb: int, b: string) {
    sa > sb || (sa == sb && FieldOrder.Less(b, a))
  }

  lemma AheadIrreflexive(s: int, a: string)
    ensures !Ahead(s, a, s, a)
  {
    FieldOrder.LessIrreflexive(a);
  }

  lemma AheadAsymmetric(sa: int, a: string, sb: int, b: string)
    requires Ahead(sa, a, sb, b)
    ensures !Ahead(sb, b, sa, a)
  {
    if sa == sb {
      FieldOrder.LessAsymmetric(b, a);
    }
  }

  lemma AheadTransitive(sa: int, a: string, sb: int, b: string, sc: int, c: string)
    requires Ahead(sa, a, sb, b) && Ahead(sb, b, sc, c)
    ensures Ahead(sa, a, sc, c)
  {
    if sa == sb && sb == sc {
      FieldOrder.LessTransitive(c, b, a);
    }
  }

  lemma AheadTotal(sa: int, a: string, sb: int, b: string)
    requires a != b
    ensures Ahead(sa, a, sb, b) || Ahead(sb, b, sa, a)
  {
    if sa == sb {
      FieldOrder.LessTotal(a, b);
    }
  }

  /** `r` lists every field of `m` exactly once. */
  ghost predicate ListsEachOnce(m: map<string, int>, r: seq<string>) {
    && |r| == |m|
    && (forall i :: 0 <= i < |r| ==> r[i] in m)
    && (forall f :: f in m ==> f in r)
    && (forall i, j :: 0 <= i < j < |r| ==> r[i] != r[j])
  }

  /** Every field of `r` is ranked ahead of all fields after it. */
  ghost predicate InRankOrder(m: map<string, int>, r: seq<string>)
    requires forall i :: 0 <= i < |r| ==> r[i] in m
  {
    forall i, j :: 0 <= i < j < |r| ==> Ahead(m[r[i]], r[i], m[r[j]], r[j])
  }

  /** `f` is the field ranked first in `m`. */
  predicate IsTop(m: map<string, int>, f: string) {
    f in m && forall g :: g in m && g != f ==> Ahead(m[f], f, m[g], g)
  }

  /** Every non-empty stream has a first-ranked field. */
  lemma {:induction false} TopExists(m: map<string, int>)
    requires |m| > 0
    ensures exists f :: IsTop(m, f)
    decreases |m|
  {
    var x :| x in m;
    var rest := m - {x};
    assert rest.Keys == m.Keys - {x};
    if |rest| == 0 {
      assert rest.Keys == {};
      assert IsTop(m, x);
    } else {
      TopExists(rest);
      var t :| IsTop(rest, t);
      if Ahead(m[x], x, m[t], t) {
        forall g | g in m && g != x
          ensures Ahead(m[x], x, m[g], g)
        {
          if g != t {
            assert g in rest;
            AheadTransitive(m[x], x, m[t], t, m[g], g);
          }
        }
        assert IsTop(m, x);
      } else {
        AheadTotal(m[x], x, m[t], t);
        forall g | g in m && g != t
          ensures Ahead(m[t], t, m[g], g)
        {
          if g != x {
            assert g in rest;
          }
        }
        assert IsTop(m, t);
      }
    }
  }

  /** At most one field is ranked first. */
  lemma TopUnique(m: map<string, int>)
    ensures forall f, g :: IsTop(m, f) && IsTop(m, g) ==> f == g
  {
    forall f, g | IsTop(m, f) && IsTop(m, g)
      ensures f == g
    {
      if f != g {
        AheadAsymmetric(m[f], f, m[g], g);
      }
    }
  }

  /** Putting the first-ranked field in front of a listing of the others lists all of `m`. */
  lemma TopThenRestListsEachOnce(m: map<string, int>, f: string, tail: seq<string>)
    requires f in m
    requires ListsEachOnce(m - {f}, tail)
    ensures ListsEachOnce(m, [f] + tail)
  {
    var rest := m - {f};
    assert rest.Keys == m.Keys - {f};
    var r := [f] + tail;
    assert forall k :: 0 < k < |r| ==> r[k] == tail[k - 1] && r[k] in rest;
    forall g | g in m
      ensures g in r
    {
      if g != f {
        assert g in rest;
      }
    }
  }

  /** Putting the first-ranked field in front of a ranking of the others is in rank order. */
  lemma TopThenRestInRankOrder(m: map<string, int>, f: string, tail: seq<string>)
    requires IsTop(m, f)
    requires ListsEachOnce(m - {f}, tail) && InRankOrder(m - {f}, tail)
    ensures ListsEachOnce(m, [f] + tail) && InRankOrder(m, [f] + tail)
  {
    TopThenRestListsEachOnce(m, f, tail);
    var rest := m - {f};
    assert rest.Keys == m.Keys - {f};
    var r := [f] + tail;
    assert forall k :: 0 < k < |r| ==> r[k] == tail[k - 1] && r[k] in rest && rest[r[k]] == m[r[k]];
    forall i, j | 0 <= i < j < |r|
      ensures Ahead(m[r[i]], r[i], m[r[j]], r[j])
    {
      if i > 0 {
        assert Ahead(rest[tail[i - 1]], tail[i - 1], rest[tail[j - 1]], tail[j - 1]);
      }
    }
  }

  /**
   The full ranking of `m`: each field exactly once, every field ahead of all
   that follow it.
   */
  function Ranked(m: map<string, int>): (r: seq<string>)
    ensures ListsEachOnce(m, r)
    ensures InRankOrder(m, r)
    decreases |m|
  {
    if |m| == 0 then []
    else
      TopExists(m);
      TopUnique(m);
      var f :| IsTop(m, f);
      var rest := m - {f};
      assert rest.Keys == m.Keys - {f};
      var tail := Ranked(rest);
      TopThenRestInRankOrder(m, f, tail);
      [f] + tail
  }

  /** Scores never increase along the ranking. */
  lemma RankedScoresNonIncreasing(m: map<string, int>)
    ensures forall i, j :: 0 <= i < j < |Ranked(m)| ==> m[Ranked(m)[i]] >= m[Ranked(m)[j]]
  {
  }

  /** A field with a strictly higher score is listed before one with a lower score. */
  lemma HigherScoreRanksFirst(m: map<string, int>, a: string, b: string, i: nat, j: nat)
    requires a in m && b in m && m[a] > m[b]
    requires i < |Ranked(m)| && Ranked(m)[i] == a
    requires j < |Ranked(m)| && Ranked(m)[j] == b
    ensures i < j
  {
  }

  /** The ranking starts with the first-ranked field, followed by the ranking of the rest. */
  lemma RankedUnfold(m: map<string, int>, f: string)
    requires IsTop(m, f)
    ensures Ranked(m) == [f] + Ranked(m - {f})
  {
    TopUnique(m);
  }

  /** A ranked listing starts with the first-ranked field. */
  lemma FirstIsTop(m: map<string, int>, r: seq<string>)
    requires ListsEachOnce(m, r) && InRankOrder(m, r) && |m| > 0
    ensures IsTop(m, r[0])
  {
    forall g | g in m && g != r[0]
      ensures Ahead(m[r[0]], r[0], m[g], g)
    {
      var k :| 0 <= k < |r| && r[k] == g;
    }
  }

  /** Without its first field, a ranked listing ranks the other fields. */
  lemma RestRanked(m: map<string, int>, r: seq<string>)
    requires ListsEachOnce(m, r) && InRankOrder(m, r) && |m| > 0
    ensures ListsEachOnce(m - {r[0]}, r[1..]) && InRankOrder(m - {r[0]}, r[1..])
  {
    var f, tail := r[0], r[1..];
    var rest := m - {f};
    assert rest.Keys == m.Keys - {f};
    assert |rest| == |m| - 1;
    forall k | 0 <= k < |tail|
      ensures tail[k] in rest && rest[tail[k]] == m[tail[k]]
    {
      assert tail[k] == r[k + 1];
    }
    forall g | g in rest
      ensures g in tail
    {
      var k :| 0 <= k < |r| && r[k] == g;
      assert tail[k - 1] == g;
    }
    forall i, j | 0 <= i < j < |tail|
      ensures tail[i] != tail[j] && Ahead(rest[tail[i]], tail[i], rest[tail[j]], tail[j])
    {
      assert tail[i] == r[i + 1] && tail[j] == r[j + 1];
    }
  }

  /** The ranking is determined: any listing of every field once, in rank order, is `Ranked(m)`. */
  lemma {:induction false} RankedUnique(m: map<string, int>, r: seq<string>)
    requires ListsEachOnce(m, r) && InRankOrder(m, r)
    ensures r == Ranked(m)
    decreases |m|
  {
    if |m| > 0 {
      FirstIsTop(m, r);
      RestRanked(m, r);
      var rest := m - {r[0]};
      assert rest.Keys == m.Keys - {r[0]};
      RankedUnique(rest, r[1..]);
      RankedUnfold(m, r[0]);
      assert r == [r[0]] + r[1..];
    }
  }

  /** Two fields with different scores: the higher-scored one is ranked first. */
  lemma RankedPair(m: map<string, int>, a: string, b: string)
    requires m.Keys == {a, b} && a != b && m[a] > m[b]
    ensures Ranked(m) == [a, b]
  {
    RankedUnique(m, [a, b]);
  }

  /** Three fields with different scores are ranked by score. */
  lemma RankedTriple(m: map<string, int>, a: string, b: string, c: string)
    requires m.Keys == {a, b, c} && a != b && b != c && a != c && m[a] > m[b] > m[c]
    ensures Ranked(m) == [a, b, c]
  {
    RankedUnique(m, [a, b, c]);
  }
}
