/**
 The scoring rule of a popular stream.  A field's first vote sets its score to
 the vote's time in epoch seconds plus the vote's weight.  Every later vote
 adds its weight and nothing else, so the time of a later vote is ignored.
 */
module Scoring {

  /** One call of `vote`: the field, the time in epoch seconds, and the weight. */
  datatype Ballot = Ballot(field: string, time: int, weight: int)

  /** The score map after one ballot: upsert-or-increment on the ballot's field. */
  function Voted(m: map<string, int>, b: Ballot): (m': map<string, int>)
    ensures m'.Keys == m.Keys + {b.field}
    ensures forall g :: g in m && g != b.field ==> m'[g] == m[g]
    ensures b.field !in m ==> m'[b.field] == b.time + b.weight
    ensures b.field in m ==> m'[b.field] == m[b.field] + b.weight
  {
    if b.field in m then m[b.field := m[b.field] + b.weight]
    else m[b.field := b.time + b.weight]
  }

  /** The score map after the ballots are cast one after another, first to last. */
  function Tally(m: map<string, int>, bs: seq<Ballot>): map<string, int>
    decreases |bs|
  {
    if bs == [] then m else Tally(Voted(m, bs[0]), bs[1..])
  }

  /** The fields the ballots vote for. */
  function Fields(bs: seq<Ballot>): set<string> {
    set b | b in bs :: b.field
  }

  /** The total weight the ballots give to field `f`. */
  function WeightFor(bs: seq<Ballot>, f: string): int
    decreases |bs|
  {
    if bs == [] then 0
    else (if bs[0].field == f then bs[0].weight else 0) + WeightFor(bs[1..], f)
  }

  /** The time of the first ballot for `f`. */
  function FirstTime(bs: seq<Ballot>, f: string): int
    requires f in Fields(bs)
    decreases |bs|
  {
    assert bs[0] in bs;
    if bs[0].field == f then bs[0].time
    else
      assert f in Fields(bs[1..]) by {
        var b :| b in bs && b.field == f;
        var k :| 0 <= k < |bs| && bs[k] == b;
        assert bs[1..][k - 1] == b;
      }
      FirstTime(bs[1..], f)
  }

  lemma FieldsCons(bs: seq<Ballot>)
    requires bs != []
    ensures Fields(bs) == {bs[0].field} + Fields(bs[1..])
  {
    assert bs == [bs[0]] + bs[1..];
    forall f | f in Fields(bs)
      ensures f in {bs[0].field} + Fields(bs[1..])
    {
      var b :| b in bs && b.field == f;
    }
  }

  /** Casting ballots adds exactly the voted fields to the stream; no field is ever removed. */
  lemma {:induction false} TallyFields(m: map<string, int>, bs: seq<Ballot>)
    ensures Tally(m, bs).Keys == m.Keys + Fields(bs)
    decreases |bs|
  {
    if bs != [] {
      FieldsCons(bs);
      TallyFields(Voted(m, bs[0]), bs[1..]);
    }
  }

  /** The number of distinct fields after casting ballots into an empty stream. */
  lemma CountAfterTally(bs: seq<Ballot>)
    ensures |Tally(map[], bs)| == |Fields(bs)|
  {
    TallyFields(map[], bs);
    assert Tally(map[], bs).Keys == Fields(bs);
  }

  /**
   The score formula: a field's score is its score before the ballots (or, for
   a new field, the time of its first ballot) plus the weights of all its ballots.
   */
  lemma {:induction false} TallyScore(m: map<string, int>, bs: seq<Ballot>, f: string)
    requires f in m || f in Fields(bs)
    ensures f in Tally(m, bs)
    ensures Tally(m, bs)[f] == (if f in m then m[f] else FirstTime(bs, f)) + WeightFor(bs, f)
    decreases |bs|
  {
    TallyFields(m, bs);
    if bs != [] {
      FieldsCons(bs);
      TallyScore(Voted(m, bs[0]), bs[1..], f);
    }
  }

  /** A vote for a field already in the stream adds its weight whatever its time. */
  lemma RepeatVoteIgnoresTime(m: map<string, int>, f: string, t1: int, t2: int, w: int)
    requires f in m
    ensures Voted(m, Ballot(f, t1, w)) == Voted(m, Ballot(f, t2, w))
    ensures Voted(m, Ballot(f, t1, w))[f] == m[f] + w
  {
  }

  /**
   Fields already in the stream that receive the same total weight keep the
   gap between their scores: later votes never re-baseline a score.
   */
  lemma EqualWeightKeepsGap(m: map<string, int>, bs: seq<Ballot>, a: string, b: string)
    requires a in m && b in m
    requires WeightFor(bs, a) == WeightFor(bs, b)
    ensures a in Tally(m, bs) && b in Tally(m, bs)
    ensures Tally(m, bs)[a] - Tally(m, bs)[b] == m[a] - m[b]
  {
    TallyScore(m, bs, a);
    TallyScore(m, bs, b);
  }

  /** With positive weights every vote raises a score, so votes never lower a field's rank basis. */
  lemma {:induction false} PositiveWeightsRaise(m: map<string, int>, bs: seq<Ballot>, f: string)
    requires forall b :: b in bs ==> b.weight > 0
    requires f in m
    ensures f in Tally(m, bs)
    ensures Tally(m, bs)[f] >= m[f]
    ensures f in Fields(bs) ==> Tally(m, bs)[f] > m[f]
    decreases |bs|
  {
    if bs != [] {
      assert bs[0] in bs;
      FieldsCons(bs);
      assert forall b :: b in bs[1..] ==> b in bs;
      PositiveWeightsRaise(Voted(m, bs[0]), bs[1..], f);
    }
  }
}
