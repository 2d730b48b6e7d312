/**
 A popular stream: a named leaderboard of fields ranked by score.  The sorted
 set the stream keeps under its name is the map `scores` from field to score.
 */
module PopularStreams {
  import Ranking
  import Scoring

  datatype Option<T> = None | Some(value: T)

  /** The argument errors a stream reports; each leaves the stream as it was. */
  datatype Error = EmptyField | NonPositiveWeight | NegativeLimit | NegativeOffset

  datatype Outcome = Pass | Fail(error: Error)

  datatype Result<T> = Success(value: T) | Failure(error: Error)

  /** What `get` returns: bare fields, or (field, score) pairs when scores are asked for. */
  datatype Page = Bare(fields: seq<string>) | Scored(pairs: seq<(string, int)>)

  /**
   The page of `s` that skips the first `offset` elements and then takes at
   most `limit` of them (all of the rest when there is no limit).
   */
  function Window<T>(s: seq<T>, offset: nat, limit: Option<nat>): (w: seq<T>)
    ensures offset >= |s| ==> w == []
    ensures offset < |s| && limit.Some? && limit.value <= |s| - offset ==> |w| == limit.value
    ensures offset < |s| && (limit.None? || limit.value > |s| - offset) ==> |w| == |s| - offset
    ensures forall i :: 0 <= i < |w| ==> offset + i < |s| && w[i] == s[offset + i]
  {
    if offset >= |s| then []
    else if limit.Some? && limit.value <= |s| - offset then s[offset..offset + limit.value]
    else s[offset..]
  }

  /** Each field of `fields` paired with its score in `m`. */
  function WithScores(m: map<string, int>, fields: seq<string>): (pairs: seq<(string, int)>)
    requires forall i :: 0 <= i < |fields| ==> fields[i] in m
    ensures |pairs| == |fields|
    ensures forall i :: 0 <= i < |pairs| ==> pairs[i].0 == fields[i] && pairs[i].1 == m[fields[i]]
  {
    seq(|fields|, i requires 0 <= i < |fields| => (fields[i], m[fields[i]]))
  }

  /** The fields of a page, in order. */
  function FieldsOf(page: Page): (fields: seq<string>)
    ensures page.Bare? ==> fields == page.fields
    ensures page.Scored? ==> |fields| == |page.pairs| && forall i :: 0 <= i < |fields| ==> fields[i] == page.pairs[i].0
  {
    match page
    case Bare(fields) => fields
    case Scored(pairs) => seq(|pairs|, i requires 0 <= i < |pairs| => pairs[i].0)
  }

  class PopularStream {
    /** The name of the sorted set the stream lives in. */
    const name: string
    /** The sorted set: each field's score. */
    var scores: map<string, int>

    /** A stream bound to `name`, over an empty collection. */
    constructor (name: string)
      ensures this.name == name && scores == map[]
    {
      this.name := name;
      scores := map[];
    }

    /**
     `vote(field:, time:, weight:)`: the first vote for `field` gives it the
     score `time + weight`; a later vote adds `weight` and ignores `time`.
     An empty field or a weight that is not positive is refused.
     */
    method Vote(field: string, time: int, weight: int := 1) returns (outcome: Outcome)
      modifies this
      ensures field == [] ==> outcome == Fail(EmptyField)
      ensures field != [] && weight <= 0 ==> outcome == Fail(NonPositiveWeight)
      ensures outcome.Pass? <==> field != [] && weight > 0
      ensures outcome.Pass? ==> scores == Scoring.Voted(old(scores), Scoring.Ballot(field, time, weight))
      ensures outcome.Fail? ==> scores == old(scores)
    {
      if field == [] {
        return Fail(EmptyField);
      }
      if weight <= 0 {
        return Fail(NonPositiveWeight);
      }
      var score := if field in scores then scores[field] + weight else time + weight;
      scores := scores[field := score];
      outcome := Pass;
    }

    /**
     `get(limit:, offset:, with_scores:)`: the fields from the most to the
     least popular, skipping `offset` of them and taking at most `limit`;
     with scores, each field comes paired with its score.
     */
    function Get(limit: Option<int> := None, offset: int := 0, withScores: bool := false): (r: Result<Page>)
      reads this
      ensures offset < 0 ==> r == Failure(NegativeOffset)
      ensures offset >= 0 && limit.Some? && limit.value < 0 ==> r == Failure(NegativeLimit)
      ensures r.Success? <==> offset >= 0 && (limit.None? || limit.value >= 0)
      ensures r.Success? ==> r.value.Scored? == withScores
      ensures r.Success? ==>
        FieldsOf(r.value) == Window(Ranking.Ranked(scores), offset, if limit.Some? then Some(limit.value) else None)
      ensures r.Success? && r.value.Scored? ==> forall i :: 0 <= i < |r.value.pairs| ==>
        r.value.pairs[i].0 in scores && r.value.pairs[i].1 == scores[r.value.pairs[i].0]
    {
      if offset < 0 then Failure(NegativeOffset)
      else if limit.Some? && limit.value < 0 then Failure(NegativeLimit)
      else
        var ranked := Ranking.Ranked(scores);
        var fields := Window(ranked, offset, if limit.Some? then Some(limit.value) else None);
        PageOfRanking(scores, offset, if limit.Some? then Some(limit.value) else None);
        if withScores then Success(Scored(WithScores(scores, fields))) else Success(Bare(fields))
    }

    /** `count`: the number of distinct fields, which is the length of the full ranking. */
    function Count(): (n: nat)
      reads this
      ensures n == |Ranking.Ranked(scores)|
      ensures n == 0 <==> scores == map[]
    {
      |scores|
    }

    /** `clear!`: removes every field; afterwards the stream counts none and ranks none. */
    method Clear()
      modifies this
      ensures scores == map[]
      ensures Count() == 0 && Get() == Success(Bare([]))
    {
      scores := map[];
    }
  }

  /** `w` lists fields of `m`, none twice, with scores that never increase. */
  ghost predicate IsRankedPage(m: map<string, int>, w: seq<string>) {
    && (forall i :: 0 <= i < |w| ==> w[i] in m)
    && (forall i, j :: 0 <= i < j < |w| ==> w[i] != w[j] && m[w[i]] >= m[w[j]])
  }

  /** A page of the ranking lists fields of the stream, each once, with scores that never increase. */
  lemma PageOfRanking(m: map<string, int>, offset: nat, limit: Option<nat>)
    ensures IsRankedPage(m, Window(Ranking.Ranked(m), offset, limit))
  {
    var r := Ranking.Ranked(m);
    var w := Window(r, offset, limit);
    forall i, j | 0 <= i < j < |w|
      ensures w[i] in m && w[i] != w[j] && m[w[i]] >= m[w[j]]
    {
      assert w[i] == r[offset + i] && w[j] == r[offset + j];
    }
  }

  /**
   Every page `get` returns lists fields of the stream, each at most once,
   from the highest score down.
   */
  lemma GetIsRanked(stream: PopularStream, limit: Option<int>, offset: int, withScores: bool)
    requires stream.Get(limit, offset, withScores).Success?
    ensures var fields := FieldsOf(stream.Get(limit, offset, withScores).value);
      && (forall i :: 0 <= i < |fields| ==> fields[i] in stream.scores)
      && (forall i, j :: 0 <= i < j < |fields| ==>
            fields[i] != fields[j] && stream.scores[fields[i]] >= stream.scores[fields[j]])
  {
    PageOfRanking(stream.scores, offset, if limit.Some? then Some(limit.value) else None);
  }

  /**
   `get` with no arguments lists every field of the stream exactly once, as
   many fields as `count` reports, from the highest score down.
   */
  lemma FullGetListsEveryField(stream: PopularStream)
    ensures stream.Get().Success?
    ensures var fields := FieldsOf(stream.Get().value);
      && |fields| == stream.Count()
      && (forall f :: f in stream.scores <==> f in fields)
      && (forall i, j :: 0 <= i < j < |fields| ==>
            fields[i] != fields[j] && stream.scores[fields[i]] >= stream.scores[fields[j]])
  {
    var ranked := Ranking.Ranked(stream.scores);
    WholeWindow(ranked);
    Ranking.RankedScoresNonIncreasing(stream.scores);
  }

  /** A page with no offset and no limit is the whole sequence. */
  lemma WholeWindow<T>(s: seq<T>)
    ensures Window(s, 0, None) == s
  {
  }

  /** Two adjacent pages make up the page that covers both. */
  lemma AdjacentPages<T>(s: seq<T>, offset: nat, first: nat, second: nat)
    ensures Window(s, offset, Some(first)) + Window(s, offset + first, Some(second))
         == Window(s, offset, Some(first + second))
  {
    var w1, w2 := Window(s, offset, Some(first)), Window(s, offset + first, Some(second));
    var w := Window(s, offset, Some(first + second));
    if offset + first < |s| {
      assert |w1| == first;
      assert |w1 + w2| == |w|;
      forall i | 0 <= i < |w|
        ensures (w1 + w2)[i] == w[i]
      {
        if i >= first {
          assert (w1 + w2)[i] == w2[i - first];
        }
      }
    }
  }

  /** Paging with a limit only takes a prefix, and with an offset only the suffix from that offset. */
  lemma PrefixAndSuffixPages<T>(s: seq<T>, limit: nat, offset: nat)
    ensures Window(s, 0, Some(limit)) == s[..if limit <= |s| then limit else |s|]
    ensures offset <= |s| ==> Window(s, offset, None) == s[offset..]
  {
  }

  /**
   Every page of `get` is the matching slice of the full `get`: the pages of a
   stream cut one ranking, so paging neither repeats nor skips a field.
   */
  lemma GetPageIsSliceOfGet(stream: PopularStream, limit: nat, offset: nat, withScores: bool)
    ensures stream.Get(withScores := withScores).Success?
    ensures stream.Get(Some(limit), offset, withScores).Success?
    ensures FieldsOf(stream.Get(Some(limit), offset, withScores).value) ==
            Window(FieldsOf(stream.Get(withScores := withScores).value), offset, Some(limit))
  {
    var ranked := Ranking.Ranked(stream.scores);
    assert FieldsOf(stream.Get(withScores := withScores).value) == ranked;
  }

  /** Asking for scores changes only the shape of each element, not which fields come back or their order. */
  lemma ScoresKeepOrder(stream: PopularStream, limit: Option<int>, offset: int)
    ensures stream.Get(limit, offset, true).Success? == stream.Get(limit, offset, false).Success?
    ensures stream.Get(limit, offset, true).Success? ==>
      FieldsOf(stream.Get(limit, offset, true).value) == FieldsOf(stream.Get(limit, offset, false).value)
  {
  }
}
