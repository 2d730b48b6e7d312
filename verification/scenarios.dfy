/**
 The examples a popular stream is held to, each driven through the stream's
 own operations.  `now` is the frozen current time in epoch seconds; every
 example starts from an empty stream named "popular_stream".
 */
module Scenarios {
  import opened PopularStreams
  import Ranking

  /** One week in seconds. */
  const Week: int := 60 * 60 * 24 * 7

  /** The common start of the `get` examples: field "1" voted a week ago, field "2" now. */
  method VotedLastWeekAndNow(now: int) returns (stream: PopularStream)
    ensures fresh(stream)
    ensures stream.scores == map["1" := now - Week + 1, "2" := now + 1]
    ensures Ranking.Ranked(stream.scores) == ["2", "1"]
  {
    stream := new PopularStream("popular_stream");
    var _ := stream.Vote("1", now - Week);
    assert stream.scores == map["1" := now - Week + 1];
    var _ := stream.Vote("2", now);
    assert stream.scores == map["1" := now - Week + 1, "2" := now + 1];
    Ranking.RankedPair(stream.scores, "2", "1");
  }

  /** The field voted a week ago ranks below the field voted now. */
  method OlderVotesRankLower(now: int) returns (ranked: Result<Page>)
    ensures ranked == Success(Bare(["2", "1"]))
  {
    var stream := VotedLastWeekAndNow(now);
    ranked := stream.Get();
    assert FieldsOf(ranked.value) == ["2", "1"];
  }

  /** A limit of one takes the top field; an offset of one skips it. */
  method LimitAndOffset(now: int) returns (top: Result<Page>, afterTop: Result<Page>)
    ensures top == Success(Bare(["2"]))
    ensures afterTop == Success(Bare(["1"]))
  {
    var stream := VotedLastWeekAndNow(now);
    top := stream.Get(limit := Some(1));
    assert FieldsOf(top.value) == ["2"];
    afterTop := stream.Get(offset := 1);
    assert FieldsOf(afterTop.value) == ["1"];
  }

  /** The `get` examples' start with a third field voted a week from now. */
  method AlsoVotedNextWeek(now: int) returns (stream: PopularStream)
    ensures fresh(stream)
    ensures stream.scores == map["1" := now - Week + 1, "2" := now + 1, "3" := now + Week + 1]
    ensures Ranking.Ranked(stream.scores) == ["3", "2", "1"]
  {
    stream := VotedLastWeekAndNow(now);
    var _ := stream.Vote("3", now + Week);
    Ranking.RankedTriple(stream.scores, "3", "2", "1");
  }

  /** A page of one field at offset `k` holds the field ranked `k`-th. */
  method PageOfOne(stream: PopularStream, ranking: seq<string>, k: nat) returns (page: Result<Page>)
    requires Ranking.Ranked(stream.scores) == ranking && k < |ranking|
    ensures page == Success(Bare([ranking[k]]))
  {
    page := stream.Get(Some(1), k);
    assert FieldsOf(page.value) == [ranking[k]];
  }

  /** Pages of one field walk down the ranking one field at a time. */
  method Paginates(now: int)
    returns (page0: Result<Page>, page1: Result<Page>, page2: Result<Page>)
    ensures page0 == Success(Bare(["3"]))
    ensures page1 == Success(Bare(["2"]))
    ensures page2 == Success(Bare(["1"]))
  {
    var stream := AlsoVotedNextWeek(now);
    page0 := PageOfOne(stream, ["3", "2", "1"], 0);
    page1 := PageOfOne(stream, ["3", "2", "1"], 1);
    page2 := PageOfOne(stream, ["3", "2", "1"], 2);
  }

  /** With scores asked for, every element is a pair of a field and its score. */
  method GetsScores(now: int) returns (results: Result<Page>)
    ensures results.Success? && results.value.Scored?
    ensures |results.value.pairs| == 2
    ensures results.value.pairs[0] == ("2", now + 1) && results.value.pairs[1] == ("1", now - Week + 1)
  {
    var stream := VotedLastWeekAndNow(now);
    results := stream.Get(withScores := true);
    assert FieldsOf(results.value) == ["2", "1"];
    var pairs := results.value.pairs;
    assert |pairs| == 2 && pairs[0].0 == "2" && pairs[1].0 == "1";
  }

  /** At one frozen time: two unit votes for field "1", then one vote of `weight` for field "2". */
  method TwiceThenOnce(now: int, weight: int) returns (stream: PopularStream)
    requires weight > 0
    ensures fresh(stream)
    ensures stream.scores == map["1" := now + 2, "2" := now + weight]
    ensures weight < 2 ==> Ranking.Ranked(stream.scores) == ["1", "2"]
    ensures weight > 2 ==> Ranking.Ranked(stream.scores) == ["2", "1"]
  {
    stream := new PopularStream("popular_stream");
    var _ := stream.Vote("1", now);
    assert stream.scores == map["1" := now + 1];
    var _ := stream.Vote("1", now);
    assert stream.scores == map["1" := now + 2];
    var _ := stream.Vote("2", now, weight);
    assert stream.scores == map["1" := now + 2, "2" := now + weight];
    if weight < 2 {
      Ranking.RankedPair(stream.scores, "1", "2");
    } else if weight > 2 {
      Ranking.RankedPair(stream.scores, "2", "1");
    }
  }

  /** At one frozen time, a field voted twice outranks a field voted once. */
  method MoreVotesRankHigher(now: int) returns (ranked: Result<Page>)
    ensures ranked == Success(Bare(["1", "2"]))
  {
    var stream := TwiceThenOnce(now, 1);
    ranked := stream.Get();
    assert FieldsOf(ranked.value) == ["1", "2"];
  }

  /** At one frozen time, one vote of weight 3 outranks two votes of weight 1. */
  method WeightCounts(now: int) returns (ranked: Result<Page>)
    ensures ranked == Success(Bare(["2", "1"]))
  {
    var stream := TwiceThenOnce(now, 3);
    ranked := stream.Get();
    assert FieldsOf(ranked.value) == ["2", "1"];
  }

  /** Field "1" first voted two weeks ago and field "2" three weeks ago, both voted again now. */
  method VotedWeeksAgoAndNow(now: int) returns (stream: PopularStream)
    ensures fresh(stream)
    ensures stream.scores == map["1" := now - 2 * Week + 2, "2" := now - 3 * Week + 2]
  {
    stream := new PopularStream("popular_stream");
    var _ := stream.Vote("1", now - 2 * Week);
    assert stream.scores == map["1" := now - 2 * Week + 1];
    var _ := stream.Vote("2", now - 3 * Week);
    assert stream.scores == map["1" := now - 2 * Week + 1, "2" := now - 3 * Week + 1];
    var _ := stream.Vote("1", now);
    assert stream.scores == map["1" := now - 2 * Week + 2, "2" := now - 3 * Week + 1];
    var _ := stream.Vote("2", now);
  }

  /** The later votes do not renew the fields' times, so they keep the order of their first votes. */
  method OldVotesKeepTheirTime(now: int) returns (ranked: Result<Page>)
    ensures ranked == Success(Bare(["1", "2"]))
  {
    var stream := VotedWeeksAgoAndNow(now);
    Ranking.RankedPair(stream.scores, "1", "2");
    ranked := stream.Get();
    assert FieldsOf(ranked.value) == ["1", "2"];
  }

  /**
   Clearing an empty stream succeeds; two votes for one field count one field;
   after clearing, the stream counts none.
   */
  method CountThenClear(now: int) returns (counted: nat, afterClear: nat)
    ensures counted == 1
    ensures afterClear == 0
  {
    var stream := new PopularStream("popular_stream");
    stream.Clear();
    var _ := stream.Vote("1", now);
    assert stream.scores == map["1" := now + 1];
    var _ := stream.Vote("1", now);
    assert stream.scores == map["1" := now + 2];
    counted := stream.Count();
    stream.Clear();
    afterClear := stream.Count();
  }
}
