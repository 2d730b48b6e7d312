# PopularStream in Dafny

A model of `PopularStream`, the leaderboard from the popular_streams gem. A stream has a
name and keeps a sorted set of string *fields*, each with a score. The operations are:

- `vote(field:, time:, weight:)`. A field's first vote sets its score to the vote's time in
  epoch seconds plus the weight. Every later vote adds its weight and ignores its time.
- `get(limit:, offset:, with_scores:)`. Reads the fields from the highest score down. It skips
  `offset` of them and takes at most `limit`. When scores are asked for, each field comes
  paired with its score.
- `count` gives the number of distinct fields.
- `clear!` removes every field.

Modules:

- `FieldOrder` (`field_order.dfy`): the lexicographic order on field names, proved to be a
  strict total order.
- `Ranking` (`ranking.dfy`): the order a reverse range over the sorted set gives.
  - Higher score comes first. Among equal scores, the lexicographically greater field comes
    first.
  - `Ranked(m)` lists every field of a score map once, in that order.
  - `RankedUnique` proves that this listing is the only one with that property.
- `Scoring` (`scoring.dfy`): the scoring rule on values.
  - `Voted` casts one ballot.
  - `Tally` casts a sequence of ballots.
  - Lemmas cover the score formula, the fields a tally adds, and how votes move scores.
- `PopularStreams` (`popular_stream.dfy`): the `PopularStream` class.
  - Its field `scores: map<string, int>` stands for the sorted set.
  - `Vote` and `Clear` are methods that update it in place.
  - `Get` and `Count` are functions that read it.
  - Lemmas cover pages of the ranking.
- `Scenarios` (`scenarios.dfy`): each example from the gem's specification, driven through the
  class's own operations.

Time is an explicit integer argument in epoch seconds. Each scenario takes the frozen
current time `now` as a parameter. An argument the gem's design calls invalid is reported as
an error value and leaves the stream unchanged. The invalid arguments are:

- an empty field
- a weight that is not positive
- a negative limit or offset

## Model

| member | source | states |
|---|---|---|
| PopularStreams.PopularStream.constructor | spec/lib/popular_stream_spec.rb:5 | a new stream keeps its name and starts with no fields |
| PopularStreams.PopularStream.Vote | spec/lib/popular_stream_spec.rb:29-30 | an empty field or a non-positive weight is refused and leaves the scores unchanged; otherwise the scores become `Scoring.Voted` of the old scores and the ballot (upsert the first-vote score time + weight, or add the weight) |
| PopularStreams.PopularStream.Get | spec/lib/popular_stream_spec.rb:33-55 | a negative offset or limit is an error; otherwise the result has pairs exactly when scores are asked for, its fields are the window [offset, offset + limit) of the full ranking of the scores, and each pair carries its field's current score |
| PopularStreams.PopularStream.Count | spec/lib/popular_stream_spec.rb:89-96 | the count equals the length of the full ranking, and is zero exactly when the stream has no fields |
| PopularStreams.PopularStream.Clear | spec/lib/popular_stream_spec.rb:8-11 | afterwards there are no fields, the count is 0 and `get` returns an empty page; an already empty stream is cleared without error |
| PopularStreams.FullGetListsEveryField | spec/lib/popular_stream_spec.rb:33-35 | `get` with no arguments succeeds and lists every field of the stream exactly once, as many as `count`, with scores that never increase |
| PopularStreams.GetIsRanked | spec/lib/popular_stream_spec.rb:42-47 | every successful page lists only fields of the stream, none twice, with scores that never increase |
| PopularStreams.GetPageIsSliceOfGet | spec/lib/popular_stream_spec.rb:37-47 | `get(limit:, offset:)` is the contiguous slice of `get` starting at offset, of at most limit fields |
| PopularStreams.PageOfRanking | spec/lib/popular_stream_spec.rb:37-47 | any window of the ranking lists fields of the map, none twice, with scores that never increase |
| PopularStreams.WholeWindow | spec/lib/popular_stream_spec.rb:33-35 | with no offset and no limit the page is the whole ranking |
| PopularStreams.PrefixAndSuffixPages | spec/lib/popular_stream_spec.rb:37-40 | a limit alone takes a prefix of the ranking; an offset alone takes the suffix from that offset |
| PopularStreams.AdjacentPages | spec/lib/popular_stream_spec.rb:42-47 | two consecutive pages concatenate to the page covering both, so paging neither repeats nor skips a field |
| PopularStreams.ScoresKeepOrder | spec/lib/popular_stream_spec.rb:49-55 | asking for scores fails or succeeds exactly when not asking does, and returns the same fields in the same order |
| PopularStreams.Window | spec/lib/popular_stream_spec.rb:37-40 | a page past the end is empty; otherwise it has min(limit, remaining) elements, and element i is element offset + i of the ranking |
| PopularStreams.WithScores | spec/lib/popular_stream_spec.rb:49-55 | each element is a two-part pair: the field and its score in the stream |
| Ranking.Ranked | spec/lib/popular_stream_spec.rb:33-35 | the ranking lists each field of the map once, and every field is ranked ahead of all that follow it (higher score, or equal score and lexicographically greater) |
| Ranking.RankedUnique | spec/lib/popular_stream_spec.rb:33-35 | any listing of every field once, in rank order, is exactly `Ranked`; so `get` is determined by the scores |
| Ranking.RankedScoresNonIncreasing | spec/lib/popular_stream_spec.rb:33-35 | scores never increase along the ranking |
| Ranking.HigherScoreRanksFirst | spec/lib/popular_stream_spec.rb:33-35 | a field with a strictly higher score is listed before a field with a lower one |
| Ranking.TopExists | spec/lib/popular_stream_spec.rb:44 | every non-empty stream has a first-ranked field |
| Ranking.RankedPair | spec/lib/popular_stream_spec.rb:34 | two fields with different scores are ranked higher score first |
| Ranking.RankedTriple | spec/lib/popular_stream_spec.rb:44-46 | three fields with different scores are ranked by descending score |
| Scoring.Voted | spec/lib/popular_stream_spec.rb:29-30 | one vote adds its field and leaves every other field's score alone; a new field scores time + weight, an existing one gains the weight |
| Scoring.TallyScore | spec/lib/popular_stream_spec.rb:77-86 | after a sequence of votes, a field's score is its first vote's time (or its earlier score) plus the sum of all its weights |
| Scoring.TallyFields | spec/lib/popular_stream_spec.rb:89-92 | votes add exactly the voted fields and never remove one |
| Scoring.CountAfterTally | spec/lib/popular_stream_spec.rb:89-92 | votes cast into an empty stream leave as many fields as distinct fields voted |
| Scoring.RepeatVoteIgnoresTime | spec/lib/popular_stream_spec.rb:82-83 | a vote for a field already present gives the same result whatever its time, and adds exactly its weight |
| Scoring.EqualWeightKeepsGap | spec/lib/popular_stream_spec.rb:77-86 | two present fields that gain the same total weight keep the gap between their scores |
| Scoring.PositiveWeightsRaise | spec/lib/popular_stream_spec.rb:59-75 | with positive weights no score ever falls, and a field that is voted for strictly rises |
| Scenarios.VotedLastWeekAndNow | spec/lib/popular_stream_spec.rb:28-31 | voting "1" a week ago and "2" now gives the scores now - week + 1 and now + 1, ranked "2", "1" |
| Scenarios.OlderVotesRankLower | spec/lib/popular_stream_spec.rb:33-35 | `get` returns ["2", "1"] |
| Scenarios.LimitAndOffset | spec/lib/popular_stream_spec.rb:37-40 | `get(limit: 1)` returns ["2"] and `get(offset: 1)` returns ["1"] |
| Scenarios.AlsoVotedNextWeek | spec/lib/popular_stream_spec.rb:43 | with "3" voted a week ahead the ranking is "3", "2", "1" |
| Scenarios.PageOfOne | spec/lib/popular_stream_spec.rb:44-46 | a page of limit 1 at offset k holds the k-th ranked field |
| Scenarios.Paginates | spec/lib/popular_stream_spec.rb:42-47 | pages of one field at offsets 0, 1 and 2 return ["3"], ["2"] and ["1"] |
| Scenarios.GetsScores | spec/lib/popular_stream_spec.rb:49-55 | `get(with_scores: true)` returns two-part pairs: ("2", now + 1), ("1", now - week + 1) |
| Scenarios.TwiceThenOnce | spec/lib/popular_stream_spec.rb:59-75 | at one time, two unit votes for "1" and one vote of weight w for "2" score now + 2 and now + w; "1" ranks first for w < 2 and "2" for w > 2 |
| Scenarios.MoreVotesRankHigher | spec/lib/popular_stream_spec.rb:59-66 | `get` returns ["1", "2"] |
| Scenarios.WeightCounts | spec/lib/popular_stream_spec.rb:68-75 | `get` returns ["2", "1"] |
| Scenarios.VotedWeeksAgoAndNow | spec/lib/popular_stream_spec.rb:78-84 | first votes two and three weeks ago, then a vote now each, give the scores now - 2 weeks + 2 and now - 3 weeks + 2 |
| Scenarios.OldVotesKeepTheirTime | spec/lib/popular_stream_spec.rb:77-86 | `get` returns ["1", "2"]: the later votes do not renew the fields' times |
| Scenarios.CountThenClear | spec/lib/popular_stream_spec.rb:89-96 | clearing an empty stream succeeds; two votes for one field count 1; after `clear!` the count is 0 |

## Left out

- The process-wide Redis binding (`PopularStream.redis=` and `set_redis { ... }`, spec/lib/popular_stream_spec.rb:13-25) is left out. It is global configuration around a closure, not ranking logic.
- Redis itself is left out: its connection, network I/O and failures. The sorted set is an in-memory map with the same contract: upsert-or-increment, reverse range by rank, cardinality and delete-all.
- Reading the clock (`Time.now`, `Timecop.freeze`) is left out. Time is an explicit integer parameter, so the default time argument of `vote` is not modelled.
- Scores are integers, not Redis's double-precision floats. Epoch seconds plus integer weights are exact in both, up to the float's 53-bit mantissa. A weight that is not finite cannot occur.
- Concurrent votes and their atomicity are left out. The model is sequential.
- Two stream objects with the same name share one sorted set in Redis. The model gives each object its own map, and its constructor starts from an empty map, as every example does after `clear!`.
- Ranking.Ranked: among equal scores it fixes one tie-break, descending lexicographic order of the field names. This is the order of a Redis reverse range. The gem itself leaves ties to the store, and no example has equal scores. `PopularStreams.GetIsRanked` and `PopularStreams.FullGetListsEveryField` state the tie-break-free part of the contract.
- The implementation file of the gem is not part of this model. Its behaviour is taken from the examples in spec/lib/popular_stream_spec.rb and the gem's documented design, including the argument errors, which no example exercises.
