/** Match selection: `find_best_match` in app.py. The query's similarity to
    every knowledge-base question is given as one real score per entry, in the
    order of the entries; the embedding model and cosine similarity that
    produce those scores are not part of this model. */
module Matcher {
  import opened Strings

  /** One record of the FAQ file: identity is its position in the list. */
  datatype FaqItem = FaqItem(question: string, answer: string)

  /** What `find_best_match` returns. The source returns three kinds of value:
      the tuple `(None, 0.0)` for a blank query, `None` when the best score is
      below the threshold, and the answer string otherwise. */
  datatype MatchResult = EmptyQuery | NoMatch | Matched(answer: string)

  const SimilarityThreshold: real := 0.5

  /** `k` is the index `torch.argmax` picks: a maximal score, and the first one. */
  ghost predicate IsFirstMax(scores: seq<real>, k: int) {
    && 0 <= k < |scores|
    && (forall j :: 0 <= j < |scores| ==> scores[j] <= scores[k])
    && (forall j :: 0 <= j < k ==> scores[j] < scores[k])
  }

  /** `torch.argmax` over a one-dimensional score tensor. */
  function ArgMax(scores: seq<real>): (k: nat)
    requires |scores| > 0
    ensures IsFirstMax(scores, k)
  {
    if |scores| == 1 then 0
    else
      var k := ArgMax(scores[..|scores| - 1]);
      if scores[k] < scores[|scores| - 1] then |scores| - 1 else k
  }

  /** At most one index is the first maximum, so the argmax is determined by it. */
  lemma FirstMaxUnique(scores: seq<real>, i: int)
    requires IsFirstMax(scores, i)
    ensures i == ArgMax(scores)
  {
  }

  /** `find_best_match(query, model, data, embeddings)`, with the scores that
      the query's embedding gets against `data`. A blank query is answered
      before any score is looked at; otherwise there must be one score per
      entry and at least one entry. */
  function FindBestMatch(query: string, data: seq<FaqItem>, scores: seq<real>): (r: MatchResult)
    requires !IsBlank(query) ==> |scores| == |data| && |data| > 0
    ensures r.EmptyQuery? <==> IsBlank(query)
    ensures r.NoMatch? <==>
      !IsBlank(query) && forall i :: 0 <= i < |scores| ==> scores[i] < SimilarityThreshold
    ensures r.Matched? ==>
      exists i :: IsFirstMax(scores, i) && SimilarityThreshold <= scores[i] && r.answer == data[i].answer
  {
    if IsBlank(query) then EmptyQuery
    else
      var top := ArgMax(scores);
      if scores[top] < SimilarityThreshold then NoMatch
      else Matched(data[top].answer)
  }

  /** The whole matching rule in terms of the first maximal score: below the
      threshold gives no match, at or above it gives that entry's answer. */
  lemma MatchAtFirstMax(query: string, data: seq<FaqItem>, scores: seq<real>, i: int)
    requires !IsBlank(query) && |scores| == |data|
    requires IsFirstMax(scores, i)
    ensures FindBestMatch(query, data, scores) ==
      if scores[i] < SimilarityThreshold then NoMatch else Matched(data[i].answer)
  {
    FirstMaxUnique(scores, i);
  }

  /** A blank query's result depends on neither the knowledge base nor the scores. */
  lemma BlankQueryIgnoresScores(query: string, data: seq<FaqItem>, scores: seq<real>,
                                data': seq<FaqItem>, scores': seq<real>)
    requires IsBlank(query)
    ensures FindBestMatch(query, data, scores) == FindBestMatch(query, data', scores') == EmptyQuery
  {
  }

  /** The threshold is inclusive: a best score of exactly 0.5 is a match. */
  lemma ExactThresholdMatches(query: string, item: FaqItem)
    requires !IsBlank(query)
    ensures FindBestMatch(query, [item], [0.5]) == Matched(item.answer)
  {
  }

  /** Two entries tied at the best score: the earlier one's answer is used. */
  lemma TieGoesToFirstEntry(query: string, first: FaqItem, second: FaqItem, score: real)
    requires !IsBlank(query) && SimilarityThreshold <= score
    ensures FindBestMatch(query, [first, second], [score, score]) == Matched(first.answer)
  {
    MatchAtFirstMax(query, [first, second], [score, score], 0);
  }
}
