/** One chat turn as app.py runs it: the submitted text goes to
    `find_best_match`, and whatever that returns goes, unexamined, to
    `get_gemini_response` together with the same text. */
module Chat {
  import opened Strings
  import opened Matcher
  import opened Composer

  /** The prompt sent to the generator for one turn. */
  function TurnPrompt(query: string, data: seq<FaqItem>, scores: seq<real>): (prompt: string)
    requires !IsBlank(query) ==> |scores| == |data| && |data| > 0
    ensures IsBlank(query) ==>
      StartsWith(prompt, ContextBefore) && ContainsInOrder(prompt, "(None, 0.0)", query)
    ensures !IsBlank(query) && (forall i :: 0 <= i < |scores| ==> scores[i] < SimilarityThreshold) ==>
      StartsWith(prompt, FallbackBefore) && Contains(prompt, "\"" + query + "\"")
    ensures forall i :: !IsBlank(query) && IsFirstMax(scores, i) && SimilarityThreshold <= scores[i] ==>
      StartsWith(prompt, ContextBefore) && ContainsInOrder(prompt, data[i].answer, query)
  {
    var context := FindBestMatch(query, data, scores);
    forall i | !IsBlank(query) && IsFirstMax(scores, i) && SimilarityThreshold <= scores[i]
      ensures context == Matched(data[i].answer)
    {
      MatchAtFirstMax(query, data, scores, i);
    }
    BuildPrompt(query, context)
  }

  /** The assistant's reply for one turn: whatever the generator produces for
      the turn's prompt, or the apology when it fails. */
  function Reply(query: string, data: seq<FaqItem>, scores: seq<real>,
                 generate: string -> GenerationOutcome): (reply: string)
    requires !IsBlank(query) ==> |scores| == |data| && |data| > 0
    ensures generate(TurnPrompt(query, data, scores)).Failed? ==> reply == Apology
    ensures generate(TurnPrompt(query, data, scores)).Generated? ==>
      reply == generate(TurnPrompt(query, data, scores)).text
  {
    GeminiResponse(query, FindBestMatch(query, data, scores), generate)
  }

  /** When no entry scores high enough, the prompt carries nothing from the
      knowledge base: replacing every answer leaves it unchanged. */
  lemma NoMatchPromptIgnoresAnswers(query: string, data: seq<FaqItem>,
                                                       data': seq<FaqItem>, scores: seq<real>)
    requires !IsBlank(query) && |scores| == |data| == |data'| && |data| > 0
    requires FindBestMatch(query, data, scores) == NoMatch
    ensures TurnPrompt(query, data, scores) == TurnPrompt(query, data', scores)
  {
    assert FindBestMatch(query, data', scores) == NoMatch;
  }

  /** The knowledge base of one entry used as an end-to-end example. */
  const SkillsItem := FaqItem("What skills do I need?", "Statistics, SQL, Python.")

  /** Asking the entry's own question (similarity 1.0): its answer is the context. */
  lemma OwnQuestionGetsItsAnswer()
    ensures ContainsInOrder(TurnPrompt(SkillsItem.question, [SkillsItem], [1.0]),
                            SkillsItem.answer, SkillsItem.question)
  {
    var q := SkillsItem.question;
    assert !IsSpace(q[0]);
    BlankIffAllSpace(q);
    assert IsFirstMax([1.0], 0);
  }

  /** An unrelated question (similarity well below 0.5): the fallback prompt. */
  lemma UnrelatedQuestionFallsBack()
    ensures StartsWith(TurnPrompt("What is the weather today?", [SkillsItem], [0.1]), FallbackBefore)
  {
    var q := "What is the weather today?";
    assert !IsSpace(q[0]);
    BlankIffAllSpace(q);
  }

  /** A blank or whitespace-only query never uses the fallback template. */
  lemma BlankQueryUsesContextTemplate(query: string, data: seq<FaqItem>, scores: seq<real>)
    requires AllSpace(query)
    ensures EndsWith(TurnPrompt(query, data, scores), ContextAfter)
    ensures !EndsWith(TurnPrompt(query, data, scores), FallbackAfter)
  {
    BlankIffAllSpace(query);
  }
}
