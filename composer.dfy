/** Prompt composition and error masking: `get_gemini_response` in app.py.
    The hosted model is a parameter `generate` that maps a prompt to an
    outcome; the network client behind it is not part of this model. */
module Composer {
  import opened Strings
  import opened Matcher

  /** What one call to the generator yields: its text, or an exception (with
      its message) raised by the call or by reading the response's text. */
  datatype GenerationOutcome = Generated(text: string) | Failed(error: string)

  /** The fallback template (context is `None`), around the quoted question.
      Each line carries the eight spaces of indentation of the f-string. */
  const FallbackBefore: string :=
    "\n        You are a helpful AI assistant specializing in data science careers in Indonesia.\n        The user asked: "
  const FallbackAfter: string :=
    ".\n        You could not find a relevant answer in your knowledge base.\n        Apologize and ask the user to rephrase their question or ask another question about data science careers in Indonesia.\n        Keep the response in Indonesian.\n        "

  /** The context template, split around the context and the question. */
  const ContextBefore: string :=
    "\n        Anda adalah seorang penasihat karir yang ramah dan informatif di bidang data science di Indonesia.\n        Tugas Anda adalah menjawab pertanyaan pengguna berdasarkan informasi yang diberikan di bawah ini.\n        Buatlah jawaban yang jelas, mudah dimengerti, dan profesional dalam Bahasa Indonesia. \n        Respons anda dibuat pendek sekitar 2-4 kalimat saja tapi banyakan jumlah poin-poin jika memang perlu.\n        Tambahkan emoji dibeberapa bagian respons anda agar lebih menarik.\n\n        **Informasi Kontekstual:**\n        "
  const ContextBetween: string :=
    "\n\n        **Pertanyaan Pengguna:**\n        "
  const ContextAfter: string :=
    "\n\n        **Jawaban Anda:**\n        "

  /** The fixed reply when the generator fails. */
  const Apology: string :=
    "Maaf, terjadi kesalahan saat mencoba menghasilkan jawaban. Silakan coba lagi nanti."

  /** What `{context}` in an f-string writes for a result of `find_best_match`:
      a string is written as itself; the blank-query tuple as Python prints a
      tuple, the items' representations between parentheses, separated by ", ". */
  function ContextText(context: MatchResult): (text: string)
    ensures context.Matched? ==> text == context.answer
    ensures context.EmptyQuery? ==> text == "(" + "None" + ", " + "0.0" + ")"
  {
    match context
    case Matched(answer) => answer
    case EmptyQuery => "(None, 0.0)"
    case NoMatch => "None"
  }

  /** The two templates end differently: the last character before the final
      indentation is the full stop of the fallback and the asterisk of the
      answer heading. */
  lemma TemplateEndingsDiffer()
    ensures |FallbackAfter| > 9 && |ContextAfter| > 9
    ensures FallbackAfter[|FallbackAfter| - 10] != ContextAfter[|ContextAfter| - 10]
  {
  }

  /** No string ends with both templates' endings. */
  lemma EndingsExclusive(s: string)
    ensures !(EndsWith(s, FallbackAfter) && EndsWith(s, ContextAfter))
  {
    TemplateEndingsDiffer();
  }

  /** The f-string used when `context is None`: the question, in double
      quotes, inside the fallback template, and nothing else inserted. */
  function FallbackPrompt(question: string): (prompt: string)
    ensures StartsWith(prompt, FallbackBefore) && EndsWith(prompt, FallbackAfter)
    ensures OccursAt(prompt, "\"" + question + "\"", |FallbackBefore|)
    ensures Contains(prompt, "\"" + question + "\"")
    ensures |prompt| == |FallbackBefore| + |question| + 2 + |FallbackAfter|
  {
    var quoted := "\"" + question + "\"";
    FilledHole(FallbackBefore, quoted, FallbackAfter);
    FallbackBefore + quoted + FallbackAfter
  }

  /** The f-string used otherwise: the context, then the question, inside the
      advisor template, and nothing else inserted. */
  function ContextPrompt(context: string, question: string): (prompt: string)
    ensures StartsWith(prompt, ContextBefore) && EndsWith(prompt, ContextAfter)
    ensures OccursAt(prompt, context, |ContextBefore|)
    ensures OccursAt(prompt, question, |ContextBefore| + |context| + |ContextBetween|)
    ensures ContainsInOrder(prompt, context, question)
    ensures |prompt| == |ContextBefore| + |context| + |ContextBetween| + |question| + |ContextAfter|
  {
    FilledTemplate(ContextBefore, context, ContextBetween, question, ContextAfter);
    ContextBefore + context + ContextBetween + question + ContextAfter
  }

  /** The prompt `get_gemini_response` sends. It branches on `context is None`,
      and only `NoMatch` is the source's `None`: the blank-query result takes
      the context template, with `(None, 0.0)` written in as the context. */
  function BuildPrompt(question: string, context: MatchResult): (prompt: string)
    ensures EndsWith(prompt, FallbackAfter) <==> context.NoMatch?
    ensures EndsWith(prompt, ContextAfter) <==> !context.NoMatch?
    ensures context.NoMatch? ==>
      && StartsWith(prompt, FallbackBefore)
      && Contains(prompt, "\"" + question + "\"")
      && |prompt| == |FallbackBefore| + |question| + 2 + |FallbackAfter|
    ensures !context.NoMatch? ==>
      StartsWith(prompt, ContextBefore) && ContainsInOrder(prompt, ContextText(context), question)
  {
    var prompt :=
      if context.NoMatch? then FallbackPrompt(question)
      else ContextPrompt(ContextText(context), question);
    EndingsExclusive(prompt);
    prompt
  }

  /** `get_gemini_response(user_question, context)`: one call to the generator
      with the composed prompt; its text comes back verbatim, and any failure
      is replaced by the fixed apology instead of being raised. */
  function GeminiResponse(question: string, context: MatchResult,
                          generate: string -> GenerationOutcome): (reply: string)
    ensures generate(BuildPrompt(question, context)).Generated? ==>
      reply == generate(BuildPrompt(question, context)).text
    ensures generate(BuildPrompt(question, context)).Failed? ==> reply == Apology
  {
    match generate(BuildPrompt(question, context))
    case Generated(text) => text
    case Failed(_) => Apology
  }

  /** The reply depends on the generator only through what it returns for the
      composed prompt: no other prompt is ever sent. */
  lemma OnlyComposedPromptIsSent(question: string, context: MatchResult,
                                 generate: string -> GenerationOutcome,
                                 generate': string -> GenerationOutcome)
    requires generate(BuildPrompt(question, context)) == generate'(BuildPrompt(question, context))
    ensures GeminiResponse(question, context, generate) == GeminiResponse(question, context, generate')
  {
  }

  /** Every failure is masked the same way, whatever its message. */
  lemma FailureMessageIsSwallowed(question: string, context: MatchResult,
                                  generate: string -> GenerationOutcome,
                                  generate': string -> GenerationOutcome)
    requires generate(BuildPrompt(question, context)).Failed?
    requires generate'(BuildPrompt(question, context)).Failed?
    ensures GeminiResponse(question, context, generate) == GeminiResponse(question, context, generate')
    ensures GeminiResponse(question, context, generate) == Apology
  {
  }
}
