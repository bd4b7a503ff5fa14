# Data-science career FAQ chatbot: retrieval and prompt kernel

The chatbot answers a question about data-science careers in Indonesia in
two steps.

1. **Match selection** (`find_best_match`). A blank query (empty or only
   whitespace, in Python's `str.strip()` sense) is answered at once with the
   tuple `(None, 0.0)`. For any other query, the knowledge base has one
   similarity score per entry. The entry with the highest score is chosen,
   the first one on a tie, as `torch.argmax` does. If that score is below
   0.5 the result is `None`. Otherwise it is that entry's answer.
2. **Prompt composition** (`get_gemini_response`). If the result of step 1
   is `None`, a fallback prompt quotes the question. Any other result,
   including the blank-query tuple, fills the advisor prompt: first the
   context, then the question. The prompt goes to a hosted language model.
   Its text is returned as it is; if the call fails, a fixed Indonesian
   apology is returned and the error is not raised.

The Dafny project has four modules:

- `Strings` (`strings.dfy`): Python's whitespace characters; `strip()` as
  `TrimStart`/`TrimEnd`/`Strip`; the substring predicates `OccursAt`,
  `Contains`, `StartsWith`, `EndsWith` and `ContainsInOrder`, used to say
  what a prompt contains.
- `Matcher` (`matcher.dfy`): `FaqItem`, and `MatchResult`, which is
  `EmptyQuery | NoMatch | Matched(answer)`. These are the three kinds of
  value `find_best_match` returns. The module also has the reference
  predicate `IsFirstMax`, `ArgMax`, and `FindBestMatch`.
- `Composer` (`composer.dfy`): the two prompt templates, written out as
  constants around their holes. Each keeps its f-string's indentation and
  the trailing space on one line of the advisor template. The module also
  has `ContextText`, which is what `{context}` prints: a string prints as
  itself and the tuple as `(None, 0.0)`. Then `BuildPrompt`, and
  `GeminiResponse` with the generator as a parameter
  `generate: string -> GenerationOutcome`.
- `Chat` (`chat.dfy`): one turn, the two calls in a row as app.py:126-129
  makes them, with end-to-end lemmas.

Three behaviours of the code worth noting:

- A blank query yields `(None, 0.0)`, not a no-match value. Because that
  tuple is not `None`, it takes the *context* prompt, with the text
  `(None, 0.0)` as the context (`Chat.BlankQueryUsesContextTemplate`).
- A best score of exactly 0.5 is a match (`top_score < 0.5` is the only
  way to get no match).
- A match carries only the answer, not its score.

## Model

| member | source | states |
|---|---|---|
| Strings.TrimStart | app.py:47 | the result is a suffix of the input; everything removed is whitespace; the result is empty or starts with a non-whitespace character (the left half of `str.strip()`) |
| Strings.TrimEnd | app.py:47 | the result is a prefix of the input; everything removed is whitespace; the result is empty or ends with a non-whitespace character (the right half of `str.strip()`) |
| Strings.Strip | app.py:47 | the result is the slice `s[i..j]` of the input with only whitespace before `i` and after `j`, and it is empty or begins and ends with a non-whitespace character (`str.strip()`) |
| Strings.BlankIffAllSpace | app.py:47 | `IsBlank(query)`, the model of `not user_query.strip()`, holds exactly when every character of the query is Python whitespace |
| Matcher.ArgMax | app.py:54 | the chosen index is in bounds, its score is at least every score, and every earlier score is strictly smaller (first maximum) |
| Matcher.FirstMaxUnique | app.py:54 | any index that is a first maximum is the one `ArgMax` returns |
| Matcher.FindBestMatch | app.py:45-63 | `EmptyQuery` exactly for a blank query; `NoMatch` exactly when the query is not blank and every score is below 0.5; a `Matched` answer is the answer of a first-maximum entry whose score is at least 0.5 |
| Matcher.MatchAtFirstMax | app.py:54-63 | for a non-blank query with first maximum `i`: `NoMatch` if `scores[i] < 0.5`, else `Matched(data[i].answer)` from the same index |
| Matcher.BlankQueryIgnoresScores | app.py:47-48 | a blank query gets `EmptyQuery` whatever the knowledge base and the scores |
| Matcher.ExactThresholdMatches | app.py:58-60 | a single entry scoring exactly 0.5 is matched |
| Matcher.TieGoesToFirstEntry | app.py:54 | two entries tied at a score of at least 0.5 give the first entry's answer |
| Composer.TemplateEndingsDiffer | app.py:70-93 | the fallback template and the advisor template end differently |
| Composer.EndingsExclusive | app.py:70-93 | no prompt can end with both templates' endings |
| Composer.FallbackPrompt | app.py:70-76 | the fallback prompt starts and ends with its template, holds the question in double quotes right after the opening part, and has exactly the template's length plus the quoted question |
| Composer.ContextText | app.py:48 | `{context}` writes a matched answer as itself and the blank-query tuple `(None, 0.0)` as the text `(None, 0.0)` (the value returned at line 48, printed at line 87) |
| Composer.ContextPrompt | app.py:79-93 | the advisor prompt starts and ends with its template, holds the context right after the opening part and the question right after the middle part (so the context comes first), and has exactly the template's length plus the two inserted texts |
| Composer.BuildPrompt | app.py:68-93 | the fallback ending is used exactly for `NoMatch` and the advisor ending exactly for the other two results; the fallback prompt holds the quoted question and nothing else; the advisor prompt holds the printed context and then the question, with `(None, 0.0)` for a blank query |
| Composer.GeminiResponse | app.py:94-99 | the generator is asked about the composed prompt; its text is returned unchanged on success; on failure the reply is the fixed apology |
| Composer.OnlyComposedPromptIsSent | app.py:94-96 | two generators that agree on the composed prompt give the same reply |
| Composer.FailureMessageIsSwallowed | app.py:97-99 | every failure gives the same reply, the apology, whatever its message |
| Chat.TurnPrompt | app.py:126-129 | blank query: advisor prompt with `(None, 0.0)` before the query; all scores below 0.5: fallback prompt quoting the query; first maximum at or above 0.5: advisor prompt with that entry's answer before the query |
| Chat.Reply | app.py:126-129 | the reply is the generator's text for the turn's prompt, or the apology when the generator fails |
| Chat.NoMatchPromptIgnoresAnswers | app.py:58-76 | when nothing matches, replacing every answer in the knowledge base leaves the prompt unchanged, so no knowledge-base content reaches it |
| Chat.OwnQuestionGetsItsAnswer | app.py:126-129 | for the one-entry knowledge base "What skills do I need?" / "Statistics, SQL, Python." at score 1.0, the prompt holds the answer before the question |
| Chat.UnrelatedQuestionFallsBack | app.py:126-129 | the same knowledge base at score 0.1 gives the fallback prompt |
| Chat.BlankQueryUsesContextTemplate | app.py:47-68 | an all-whitespace query is sent with the advisor template, never the fallback one |

## Left out

- Streamlit UI and session state are not modelled: page setup, title, chat rendering, the message-history appends, the spinner (app.py:20-21, 102-133). Only how the turn chains the two functions (app.py:126, 129) is in `Chat`.
- API-key configuration and the Gemini client are not modelled (app.py:7-18, 95). They are a foreign network service. The call is the parameter `generate` with outcome `Generated(text)` or `Failed(error)`. `Failed` covers both an exception from `generate_content` and one from reading `response.text`.
- `st.error` in the failure branch (app.py:98) is a UI side effect that the model has no counterpart for; only the returned apology is modelled.
- Loading the JSON file and `@st.cache_resource` / `@st.cache_data` are not modelled (app.py:23-42). They are I/O and library memoisation. The knowledge base is a given `seq<FaqItem>`, so a record without an `answer` key (a `KeyError` at app.py:63) cannot be expressed.
- The SentenceTransformer encoder and `util.pytorch_cos_sim` are not modelled (app.py:3, 50-52). They are a black-box model and floating-point numerics. The scores are a given `seq<real>`, aligned by index with the knowledge base. As a consequence, the propagation of an encoder failure is not modelled either.
- Floating point: scores are exact reals. The float32 rounding inside `util.pytorch_cos_sim` (app.py:52) and NaN scores, which `torch.argmax` treats as maximal, are not modelled.
- Matcher.FindBestMatch: requires one score per entry and at least one entry for a non-blank query. `torch.argmax` raises on an empty tensor, and an empty knowledge base is that error path, which the model does not represent.
- `FallbackPrompt` and `ContextPrompt` keep the exact template text, but the only properties proved are where the question and the context sit and how the two templates are told apart. Nothing is proved about the wording of the instructions.
