# CopyWriterController: a verified model of the prompt pipeline

A single endpoint of the copy-writer controller takes a content request: an objective such as "Podcast" or "TV Commercials", a tone, a language, optional keywords, a creativity label and a number of variants. From it the controller:

1. maps the creativity label to a sampling temperature through a fixed table;
2. builds a prompt from one of nine heredoc templates, selected by the objective. It splices in the tone and the key points, and a translation instruction for any language other than "english";
3. sends the prompt to the provider's moderation endpoint. A flagged prompt is refused with a fixed content-policy message;
4. otherwise sends one completion request and passes the provider's choices through unchanged;
5. turns the outcome into a JSON response: 200 with the choices, 400 with the refusal, or 500 with a generic message when an exception was thrown.

The model has four modules:

- `Requests` (`requests.dfy`): the request fields and an `Option` type.
- `Creativity` (`creativity.dfy`): the temperature table, as a function with lemmas.
- `Prompts` (`prompts.dfy`): the templates and the prompt, as functions with lemmas. The templates include their exact whitespace. PHP (7.3 or later) strips the closing marker's 16 columns of indentation from a flexible heredoc. So every line keeps four spaces of indentation. The blank second line keeps four spaces, or eight in the YouTube, TV and Tiktok templates. After the key points, the Facebook template adds "\n    " (a newline and four spaces) and the Instagram template adds "\n".
- `CopyWriter` (`copywriter.dfy`): the two provider endpoints and the two controller methods.
  - The endpoints are the class `OpenAIProvider`. Its answers are function-valued oracles. A ghost log records every request issued.
  - `getOpenAIResults` and `getAiResults` are the methods `GetOpenAIResults` and `GetAiResults`. Each is proved equal to a specification function (`OpenAIResults`, `AiResponse`). Each also appends exactly `CallsIssued` to the log.
  - Lemmas about those functions state the short-circuit, the single completion request and the response mapping.

PHP exceptions appear as `Outcome` values (`Returned` or `Raised`). A `Raised` value is either an `Exception`, which `catch (\Exception)` matches, or an `Error`, which it does not.

## Model

| member | source | states |
|---|---|---|
| `Creativity.Temperature` | CopywriterController.php:193-209 | the lookup is total; every temperature lies in [0, 1]; the result is 0 exactly when the label is not one of the five known labels |
| `Creativity.TemperatureMatchesLevels` | CopywriterController.php:195-207 | optimal→0.7, low→0.2, medium→0.5, high→0.9, max→1, and any other label→0 |
| `Creativity.UnknownLabelDegradesToZero` | CopywriterController.php:206-207 | unknown labels, an empty label and a differently capitalised label all fall back to 0 |
| `Prompts.TemplateFor` | CopywriterController.php:107-190 | a template exists exactly for the nine objectives; it has a colon after the clause exactly for the five colon objectives |
| `Prompts.TranslationClause` | CopywriterController.php:104 | the translation clause is empty exactly when the language is "english" |
| `Prompts.KeyPoints` | CopywriterController.php:105 | the key points are the keywords when they are given, and empty when they are absent |
| `Prompts.Render` | CopywriterController.php:110-186 | a rendered template starts with the indented lead, the tone sentence and the clause. It ends with the indented "Key points: " line, the key points and the template's trailer |
| `Prompts.Prompt` | CopywriterController.php:102-191 | a prompt is produced exactly when the objective is one of the nine; every other objective fails |
| `Prompts.PromptContainsTone` | CopywriterController.php:111-183 | every prompt contains the tone verbatim |
| `Prompts.PromptEndsWithKeyPoints` | CopywriterController.php:105-185 | every prompt ends with "Key points: " immediately followed by the key points and the template's trailing whitespace, so it also contains them |
| `Prompts.AbsentKeywordsAreEmpty` | CopywriterController.php:105 | absent keywords give the same prompt as empty keywords, which ends with "Key points: " and only trailing whitespace |
| `Prompts.TranslationClauseIff` | CopywriterController.php:104-183 | right after "Use the following key points." the next character is a space if and only if the language is not "english"; in that case " Translate the result to <language>." follows |
| `Prompts.ColonAfterClause` | CopywriterController.php:111-183 | right after the clause comes ':' exactly in the Facebook, Instagram, YouTube, TV Commercials and Tiktok templates; otherwise a line break |
| `Prompts.EnglishFirstLineEnd` | CopywriterController.php:127-183 | for English, the five colon templates contain "points.:" followed by a line break; the other four contain "points." followed by a line break |
| `Prompts.PodcastScenario` | CopywriterController.php:169-175 | a funny Podcast prompt in English contains "Write a creative Podcast script using a funny tone." and ends with "Key points: dogs, parks" |
| `Prompts.TvCommercialInFrenchScenario` | CopywriterController.php:151-157 | a TV commercial in French contains "Use the following key points. Translate the result to french.:" followed by a line break; with no keywords it ends with "Key points: " |
| `Prompts.HaikuHasNoPrompt` | CopywriterController.php:188-189 | the objective "Haiku" yields no prompt |
| `CopyWriter.CompletionRequestFor` | CopywriterController.php:60-68 | the completion body carries the prompt, the temperature of the request's creativity label (in [0, 1]), max_tokens 1000, both penalties 0, `n` equal to the variants and the user tag "user" followed by the id |
| `CopyWriter.ObjectiveNotImplemented` | CopywriterController.php:189 | the corrected default branch throws an `\Exception`, which the catch at line 35 matches |
| `CopyWriter.ObjectiveNotImplementedAsWritten` | CopywriterController.php:189 | the default branch as written throws an `\Error` (class not found), which that catch does not match |
| `CopyWriter.Pipeline` | CopywriterController.php:42-81 | for any throwable of the default branch: exactly an unknown objective raises that throwable, with no prompt built; choices are returned only when moderation answered "not flagged" |
| `CopyWriter.OpenAIResults` | CopywriterController.php:42-81 | a result is returned only for a known objective; choices are returned only when moderation answered "not flagged" |
| `CopyWriter.OpenAIResultsAsWritten` | CopywriterController.php:42-81 | as written, an unknown objective raises the class-not-found `\Error` |
| `CopyWriter.CallsIssued` | CopywriterController.php:46-70 | at most two requests are issued; none are issued exactly when the objective has no template |
| `CopyWriter.AiResponse` | CopywriterController.php:19-40 | the outcome escapes exactly when it is a thrown `\Error`; every response sent has status 200, 400 or 500 |
| `CopyWriter.OpenAIProvider.IsFlagged` | CopywriterController.php:83-100 | one moderation request for the input is logged; the oracle's answer is returned |
| `CopyWriter.OpenAIProvider.Complete` | CopywriterController.php:55-73 | one completion request with the given body is logged; the oracle's choices are returned |
| `CopyWriter.GetOpenAIResults` | CopywriterController.php:42-81 | returns `OpenAIResults` of the provider's oracles; appends exactly `CallsIssued` to the provider's log, in order |
| `CopyWriter.GetAiResults` | CopywriterController.php:19-40 | returns `AiResponse` of that outcome and issues the same requests |
| `CopyWriter.UnknownObjectiveIssuesNoCall` | CopywriterController.php:47-48 | an unknown objective throws before any request is issued |
| `CopyWriter.ModerationComesFirst` | CopywriterController.php:47-48 | once a prompt is built, the first request issued is its moderation check |
| `CopyWriter.FlaggedNeverCompletes` | CopywriterController.php:48-54 | a flagged prompt issues only the moderation request and no completion request; the result is `error` true, no choices, and the content-policy message |
| `CopyWriter.PassedPromptCompletesOnce` | CopywriterController.php:55-78 | an unflagged prompt issues exactly one completion request with the prompt, the computed temperature, max_tokens 1000, both penalties 0, `n` equal to the variants and user "user" followed by the id; the provider's choices come back unchanged and in order, and its exception is passed on |
| `CopyWriter.ModerationFailureStops` | CopywriterController.php:48 | a moderation call that throws ends the pipeline with that throwable; no completion request is issued |
| `CopyWriter.AtMostOneCompletion` | CopywriterController.php:48-70 | at most one completion request is issued; one is issued if and only if a prompt was built and moderation did not flag it |
| `CopyWriter.ResponseForOutcome` | CopywriterController.php:22-38 | the refusal maps to 400 {message, "Failed", []}; choices map to 200 {"Generated", "Success", choices}; an exception maps to 500 {"Unable to complete request."}; an `\Error` is not caught |
| `CopyWriter.EndpointStatus` | CopywriterController.php:19-78 | the endpoint answers 200 if and only if moderation passed the prompt and the completion returned, and the body then holds the provider's choices; it answers 400 if and only if moderation flagged the prompt, and the body then holds the policy message |
| `CopyWriter.ProviderExceptionAnswers500` | CopywriterController.php:35-38 | an exception from either provider call becomes the 500 fallback response, without its details |
| `CopyWriter.UnknownObjectiveAnswers500` | CopywriterController.php:188-189 | with the corrected throw, an unknown objective is answered with the 500 fallback response and no request is issued |
| `CopyWriter.UnknownObjectiveEscapesAsWritten` | CopywriterController.php:19-48 | as written, an unknown objective issues no request and its `\Error` escapes `getAiResults` uncaught, so the endpoint's own 500 response is never sent; the reply differs from the corrected pipeline's |
| `CopyWriter.AsWrittenAgreesOnKnownObjectives` | CopywriterController.php:42-81 | for the nine known objectives the pipeline as written and the corrected one give the same outcome |
| `CopyWriter.PodcastCompletionRequest` | CopywriterController.php:55-68 | the Podcast request at "high" creativity with two variants sends one completion with n 2, temperature 0.9 and max_tokens 1000 |

## Left out

- The HTTP and JSON plumbing is not modelled. This covers the Guzzle clients, the endpoint URLs, the headers, `getBody()->getContents()`, `json_decode` and the reading of `results[0]->flagged` and `->choices`. Each endpoint is an oracle. It returns the decoded value or throws; malformed answers count as throwing.
- The API key and `Auth::id()` are not modelled. The user id is an opaque string input, and the model only forms `"user" + id` from it.
- `(int) $request->variants` is not modelled. PHP's string-to-integer cast is a type-coercion detail, so `variants` is already an integer in `Request`.
- The auth and subscription middleware of the constructor is not modelled. Neither is `Log::info` in the catch block; it is a logging side effect.
- Creativity.Temperature: PHP returns the integers 1 and 0 for "max" and for unknown labels, and the floats 0.7, 0.5 and so on for the rest. The model uses the reals 1.0 and 0.0. The values are equal, but the model does not record that JSON serialises them as `1` and `0`.
- The unreachable second `return` and the commented-out sample query are not modelled; neither has any behaviour.
- PHP's loose comparisons and coercions are not modelled: a null `language` or `tone`, or a non-string `creativity` meeting the `string` type hint. No request field is null; every field but `keywords` and `variants` is a string.
- What the framework does with an `\Error` that escapes `getAiResults` is not modelled. The model stops at `Uncaught`.
- CopyWriter.GetOpenAIResults: the method models the corrected default branch, which throws `ObjectiveNotImplemented()`. The as-written `\Error` appears only in the function `OpenAIResultsAsWritten`.
- CopyWriter.GetAiResults: the method also uses the corrected default branch. The as-written reply to an unknown objective is `AiResponse(OpenAIResultsAsWritten(...))`, which is `Uncaught`.

## Findings

| source | as written | input that shows it | evidently intended | confidence | as-written member | corrected member |
|---|---|---|---|---|---|---|
| CopywriterController.php:189 | the default branch runs `throw new RuntimeErrorException(...)`. Neither the `use` list nor the controller's namespace declares that class, so `new` raises an `\Error` ("class not found"). The `catch (\Exception)` at line 35 does not match an `\Error`. | objective "Haiku" | an unknown objective answers with the controller's own 500 response, "Unable to complete request." | medium, not executed (the project may define such a class elsewhere) | `CopyWriter.UnknownObjectiveEscapesAsWritten` | `CopyWriter.UnknownObjectiveAnswers500` |
