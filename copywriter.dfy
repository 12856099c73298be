/** The controller's request pipeline: compute the temperature, build the
    prompt, ask the moderation endpoint, and only if it does not flag the prompt
    ask the completion endpoint once; then map the outcome to a JSON response. */
module CopyWriter {
  import opened Requests
  import Creativity
  import Prompts

  /** One generated completion, relayed to the caller exactly as the provider sent it. */
  datatype Choice = Choice(json: string)

  /** What PHP code can throw: an `\Exception`, which `catch (\Exception)` matches,
      or an `\Error` (such as "class not found"), which it does not. */
  datatype Throwable = Exception(message: string) | Error(message: string)

  /** How a call ended: with a value, or by throwing. */
  datatype Outcome<+T> = Returned(value: T) | Raised(thrown: Throwable)

  /** The JSON body of one completion request. */
  datatype CompletionRequest = CompletionRequest(
    prompt: string,
    temperature: real,
    maxTokens: int,
    frequencyPenalty: int,
    presencePenalty: int,
    n: int,
    user: string)

  /** A request issued to the provider. */
  datatype Call = Moderation(input: string) | Completion(body: CompletionRequest)

  /** What `getOpenAIResults` returns: the moderation refusal (`error` true, no
      choices, a message) or the provider's choices (`error` false). */
  datatype Results = Blocked(message: string) | Completed(completions: seq<Choice>) {

    /** The array's `error` entry. */
    predicate IsError() { Blocked? }

    /** The array's `choices` entry. */
    function Choices(): seq<Choice>
    {
      if Blocked? then [] else completions
    }
  }

  /** The JSON body of a response: all three keys, or only `message`. */
  datatype Body = Full(message: string, status: string, choices: seq<Choice>) | MessageOnly(message: string)

  /** An HTTP response with its status code. */
  datatype JsonResponse = JsonResponse(code: int, body: Body)

  /** What `getAiResults` leads to: a response it sends, or a throwable that
      escapes its `catch (\Exception)` and reaches the framework. */
  datatype Reply = Sent(response: JsonResponse) | Uncaught(thrown: Throwable)

  /** The message returned when moderation flags the prompt. */
  const ContentPolicyMessage: string :=
    "Request was found promoting sexual, hateful, violent, or self-harm content. Please try again with a different content."

  /** The only message a caller sees when something was thrown. */
  const FallbackMessage: string := "Unable to complete request."

  /** The fixed `max_tokens` of every completion request. */
  const MaxTokens: int := 1000

  /** What the default branch of the objective switch is meant to throw: an
      exception, which `getAiResults` catches. */
  function ObjectiveNotImplemented(): (t: Throwable)
    ensures t.Exception?
  {
    Exception("Context not implemented")
  }

  /** What the default branch throws as written: `RuntimeErrorException` is
      neither imported nor declared in the controller's namespace, so `new`
      fails with an `\Error`. */
  function ObjectiveNotImplementedAsWritten(): (t: Throwable)
    ensures t.Error?
  {
    Error("Class \"App\\Http\\Controllers\\RuntimeErrorException\" not found")
  }

  /** The completion request issued for a prompt: the fixed body of the
      completion call, with the prompt, the temperature for the request's
      creativity, the requested number of variants and the caller's tag. */
  function CompletionRequestFor(request: Request, userId: string, prompt: string): (body: CompletionRequest)
    ensures body.prompt == prompt
    ensures body.temperature == Creativity.Temperature(request.creativity) && 0.0 <= body.temperature <= 1.0
    ensures body.maxTokens == 1000 && body.frequencyPenalty == 0 && body.presencePenalty == 0
    ensures body.n == request.variants && body.user == "user" + userId
  {
    CompletionRequest(prompt, Creativity.Temperature(request.creativity), MaxTokens, 0, 0,
                      request.variants, "user" + userId)
  }

  /** The outcome of `getOpenAIResults` when the moderation endpoint answers
      `moderation`, the completion endpoint answers `completion` and the
      objective switch's default branch throws `notImplemented`. */
  function Pipeline(request: Request, userId: string,
                    moderation: string -> Outcome<bool>,
                    completion: CompletionRequest -> Outcome<seq<Choice>>,
                    notImplemented: Throwable): (r: Outcome<Results>)
    ensures request.objective !in Prompts.Objectives <==> r == Raised(notImplemented) && Prompts.Prompt(request).None?
    ensures r.Returned? && r.value.Completed? ==> moderation(Prompts.Prompt(request).value) == Returned(false)
  {
    match Prompts.Prompt(request)
    case None => Raised(notImplemented)
    case Some(prompt) =>
      match moderation(prompt)
      case Raised(e) => Raised(e)
      case Returned(flagged) =>
        if flagged then Returned(Blocked(ContentPolicyMessage))
        else
          match completion(CompletionRequestFor(request, userId, prompt))
          case Raised(e) => Raised(e)
          case Returned(choices) => Returned(Completed(choices))
  }

  /** The outcome of `getOpenAIResults` with the default branch throwing the
      exception it is meant to throw. */
  function OpenAIResults(request: Request, userId: string,
                         moderation: string -> Outcome<bool>,
                         completion: CompletionRequest -> Outcome<seq<Choice>>): (r: Outcome<Results>)
    ensures r.Returned? ==> request.objective in Prompts.Objectives
    ensures r.Returned? && r.value.Completed? ==> moderation(Prompts.Prompt(request).value) == Returned(false)
  {
    Pipeline(request, userId, moderation, completion, ObjectiveNotImplemented())
  }

  /** The outcome of `getOpenAIResults` as written, with the default branch
      throwing the `\Error` that its missing class causes. */
  function OpenAIResultsAsWritten(request: Request, userId: string,
                                  moderation: string -> Outcome<bool>,
                                  completion: CompletionRequest -> Outcome<seq<Choice>>): (r: Outcome<Results>)
    ensures r.Raised? && r.thrown.Error? && r.thrown == ObjectiveNotImplementedAsWritten()
            <== request.objective !in Prompts.Objectives
  {
    Pipeline(request, userId, moderation, completion, ObjectiveNotImplementedAsWritten())
  }

  /** The requests `getOpenAIResults` issues, in order. */
  function CallsIssued(request: Request, userId: string, moderation: string -> Outcome<bool>): (calls: seq<Call>)
    ensures |calls| <= 2
    ensures calls == [] <==> request.objective !in Prompts.Objectives
  {
    match Prompts.Prompt(request)
    case None => []
    case Some(prompt) =>
      if moderation(prompt) == Returned(false) then
        [Moderation(prompt), Completion(CompletionRequestFor(request, userId, prompt))]
      else
        [Moderation(prompt)]
  }

  /** The number of completion requests among `calls`. */
  function CompletionCount(calls: seq<Call>): (k: nat)
    ensures k <= |calls|
  {
    if calls == [] then 0
    else (if calls[0].Completion? then 1 else 0) + CompletionCount(calls[1..])
  }

  /** The response `getAiResults` sends for an outcome of `getOpenAIResults`. */
  function AiResponse(o: Outcome<Results>): (reply: Reply)
    ensures reply.Uncaught? <==> o.Raised? && o.thrown.Error?
    ensures reply.Sent? ==> reply.response.code in {200, 400, 500}
  {
    match o
    case Raised(Exception(_)) => Sent(JsonResponse(500, MessageOnly(FallbackMessage)))
    case Raised(Error(_)) => Uncaught(o.thrown)
    case Returned(results) =>
      if results.IsError() then Sent(JsonResponse(400, Full(results.message, "Failed", [])))
      else Sent(JsonResponse(200, Full("Generated", "Success", results.Choices())))
  }

  /** The provider's two endpoints, as oracles, with the log of the requests
      issued to them. */
  class OpenAIProvider {
    /** The `flagged` entry of the first moderation result for an input, or what
        sending the request or decoding its answer throws. */
    const moderation: string -> Outcome<bool>
    /** The decoded `choices` of the answer to a completion request, or what
        sending it or decoding its answer throws. */
    const completion: CompletionRequest -> Outcome<seq<Choice>>
    /** The requests issued so far, oldest first. */
    ghost var issued: seq<Call>

    constructor (moderation: string -> Outcome<bool>, completion: CompletionRequest -> Outcome<seq<Choice>>)
      ensures this.moderation == moderation && this.completion == completion
      ensures issued == []
    {
      this.moderation := moderation;
      this.completion := completion;
      issued := [];
    }

    /** Posts `input` to the moderation endpoint and answers whether it was flagged. */
    method IsFlagged(input: string) returns (flagged: Outcome<bool>)
      modifies this
      ensures issued == old(issued) + [Moderation(input)]
      ensures flagged == moderation(input)
    {
      issued := issued + [Moderation(input)];
      flagged := moderation(input);
    }

    /** Posts `body` to the completion endpoint and answers its choices. */
    method Complete(body: CompletionRequest) returns (choices: Outcome<seq<Choice>>)
      modifies this
      ensures issued == old(issued) + [Completion(body)]
      ensures choices == completion(body)
    {
      issued := issued + [Completion(body)];
      choices := completion(body);
    }
  }

  /** `getOpenAIResults`: the temperature, then the prompt, then the moderation
      check, and the completion request only when the prompt was not flagged. */
  method GetOpenAIResults(request: Request, userId: string, api: OpenAIProvider) returns (r: Outcome<Results>)
    modifies api
    ensures r == OpenAIResults(request, userId, api.moderation, api.completion)
    ensures api.issued == old(api.issued) + CallsIssued(request, userId, api.moderation)
  {
    var temperature := Creativity.Temperature(request.creativity);
    var prompt := Prompts.Prompt(request);
    if prompt.None? {
      return Raised(ObjectiveNotImplemented());
    }
    ghost var calls := CallsIssued(request, userId, api.moderation);
    var flagged := api.IsFlagged(prompt.value);
    if flagged.Raised? {
      return Raised(flagged.thrown);
    }
    if flagged.value {
      assert calls == [Moderation(prompt.value)];
      return Returned(Blocked(ContentPolicyMessage));
    }
    var body := CompletionRequest(prompt.value, temperature, MaxTokens, 0, 0, request.variants, "user" + userId);
    assert body == CompletionRequestFor(request, userId, prompt.value);
    assert calls == [Moderation(prompt.value), Completion(body)];
    var choices := api.Complete(body);
    if choices.Raised? {
      return Raised(choices.thrown);
    }
    return Returned(Completed(choices.value));
  }

  /** `getAiResults`: run the pipeline and map its outcome to a response,
      catching exceptions. */
  method GetAiResults(request: Request, userId: string, api: OpenAIProvider) returns (reply: Reply)
    modifies api
    ensures reply == AiResponse(OpenAIResults(request, userId, api.moderation, api.completion))
    ensures api.issued == old(api.issued) + CallsIssued(request, userId, api.moderation)
  {
    var response := GetOpenAIResults(request, userId, api);
    if response.Raised? {
      if response.thrown.Exception? {
        return Sent(JsonResponse(500, MessageOnly(FallbackMessage)));
      }
      return Uncaught(response.thrown);
    }
    if response.value.IsError() {
      return Sent(JsonResponse(400, Full(response.value.message, "Failed", [])));
    }
    var choices := response.value.Choices();
    return Sent(JsonResponse(200, Full("Generated", "Success", choices)));
  }

  // Properties of the pipeline.

  /** An objective without a template throws before any request is issued. */
  lemma UnknownObjectiveIssuesNoCall(request: Request, userId: string,
                                     moderation: string -> Outcome<bool>,
                                     completion: CompletionRequest -> Outcome<seq<Choice>>)
    requires request.objective !in Prompts.Objectives
    ensures CallsIssued(request, userId, moderation) == []
    ensures OpenAIResults(request, userId, moderation, completion) == Raised(ObjectiveNotImplemented())
  {
  }

  /** Whenever a prompt is built, the first request issued is its moderation check. */
  lemma ModerationComesFirst(request: Request, userId: string, moderation: string -> Outcome<bool>, prompt: string)
    requires Prompts.Prompt(request) == Some(prompt)
    ensures var calls := CallsIssued(request, userId, moderation);
      |calls| >= 1 && calls[0] == Moderation(prompt)
  {
  }

  /** A flagged prompt short-circuits: no completion request is issued and the
      result is the fixed refusal with no choices. */
  lemma FlaggedNeverCompletes(request: Request, userId: string,
                              moderation: string -> Outcome<bool>,
                              completion: CompletionRequest -> Outcome<seq<Choice>>, prompt: string)
    requires Prompts.Prompt(request) == Some(prompt)
    requires moderation(prompt) == Returned(true)
    ensures CallsIssued(request, userId, moderation) == [Moderation(prompt)]
    ensures CompletionCount(CallsIssued(request, userId, moderation)) == 0
    ensures var r := OpenAIResults(request, userId, moderation, completion);
      r == Returned(Blocked(ContentPolicyMessage)) && r.value.IsError() && r.value.Choices() == []
  {
    assert CallsIssued(request, userId, moderation)[1..] == [];
  }

  /** A prompt that is not flagged gets exactly one completion request with the
      fixed parameters, and its choices come back unchanged and in order. */
  lemma PassedPromptCompletesOnce(request: Request, userId: string,
                                  moderation: string -> Outcome<bool>,
                                  completion: CompletionRequest -> Outcome<seq<Choice>>, prompt: string)
    requires Prompts.Prompt(request) == Some(prompt)
    requires moderation(prompt) == Returned(false)
    ensures var calls := CallsIssued(request, userId, moderation);
      |calls| == 2 && calls[0] == Moderation(prompt) && calls[1].Completion?
      && CompletionCount(calls) == 1
    ensures var body := CallsIssued(request, userId, moderation)[1].body;
      body.prompt == prompt
      && body.temperature == Creativity.Temperature(request.creativity)
      && body.maxTokens == 1000
      && body.frequencyPenalty == 0 && body.presencePenalty == 0
      && body.n == request.variants
      && body.user == "user" + userId
    ensures var body := CallsIssued(request, userId, moderation)[1].body;
      var r := OpenAIResults(request, userId, moderation, completion);
      match completion(body)
      case Returned(choices) => r == Returned(Completed(choices)) && !r.value.IsError() && r.value.Choices() == choices
      case Raised(e) => r == Raised(e)
  {
    var calls := CallsIssued(request, userId, moderation);
    assert calls[1..][1..] == [];
  }

  /** A moderation check that throws stops the pipeline: its throwable is the
      outcome and no completion request is issued. */
  lemma ModerationFailureStops(request: Request, userId: string,
                               moderation: string -> Outcome<bool>,
                               completion: CompletionRequest -> Outcome<seq<Choice>>, prompt: string)
    requires Prompts.Prompt(request) == Some(prompt)
    requires moderation(prompt).Raised?
    ensures CallsIssued(request, userId, moderation) == [Moderation(prompt)]
    ensures OpenAIResults(request, userId, moderation, completion) == Raised(moderation(prompt).thrown)
  {
  }

  /** At most one completion request is issued, and one is exactly when a prompt
      was built and moderation answered that it is not flagged. */
  lemma {:induction false} AtMostOneCompletion(request: Request, userId: string, moderation: string -> Outcome<bool>)
    ensures var calls := CallsIssued(request, userId, moderation);
      CompletionCount(calls) <= 1
      && (CompletionCount(calls) == 1 <==>
            Prompts.Prompt(request).Some? && moderation(Prompts.Prompt(request).value) == Returned(false))
  {
    var calls := CallsIssued(request, userId, moderation);
    match Prompts.Prompt(request)
    case None =>
    case Some(prompt) =>
      if moderation(prompt) == Returned(false) {
        assert calls[1..][1..] == [];
      } else {
        assert calls[1..] == [];
      }
  }

  // Properties of the response mapping and of the whole endpoint.

  /** The response for each outcome: a refusal is a 400 with its message, the
      choices are a 200, an exception is a 500 with the fallback message only,
      and an `\Error` is not caught. */
  lemma ResponseForOutcome(o: Outcome<Results>)
    ensures o.Returned? && o.value.Blocked? ==>
      AiResponse(o) == Sent(JsonResponse(400, Full(o.value.message, "Failed", [])))
    ensures o.Returned? && o.value.Completed? ==>
      AiResponse(o) == Sent(JsonResponse(200, Full("Generated", "Success", o.value.completions)))
    ensures o.Raised? && o.thrown.Exception? ==>
      AiResponse(o) == Sent(JsonResponse(500, MessageOnly(FallbackMessage)))
    ensures o.Raised? && o.thrown.Error? ==> AiResponse(o) == Uncaught(o.thrown)
  {
  }

  /** End to end: the endpoint answers 200 exactly when a prompt was built,
      moderation passed it and the completion returned, and then with the
      provider's choices; 400 exactly when moderation flagged it. */
  lemma {:induction false} EndpointStatus(request: Request, userId: string,
                                          moderation: string -> Outcome<bool>,
                                          completion: CompletionRequest -> Outcome<seq<Choice>>)
    ensures var reply := AiResponse(OpenAIResults(request, userId, moderation, completion));
      var prompt := Prompts.Prompt(request);
      (reply.Sent? && reply.response.code == 200 <==>
         prompt.Some? && moderation(prompt.value) == Returned(false)
         && completion(CompletionRequestFor(request, userId, prompt.value)).Returned?)
      && (reply.Sent? && reply.response.code == 400 <==>
         prompt.Some? && moderation(prompt.value) == Returned(true))
      && (reply.Sent? && reply.response.code == 200 ==>
         reply.response.body == Full("Generated", "Success",
                                     completion(CompletionRequestFor(request, userId, prompt.value)).value))
      && (reply.Sent? && reply.response.code == 400 ==>
         reply.response.body == Full(ContentPolicyMessage, "Failed", []))
  {
    var prompt := Prompts.Prompt(request);
    var r := OpenAIResults(request, userId, moderation, completion);
    ResponseForOutcome(r);
    if prompt.Some? {
      var m := moderation(prompt.value);
      if m.Returned? && !m.value {
        var c := completion(CompletionRequestFor(request, userId, prompt.value));
        if c.Returned? {
          assert r == Returned(Completed(c.value));
        }
      }
    }
  }

  /** When the provider throws an exception, the caller gets the 500 fallback
      response and nothing of the exception's detail. */
  lemma ProviderExceptionAnswers500(request: Request, userId: string,
                                    moderation: string -> Outcome<bool>,
                                    completion: CompletionRequest -> Outcome<seq<Choice>>, prompt: string)
    requires Prompts.Prompt(request) == Some(prompt)
    requires (moderation(prompt).Raised? && moderation(prompt).thrown.Exception?)
          || (moderation(prompt) == Returned(false)
              && completion(CompletionRequestFor(request, userId, prompt)).Raised?
              && completion(CompletionRequestFor(request, userId, prompt)).thrown.Exception?)
    ensures AiResponse(OpenAIResults(request, userId, moderation, completion))
         == Sent(JsonResponse(500, MessageOnly(FallbackMessage)))
  {
  }

  /** An objective without a template is answered with the 500 fallback response,
      with no request issued to the provider. */
  lemma UnknownObjectiveAnswers500(request: Request, userId: string,
                                   moderation: string -> Outcome<bool>,
                                   completion: CompletionRequest -> Outcome<seq<Choice>>)
    requires request.objective !in Prompts.Objectives
    ensures AiResponse(OpenAIResults(request, userId, moderation, completion))
         == Sent(JsonResponse(500, MessageOnly(FallbackMessage)))
    ensures CallsIssued(request, userId, moderation) == []
  {
  }

  /** As written, an objective without a template makes `getOpenAIResults`
      throw an `\Error` before any request is issued, and `getAiResults` does
      not catch it: the endpoint sends no response of its own, where the
      corrected pipeline sends the 500 fallback. */
  lemma UnknownObjectiveEscapesAsWritten(request: Request, userId: string,
                                         moderation: string -> Outcome<bool>,
                                         completion: CompletionRequest -> Outcome<seq<Choice>>)
    requires request.objective !in Prompts.Objectives
    ensures AiResponse(OpenAIResultsAsWritten(request, userId, moderation, completion))
         == Uncaught(ObjectiveNotImplementedAsWritten())
    ensures CallsIssued(request, userId, moderation) == []
    ensures AiResponse(OpenAIResultsAsWritten(request, userId, moderation, completion))
         != AiResponse(OpenAIResults(request, userId, moderation, completion))
  {
  }

  /** For the nine objectives with a template the pipeline as written and the
      corrected one agree: the correction touches only the default branch. */
  lemma AsWrittenAgreesOnKnownObjectives(request: Request, userId: string,
                                         moderation: string -> Outcome<bool>,
                                         completion: CompletionRequest -> Outcome<seq<Choice>>)
    requires request.objective in Prompts.Objectives
    ensures OpenAIResultsAsWritten(request, userId, moderation, completion)
         == OpenAIResults(request, userId, moderation, completion)
  {
  }

  /** The Podcast request at "high" creativity with two variants: once moderation
      passes, one completion request goes out with `n` 2, temperature 0.9 and
      1000 tokens. */
  lemma PodcastCompletionRequest(userId: string, moderation: string -> Outcome<bool>, prompt: string)
    requires Prompts.Prompt(Request("Podcast", "funny", "english", Some("dogs, parks"), "high", 2)) == Some(prompt)
    requires moderation(prompt) == Returned(false)
    ensures var calls := CallsIssued(Request("Podcast", "funny", "english", Some("dogs, parks"), "high", 2), userId, moderation);
      |calls| == 2
      && calls[1] == Completion(CompletionRequest(prompt, 0.9, 1000, 0, 0, 2, "user" + userId))
  {
  }
}
