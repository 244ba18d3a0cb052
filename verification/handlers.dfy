/** The three endpoints: each builds its contents once, runs the fallback
    invoker over its own constant candidate list, and turns the outcome into a
    reply. The provider call and the JSON parser are parameters. */
module Handlers {
  import opened Wrappers
  import opened Fallback
  import opened Prompts

  /** Candidate lists, in priority order. */
  const ModelsImage: seq<string> := ["gemini-2.5-flash", "gemini-2.5-flash-lite", "gemini-1.5-flash"]
  const ModelsAudio: seq<string> := ["gemini-2.5-flash", "gemini-1.5-flash"]
  const ModelsChat: seq<string> := ["gemma-2-27b-it", "gemini-2.5-flash"]

  /** Request body of the two analysis endpoints; every field may be absent. */
  datatype AnalyzeRequest = AnalyzeRequest(
    imageBase64: Option<string>,
    audioBase64: Option<string>,
    mimeType: Option<string>,
    clarification: Option<string>)

  /** Request body of the chat endpoint, with its context already serialised
      to JSON text. */
  datatype ChatRequest = ChatRequest(message: string, contextJson: string)

  /** What is sent to a model: a media part followed by the prompt, or the
      prompt alone. */
  datatype Contents =
    | MediaAndPrompt(data: Option<string>, mimeType: Option<string>, prompt: string)
    | PromptOnly(prompt: string)

  /** Which generation configuration a request goes out with. */
  datatype Task = ImageTask | AudioTask | ChatTask

  /** Body of a successful chat reply: the model's text under one key. The
      SDK's `response.text` is `None` when the answer has no text part, and
      the endpoint then replies `{"text": null}`. */
  datatype ChatReply = ChatReply(text: Option<string>)

  /** An endpoint's reply: a body, a server error carrying what was raised,
      or an exception outside `Exception` that leaves the endpoint uncaught. */
  datatype Reply<+J, +E> = Body(body: J) | ServerError(status: int, detail: Failure<E>) | Unhandled(error: E)

  /** One model call with the request's task and contents fixed. */
  function Attempt<E>(generate: (string, Task, Contents) -> Outcome<Option<string>, E>, task: Task, contents: Contents)
    : string -> Outcome<Option<string>, E>
  {
    m => generate(m, task, contents)
  }

  /** Runs the fallback and maps its result (and the parser's) to a reply;
      every caught failure, whichever step raised it, becomes a 500 carrying
      that very error, and an uncaught exception leaves the handler. */
  function Handle<J, E>(models: seq<string>, task: Task, contents: Contents,
                        generate: (string, Task, Contents) -> Outcome<Option<string>, E>,
                        parse: Option<string> -> Outcome<J, E>): (reply: Reply<J, E>)
    ensures reply.ServerError? ==> reply.status == 500
    ensures reply == ServerError(500, NoCandidates) <==> models == []
    ensures var call := Attempt(generate, task, contents);
            AllFail(models, call) && models != [] ==>
              reply == ServerError(500, Raised(call(models[|models| - 1]).error))
    ensures var call := Attempt(generate, task, contents);
            forall k :: FirstSuccessAt(models, call, k) && parse(call(models[k]).response).Err? ==>
              reply == ServerError(500, Raised(parse(call(models[k]).response).error))
    ensures var call := Attempt(generate, task, contents);
            forall k :: FirstSuccessAt(models, call, k) && parse(call(models[k]).response).Fatal? ==>
              reply == Unhandled(parse(call(models[k]).response).error)
    ensures var call := Attempt(generate, task, contents);
            forall k :: FirstFatalAt(models, call, k) ==> reply == Unhandled(call(models[k]).error)
  {
    var call := Attempt(generate, task, contents);
    RunExplained(models, call);
    var run := GenerateWithFallback(models, call);
    match run.result
    case Failed(failure) => ServerError(500, failure)
    case Escaped(e) => Unhandled(e)
    case Success(text) =>
      match parse(text)
      case Ok(body) => Body(body)
      case Err(e) => ServerError(500, Raised(e))
      case Fatal(e) => Unhandled(e)
  }

  /** The contents each endpoint sends: built once per request, the same for
      every candidate. */
  function ImageContents(req: AnalyzeRequest): Contents
  {
    MediaAndPrompt(req.imageBase64, req.mimeType, ImagePrompt(req.clarification))
  }

  function AudioContents(req: AnalyzeRequest): Contents
  {
    MediaAndPrompt(req.audioBase64, req.mimeType, AudioPrompt(req.clarification))
  }

  function ChatContents(req: ChatRequest): Contents
  {
    PromptOnly(ChatPrompt(req.message, req.contextJson))
  }

  /** The image endpoint; its candidate list is never empty, so a failure
      always carries an error that was actually raised. */
  function AnalyzeImage<J, E>(req: AnalyzeRequest,
                              generate: (string, Task, Contents) -> Outcome<Option<string>, E>,
                              parseJson: Option<string> -> Outcome<J, E>): (reply: Reply<J, E>)
    ensures reply.ServerError? ==> reply.status == 500 && reply.detail.Raised?
  {
    Handle(ModelsImage, ImageTask, ImageContents(req), generate, parseJson)
  }

  /** The audio endpoint; likewise never fails for want of candidates. */
  function AnalyzeAudio<J, E>(req: AnalyzeRequest,
                              generate: (string, Task, Contents) -> Outcome<Option<string>, E>,
                              parseJson: Option<string> -> Outcome<J, E>): (reply: Reply<J, E>)
    ensures reply.ServerError? ==> reply.status == 500 && reply.detail.Raised?
  {
    Handle(ModelsAudio, AudioTask, AudioContents(req), generate, parseJson)
  }

  /** The chat endpoint returns the model's text unparsed. */
  function ChatCoach<E>(req: ChatRequest,
                        generate: (string, Task, Contents) -> Outcome<Option<string>, E>): (reply: Reply<ChatReply, E>)
    ensures reply.ServerError? ==> reply.status == 500 && reply.detail.Raised?
  {
    Handle(ModelsChat, ChatTask, ChatContents(req), generate, t => Ok(ChatReply(t)))
  }

  /** A handler answers with a body exactly when some candidate answers, every
      earlier one having failed with a caught exception, and that answer
      parses; the body is the parse of that answer. */
  lemma HandleSucceedsIff<J, E>(models: seq<string>, task: Task, contents: Contents,
                                generate: (string, Task, Contents) -> Outcome<Option<string>, E>,
                                parse: Option<string> -> Outcome<J, E>)
    ensures var call := Attempt(generate, task, contents);
            Handle(models, task, contents, generate, parse).Body? <==>
              exists k :: FirstSuccessAt(models, call, k) && parse(call(models[k]).response).Ok?
    ensures var call := Attempt(generate, task, contents);
            forall k :: FirstSuccessAt(models, call, k) && parse(call(models[k]).response).Ok? ==>
              Handle(models, task, contents, generate, parse) == Body(parse(call(models[k]).response).response)
  {
    var call := Attempt(generate, task, contents);
    var run := GenerateWithFallback(models, call);
    RunExplained(models, call);
    if run.result.Success? {
      assert FirstSuccessAt(models, call, |run.trace| - 1);
    }
    forall k | FirstSuccessAt(models, call, k)
      ensures run.result == Success(call(models[k]).response)
    {
      SucceedsAtFirstSuccess(models, call, k);
    }
  }

  /** When every image model fails, the reply carries the error of the last
      one in the list, `gemini-1.5-flash`. */
  lemma AnalyzeImageAllFail<J, E>(req: AnalyzeRequest,
                                  generate: (string, Task, Contents) -> Outcome<Option<string>, E>,
                                  parseJson: Option<string> -> Outcome<J, E>)
    requires forall m :: m in ModelsImage ==> generate(m, ImageTask, ImageContents(req)).Err?
    ensures AnalyzeImage(req, generate, parseJson) ==
              ServerError(500, Raised(generate("gemini-1.5-flash", ImageTask, ImageContents(req)).error))
  {
  }

  /** When every audio model fails, the reply carries the error of the last
      one in the list, `gemini-1.5-flash`. */
  lemma AnalyzeAudioAllFail<J, E>(req: AnalyzeRequest,
                                  generate: (string, Task, Contents) -> Outcome<Option<string>, E>,
                                  parseJson: Option<string> -> Outcome<J, E>)
    requires forall m :: m in ModelsAudio ==> generate(m, AudioTask, AudioContents(req)).Err?
    ensures AnalyzeAudio(req, generate, parseJson) ==
              ServerError(500, Raised(generate("gemini-1.5-flash", AudioTask, AudioContents(req)).error))
  {
  }

  /** The image endpoint asks `gemini-2.5-flash` first: when it answers and
      the answer parses, the reply is that parse. */
  lemma AnalyzeImageFirstModel<J, E>(req: AnalyzeRequest,
                                     generate: (string, Task, Contents) -> Outcome<Option<string>, E>,
                                     parseJson: Option<string> -> Outcome<J, E>)
    requires generate("gemini-2.5-flash", ImageTask, ImageContents(req)).Ok?
    requires parseJson(generate("gemini-2.5-flash", ImageTask, ImageContents(req)).response).Ok?
    ensures AnalyzeImage(req, generate, parseJson) ==
              Body(parseJson(generate("gemini-2.5-flash", ImageTask, ImageContents(req)).response).response)
  {
    FirstCandidateSucceeds(ModelsImage, Attempt(generate, ImageTask, ImageContents(req)));
  }

  /** The audio endpoint asks `gemini-2.5-flash` first: when it answers and
      the answer parses, the reply is that parse. */
  lemma AnalyzeAudioFirstModel<J, E>(req: AnalyzeRequest,
                                     generate: (string, Task, Contents) -> Outcome<Option<string>, E>,
                                     parseJson: Option<string> -> Outcome<J, E>)
    requires generate("gemini-2.5-flash", AudioTask, AudioContents(req)).Ok?
    requires parseJson(generate("gemini-2.5-flash", AudioTask, AudioContents(req)).response).Ok?
    ensures AnalyzeAudio(req, generate, parseJson) ==
              Body(parseJson(generate("gemini-2.5-flash", AudioTask, AudioContents(req)).response).response)
  {
    FirstCandidateSucceeds(ModelsAudio, Attempt(generate, AudioTask, AudioContents(req)));
  }

  /** If the first chat model answers, its text is the reply and the second
      model is never consulted. */
  lemma ChatCoachFirstModel<E>(req: ChatRequest, generate: (string, Task, Contents) -> Outcome<Option<string>, E>)
    requires generate("gemma-2-27b-it", ChatTask, ChatContents(req)).Ok?
    ensures ChatCoach(req, generate) ==
              Body(ChatReply(generate("gemma-2-27b-it", ChatTask, ChatContents(req)).response))
  {
  }

  /** When both chat models fail, the reply carries the error of the last
      one in the list, `gemini-2.5-flash`. */
  lemma ChatCoachAllFail<E>(req: ChatRequest, generate: (string, Task, Contents) -> Outcome<Option<string>, E>)
    requires forall m :: m in ModelsChat ==> generate(m, ChatTask, ChatContents(req)).Err?
    ensures ChatCoach(req, generate) ==
              ServerError(500, Raised(generate("gemini-2.5-flash", ChatTask, ChatContents(req)).error))
  {
  }

  /** The image endpoint only ever asks its listed models, with its own task
      and the contents built from the request (and so the image prompt):
      any provider that agrees on those requests yields the same reply. */
  lemma AnalyzeImageAsksOnlyItsPrompt<J, E>(req: AnalyzeRequest,
                                            generate: (string, Task, Contents) -> Outcome<Option<string>, E>,
                                            generate': (string, Task, Contents) -> Outcome<Option<string>, E>,
                                            parseJson: Option<string> -> Outcome<J, E>)
    requires forall m :: m in ModelsImage ==>
               generate(m, ImageTask, ImageContents(req)) == generate'(m, ImageTask, ImageContents(req))
    ensures AnalyzeImage(req, generate', parseJson) == AnalyzeImage(req, generate, parseJson)
  {
    SameAnswersSameReply(ModelsImage, ImageTask, ImageContents(req), generate, generate', parseJson);
  }

  /** Likewise for the audio endpoint and the audio prompt. */
  lemma AnalyzeAudioAsksOnlyItsPrompt<J, E>(req: AnalyzeRequest,
                                            generate: (string, Task, Contents) -> Outcome<Option<string>, E>,
                                            generate': (string, Task, Contents) -> Outcome<Option<string>, E>,
                                            parseJson: Option<string> -> Outcome<J, E>)
    requires forall m :: m in ModelsAudio ==>
               generate(m, AudioTask, AudioContents(req)) == generate'(m, AudioTask, AudioContents(req))
    ensures AnalyzeAudio(req, generate', parseJson) == AnalyzeAudio(req, generate, parseJson)
  {
    SameAnswersSameReply(ModelsAudio, AudioTask, AudioContents(req), generate, generate', parseJson);
  }

  /** Likewise for the chat endpoint and the chat prompt. */
  lemma ChatCoachAsksOnlyItsPrompt<E>(req: ChatRequest,
                                      generate: (string, Task, Contents) -> Outcome<Option<string>, E>,
                                      generate': (string, Task, Contents) -> Outcome<Option<string>, E>)
    requires forall m :: m in ModelsChat ==>
               generate(m, ChatTask, ChatContents(req)) == generate'(m, ChatTask, ChatContents(req))
    ensures ChatCoach(req, generate') == ChatCoach(req, generate)
  {
    SameAnswersSameReply(ModelsChat, ChatTask, ChatContents(req), generate, generate', t => Ok(ChatReply(t)));
  }

  lemma SameAnswersSameReply<J, E>(models: seq<string>, task: Task, contents: Contents,
                                   generate: (string, Task, Contents) -> Outcome<Option<string>, E>,
                                   generate': (string, Task, Contents) -> Outcome<Option<string>, E>,
                                   parse: Option<string> -> Outcome<J, E>)
    requires forall m :: m in models ==> generate(m, task, contents) == generate'(m, task, contents)
    ensures Handle(models, task, contents, generate', parse) == Handle(models, task, contents, generate, parse)
  {
    var call := Attempt(generate, task, contents);
    var call' := Attempt(generate', task, contents);
    var run := GenerateWithFallback(models, call);
    forall m | m in run.trace ensures call(m) == call'(m) {
      assert run.trace == models[..|run.trace|];
      assert m in models;
    }
    OnlyAttemptedCandidatesMatter(models, call, call');
  }
}
