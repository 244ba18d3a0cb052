# gemini_handler: the model-fallback invoker and its prompts, in Dafny

The service is a thin HTTP façade over a generative AI provider. Three
endpoints (`/analyze-image`, `/analyze-audio`, `/chat-coach`) build a prompt,
hand it to `generate_with_fallback` together with a constant list of candidate
models, and turn the outcome into a reply. `generate_with_fallback` tries the
candidates one at a time, in list order. It returns the first response. If
every candidate fails, it re-raises the last error.

This project models that core:

- `wrappers.dfy` (module `Wrappers`): the `Option` type (Python's `None` or a value).
- `fallback.dfy` (module `Fallback`): the invoker. The SDK call is a parameter
  `call: M -> Outcome<R, E>`. `Loop` is the `for` loop with its `last_error`
  variable. `GenerateWithFallback` returns the result together with the trace
  of candidates attempted. `GenerateWithFallbackLoop` is the same loop written
  imperatively and proved equal to the recursive definition.
- `prompts.dfy` (module `Prompts`): the prompt strings. Image: a clarification
  replaces the base prompt. Audio: a clarification is appended to it. Chat: the
  message and the serialised context are embedded. Each builder has an inverse
  that reads the clarification (or message) back, with a round-trip lemma.
- `handlers.dfy` (module `Handlers`): the three candidate lists and the three
  endpoints, composed from contents, fallback and JSON parsing.

With an empty candidate list, Python's `generate_with_fallback` executes
`raise None`, which raises a `TypeError` rather than a meaningful error. The model gives it its own
failure, `NoCandidates`. All three lists are non-empty constants, so no
endpoint can reach it; the handlers' contracts state this.

## Model

| member | source | states |
|---|---|---|
| Fallback.Loop | api/index.py:50-67 | the attempted candidates form a prefix of the remaining list; a success or an uncaught exception attempted at least one candidate; the no-candidates failure happens exactly when nothing was left to try and no error was recorded |
| Fallback.GenerateWithFallback | api/index.py:50-67 | the trace is a prefix of the candidate list, so each candidate is attempted at most once; the no-candidates failure happens exactly for the empty list, which attempts nothing |
| Fallback.GenerateWithFallbackLoop | api/index.py:50-67 | the imperative loop with a last-error variable: trace is a prefix; a success comes from the first answering candidate; an uncaught exception comes from the first candidate raising one, all earlier having failed; a failure means all failed and carries the last error, or no-candidates for the empty list; and it agrees with the recursive definition |
| Fallback.FirstCandidateSucceeds | api/index.py:52-60 | if the first candidate answers, its response is returned and the trace is exactly that one candidate |
| Fallback.SucceedsAtFirstSuccess | api/index.py:52-64 | if candidates before k fail and k answers, the result is k's response and the trace is exactly the first k+1 candidates in order |
| Fallback.LoopStopsAt | api/index.py:52-64 | for the loop started from any recorded error: when every candidate before k fails and k answers or raises an uncaught exception, the loop ends at k with that response or exception and the trace is exactly the first k+1 candidates |
| Fallback.EscapesAtFirstFatal | api/index.py:52-63 | an exception outside the `Exception` class from candidate k, all before it failing, propagates at once: the run ends with it and later candidates are never attempted |
| Fallback.AllFailRaisesLast | api/index.py:61-67 | if every candidate of a non-empty list fails, the run fails with the last candidate's error and the trace is the whole list |
| Fallback.LoopAllFail | api/index.py:61-67 | the same all-fail statement for the loop started from any recorded error: earlier errors are discarded |
| Fallback.RunExplained | api/index.py:52-67 | a success is the response of the first answering candidate, which is the last one attempted; an uncaught exception comes from the first candidate raising one, which is the last one attempted; a failure means every candidate was attempted and failed, and the last candidate's error is raised |
| Fallback.LoopExplained | api/index.py:52-67 | the same explanation for the loop started from any recorded error |
| Fallback.SucceedsIffSomeCandidateSucceeds | api/index.py:52-67 | the run succeeds if and only if some candidate answers with all earlier ones failing; when no candidate raises an uncaught exception, if and only if some candidate in the list answers |
| Fallback.OnlyAttemptedCandidatesMatter | api/index.py:52-60 | any call function that agrees with the original on the attempted candidates gives the same result and trace, so later candidates are never consulted |
| Fallback.LoopOnlyAttemptedMatter | api/index.py:52-64 | the same independence statement for the loop started from any recorded error |
| Prompts.ImagePrompt | api/index.py:73-75 | without a counting clarification the prompt is the base prompt; with one, the clarification sits between the fixed head and tail of the replacement prompt |
| Prompts.AudioPrompt | api/index.py:98-100 | the base prompt is always a prefix; without a counting clarification the prompt equals it; with one, the clarification follows the base prompt and the marker |
| Prompts.ChatPrompt | api/index.py:122 | the prompt starts with the query marker, then holds the message verbatim, and ends with the serialised context |
| Prompts.ImagePromptRoundTrip | api/index.py:73-75 | the clarification read back from the image prompt is exactly the one that counts; the base prompt carries none |
| Prompts.AudioPromptRoundTrip | api/index.py:98-100 | the clarification read back from the audio prompt is exactly the one that counts; the base prompt carries none |
| Prompts.ChatPromptRoundTrip | api/index.py:122 | the message is read back intact from the chat prompt given its context |
| Prompts.ClarificationChangesPrompt | api/index.py:73-100 | with a counting clarification both prompts differ from the unclarified ones; the image prompt no longer starts with the base prompt (replacement) while the audio prompt still does (append) |
| Prompts.PromptsInjective | api/index.py:73-100 | two different counting clarifications give two different image prompts and two different audio prompts |
| Handlers.Handle | api/index.py:77-92 | every caught failure becomes a 500: when all candidates fail it carries the last candidate's error, when the first answer does not parse it carries the parser's error, and it carries no-candidates exactly for an empty list; an uncaught exception, from the first candidate raising one or from the parser, leaves the handler unchanged |
| Handlers.AnalyzeImage | api/index.py:70-92 | a failed image request is a 500 carrying an error that was raised, never the no-candidates failure, since the image list is non-empty |
| Handlers.AnalyzeAudio | api/index.py:95-116 | a failed audio request is a 500 carrying an error that was raised, never the no-candidates failure |
| Handlers.ChatCoach | api/index.py:119-134 | a failed chat request is a 500 carrying an error that was raised, never the no-candidates failure |
| Handlers.HandleSucceedsIff | api/index.py:77-89 | a handler replies with a body if and only if some candidate answers, every earlier one having failed with a caught exception, and that answer parses; the body is the parse of that answer |
| Handlers.AnalyzeImageAllFail | api/index.py:77-92 | when every image model fails, the reply is a 500 with the error of gemini-1.5-flash, the last of the list |
| Handlers.AnalyzeAudioAllFail | api/index.py:102-116 | when every audio model fails, the reply is a 500 with the error of gemini-1.5-flash, the last of the list |
| Handlers.AnalyzeImageFirstModel | api/index.py:13-15 | the image endpoint asks gemini-2.5-flash first: when it answers and the answer parses, the reply is that parse |
| Handlers.AnalyzeAudioFirstModel | api/index.py:16-17 | the audio endpoint asks gemini-2.5-flash first: when it answers and the answer parses, the reply is that parse |
| Handlers.ChatCoachFirstModel | api/index.py:124-132 | when gemma-2-27b-it answers, its text (possibly absent) is the reply body and the second chat model is not consulted |
| Handlers.ChatCoachAllFail | api/index.py:124-134 | when both chat models fail, the reply is a 500 with the error of gemini-2.5-flash, the last of the list |
| Handlers.AnalyzeImageAsksOnlyItsPrompt | api/index.py:77-88 | the image reply depends only on how the listed image models answer the image task with the request's contents |
| Handlers.AnalyzeAudioAsksOnlyItsPrompt | api/index.py:102-113 | the audio reply depends only on how the listed audio models answer the audio task with the request's contents |
| Handlers.ChatCoachAsksOnlyItsPrompt | api/index.py:124-131 | the chat reply depends only on how the listed chat models answer the chat task with the chat prompt |
| Handlers.SameAnswersSameReply | api/index.py:77-92 | any handler's reply depends only on the answers of its listed models to its own task and contents |

## Left out

- The provider client and its `generate_content` call (api/index.py:9, 55-59) are network calls into the SDK. They are the parameter `call` / `generate`, a total function of the model name, task and contents.
- Because `call` is a function, two occurrences of the same model name in a list would get the same outcome. The real service could answer differently the second time. The shipped lists have no duplicates.
- The response object is modelled as its text only (`response.text`). The SDK gives `None` when an answer has no text part. So the text is an `Option<string>`: the chat endpoint passes it through as the reply's `text`, and the analysis endpoints hand it to `parseJson`, which is where `json.loads(None)` fails.
- Only the `Exception` class is caught, both by the loop (api/index.py:61) and by the handlers (api/index.py:90, 115, 133). Attempts are modelled as `Err` (an `Exception`) or `Fatal` (any other `BaseException`, such as `KeyboardInterrupt`). A `Fatal` ends the loop at once and leaves the handler as `Unhandled`. The framework's handling of it is not modelled.
- `json.loads` (api/index.py:89, 114) is the parameter `parseJson`. `json.dumps` of the chat context (api/index.py:122) is replaced by the serialised text `contextJson` in the request. Both are library serialisers.
- FastAPI routing, pydantic request validation and the `HTTPException` wrapping (api/index.py:1-2, 11, 23-32, 70-71, 92, 116, 134) are framework plumbing. A reply is `Body`, `ServerError(500, detail)` or `Unhandled(error)`. The detail is the raised error itself, not its `str`.
- The response schema and the generation configurations (api/index.py:36-46, 83-87, 108-112, 127-130) are opaque provider configuration, including the system instructions and the 0.7 temperature. They are represented only by the `Task` tag sent with each call.
- `types.Part.from_bytes` (api/index.py:80, 105) is an SDK constructor. It is modelled as the `MediaAndPrompt` contents holding the raw base64 text and MIME type.
- The `print` diagnostics (api/index.py:54, 62, 91) are I/O and not part of the contract.
- Reading the API key from the environment (api/index.py:9) is I/O.
- Fallback.GenerateWithFallback: the empty list yields `NoCandidates` instead of the `TypeError` that Python's `raise None` produces. That `TypeError` is an accident of the unset `last_error`, not a designed error; it is unreachable from the endpoints.
