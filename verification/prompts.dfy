/** The prompt strings the three handlers send along with their payload. */
module Prompts {
  import opened Wrappers

  // The longer literals are written sentence by sentence: the verifier reads
  // the characters of a short literal directly.

  /** Fixed instruction of the image handler. */
  const ImageBase: string := "Распознай еду на фото. " + "Оцени размер порции и верни пищевую ценность в JSON."
  /** The text around the clarification in the image handler's replacement prompt. */
  const ImageClarifiedHead: string := "Предыдущий анализ мог быть неточным. " + "Пользователь уточнил: \""
  const ImageClarifiedTail: string := "\". Пересчитай БЖУ и название."

  /** Fixed instruction of the audio handler. */
  const AudioBase: string := "Послушай описание еды. Определи блюдо и БЖУ."
  /** The text around the clarification appended to the audio prompt. */
  const AudioClarifiedHead: string := " Уточнение: \""
  const AudioClarifiedTail: string := "\"."

  /** The text around the user's message and the serialised context in the chat prompt. */
  const ChatQueryHead: string := "User query: "
  const ChatContextHead: string := "\nContext: "

  /** A clarification counts only when it is present and non-empty: the
      truthiness of an optional string. */
  predicate Given(clarification: Option<string>)
  {
    clarification.Some? && |clarification.value| > 0
  }

  /** The clarification the handlers act on: a present but empty one is ignored. */
  function Effective(clarification: Option<string>): Option<string>
  {
    if Given(clarification) then clarification else None
  }

  /** The image prompt: a given clarification REPLACES the base prompt. */
  function ImagePrompt(clarification: Option<string>): (p: string)
    ensures !Given(clarification) ==> p == ImageBase
    ensures Given(clarification) ==>
              && |p| == |ImageClarifiedHead| + |clarification.value| + |ImageClarifiedTail|
              && p[|ImageClarifiedHead|..|p| - |ImageClarifiedTail|] == clarification.value
  {
    if Given(clarification) then ImageClarifiedHead + clarification.value + ImageClarifiedTail
    else ImageBase
  }

  /** Recovers the clarification from an image prompt; `None` for a prompt
      without the replacement frame. */
  function ImageClarificationOf(p: string): Option<string>
  {
    if && |p| >= |ImageClarifiedHead| + |ImageClarifiedTail|
       && p[..|ImageClarifiedHead|] == ImageClarifiedHead
       && p[|p| - |ImageClarifiedTail|..] == ImageClarifiedTail
    then Some(p[|ImageClarifiedHead|..|p| - |ImageClarifiedTail|])
    else None
  }

  /** The audio prompt: a given clarification is APPENDED to the base prompt. */
  function AudioPrompt(clarification: Option<string>): (p: string)
    ensures |p| >= |AudioBase| && p[..|AudioBase|] == AudioBase
    ensures !Given(clarification) ==> p == AudioBase
    ensures Given(clarification) ==>
              && |p| == |AudioBase| + |AudioClarifiedHead| + |clarification.value| + |AudioClarifiedTail|
              && p[|AudioBase| + |AudioClarifiedHead|..|p| - |AudioClarifiedTail|] == clarification.value
  {
    var p := AudioBase;
    if Given(clarification) then p + (AudioClarifiedHead + clarification.value + AudioClarifiedTail)
    else p
  }

  /** Recovers the clarification from an audio prompt; `None` for the bare base prompt. */
  function AudioClarificationOf(p: string): Option<string>
  {
    var head := AudioBase + AudioClarifiedHead;
    if && |p| >= |head| + |AudioClarifiedTail|
       && p[..|head|] == head
       && p[|p| - |AudioClarifiedTail|..] == AudioClarifiedTail
    then Some(p[|head|..|p| - |AudioClarifiedTail|])
    else None
  }

  /** The chat prompt: the user's message followed by the serialised context.
      The serialisation itself is the JSON library's and is an input here. */
  function ChatPrompt(message: string, contextJson: string): (p: string)
    ensures |p| == |ChatQueryHead| + |message| + |ChatContextHead| + |contextJson|
    ensures p[..|ChatQueryHead|] == ChatQueryHead
    ensures p[|ChatQueryHead|..|ChatQueryHead| + |message|] == message
    ensures p[|p| - |contextJson|..] == contextJson
  {
    ChatQueryHead + message + ChatContextHead + contextJson
  }

  /** Recovers the message from a chat prompt whose context part is known. */
  function ChatMessageOf(p: string, contextJson: string): Option<string>
  {
    var tail := ChatContextHead + contextJson;
    if && |p| >= |ChatQueryHead| + |tail|
       && p[..|ChatQueryHead|] == ChatQueryHead
       && p[|p| - |tail|..] == tail
    then Some(p[|ChatQueryHead|..|p| - |tail|])
    else None
  }

  /** The clarification sent in the image prompt is exactly the one the handler
      acts on: it can be read back, and the base prompt carries none. */
  lemma ImagePromptRoundTrip(clarification: Option<string>)
    ensures ImageClarificationOf(ImagePrompt(clarification)) == Effective(clarification)
  {
  }

  /** The audio prompt carries exactly the clarification the handler acts on. */
  lemma AudioPromptRoundTrip(clarification: Option<string>)
    ensures AudioClarificationOf(AudioPrompt(clarification)) == Effective(clarification)
  {
  }

  /** The message can be read back from the chat prompt. */
  lemma ChatPromptRoundTrip(message: string, contextJson: string)
    ensures ChatMessageOf(ChatPrompt(message, contextJson), contextJson) == Some(message)
  {
  }

  /** Image: a given clarification replaces the base prompt entirely, so the
      prompt no longer starts with it; audio: the base prompt stays in front.
      In both, the prompt differs from the one without clarification. */
  lemma ClarificationChangesPrompt(clarification: Option<string>)
    requires Given(clarification)
    ensures ImagePrompt(clarification) != ImagePrompt(None)
    ensures !(|ImagePrompt(clarification)| >= |ImageBase|
              && ImagePrompt(clarification)[..|ImageBase|] == ImageBase)
    ensures AudioPrompt(clarification) != AudioPrompt(None)
    ensures AudioPrompt(clarification)[..|AudioBase|] == AudioBase
  {
    var p := ImagePrompt(clarification);
    assert p[0] == 'П' && ImageBase[0] == 'Р';
    if |p| >= |ImageBase| {
      assert p[..|ImageBase|][0] != ImageBase[0];
    }
  }

  /** Different given clarifications yield different prompts in both handlers. */
  lemma PromptsInjective(a: Option<string>, b: Option<string>)
    requires Given(a) && Given(b) && a != b
    ensures ImagePrompt(a) != ImagePrompt(b)
    ensures AudioPrompt(a) != AudioPrompt(b)
  {
  }
}
