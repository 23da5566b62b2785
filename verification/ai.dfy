/**
 * The language-model front end: dispatch of a prompt to a provider by name,
 * and the shaping of each provider's answer. The provider calls themselves
 * are uninterpreted functions held in `Backends`.
 */
module AiHandler {
  import opened Optional

  datatype Error = Error(message: string)

  /**
   * The outcome of one front-end call. `Answer` and `Failure` are Go's
   * `(text, nil)` and `("", err)`; `Panic` is an index into an empty
   * response list, which the source does not guard.
   */
  datatype Reply = Answer(text: string) | Failure(err: Error) | Panic
  {
    /** The string half of Go's `(string, error)` result. */
    function Text(): string
    {
      if Answer? then text else ""
    }
  }

  /** One Gemini candidate: its parts rendered with `%s`, or no content at all. */
  datatype Candidate = Candidate(content: Option<seq<string>>)

  /** The remote calls, as functions of their request. */
  datatype Backends = Backends(
    createChatCompletion: (string, string) -> Result<seq<string>, Error>,  // (system, user) -> choices' contents
    generateContent: (string, string) -> Result<seq<Candidate>, Error>,    // (system instruction, user) -> candidates
    createImage: string -> Result<seq<string>, Error>)                     // prompt -> image URLs

  const OpenAIModel: string := "oai"
  const GoogleModel: string := "google"

  /** The error for a provider name that matches neither case of the switch. */
  function UnknownModel(model: string): Error
  {
    Error("unknown model: " + model)
  }

  /** `GetPromptResponse`: exact, case-sensitive dispatch on the provider name. */
  function GetPromptResponse(b: Backends, prompt: string, userInput: string, model: string): (r: Reply)
    ensures model == OpenAIModel ==> r == GetPromptResponseOAI(b, prompt, userInput)
    ensures model == GoogleModel ==> r == GetPromptResponseGoogle(b, prompt, userInput)
    ensures model != OpenAIModel && model != GoogleModel ==> r == Failure(UnknownModel(model)) && r.Text() == ""
  {
    if model == OpenAIModel then GetPromptResponseOAI(b, prompt, userInput)
    else if model == GoogleModel then GetPromptResponseGoogle(b, prompt, userInput)
    else Failure(UnknownModel(model))
  }

  /** An unknown provider name is answered without consulting any backend. */
  lemma UnknownModelCallsNoBackend(b1: Backends, b2: Backends, prompt: string, userInput: string, model: string)
    requires model != OpenAIModel && model != GoogleModel
    ensures GetPromptResponse(b1, prompt, userInput, model) == GetPromptResponse(b2, prompt, userInput, model)
  {
  }

  /** `GetPromptResponseOAI`: the content of the first choice, or the call's error with empty text. */
  function GetPromptResponseOAI(b: Backends, prompt: string, userInput: string): (r: Reply)
    ensures b.createChatCompletion(prompt, userInput).Err? ==>
              r == Failure(b.createChatCompletion(prompt, userInput).error) && r.Text() == ""
    ensures r.Answer? <==> b.createChatCompletion(prompt, userInput).Ok? && |b.createChatCompletion(prompt, userInput).value| > 0
    ensures r.Answer? ==> r.text == b.createChatCompletion(prompt, userInput).value[0]
    // `resp.Choices[0]` on an empty list is an index panic, not an error
    ensures b.createChatCompletion(prompt, userInput).Ok? && |b.createChatCompletion(prompt, userInput).value| == 0 ==> r == Panic
  {
    match b.createChatCompletion(prompt, userInput)
    case Err(e) => Failure(e)
    case Ok(choices) => if |choices| == 0 then Panic else Answer(choices[0])
  }

  /** All parts of all candidates that have content, in order. */
  function CandidatesText(cands: seq<Candidate>): string
  {
    if |cands| == 0 then ""
    else
      var head := match cands[0].content
        case None => ""
        case Some(parts) => Concat(parts);
      head + CandidatesText(cands[1..])
  }

  function Concat(parts: seq<string>): string
  {
    if |parts| == 0 then "" else parts[0] + Concat(parts[1..])
  }

  lemma {:induction false} ConcatAppend(a: seq<string>, b: seq<string>)
    ensures Concat(a + b) == Concat(a) + Concat(b)
    decreases |a|
  {
    if |a| == 0 {
      assert a + b == b;
    } else {
      assert (a + b)[1..] == a[1..] + b;
      ConcatAppend(a[1..], b);
    }
  }

  /** The response text of a longer candidate list extends that of its prefix, in order. */
  lemma {:induction false} CandidatesTextAppend(a: seq<Candidate>, b: seq<Candidate>)
    ensures CandidatesText(a + b) == CandidatesText(a) + CandidatesText(b)
    decreases |a|
  {
    if |a| == 0 {
      assert a + b == b;
    } else {
      assert (a + b)[1..] == a[1..] + b;
      CandidatesTextAppend(a[1..], b);
    }
  }

  /** A candidate without content contributes nothing; one with content contributes all its parts. */
  lemma CandidateContribution(cands: seq<Candidate>, c: Candidate)
    ensures c.content.None? ==> CandidatesText(cands + [c]) == CandidatesText(cands)
    ensures c.content.Some? ==> CandidatesText(cands + [c]) == CandidatesText(cands) + Concat(c.content.value)
  {
    CandidatesTextAppend(cands, [c]);
    assert [c][1..] == [];
  }

  /**
   * `GetPromptResponseGoogle`: on success the in-order concatenation of every
   * part of every candidate with content; on failure the error with empty
   * text.
   */
  function GetPromptResponseGoogle(b: Backends, prompt: string, userInput: string): (r: Reply)
    ensures b.generateContent(prompt, userInput).Err? ==>
              r == Failure(b.generateContent(prompt, userInput).error) && r.Text() == ""
    ensures b.generateContent(prompt, userInput).Ok? ==>
              r == Answer(CandidatesText(b.generateContent(prompt, userInput).value))
  {
    match b.generateContent(prompt, userInput)
    case Err(e) => Failure(e)
    case Ok(cands) => Answer(CandidatesText(cands))
  }

  /** `GetImageFromPrompt`: the URL of the first generated image, or the error with empty text. */
  function GetImageFromPrompt(b: Backends, prompt: string): (r: Reply)
    ensures b.createImage(prompt).Err? ==> r == Failure(b.createImage(prompt).error) && r.Text() == ""
    ensures r.Answer? <==> b.createImage(prompt).Ok? && |b.createImage(prompt).value| > 0
    ensures r.Answer? ==> r.text == b.createImage(prompt).value[0]
    // `img.Data[0]` on an empty list is an index panic, not an error
    ensures b.createImage(prompt).Ok? && |b.createImage(prompt).value| == 0 ==> r == Panic
  {
    match b.createImage(prompt)
    case Err(e) => Failure(e)
    case Ok(urls) => if |urls| == 0 then Panic else Answer(urls[0])
  }
}
