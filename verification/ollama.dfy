/** The generation request `_askOllama` sends and how it classifies the answer. The
    HTTP call itself is an input: the outcome of the transport for that request. */
module Ollama {
  import opened Wrappers

  /** The fixed preamble put in front of every prompt. */
  const SystemPrompt: string :=
    "You are Copilot, a world class Programming AI assistant designed to help users with programming topics.\n"
    + "When users ask you to perform actions:\n"
    + "1. Execute them directly using available commands\n"
    + "2. Don't explain how to do it, just do it\n"
    + "3. Provide brief confirmation when done\n"
    + "4. If there's an error, explain concisely what went wrong\n"
    + "\n"
    + "Format responses in HTML:\n"
    + "- Use <code> for inline code\n"
    + "- Use <pre> for code blocks\n"
    + "- Use <p> for paragraphs\n"
    + "- Keep responses very brief\n"
    + "\n"
    + "You have these capabilities:\n"
    + "- Create, edit, and read files using exact file paths\n"
    + "- Execute terminal commands directly (bash/cmd)\n"
    + "- Provide file context and suggestions\n"
    + "- Modify files when requested\n"
    + "\n"
    + "When executing bash commands:\n"
    + "- Use proper command syntax\n"
    + "- Handle errors gracefully\n"
    + "- Provide command output\n"
    + "- Support common bash operations"

  const UserMarker: string := "\n\nUser: "
  const AssistantCue: string := "\n\nAssistant:"
  const GeneratePath: string := "/api/generate"
  const ErrorPrefix: string := "Failed to communicate with Ollama: "
  const InvalidResponse: string := "Invalid response from Ollama"

  /** The defaults of the `ollamaHost` and `ollamaModel` settings. */
  const DefaultHost: string := "http://localhost:11434"
  const DefaultModel: string := "llama2"

  /** A setting as read from the configuration: its value, or the default when unset. */
  function Setting(configured: Option<string>, default: string): (value: string)
    ensures configured.Some? ==> value == configured.value
    ensures configured.None? ==> value == default
  {
    if configured.Some? then configured.value else default
  }

  /** The JSON body posted to `<host>/api/generate`. */
  datatype GenerateRequest = GenerateRequest(url: string, model: string, prompt: string, stream: bool)

  /** What came back: a response object whose `response` field is present or not, or a
      transport failure with its message. */
  datatype Transport = Delivered(response: Option<string>) | Unreachable(cause: string)

  /** The outcome of one ask: the completion text, or the error text shown to the user. */
  datatype AskResult = Answered(text: string) | Failed(error: string)

  /** The preamble, the user turn and the assistant cue. */
  function FramePrompt(system: string, prompt: string): (framed: string)
    ensures |framed| == |system| + |UserMarker| + |prompt| + |AssistantCue|
    ensures framed[..|system|] == system
    ensures framed[|system|..|system| + |UserMarker|] == UserMarker
    ensures framed[|system| + |UserMarker|..|framed| - |AssistantCue|] == prompt
    ensures framed[|framed| - |AssistantCue|..] == AssistantCue
  {
    var framed := system + UserMarker + prompt + AssistantCue;
    assert framed == system + (UserMarker + (prompt + AssistantCue));
    framed
  }

  /** Under one preamble, different prompts are sent as different texts. */
  lemma FramePromptInjective(system: string, p1: string, p2: string)
    requires FramePrompt(system, p1) == FramePrompt(system, p2)
    ensures p1 == p2
  {
    var f := FramePrompt(system, p1);
    assert p1 == f[|system| + |UserMarker|..|f| - |AssistantCue|] == p2;
  }

  /** The request for one prompt: never streamed, posted to the generate endpoint. */
  function Request(host: string, model: string, system: string, prompt: string): (req: GenerateRequest)
    ensures req.url == host + GeneratePath && req.model == model && !req.stream
    ensures req.prompt == FramePrompt(system, prompt)
  {
    GenerateRequest(host + GeneratePath, model, FramePrompt(system, prompt), false)
  }

  /** A non-empty `response` field is the answer; a missing or empty one, or a transport
      failure, is an error that names its cause after a fixed prefix. */
  function Classify(t: Transport): (r: AskResult)
    ensures r.Answered? <==> t.Delivered? && t.response.Some? && t.response.value != ""
    ensures r.Answered? ==> r.text == t.response.value
    ensures r.Failed? ==> |r.error| >= |ErrorPrefix| && r.error[..|ErrorPrefix|] == ErrorPrefix
    ensures r.Failed? && t.Unreachable? ==> r.error[|ErrorPrefix|..] == t.cause
    ensures r.Failed? && t.Delivered? ==> r.error[|ErrorPrefix|..] == InvalidResponse
  {
    match t
    case Delivered(Some(text)) =>
      if text != "" then Answered(text) else Failed(ErrorPrefix + InvalidResponse)
    case Delivered(None) => Failed(ErrorPrefix + InvalidResponse)
    case Unreachable(cause) => Failed(ErrorPrefix + cause)
  }
}
