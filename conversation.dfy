/**
 * The chat completion request and how main.go builds it: a fresh request
 * (newCompletionRequest), the choice between the previous session and a
 * fresh request (getCompletionRequest), the new user turn and included file
 * (appendMessages), and the assistant reply appended once streaming is done.
 */
module Conversation {
  import opened Wrappers
  import opened Args

  datatype Role = System | User | Assistant

  /** One chat message; its position in the request is its turn in the conversation. */
  datatype Message = Message(role: Role, content: string)

  /** The completion request: sent to the endpoint and persisted as the session. */
  datatype Request = Request(
    model: string,
    maxTokens: int,
    temperature: real,
    stream: bool,
    messages: seq<Message>)

  /** A failed os.ReadFile. */
  datatype IoError = IoError

  /** A fresh request: streaming on, model and limits from the caller, at most a system message. */
  function NewCompletionRequest(p: Params, model: string): (r: Request)
    ensures r.model == model && r.maxTokens == p.maxTokens && r.temperature == p.temperature
    ensures r.stream
    ensures r.messages == [] <==> p.systemMsg == ""
    ensures |r.messages| <= 1
    ensures forall i :: 0 <= i < |r.messages| ==> r.messages[i] == Message(System, p.systemMsg)
  {
    var msgs := if p.systemMsg != "" then [Message(System, p.systemMsg)] else [];
    Request(model, p.maxTokens, p.temperature, true, msgs)
  }

  /**
   * The request to continue: `loaded` is what loading the session file gives
   * (None when reading or decoding it fails); it is consulted only with -c.
   */
  function GetCompletionRequest(p: Params, model: string, loaded: Option<Request>): (r: Request)
    ensures p.continueSession && loaded.Some? ==> r == loaded.value
    ensures !p.continueSession || loaded.None? ==> r == NewCompletionRequest(p, model)
  {
    if p.continueSession && loaded.Some? then loaded.value
    else NewCompletionRequest(p, model)
  }

  /**
   * The user turn: the prompt, then, when a file is named, its contents as a
   * second user message. `included` is what reading that file gives; it is
   * consulted only when includeFile is set, and its failure is fatal.
   */
  function AppendMessages(req: Request, p: Params, included: Result<string, IoError>): (r: Result<Request, IoError>)
    ensures r.Failure? <==> p.includeFile != "" && included.Failure?
    ensures r.Success? ==> r.value.(messages := req.messages) == req
    ensures r.Success? ==> |r.value.messages| == |req.messages| + (if p.includeFile == "" then 1 else 2)
    ensures r.Success? ==> r.value.messages[..|req.messages|] == req.messages
    ensures r.Success? ==> r.value.messages[|req.messages|] == Message(User, p.msg)
    ensures r.Success? && p.includeFile != "" ==> r.value.messages[|req.messages| + 1] == Message(User, included.value)
  {
    var withPrompt := req.(messages := req.messages + [Message(User, p.msg)]);
    if p.includeFile == "" then Success(withPrompt)
    else match included
      case Failure(e) => Failure(e)
      case Success(contents) =>
        Success(withPrompt.(messages := withPrompt.messages + [Message(User, contents)]))
  }

  /** The reply as the last turn: every earlier message and every other field unchanged. */
  function AppendAssistant(req: Request, fullResponse: string): (r: Request)
    ensures r.(messages := req.messages) == req
    ensures |r.messages| == |req.messages| + 1
    ensures r.messages[..|req.messages|] == req.messages
    ensures r.messages[|req.messages|] == Message(Assistant, fullResponse)
  {
    req.(messages := req.messages + [Message(Assistant, fullResponse)])
  }

  /** appendMessages only ever adds user turns. */
  lemma AppendMessagesAddsUserTurns(req: Request, p: Params, included: Result<string, IoError>)
    requires AppendMessages(req, p, included).Success?
    ensures var ms := AppendMessages(req, p, included).value.messages;
            forall i :: |req.messages| <= i < |ms| ==> ms[i].role == User
  {
  }

  /**
   * A fresh conversation (no -c, or a session that failed to load) is the
   * optional system message, the prompt and the optional file, in that order.
   */
  lemma FreshConversationShape(p: Params, model: string, loaded: Option<Request>, included: Result<string, IoError>)
    requires !p.continueSession || loaded.None?
    requires AppendMessages(GetCompletionRequest(p, model, loaded), p, included).Success?
    ensures var ms := AppendMessages(GetCompletionRequest(p, model, loaded), p, included).value.messages;
            ms == (if p.systemMsg == "" then [] else [Message(System, p.systemMsg)])
                  + [Message(User, p.msg)]
                  + (if p.includeFile == "" then [] else [Message(User, included.value)])
  {
  }
}
