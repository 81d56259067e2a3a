/**
 * One run of the program, as main composes it: parse the arguments, pick the
 * request, add the user turn, stream the reply and append it. The result is
 * the request that would be written to the session file, or the failure
 * that ends the process first. Environment lookups, the client, printing and
 * the JSON file write stay outside; their results are parameters.
 */
module Session {
  import opened Wrappers
  import opened Text
  import opened Args
  import opened Conversation
  import opened Streaming

  datatype Fatal =
    | Usage(exit: Exit)
    | IncludeFailed(io: IoError)
    | StreamFailed(cause: StreamError)

  /** The session that a run saves. */
  function Saved(
    flags: Flags, args: seq<string>, stdin: seq<string>, model: string,
    loaded: Option<Request>, included: Result<string, IoError>,
    created: bool, events: seq<Event>, callback: nat -> bool): (r: Result<Request, Fatal>)
    ensures r == Failure(Usage(Exit(UsageStatus))) <==> Prompt(args, stdin).Failure?
    ensures r.Failure? && r.error.StreamFailed? ==> Streamed(created, events, callback).err == Some(r.error.cause)
    ensures r.Success? ==> Prompt(args, stdin).Success? && Streamed(created, events, callback).err.None?
    ensures r.Success? ==> |r.value.messages| >= 2 &&
                           r.value.messages[|r.value.messages| - 1] == Message(Assistant, Streamed(created, events, callback).full)
  {
    match Prompt(args, stdin)
    case Failure(e) => Failure(Usage(e))
    case Success(msg) =>
      var p := WithMessage(flags, msg);
      match AppendMessages(GetCompletionRequest(p, model, loaded), p, included)
      case Failure(e) => Failure(IncludeFailed(e))
      case Success(req) =>
        var run := Streamed(created, events, callback);
        if run.err.Some? then Failure(StreamFailed(run.err.value))
        else Success(AppendAssistant(req, run.full))
  }

  /** main, from parseArgs to the request handed to saveCompletion. */
  method Run(
    flags: Flags, args: seq<string>, stdin: seq<string>, model: string,
    loaded: Option<Request>, included: Result<string, IoError>,
    created: bool, events: seq<Event>, callback: nat -> bool)
    returns (r: Result<Request, Fatal>)
    ensures r == Saved(flags, args, stdin, model, loaded, included, created, events, callback)
  {
    var parsed := ParseArgs(flags, args, stdin);
    if parsed.Failure? {
      return Failure(Usage(parsed.error));
    }
    var p := parsed.value;
    var req := GetCompletionRequest(p, model, loaded);
    var appended := AppendMessages(req, p, included);
    if appended.Failure? {
      return Failure(IncludeFailed(appended.error));
    }
    req := appended.value;
    var fullResponse, err, _, _ := StreamCompletion(created, events, callback);
    if err.Some? {
      return Failure(StreamFailed(err.value));
    }
    req := AppendAssistant(req, fullResponse);
    r := Success(req);
  }

  /**
   * A saved session ends with the prompt, the included file when one is
   * named, and then the assistant reply, which is the concatenation of the
   * streamed chunks in arrival order.
   */
  lemma SavedEndsWithTurnAndReply(
    flags: Flags, args: seq<string>, stdin: seq<string>, model: string,
    loaded: Option<Request>, included: Result<string, IoError>,
    created: bool, events: seq<Event>, callback: nat -> bool)
    requires Saved(flags, args, stdin, model, loaded, included, created, events, callback).Success?
    ensures var ms := Saved(flags, args, stdin, model, loaded, included, created, events, callback).value.messages;
            var run := Streamed(created, events, callback);
            var prompt := Prompt(args, stdin).value;
            var n := |ms|;
            && run.err.None?
            && ms[n - 1] == Message(Assistant, Join(run.delivered, ""))
            && (flags.includeFile == "" ==> ms[n - 2] == Message(User, prompt))
            && (flags.includeFile != "" ==> ms[n - 3] == Message(User, prompt) && ms[n - 2] == Message(User, included.value))
  {
  }

  /**
   * Continuing a session that loads keeps the loaded request: its fields and
   * its messages, unchanged, as a prefix of the saved ones.
   */
  lemma ContinuedSessionKeepsHistory(
    flags: Flags, args: seq<string>, stdin: seq<string>, model: string,
    loaded: Option<Request>, included: Result<string, IoError>,
    created: bool, events: seq<Event>, callback: nat -> bool)
    requires flags.continueSession && loaded.Some?
    requires Saved(flags, args, stdin, model, loaded, included, created, events, callback).Success?
    ensures var s := Saved(flags, args, stdin, model, loaded, included, created, events, callback).value;
            var prior := loaded.value;
            && s.(messages := prior.messages) == prior
            && |s.messages| == |prior.messages| + (if flags.includeFile == "" then 2 else 3)
            && s.messages[..|prior.messages|] == prior.messages
            && s.messages[|prior.messages|] == Message(User, Prompt(args, stdin).value)
  {
  }

  /**
   * Without -c, or when the session fails to load, the saved conversation is
   * the optional system message, the prompt, the optional file and the reply,
   * under the given model with streaming on.
   */
  lemma FreshSessionShape(
    flags: Flags, args: seq<string>, stdin: seq<string>, model: string,
    loaded: Option<Request>, included: Result<string, IoError>,
    created: bool, events: seq<Event>, callback: nat -> bool)
    requires !flags.continueSession || loaded.None?
    requires Saved(flags, args, stdin, model, loaded, included, created, events, callback).Success?
    ensures var s := Saved(flags, args, stdin, model, loaded, included, created, events, callback).value;
            && s.model == model && s.maxTokens == flags.maxTokens && s.stream
            && s.messages == (if flags.systemMsg == "" then [] else [Message(System, flags.systemMsg)])
                             + [Message(User, Prompt(args, stdin).value)]
                             + (if flags.includeFile == "" then [] else [Message(User, included.value)])
                             + [Message(Assistant, Streamed(created, events, callback).full)]
  {
  }

  /**
   * Nothing is saved unless every step succeeds: the usage exit, a failed
   * include and a failed stream each end the run.
   */
  lemma SavedIff(
    flags: Flags, args: seq<string>, stdin: seq<string>, model: string,
    loaded: Option<Request>, included: Result<string, IoError>,
    created: bool, events: seq<Event>, callback: nat -> bool)
    ensures Saved(flags, args, stdin, model, loaded, included, created, events, callback).Success? <==>
            && (exists i :: 0 <= i < |args| && !AllSpace(args[i]))
            && (flags.includeFile == "" || included.Success?)
            && created
            && (exists k :: 0 <= k < |events| && events[k] == Eof &&
                            forall j :: 0 <= j < k ==> Passes(events[j], callback(j)))
  {
    UsageIffBlankArgs(args, stdin);
    StreamSucceedsIff(created, events, callback);
  }
}
