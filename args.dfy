/**
 * parseArgs: the flag values (already parsed) plus the prompt, which is the
 * positional arguments joined with spaces and trimmed. An empty prompt is a
 * usage error with exit status 1; a prompt of exactly "-" is extended with
 * the lines of standard input, each followed by "\n", after the dash.
 */
module Args {
  import opened Wrappers
  import opened Text

  /** The flag values as flag.Parse leaves them. */
  datatype Flags = Flags(
    maxTokens: int,
    systemMsg: string,
    includeFile: string,
    temperature: real,
    continueSession: bool)

  /** The params struct that parseArgs returns. */
  datatype Params = Params(
    maxTokens: int,
    systemMsg: string,
    includeFile: string,
    temperature: real,
    continueSession: bool,
    msg: string)

  /** The process exit after the usage text has been printed. */
  datatype Exit = Exit(status: int)

  const UsageStatus := 1

  /** The positional arguments as one string: joined with spaces, surrounding white space removed. */
  function ArgText(args: seq<string>): string
  {
    TrimSpace(Join(args, " "))
  }

  /**
   * The prompt parseArgs settles on, or the usage exit. A prompt always
   * begins with the trimmed argument text; only "-" is extended by stdin.
   */
  function Prompt(args: seq<string>, stdin: seq<string>): (r: Result<string, Exit>)
    ensures r.Failure? <==> ArgText(args) == ""
    ensures r.Failure? ==> r.error == Exit(UsageStatus)
    ensures r.Success? ==> |ArgText(args)| <= |r.value| && r.value[..|ArgText(args)|] == ArgText(args)
    ensures r.Success? && ArgText(args) != "-" ==> |r.value| == |ArgText(args)|
  {
    var msg := ArgText(args);
    if msg == "" then Failure(Exit(UsageStatus))
    else if msg == "-" then Success(msg + Lines(stdin))
    else Success(msg)
  }

  function WithMessage(f: Flags, msg: string): (p: Params)
  {
    Params(f.maxTokens, f.systemMsg, f.includeFile, f.temperature, f.continueSession, msg)
  }

  /**
   * parseArgs after flag.Parse: `stdin` is the sequence of lines the scanner
   * yields. The loop appends each line and a newline to the message.
   */
  method ParseArgs(flags: Flags, args: seq<string>, stdin: seq<string>) returns (r: Result<Params, Exit>)
    ensures r.Failure? <==> Prompt(args, stdin).Failure?
    ensures r.Failure? ==> r.error == Exit(UsageStatus)
    ensures r.Success? ==> r.value == WithMessage(flags, Prompt(args, stdin).value)
  {
    var msg := ArgText(args);
    if msg == "" {
      return Failure(Exit(UsageStatus));
    } else if msg == "-" {
      var i := 0;
      while i < |stdin|
        invariant 0 <= i <= |stdin|
        invariant msg == "-" + Lines(stdin[..i])
      {
        assert stdin[..i + 1][..i] == stdin[..i];
        msg := msg + stdin[i] + "\n";
        i := i + 1;
      }
      assert stdin[..i] == stdin;
    }
    r := Success(WithMessage(flags, msg));
  }

  /** The usage exit happens exactly when every positional argument is white space (or there are none). */
  lemma UsageIffBlankArgs(args: seq<string>, stdin: seq<string>)
    ensures Prompt(args, stdin).Failure? <==> forall i :: 0 <= i < |args| ==> AllSpace(args[i])
  {
    assert AllSpace(" ");
    JoinAllSpace(args, " ");
  }

  /** Outside the stdin case the prompt neither starts nor ends with white space. */
  lemma PromptIsTrimmed(args: seq<string>, stdin: seq<string>)
    requires Prompt(args, stdin).Success? && ArgText(args) != "-"
    ensures var m := Prompt(args, stdin).value;
            m != [] && !IsSpace(m[0]) && !IsSpace(m[|m| - 1])
  {
  }

  /**
   * In the stdin case the dash stays first and the rest of the prompt is the
   * scanned lines, each newline-terminated, from which they can be recovered.
   */
  lemma {:induction false} StdinPromptKeepsDashAndLines(args: seq<string>, stdin: seq<string>)
    requires ArgText(args) == "-"
    requires forall i :: 0 <= i < |stdin| ==> '\n' !in stdin[i]
    ensures Prompt(args, stdin).Success?
    ensures var m := Prompt(args, stdin).value;
            m[0] == '-' && |m| == 1 + TotalLength(stdin) && SplitLines(m[1..]) == stdin
  {
    var m := Prompt(args, stdin).value;
    assert m[1..] == Lines(stdin);
    SplitLinesOfLines(stdin);
  }
}
