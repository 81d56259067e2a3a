# chatgpt-cli: prompt, conversation and stream, modelled in Dafny

chatgpt-cli sends one prompt to a chat completion endpoint and streams the
reply to standard output. It then saves the whole conversation so that a later
run with `-c` can continue it. This project models the logic in `main.go`
that decides what the conversation holds:

- **Prompt assembly** (`parseArgs`). The positional arguments are joined
  with spaces and trimmed of white space in the sense of Go's
  `unicode.IsSpace`. An empty result prints the usage text and exits with
  status 1. A result of exactly `-` appends every line of standard input,
  each followed by a newline (module `Args`; the string helpers are in
  `Text`).
- **Conversation construction** (`newCompletionRequest`,
  `getCompletionRequest`, `appendMessages`, and the assistant append in
  `main`). This is an ordered list of system, user and assistant messages
  (module `Conversation`).
- **Stream accumulation** (`streamCompletion`). A loop receives events,
  passes each chunk to a callback and keeps it. On end of stream it returns
  the chunks concatenated in arrival order. On any failure it returns `""`
  with an error (module `Streaming`).
- **One run of `main`**. The steps above are composed into the request that
  would be written to the session file, or into the failure that stops the
  run first (module `Session`).

`ParseArgs` and `StreamCompletion` are methods with loops, because the source
updates a variable step by step there. Each one is proved equal to a
specification function (`Prompt`, `Streamed`), and the lemmas are stated
about those functions. The request builders are functions over
`seq<Message>`, because the source passes the request by value and returns
an extended copy.

A `-` prompt is usually read as "take the prompt from standard input
instead of the arguments". The code does something different, and the model
follows the code: it appends the lines to the existing `"-"`, so the dash
stays as the first character of the prompt (`StdinPromptKeepsDashAndLines`).

Inputs that the source takes from the outside world are parameters:
- the flag values after `flag.Parse` (`Flags`);
- the positional arguments;
- the lines the stdin scanner yields;
- the model name (after the `OPENAI_MODEL` lookup);
- the result of loading the session file (`Option<Request>`, `None` when
  reading or decoding fails);
- the result of reading the included file (`Result<string, IoError>`);
- whether the stream could be created;
- the sequence of receive events;
- whether the callback's k-th call succeeds (`callback: nat -> bool`).

## Model

| member | source | states |
|---|---|---|
| `Text.IsSpace` | main.go:76 | White space is Go's `unicode.IsSpace`: the Latin-1 list (tab, newline, vertical tab, form feed, carriage return, space, U+0085, U+00A0) plus the other Unicode White_Space code points (U+1680, U+2000 to U+200A, U+2028, U+2029, U+202F, U+205F, U+3000). On ASCII it agrees with the six-character table that `strings.TrimSpace` checks first. The dash is not white space. |
| `Text.Join` | main.go:76 | `strings.Join`: no parts give the empty string, and one part gives that part. With more parts, the first part comes first, followed by the separator, then the rest joined. |
| `Text.TrimSpace` | main.go:76 | The trimmed prompt is empty exactly when the joined text is all white space. A non-empty result neither starts nor ends with white space. |
| `Text.TrimSpaceIsSlice` | main.go:76 | Trimming removes only white space, and only from the two ends: the result is a contiguous slice of the input. |
| `Text.TrimSpaceIdempotent` | main.go:76 | Trimming an already trimmed prompt changes nothing. |
| `Text.JoinAllSpace` | main.go:76 | Joined with a space, the arguments are all white space exactly when every argument is. |
| `Text.JoinSnoc` | main.go:191-193 | Joining one more chunk at the end extends the joined text by the separator and that chunk, so an empty-separator join is the concatenation in order. |
| `Text.LinesCons` | main.go:82-84 | The text built from stdin begins with the first line and its newline, followed by the text of the remaining lines. |
| `Text.Lines` | main.go:82-84 | The text the stdin loop builds is every line followed by a newline, in input order. Its length is the lines' lengths plus one per line, and it ends in a newline unless there are no lines. |
| `Text.SplitLinesOfLines` | main.go:82-84 | Cutting the stdin text at its newlines gives back exactly the scanned lines, in order. |
| `Args.Prompt` | main.go:76-86 | The prompt is the usage exit (status 1) exactly when the trimmed, space-joined arguments are empty. Otherwise the prompt begins with that trimmed text. Only when the text is `-` does the prompt run on, with the stdin lines after the dash. |
| `Args.ParseArgs` | main.go:76-87 | The loop over stdin lines returns the usage exit (status 1) exactly when `Prompt` does. Otherwise it returns the flag values unchanged, with the message that `Prompt` specifies. |
| `Args.UsageIffBlankArgs` | main.go:76-79 | The usage exit happens exactly when there are no positional arguments or all of them are white space. |
| `Args.PromptIsTrimmed` | main.go:76 | Outside the stdin case, the prompt is non-empty and has no white space at either end. |
| `Args.StdinPromptKeepsDashAndLines` | main.go:80-86 | When the trimmed arguments are exactly `-`, the prompt is the dash followed by every stdin line with its newline. Its length is 1 plus the lines' lengths plus their newlines, and the lines can be recovered from it in order. |
| `Conversation.NewCompletionRequest` | main.go:139-151 | A fresh request has streaming on and the given model and max tokens. It holds no messages when the system message is empty, and otherwise exactly one system-role message with that text. |
| `Conversation.GetCompletionRequest` | main.go:107-116 | With `-c` and a session that loads, the result is the loaded request unchanged. In every other case, including a failed load, it is a fresh request. |
| `Conversation.AppendMessages` | main.go:153-166 | The old messages and all other fields stay unchanged, and a user message with the prompt follows them. When a file is named, its contents come next as a second user message. The count grows by 1 or 2. The result is an error exactly when a named file cannot be read. |
| `Conversation.AppendAssistant` | main.go:55 | The reply becomes the last message with the assistant role. Earlier messages and all other fields are unchanged. |
| `Conversation.AppendMessagesAddsUserTurns` | main.go:153-166 | Every message that appendMessages adds has the user role. |
| `Conversation.FreshConversationShape` | main.go:107-116 | Without a loaded session, the conversation is the optional system message, then the prompt, then the optional file contents, in that order. |
| `Streaming.StopAt` | main.go:176-192 | The loop goes past every event before the stop index: each is a response with a choice whose chunk the callback accepted. It stops on the first event that is not. |
| `Streaming.StopAtIsFirst` | main.go:176-192 | The event on which the loop stops is determined uniquely: it is the first one the loop cannot go past. |
| `Streaming.Chunks` | main.go:186 | The chunk of each response is the delta content of its first choice, one chunk per response, in order. |
| `Streaming.Streamed` | main.go:168-194 | A failed run returns the empty string. A successful run returns the concatenation of the chunks handed to the callback. No run receives more events than the stream holds. |
| `Streaming.StreamCompletion` | main.go:168-194 | The receive loop returns the response and error that `Streamed` specifies. It also hands the same chunks to the callback, in the same order, and receives the same number of events. |
| `Streaming.StreamSucceedsIff` | main.go:176-193 | A run succeeds exactly when the stream was created and an end of stream arrives after nothing but responses with a choice whose chunks the callback accepted. |
| `Streaming.SuccessIsConcatenationInOrder` | main.go:175-193 | On success, the last event received is the end of stream. The callback got the first choice of every earlier response once, in arrival order, and the response is their concatenation. |
| `Streaming.ConsumesNoFurther` | main.go:177-190 | After the loop stops on an event (end of stream or an error), no later event is received: any continuation of the stream gives the same run. |
| `Session.Saved` | main.go:43-55 | The run ends in the usage failure exactly when the prompt is empty. A stream failure carries the error the stream reported. A saved session needs a prompt and a successful stream, and it ends with the streamed response as an assistant message. |
| `Session.Run` | main.go:32-61 | One run of main yields the session that `Saved` specifies, or the failure that ends it first. |
| `Session.SavedEndsWithTurnAndReply` | main.go:43-55 | A saved session ends with the prompt, then the included file when one is named, then the assistant reply. The reply is the concatenation of the streamed chunks. |
| `Session.ContinuedSessionKeepsHistory` | main.go:43-55 | When continuing a session that loads, the loaded request's fields and messages are kept verbatim. The loaded messages are a prefix of the saved ones, and the new prompt comes right after them. |
| `Session.FreshSessionShape` | main.go:43-55 | A fresh session is saved as the optional system message, the prompt, the optional file and the reply. It uses the given model and max tokens, with streaming on. |
| `Session.SavedIff` | main.go:32-61 | A session is saved exactly when all of these hold: some argument is not blank, a named file can be read, the stream is created, and an end of stream arrives before any failure. |

## Left out

- getClient and the environment variables (`OPENAI_API_KEY`, the Azure endpoint and deployment, `OPENAI_MODEL`): client configuration with no logic of its own. The model name is taken as a parameter.
- The HTTP call, `stream.Close` and the one-minute context deadline: network I/O and timing. The stream is a finite sequence of events. Receiving past its end reads as a receive error, which is how the deadline surfaces.
- loadLastCompletion and saveCompletion (JSON encoding and the session file read and write): library serialisation and file I/O. A load is an `Option` input. Saving is left out: `Saved` is the request that would be written, and a failed write is not modelled.
- Flag parsing by Go's `flag` package, its defaults and the usage text: library behaviour. The model takes the parsed values as `Flags`.
- The other fields of go-openai's request and message types (TopP, Stop, Tools, a message's Name, and so on): the model keeps only the request's model, max tokens, temperature, stream flag and messages. It also keeps only the roles system, user and assistant. A loaded session's other fields and roles, which Go carries through unchanged, are not represented. So "kept verbatim" covers only these fields.
- The float64 to float32 conversion of the temperature: floating point. The model carries the value unchanged.
- Printing: each chunk, the trailing newline and the warning about a failed session load. The callback is an oracle saying whether each call succeeds. The chunks handed to it are returned as `delivered`.
- The error texts that streamCompletion wraps with `fmt.Errorf`: the model keeps only which step failed (`StreamError`).
- `panic` and `os.Exit`: these are error results (`Fatal`, `Exit`), not process behaviour.
- The stdin scanner: the model takes the lines it yields. Its own read errors and its 64 KiB token limit, which end the loop silently, are not modelled.
- Bytes versus characters: Go strings are byte sequences and may hold invalid UTF-8. The model works on Unicode scalar values, so `TrimSpace` is modelled on well-formed text only. The contents of the included file are read as a string.
