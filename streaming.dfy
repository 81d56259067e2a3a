/**
 * streamCompletion: open the stream, then receive events one at a time,
 * hand the first choice's delta of each response to the callback and keep
 * it, until end of stream. Any failure returns "" with an error.
 */
module Streaming {
  import opened Wrappers
  import opened Text

  /**
   * One result of stream.Recv. A response carries the delta content of each
   * of its choices. Receiving past the last event of a sequence reads as a
   * receive error: the one-minute deadline firing.
   */
  datatype Event =
    | Delta(choices: seq<string>)
    | Eof
    | RecvError

  datatype StreamError =
    | CreateFailed     // CreateChatCompletionStream returned an error
    | RecvFailed       // stream.Recv returned an error other than io.EOF
    | CallbackFailed   // the callback rejected a chunk
    | NoChoices        // a response without choices: indexing Choices[0] panics

  /**
   * What a run observes: the full response and error streamCompletion
   * returns, the chunks handed to the callback in call order, and how many
   * events were received.
   */
  datatype StreamRun = StreamRun(full: string, err: Option<StreamError>, delivered: seq<string>, consumed: nat)

  /** A response the loop keeps and goes past: it has a choice and the callback accepts its chunk. */
  predicate Passes(e: Event, accepted: bool)
  {
    e.Delta? && |e.choices| > 0 && accepted
  }

  /**
   * Index of the first event from i on that the loop does not go past.
   * `callback(j)` is whether the callback's j-th call (counting from 0)
   * succeeds; the j-th call is made on event j, as every earlier event passed.
   */
  function StopAt(events: seq<Event>, callback: nat -> bool, i: nat): (k: nat)
    requires i <= |events|
    ensures i <= k <= |events|
    ensures forall j :: i <= j < k ==> Passes(events[j], callback(j))
    ensures k < |events| ==> !Passes(events[k], callback(k))
    decreases |events| - i
  {
    if i == |events| || !Passes(events[i], callback(i)) then i else StopAt(events, callback, i + 1)
  }

  /** The first non-passing event is unique. */
  lemma StopAtIsFirst(events: seq<Event>, callback: nat -> bool, k: nat)
    requires k <= |events|
    requires forall j :: 0 <= j < k ==> Passes(events[j], callback(j))
    requires k < |events| ==> !Passes(events[k], callback(k))
    ensures StopAt(events, callback, 0) == k
  {
  }

  /** The chunk of each response: the content of its first choice. */
  function Chunks(events: seq<Event>): (cs: seq<string>)
    requires forall j :: 0 <= j < |events| ==> events[j].Delta? && |events[j].choices| > 0
    ensures |cs| == |events|
    ensures forall j :: 0 <= j < |cs| ==> cs[j] == events[j].choices[0]
  {
    seq(|events|, j requires 0 <= j < |events| => events[j].choices[0])
  }

  /** What streamCompletion does with a stream that was created (or not) and delivers `events`. */
  function Streamed(created: bool, events: seq<Event>, callback: nat -> bool): (r: StreamRun)
    ensures r.err.Some? ==> r.full == ""
    ensures r.err.None? ==> r.full == Join(r.delivered, "")
    ensures r.consumed <= |events|
  {
    if !created then StreamRun("", Some(CreateFailed), [], 0)
    else
      var k := StopAt(events, callback, 0);
      var kept := Chunks(events[..k]);
      if k == |events| then StreamRun("", Some(RecvFailed), kept, k)
      else match events[k]
        case Eof => StreamRun(Join(kept, ""), None, kept, k + 1)
        case RecvError => StreamRun("", Some(RecvFailed), kept, k + 1)
        case Delta(choices) =>
          if |choices| == 0 then StreamRun("", Some(NoChoices), kept, k + 1)
          else StreamRun("", Some(CallbackFailed), kept + [choices[0]], k + 1)
  }

  /** The receive loop of streamCompletion, proved to behave as Streamed says. */
  method StreamCompletion(created: bool, events: seq<Event>, callback: nat -> bool)
    returns (full: string, err: Option<StreamError>, delivered: seq<string>, consumed: nat)
    ensures StreamRun(full, err, delivered, consumed) == Streamed(created, events, callback)
  {
    delivered, consumed := [], 0;
    if !created {
      return "", Some(CreateFailed), delivered, consumed;
    }
    var responseChunks: seq<string> := [];
    while true
      invariant consumed <= |events|
      invariant forall j :: 0 <= j < consumed ==> Passes(events[j], callback(j))
      invariant responseChunks == Chunks(events[..consumed])
      invariant delivered == responseChunks
      decreases |events| - consumed
    {
      if consumed == |events| {
        StopAtIsFirst(events, callback, consumed);
        return "", Some(RecvFailed), delivered, consumed;
      }
      var response := events[consumed];
      consumed := consumed + 1;
      if response.Eof? {
        break;
      }
      if response.RecvError? {
        StopAtIsFirst(events, callback, consumed - 1);
        return "", Some(RecvFailed), delivered, consumed;
      }
      if |response.choices| == 0 {
        StopAtIsFirst(events, callback, consumed - 1);
        return "", Some(NoChoices), delivered, consumed;
      }
      var chunk := response.choices[0];
      delivered := delivered + [chunk];
      if !callback(consumed - 1) {
        StopAtIsFirst(events, callback, consumed - 1);
        return "", Some(CallbackFailed), delivered, consumed;
      }
      responseChunks := responseChunks + [chunk];
      assert responseChunks == Chunks(events[..consumed]);
    }
    StopAtIsFirst(events, callback, consumed - 1);
    full, err := Join(responseChunks, ""), None;
  }

  /**
   * A run succeeds exactly when the stream was created and an end of stream comes
   * after nothing but responses whose chunks the callback accepted.
   */
  lemma StreamSucceedsIff(created: bool, events: seq<Event>, callback: nat -> bool)
    ensures Streamed(created, events, callback).err.None? <==>
            created && exists k :: 0 <= k < |events| && events[k] == Eof &&
                                  forall j :: 0 <= j < k ==> Passes(events[j], callback(j))
  {
  }

  /**
   * On success the callback saw every response's chunk once, in arrival
   * order, the response is their concatenation, and nothing after the end of
   * stream was received.
   */
  lemma SuccessIsConcatenationInOrder(created: bool, events: seq<Event>, callback: nat -> bool)
    requires Streamed(created, events, callback).err.None?
    ensures var r := Streamed(created, events, callback);
            && 0 < r.consumed && events[r.consumed - 1] == Eof
            && |r.delivered| == r.consumed - 1
            && (forall j :: 0 <= j < |r.delivered| ==> events[j].Delta? && r.delivered[j] == events[j].choices[0])
            && r.full == Join(r.delivered, "")
  {
  }

  /**
   * Once the loop stops on an event, nothing after it is received: the same
   * run results whatever follows the events it consumed.
   */
  lemma {:induction false} ConsumesNoFurther(created: bool, events: seq<Event>, callback: nat -> bool, rest: seq<Event>)
    requires created ==> StopAt(events, callback, 0) < |events|
    ensures var r := Streamed(created, events, callback);
            Streamed(created, events[..r.consumed] + rest, callback) == r
  {
    if created {
      var k := StopAt(events, callback, 0);
      var events' := events[..k + 1] + rest;
      assert events'[..k] == events[..k];
      assert events'[k] == events[k];
      StopAtIsFirst(events', callback, k);
    }
  }
}
