/** The earlier event-stream writer (products-service/handlers/query_handler.go):
    the same framing and terminal cases as the current one, but it keeps no
    response text and updates no chat summary. */
module LegacyQueryStream {
  import opened Wrappers
  import opened AiQuery
  import opened QueryStream

  /** The loop of the earlier writer. */
  method LegacyRelay(msgs: seq<Message>, flushFails: nat -> bool) returns (frames: seq<string>, ending: Ending)
    ensures frames == Stream(msgs, flushFails, 0).frames
    ensures ending == Stream(msgs, flushFails, 0).ending
  {
    frames := [];
    var i := 0;
    while true
      invariant 0 <= i <= |msgs|
      invariant Stream(msgs, flushFails, 0).frames == frames + Stream(msgs, flushFails, i).frames
      invariant Stream(msgs, flushFails, 0).ending == Stream(msgs, flushFails, i).ending
      decreases |msgs| - i
    {
      if i == |msgs| {
        frames := frames + [DoneFrame];
        return frames, Done;
      }
      var msg := msgs[i];
      if msg.Failure? {
        frames := frames + [ErrorFrame(msg.error)];
        return frames, Errored;
      }
      frames := frames + [ChunkFrame(msg.text)];
      if flushFails(i) {
        return frames, FlushFailed;
      }
      i := i + 1;
    }
  }

  /** `GetAiResponse` of the earlier handler: 400 for an unparsable body,
      with no producer started; otherwise a 200 stream of the relayed frames. */
  method LegacyGetAiResponse(body: Result<AiQueryParams, string>, produce: AiQueryParams -> seq<Message>, flushFails: nat -> bool)
    returns (reply: QueryReply, produced: seq<AiQueryParams>)
    ensures body.Err? ==> reply == Rejected(400, "failed to parse body: " + body.error) && produced == []
    ensures body.Ok? ==>
      produced == [body.value] && reply == EventStream(200, Stream(produce(body.value), flushFails, 0).frames)
  {
    if body.Err? {
      return Rejected(400, "failed to parse body: " + body.error), [];
    }
    produced := [body.value];
    var frames, _ := LegacyRelay(produce(body.value), flushFails);
    reply := EventStream(200, frames);
  }
}
