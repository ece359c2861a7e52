/** The event-stream writer of the current query handler
    (products-service/src/handlers/query_handler.go) and the chat
    summarisation it runs once the stream completes. The producer's channel
    is the finite sequence of messages it sends before closing; whether the
    flush after the chunk at position `i` fails is the oracle `flushFails(i)`.
    The text of a chunk or an error is written raw. A frame is one event
    of the server-sent events format (WHATWG HTML Living Standard, section
    9.2), a `data:` line ended by a blank line, only when that text has no
    line break: `ChunkFrameOneEvent` and `ErrorFrameOneEvent` state this,
    and `ChunkWithBlankLineSplits` shows a chunk that becomes two events. */
module QueryStream {
  import opened Wrappers
  import opened AiQuery
  import opened RedisStore
  import opened Memory

  function ChunkFrame(chunk: string): string {
    "data: " + chunk + "\n\n"
  }

  const DoneFrame: string := "data: [DONE]\n\n"

  /** The error text goes in verbatim, without JSON escaping. */
  function ErrorFrame(error: string): string {
    "data: {\"error\": \"" + error + "\"}\n\n"
  }

  /** No CR or LF: the text fits on one line of an event stream. */
  predicate NoLineBreak(s: string) {
    forall i :: 0 <= i < |s| ==> s[i] != '\n' && s[i] != '\r'
  }

  /** `frame` is a single event whose one `data` field holds `data`: the
      line "data: " + data, then the blank line that dispatches it, with no
      other line break anywhere. */
  predicate OneDataEvent(frame: string, data: string) {
    && |frame| >= 8
    && frame[..6] == "data: "
    && frame[6..|frame| - 2] == data
    && NoLineBreak(frame[..|frame| - 2])
    && frame[|frame| - 2..] == "\n\n"
  }

  lemma NoLineBreakAppend(a: string, b: string)
    ensures NoLineBreak(a + b) <==> NoLineBreak(a) && NoLineBreak(b)
  {
    if NoLineBreak(a + b) {
      forall i | 0 <= i < |a| ensures a[i] != '\n' && a[i] != '\r' {
        assert a[i] == (a + b)[i];
      }
      forall i | 0 <= i < |b| ensures b[i] != '\n' && b[i] != '\r' {
        assert b[i] == (a + b)[|a| + i];
      }
    }
  }

  /** The frame `data: <text>` followed by a blank line is one event carrying
      `text` exactly when `text` has no line break. */
  lemma {:induction false} FrameOneEvent(text: string)
    ensures OneDataEvent("data: " + text + "\n\n", text) <==> NoLineBreak(text)
  {
    var frame := "data: " + text + "\n\n";
    assert frame[..|frame| - 2] == "data: " + text;
    assert frame[6..|frame| - 2] == text;
    assert frame[|frame| - 2..] == "\n\n";
    assert frame[..6] == "data: ";
    NoLineBreakAppend("data: ", text);
    assert NoLineBreak("data: ") by {
      var prefix := "data: ";
      forall i | 0 <= i < |prefix| ensures prefix[i] != '\n' && prefix[i] != '\r' {
      }
    }
  }

  /** A chunk's frame is one event whose data is the chunk iff the chunk has
      no line break. */
  lemma {:induction false} ChunkFrameOneEvent(chunk: string)
    ensures OneDataEvent(ChunkFrame(chunk), chunk) <==> NoLineBreak(chunk)
  {
    FrameOneEvent(chunk);
  }

  /** An error's frame is one event whose data is the JSON-like object
      around the error text iff that text has no line break. */
  lemma {:induction false} ErrorFrameOneEvent(error: string)
    ensures OneDataEvent(ErrorFrame(error), "{\"error\": \"" + error + "\"}") <==> NoLineBreak(error)
  {
    var data := "{\"error\": \"" + error + "\"}";
    assert ErrorFrame(error) == "data: " + data + "\n\n";
    FrameOneEvent(data);
    NoLineBreakAppend("{\"error\": \"" + error, "\"}");
    NoLineBreakAppend("{\"error\": \"", error);
    assert NoLineBreak("\"}");
    var opening := "{\"error\": \"";
    assert NoLineBreak(opening) by {
      forall i | 0 <= i < |opening| ensures opening[i] != '\n' && opening[i] != '\r' {
      }
    }
  }

  /** A chunk holding a blank line is written as the event of its first part
      followed by a block whose line `b` is a field name without a value,
      which clients ignore: the text after the blank line is lost. */
  lemma ChunkWithBlankLineSplits()
    ensures ChunkFrame("a\n\nb") == ChunkFrame("a") + "b\n\n"
    ensures !OneDataEvent(ChunkFrame("a\n\nb"), "a\n\nb")
  {
    ChunkFrameOneEvent("a\n\nb");
    assert "a\n\nb"[1] == '\n';
  }

  datatype Ending =
    | Done          // the channel was closed
    | Errored       // an error message arrived
    | FlushFailed   // the client went away

  datatype StreamResult = StreamResult(frames: seq<string>, ending: Ending, response: string)

  /** What the writer produces from position `from` on. */
  function Stream(msgs: seq<Message>, flushFails: nat -> bool, from: nat): StreamResult
    requires from <= |msgs|
    decreases |msgs| - from
  {
    if from == |msgs| then StreamResult([DoneFrame], Done, "")
    else match msgs[from]
      case Failure(e) => StreamResult([ErrorFrame(e)], Errored, "")
      case Chunk(c) =>
        if flushFails(from) then StreamResult([ChunkFrame(c)], FlushFailed, c)
        else
          var rest := Stream(msgs, flushFails, from + 1);
          StreamResult([ChunkFrame(c)] + rest.frames, rest.ending, c + rest.response)
  }

  /** The loop of the stream writer: it receives messages in order, writes
      one frame for each and appends every chunk to `response`. */
  method Relay(msgs: seq<Message>, flushFails: nat -> bool) returns (frames: seq<string>, ending: Ending, response: string)
    ensures StreamResult(frames, ending, response) == Stream(msgs, flushFails, 0)
  {
    frames, response := [], "";
    var i := 0;
    while true
      invariant 0 <= i <= |msgs|
      invariant Stream(msgs, flushFails, 0).frames == frames + Stream(msgs, flushFails, i).frames
      invariant Stream(msgs, flushFails, 0).ending == Stream(msgs, flushFails, i).ending
      invariant Stream(msgs, flushFails, 0).response == response + Stream(msgs, flushFails, i).response
      decreases |msgs| - i
    {
      if i == |msgs| {
        frames := frames + [DoneFrame];
        return frames, Done, response;
      }
      var msg := msgs[i];
      if msg.Failure? {
        frames := frames + [ErrorFrame(msg.error)];
        return frames, Errored, response;
      }
      frames := frames + [ChunkFrame(msg.text)];
      response := response + msg.text;
      if flushFails(i) {
        return frames, FlushFailed, response;
      }
      i := i + 1;
    }
  }

  /** The position at which the stream stops: the first error message, the
      first chunk whose flush fails, or the end of the messages. */
  function StopAt(msgs: seq<Message>, flushFails: nat -> bool, from: nat): (k: nat)
    requires from <= |msgs|
    ensures from <= k <= |msgs|
    ensures forall i :: from <= i < k ==> msgs[i].Chunk? && !flushFails(i)
    ensures k < |msgs| ==> msgs[k].Failure? || flushFails(k)
    decreases |msgs| - from
  {
    if from == |msgs| || msgs[from].Failure? || flushFails(from) then from
    else StopAt(msgs, flushFails, from + 1)
  }

  /** The text of all chunks among `msgs`, joined in order. */
  function Texts(msgs: seq<Message>): string {
    if msgs == [] then "" else (if msgs[0].Chunk? then msgs[0].text else "") + Texts(msgs[1..])
  }

  /** The shape of every stream: one chunk frame per message before the stop
      position, in order, then exactly one terminal frame — `[DONE]` after
      the last message, the error frame for an error, or the chunk whose
      flush failed. The response is the concatenation of the chunks written. */
  lemma {:induction false} StreamShape(msgs: seq<Message>, flushFails: nat -> bool, from: nat)
    requires from <= |msgs|
    ensures var r, k := Stream(msgs, flushFails, from), StopAt(msgs, flushFails, from);
      && |r.frames| == k - from + 1
      && (forall i :: from <= i < k ==> r.frames[i - from] == ChunkFrame(msgs[i].text))
      && (r.ending == Done <==> k == |msgs|)
      && (r.ending == Done ==> r.frames[k - from] == DoneFrame && r.response == Texts(msgs[from..]))
      && (r.ending == Errored <==> k < |msgs| && msgs[k].Failure?)
      && (r.ending == Errored ==> r.frames[k - from] == ErrorFrame(msgs[k].error))
      && (r.ending == FlushFailed <==> k < |msgs| && msgs[k].Chunk? && flushFails(k))
      && (r.ending == FlushFailed ==> r.frames[k - from] == ChunkFrame(msgs[k].text))
    decreases |msgs| - from
  {
    if from < |msgs| && msgs[from].Chunk? && !flushFails(from) {
      StreamShape(msgs, flushFails, from + 1);
      assert msgs[from..][1..] == msgs[from + 1..];
    }
  }

  /** The stream ends with `[DONE]` exactly when every message is a chunk
      and no flush fails. */
  lemma StreamCompletes(msgs: seq<Message>, flushFails: nat -> bool)
    ensures Stream(msgs, flushFails, 0).ending == Done <==>
      forall i :: 0 <= i < |msgs| ==> msgs[i].Chunk? && !flushFails(i)
  {
    StreamShape(msgs, flushFails, 0);
  }

  /** Two chunks and a close give two chunk frames, `[DONE]` and the joined
      response. */
  lemma TwoChunksExample(flushFails: nat -> bool)
    requires !flushFails(0) && !flushFails(1)
    ensures Stream([Chunk("Hel"), Chunk("lo")], flushFails, 0)
         == StreamResult(["data: Hel\n\n", "data: lo\n\n", "data: [DONE]\n\n"], Done, "Hello")
  {
    var msgs := [Chunk("Hel"), Chunk("lo")];
    assert Stream(msgs, flushFails, 2) == StreamResult([DoneFrame], Done, "");
    assert Stream(msgs, flushFails, 1) == StreamResult([ChunkFrame("lo"), DoneFrame], Done, "lo");
    assert Stream(msgs, flushFails, 0) == StreamResult([ChunkFrame("Hel"), ChunkFrame("lo"), DoneFrame], Done, "Hel" + "lo");
    assert "Hel" + "lo" == "Hello";
    assert ChunkFrame("Hel") == "data: Hel\n\n";
    assert ChunkFrame("lo") == "data: lo\n\n";
  }

  /** Chunks are written unescaped, so a chunk whose text is `[DONE]`
      produces a frame identical to the end-of-stream frame. */
  lemma DoneChunkLooksLikeDone()
    ensures ChunkFrame("[DONE]") == DoneFrame
  {
  }

  /** The JSON object recording one exchange, before marshalling. */
  function Exchange(query: string, response: string): map<string, string> {
    map["query" := query, "ai-response" := response]
  }

  /** Folds the finished exchange into the session's chat summary: a read
      error is returned and nothing is written; an empty or missing summary
      is replaced by the marshalled exchange; otherwise the summariser's
      combination of the old summary and the exchange is stored. The write
      never reports failure, so no other error is returned. `marshal` stands
      for `json.Marshal` and `summarize` for the model's summariser. */
  method SummerizePastChats(store: Store, summarize: (string, string) -> string, marshal: map<string, string> -> string,
                            response: string, params: AiQueryParams, readFault: Option<string>, writeFault: Option<string>)
    returns (err: Option<RedisError>)
    modifies store
    ensures var (prior, readErr) := GetUserChat(old(store.data), ChatKey(params), readFault);
      && err == readErr
      && (readErr.Some? ==> store.data == old(store.data) && store.ttl == old(store.ttl) && store.issued == old(store.issued))
      && (readErr.None? ==>
            var json := marshal(Exchange(params.query, response));
            var stored := if prior == "" then json else summarize(prior, json);
            && store.issued == old(store.issued) + [SetCmd(ChatKey(params), stored, KeyTtlSeconds)]
            && store.data == (if writeFault.None? then old(store.data)[ChatKey(params) := Text(stored)] else old(store.data))
            && store.ttl == (if writeFault.None? then old(store.ttl)[ChatKey(params) := KeyTtlSeconds] else old(store.ttl)))
  {
    var key := ChatKey(params);
    var (prior, readErr) := GetUserChat(store.data, key, readFault);
    if readErr.Some? {
      return readErr;
    }
    var json := marshal(Exchange(params.query, response));
    if prior == "" {
      var _ := SetUserChat(store, key, json, writeFault);
      return None;
    }
    var summary := summarize(prior, json);
    err := SetUserChat(store, key, summary, writeFault);
  }

  /** The handler's reply: a 400 for an unparsable body, or a 200 event
      stream carrying these frames. */
  datatype QueryReply = Rejected(status: nat, message: string) | EventStream(status: nat, frames: seq<string>)

  /** `GetAiResponse`: parses the body, starts the producer, relays its
      messages and, if the channel closed normally, updates the chat summary.
      `produce` is the model's answer for the parsed parameters; the body
      parser's outcome is the parameter `body`. */
  method GetAiResponse(store: Store, body: Result<AiQueryParams, string>, produce: AiQueryParams -> seq<Message>,
                       flushFails: nat -> bool, summarize: (string, string) -> string, marshal: map<string, string> -> string,
                       readFault: Option<string>, writeFault: Option<string>)
    returns (reply: QueryReply, produced: seq<AiQueryParams>)
    modifies store
    ensures body.Err? ==> reply == Rejected(400, "failed to parse body: " + body.error) && produced == []
                          && store.data == old(store.data) && store.ttl == old(store.ttl) && store.issued == old(store.issued)
    ensures body.Ok? ==> produced == [body.value]
                         && reply == EventStream(200, Stream(produce(body.value), flushFails, 0).frames)
    ensures body.Ok? && Stream(produce(body.value), flushFails, 0).ending != Done ==>
      store.data == old(store.data) && store.ttl == old(store.ttl) && store.issued == old(store.issued)
    ensures body.Ok? && Stream(produce(body.value), flushFails, 0).ending == Done ==>
      var p := body.value;
      var (prior, readErr) := GetUserChat(old(store.data), ChatKey(p), readFault);
      var json := marshal(Exchange(p.query, Texts(produce(p))));
      var stored := if prior == "" then json else summarize(prior, json);
      && (readErr.Some? ==> store.data == old(store.data) && store.ttl == old(store.ttl) && store.issued == old(store.issued))
      && (readErr.None? ==>
            && store.issued == old(store.issued) + [SetCmd(ChatKey(p), stored, KeyTtlSeconds)]
            && store.data == (if writeFault.None? then old(store.data)[ChatKey(p) := Text(stored)] else old(store.data))
            && store.ttl == (if writeFault.None? then old(store.ttl)[ChatKey(p) := KeyTtlSeconds] else old(store.ttl)))
  {
    if body.Err? {
      return Rejected(400, "failed to parse body: " + body.error), [];
    }
    var params := body.value;
    produced := [params];
    var frames, ending, response := Relay(produce(params), flushFails);
    if ending == Done {
      FirstExchangeStored(produce(params), flushFails);
      var _ := SummerizePastChats(store, summarize, marshal, response, params, readFault, writeFault);
    }
    reply := EventStream(200, frames);
  }

  /** A completed stream has accumulated every chunk's text, in order; this
      is the response `GetAiResponse` hands to the summary update. */
  lemma FirstExchangeStored(msgs: seq<Message>, flushFails: nat -> bool)
    requires Stream(msgs, flushFails, 0).ending == Done
    ensures Stream(msgs, flushFails, 0).response == Texts(msgs)
  {
    StreamShape(msgs, flushFails, 0);
    assert msgs[0..] == msgs;
  }
}
