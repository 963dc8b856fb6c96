/**
  Chat messages, the events of a response stream, and the relay loop both
  services run over the language model's chunks: every non-empty chunk is
  passed on in arrival order and appended to the full response.
 */
module Messages {
  import opened Sequences

  datatype Message = HumanMessage(content: string) | AIMessage(content: string)

  /** What a response stream carries: pieces of text, then its end or an error. */
  datatype StreamEvent = Data(text: string) | End | Error(reason: string)

  /**
    The language model's reply to a conversation: all its chunks, or the
    chunks that arrived before the call failed.
   */
  datatype LlmReply = Streamed(chunks: seq<string>) | Interrupted(chunks: seq<string>, reason: string)

  /** The chunks joined together. */
  function Concat(xs: seq<string>): string {
    if |xs| == 0 then "" else xs[0] + Concat(xs[1..])
  }

  lemma {:induction false} ConcatAppend(xs: seq<string>, s: string)
    ensures Concat(xs + [s]) == Concat(xs) + s
  {
    if |xs| > 0 {
      assert (xs + [s])[1..] == xs[1..] + [s];
      ConcatAppend(xs[1..], s);
    } else {
      assert xs + [s] == [s];
    }
  }

  predicate IsNonEmpty(s: string) {
    |s| > 0
  }

  /** The chunks a stream passes on: the non-empty ones (an empty string is falsy). */
  function NonEmpty(chunks: seq<string>): seq<string> {
    Filter(chunks, IsNonEmpty)
  }

  lemma NonEmptyAppend(chunks: seq<string>, s: string)
    ensures NonEmpty(chunks + [s]) == NonEmpty(chunks) + if |s| > 0 then [s] else []
  {
    FilterConcat(chunks, [s], IsNonEmpty);
    assert [s][1..] == [];
  }

  /** Dropping the empty chunks does not change the joined text. */
  lemma {:induction false} ConcatSkipsEmpty(chunks: seq<string>)
    ensures Concat(NonEmpty(chunks)) == Concat(chunks)
  {
    if |chunks| > 0 {
      ConcatSkipsEmpty(chunks[1..]);
      if !IsNonEmpty(chunks[0]) {
        assert chunks[0] + Concat(chunks[1..]) == Concat(chunks[1..]);
      } else {
        assert NonEmpty(chunks) == [chunks[0]] + NonEmpty(chunks[1..]);
        assert ([chunks[0]] + NonEmpty(chunks[1..]))[1..] == NonEmpty(chunks[1..]);
      }
    }
  }

  function AsData(s: string): StreamEvent {
    Data(s)
  }

  /** The data events for some pieces of text. */
  function DataEvents(texts: seq<string>): seq<StreamEvent> {
    Map(texts, AsData)
  }

  /** The texts the data events of a stream carry, in order. */
  function DataTexts(events: seq<StreamEvent>): seq<string> {
    if |events| == 0 then []
    else (if events[0].Data? then [events[0].text] else []) + DataTexts(events[1..])
  }

  /** Reading the texts back from data events gives the texts sent. */
  lemma {:induction false} DataTextsRoundTrip(texts: seq<string>, last: StreamEvent)
    requires !last.Data?
    ensures DataTexts(DataEvents(texts) + [last]) == texts
  {
    var events := DataEvents(texts) + [last];
    if |texts| == 0 {
      assert events == [last];
    } else {
      assert events[1..] == DataEvents(texts[1..]) + [last];
      DataTextsRoundTrip(texts[1..], last);
    }
  }

  /** The events of a completion: the non-empty chunks, then the end, or the error. */
  function EventsOf(reply: LlmReply): (r: seq<StreamEvent>)
    ensures |r| == |NonEmpty(reply.chunks)| + 1
    ensures forall i :: 0 <= i < |r| - 1 ==> r[i] == Data(NonEmpty(reply.chunks)[i])
    ensures r[|r| - 1] == if reply.Streamed? then End else Error(reply.reason)
  {
    DataEvents(NonEmpty(reply.chunks)) + [if reply.Streamed? then End else Error(reply.reason)]
  }

  /** The data events of a completion carry exactly the non-empty chunks, so together the whole reply. */
  lemma EventsCarryReply(reply: LlmReply)
    ensures DataTexts(EventsOf(reply)) == NonEmpty(reply.chunks)
    ensures Concat(DataTexts(EventsOf(reply))) == Concat(reply.chunks)
  {
    DataTextsRoundTrip(NonEmpty(reply.chunks), if reply.Streamed? then End else Error(reply.reason));
    ConcatSkipsEmpty(reply.chunks);
  }

  /**
    The `for await` loop over the model's chunks: every non-empty chunk is
    sent on, once and in order, and the full response is their
    concatenation, which is the concatenation of all chunks.
   */
  method Relay(chunks: seq<string>) returns (full: string, sent: seq<string>)
    ensures sent == NonEmpty(chunks)
    ensures full == Concat(sent) && full == Concat(chunks)
  {
    full, sent := "", [];
    var i := 0;
    while i < |chunks|
      invariant 0 <= i <= |chunks|
      invariant sent == NonEmpty(chunks[..i])
      invariant full == Concat(sent)
    {
      var content := chunks[i];
      assert chunks[..i + 1] == chunks[..i] + [content];
      NonEmptyAppend(chunks[..i], content);
      if |content| > 0 {
        ConcatAppend(sent, content);
        full := full + content;
        sent := sent + [content];
      }
      i := i + 1;
    }
    assert chunks[..i] == chunks;
    ConcatSkipsEmpty(chunks);
  }
}
