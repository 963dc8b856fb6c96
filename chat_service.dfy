/**
  The plain chat service: its own module-level map of histories, separate
  from the agent's, and the history effects of a streamed completion.
 */
module ChatService {
  import opened Wrappers
  import opened Messages
  import opened ConversationHistory

  /** The history a completion leaves: the user message, then the reply if it completed. */
  function HistoryAfterReply(before: seq<Message>, message: string, reply: LlmReply): (r: seq<Message>)
    ensures |r| == |before| + if reply.Streamed? then 2 else 1
    ensures r[..|before|] == before && r[|before|] == HumanMessage(message)
    ensures reply.Streamed? ==> r[|before| + 1] == AIMessage(Concat(reply.chunks))
  {
    if reply.Streamed? then before + [HumanMessage(message), AIMessage(Concat(reply.chunks))]
    else before + [HumanMessage(message)]
  }

  /** The module-level `conversationHistories` of the chat service. */
  class ChatHistories {
    var histories: map<string, seq<Message>>

    constructor()
      ensures histories == map[]
    {
      histories := map[];
    }

    /**
      `getOrCreateHistory`: without an id a fresh `[]` that is not stored;
      an unknown id gets an empty entry; a known id returns its history.
     */
    method GetOrCreateHistory(conversationId: Option<string>) returns (h: seq<Message>)
      modifies this
      ensures (conversationId.None? || conversationId.value == "") ==> h == [] && histories == old(histories)
      ensures conversationId.Some? && conversationId.value != "" ==>
        var id := conversationId.value;
        && histories == (if id in old(histories) then old(histories) else old(histories)[id := []])
        && h == histories[id] == HistoryOf(old(histories), id)
    {
      if conversationId.None? || conversationId.value == "" {
        return [];
      }
      var id := conversationId.value;
      if id !in histories {
        histories := histories[id := []];
      }
      h := histories[id];
    }

    /**
      `streamChatCompletion`. The user message goes onto the history, the
      model answers that history, and its non-empty chunks are pushed to the
      stream in order. When the answer completes, an AI message holding all
      of it follows the user message and the stream ends; when it fails, the
      stream reports the error and the history keeps only the user message.
      Without an id nothing is stored.
     */
    method StreamChatCompletion(message: string, conversationId: Option<string>, llm: seq<Message> -> LlmReply)
      returns (events: seq<StreamEvent>)
      modifies this
      ensures var stored := conversationId.Some? && conversationId.value != "";
        var before := if stored then HistoryOf(old(histories), conversationId.value) else [];
        var reply := llm(before + [HumanMessage(message)]);
        events == EventsOf(reply)
      ensures var stored := conversationId.Some? && conversationId.value != "";
        var before := if stored then HistoryOf(old(histories), conversationId.value) else [];
        var reply := llm(before + [HumanMessage(message)]);
        histories == if stored then old(histories)[conversationId.value := HistoryAfterReply(before, message, reply)]
                        else old(histories)
    {
      var history := GetOrCreateHistory(conversationId);
      ghost var before := history;
      // the array is live: the push is seen through the map at once
      history := history + [HumanMessage(message)];
      SetIfStored(conversationId, history);
      var reply := llm(history);
      var full, sent := Relay(reply.chunks);
      if reply.Streamed? {
        history := history + [AIMessage(full)];
        SetIfStored(conversationId, history);
      }
      assert history == HistoryAfterReply(before, message, reply);
      events := DataEvents(sent) + [if reply.Streamed? then End else Error(reply.reason)];
    }

    /** `if (conversationId) conversationHistories.set(conversationId, history)`. */
    method SetIfStored(conversationId: Option<string>, history: seq<Message>)
      modifies this
      ensures histories == if conversationId.Some? && conversationId.value != ""
                           then old(histories)[conversationId.value := history] else old(histories)
    {
      if conversationId.Some? && conversationId.value != "" {
        histories := histories[conversationId.value := history];
      }
    }

    /** `getConversationHistory`: the stored history or `[]`, adding nothing. */
    method GetConversationHistory(id: string) returns (h: seq<Message>)
      ensures h == HistoryOf(histories, id)
      ensures id !in histories ==> h == []
    {
      h := HistoryOf(histories, id);
    }

    /** `clearConversationHistory`: deletes that id and no other. */
    method ClearConversationHistory(id: string)
      modifies this
      ensures histories == old(histories) - {id}
      ensures id !in histories
      ensures forall other :: other != id ==> HistoryOf(histories, other) == HistoryOf(old(histories), other)
    {
      histories := histories - {id};
    }
  }
}
