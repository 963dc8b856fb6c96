/**
  The conversation store the agent uses: one history per conversation id,
  kept in a module-level `Map` whose keys remember their insertion order.
 */
module ConversationHistory {
  import opened Wrappers
  import opened Messages

  /** `map.get(id) || []`: a stored history is an array, hence never falsy. */
  function HistoryOf(histories: map<string, seq<Message>>, id: string): seq<Message> {
    if id in histories then histories[id] else []
  }

  /** Giving one id a history leaves what every other id reads unchanged. */
  lemma OtherHistoriesUnchanged(histories: map<string, seq<Message>>, a: string, h: seq<Message>, b: string)
    requires a != b
    ensures HistoryOf(histories[a := h], b) == HistoryOf(histories, b)
    ensures HistoryOf(histories[a := h], a) == h
  {
  }

  /** Removing a key lowers the number of entries by one exactly when it was present. */
  lemma RemoveCount<V>(m: map<string, V>, id: string)
    ensures |m - {id}| == if id in m then |m| - 1 else |m|
  {
    assert (m - {id}).Keys == m.Keys - {id};
    if id in m {
      assert m.Keys == (m.Keys - {id}) + {id};
    } else {
      assert m.Keys - {id} == m.Keys;
    }
  }

  predicate Distinct(ids: seq<string>) {
    forall i, j :: 0 <= i < j < |ids| ==> ids[i] != ids[j]
  }

  /** A list without repetitions has as many elements as its set. */
  lemma {:induction false} DistinctCount(ids: seq<string>)
    requires Distinct(ids)
    ensures |set id | id in ids| == |ids|
  {
    if |ids| > 0 {
      DistinctCount(ids[1..]);
      assert (set id | id in ids) == (set id | id in ids[1..]) + {ids[0]};
      assert ids[0] !in (set id | id in ids[1..]);
    }
  }

  /** The ids of a list other than `id`, in order. */
  function Without(ids: seq<string>, id: string): (r: seq<string>)
    ensures forall x :: x in r <==> x in ids && x != id
    ensures Distinct(ids) ==> Distinct(r)
  {
    if |ids| == 0 then []
    else
      assert Distinct(ids) ==> Distinct(ids[1..]) && ids[0] !in ids[1..];
      var rest := Without(ids[1..], id);
      if ids[0] == id then rest
      else
        if Distinct(ids) then DistinctCons(ids[0], rest); [ids[0]] + rest
        else [ids[0]] + rest
  }

  lemma DistinctCons(x: string, rest: seq<string>)
    requires Distinct(rest) && x !in rest
    ensures Distinct([x] + rest)
  {
    forall i, j | 0 <= i < j < |rest| + 1
      ensures ([x] + rest)[i] != ([x] + rest)[j]
    {
      assert ([x] + rest)[j] == rest[j - 1];
      if i > 0 {
        assert ([x] + rest)[i] == rest[i - 1];
      }
    }
  }

  /** The module-level map of conversation histories. */
  class ConversationStore {
    var histories: map<string, seq<Message>>
    /** `histories.keys()`, in the order the keys were first set. */
    var ids: seq<string>

    ghost predicate Valid()
      reads this
    {
      Distinct(ids) && forall id :: id in ids <==> id in histories
    }

    constructor()
      ensures Valid() && histories == map[] && ids == []
    {
      histories, ids := map[], [];
    }

    /** The id list after `set(id, …)`: a new key goes last, a present one keeps its place. */
    function IdsAfterSet(id: string): seq<string>
      reads this
    {
      if id in histories then ids else ids + [id]
    }

    /**
      `getOrCreateConversationHistory`: without an id (absent or empty) a
      fresh empty history that is not stored; for an unknown id a new empty
      entry; for a known id its history, with nothing changed.
     */
    method GetOrCreate(conversationId: Option<string>) returns (h: seq<Message>)
      requires Valid()
      modifies this
      ensures Valid()
      ensures (conversationId.None? || conversationId.value == "") ==>
        h == [] && histories == old(histories) && ids == old(ids)
      ensures conversationId.Some? && conversationId.value != "" ==>
        var id := conversationId.value;
        && (id in old(histories) ==> histories == old(histories) && ids == old(ids))
        && (id !in old(histories) ==> histories == old(histories)[id := []] && ids == old(ids) + [id])
        && h == histories[id] == HistoryOf(old(histories), id)
    {
      if conversationId.None? || conversationId.value == "" {
        return [];
      }
      var id := conversationId.value;
      if id !in histories {
        Update(id, []);
      }
      h := histories[id];
    }

    /** `updateConversationHistory`: the id now holds `history`; every other entry is as it was. */
    method Update(id: string, history: seq<Message>)
      requires Valid()
      modifies this
      ensures Valid()
      ensures histories == old(histories)[id := history]
      ensures ids == old(IdsAfterSet(id))
    {
      ids := IdsAfterSet(id);
      histories := histories[id := history];
    }

    /** `history.push(message)` on the live array stored for `id`. */
    method Append(id: string, message: Message)
      requires Valid() && id in histories
      modifies this
      ensures Valid()
      ensures histories == old(histories)[id := old(histories)[id] + [message]]
      ensures ids == old(ids)
    {
      histories := histories[id := histories[id] + [message]];
    }

    /** `getConversationHistory`: the stored history or `[]`; it never adds a key. */
    method GetConversationHistory(id: string) returns (h: seq<Message>)
      ensures h == HistoryOf(histories, id)
      ensures id !in histories ==> h == []
    {
      h := HistoryOf(histories, id);
    }

    /** `clearConversationHistory`: removes that id only. */
    method Clear(id: string)
      requires Valid()
      modifies this
      ensures Valid()
      ensures histories == old(histories) - {id}
      ensures ids == Without(old(ids), id)
      ensures |histories| == if id in old(histories) then |old(histories)| - 1 else |old(histories)|
    {
      RemoveCount(histories, id);
      histories := histories - {id};
      ids := Without(ids, id);
    }

    /** `getAllConversationIds`: each current key once, in insertion order. */
    method GetAllConversationIds() returns (r: seq<string>)
      requires Valid()
      ensures r == ids
      ensures Distinct(r)
      ensures forall id :: id in r <==> id in histories
    {
      r := ids;
    }

    /** `getConversationCount`: the number of keys, which is the length of the id list. */
    method GetConversationCount() returns (n: nat)
      requires Valid()
      ensures n == |histories| == |ids|
    {
      DistinctCount(ids);
      assert (set id | id in ids) == histories.Keys;
      n := |histories|;
    }
  }
}
