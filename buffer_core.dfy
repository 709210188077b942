/**
 * The redundancy-culling message buffer shared by the two `infra` versions
 * (viser/infra/_async_message_buffer.py and src/viser/infra/_async_message_buffer.py):
 * an id counter, the buffered messages by id, and the id of the latest message per
 * redundancy key. Both `push` bodies are the same code; they are stated here once
 * on values, and the classes of the two versions are proved against them.
 */
module BufferCore {
  import opened Wrappers

  /** An outbound message as the buffer sees it. */
  datatype Message = Message(
    body: string,                     // the serialisable payload, opaque here
    redundancyKey: Option<string>,    // `message.redundancy_key()`
    excludedSelfClient: Option<int>)  // `message.excluded_self_client`

  /**
   * The buffer's three fields. The key map is keyed by `Option<string>` because
   * `push` also stores the id under the key `None`.
   */
  datatype BufferState = BufferState(
    messageCounter: int,
    messageFromId: map<int, Message>,
    idFromRedundancyKey: map<Option<string>, int>)

  function EmptyBuffer(): BufferState
  {
    BufferState(0, map[], map[])
  }

  /**
   * Ids are below the counter, each buffered message with a key is the one its key
   * maps to, and a key never maps to a buffered message with another key. It still
   * holds when a consumer pops messages it has sent.
   */
  predicate Indexed(s: BufferState)
  {
    s.messageCounter >= 0 &&
    (forall id :: id in s.messageFromId ==>
       0 <= id < s.messageCounter &&
       (s.messageFromId[id].redundancyKey.Some? ==>
          s.messageFromId[id].redundancyKey in s.idFromRedundancyKey &&
          s.idFromRedundancyKey[s.messageFromId[id].redundancyKey] == id)) &&
    (forall k :: k in s.idFromRedundancyKey ==>
       0 <= s.idFromRedundancyKey[k] < s.messageCounter &&
       (s.idFromRedundancyKey[k] in s.messageFromId ==> s.messageFromId[s.idFromRedundancyKey[k]].redundancyKey == k))
  }

  /** `Indexed`, and moreover every non-`None` key maps to a buffered message. */
  predicate Complete(s: BufferState)
  {
    Indexed(s) &&
    forall k :: k in s.idFromRedundancyKey && k.Some? ==> s.idFromRedundancyKey[k] in s.messageFromId
  }

  /**
   * `push` exactly as written: the new message is stored and the counter bumped, then
   * the id previously mapped to the same non-`None` key is popped from the key map and
   * from `message_from_id`. The second `pop` has no default, so when that message is no
   * longer buffered it raises `KeyError` (the boolean) and the key stays unmapped.
   */
  function PushAsWritten(s: BufferState, m: Message): (r: (BufferState, bool))
    ensures r.1 <==> m.redundancyKey.Some? && m.redundancyKey in s.idFromRedundancyKey &&
                     s.idFromRedundancyKey[m.redundancyKey] !in s.messageFromId[s.messageCounter := m]
    ensures !r.1 ==> r.0 == Push(s, m)
  {
    var id := s.messageCounter;
    var added := s.(messageFromId := s.messageFromId[id := m], messageCounter := id + 1);
    var key := m.redundancyKey;
    if key.Some? && key in added.idFromRedundancyKey then
      var oldId := added.idFromRedundancyKey[key];
      var unmapped := added.(idFromRedundancyKey := added.idFromRedundancyKey - {key});
      if oldId in unmapped.messageFromId then
        assert (added.idFromRedundancyKey - {key})[key := id] == s.idFromRedundancyKey[key := id];
        (unmapped.(messageFromId := unmapped.messageFromId - {oldId},
                   idFromRedundancyKey := unmapped.idFromRedundancyKey[key := id]), false)
      else
        (unmapped, true)
    else
      (added.(idFromRedundancyKey := added.idFromRedundancyKey[key := id]), false)
  }

  /** `push` with the culled message popped only if it is still buffered (`pop(old_id, None)`). */
  function Push(s: BufferState, m: Message): (r: BufferState)
    ensures r.messageCounter == s.messageCounter + 1
    ensures r.idFromRedundancyKey == s.idFromRedundancyKey[m.redundancyKey := s.messageCounter]
    ensures r.messageFromId.Keys <= s.messageFromId.Keys + {s.messageCounter}
  {
    var id := s.messageCounter;
    var key := m.redundancyKey;
    var added := s.messageFromId[id := m];
    var culled := if key.Some? && key in s.idFromRedundancyKey then added - {s.idFromRedundancyKey[key]} else added;
    BufferState(id + 1, culled, s.idFromRedundancyKey[key := id])
  }

  /**
   * `push` takes the counter as the new id and bumps it by one, stores the message,
   * maps its key to it, drops the older message with the same non-`None` key, and
   * keeps every other message, including every message without a key.
   */
  lemma PushSpec(s: BufferState, m: Message)
    requires Indexed(s)
    ensures Push(s, m).messageCounter == s.messageCounter + 1
    ensures s.messageCounter in Push(s, m).messageFromId && Push(s, m).messageFromId[s.messageCounter] == m
    ensures Push(s, m).idFromRedundancyKey[m.redundancyKey] == s.messageCounter
    ensures m.redundancyKey.Some? && m.redundancyKey in s.idFromRedundancyKey ==>
      s.idFromRedundancyKey[m.redundancyKey] !in Push(s, m).messageFromId
    ensures forall i :: i in s.messageFromId && s.messageFromId[i].redundancyKey != m.redundancyKey ==>
      i in Push(s, m).messageFromId && Push(s, m).messageFromId[i] == s.messageFromId[i]
    ensures forall i :: i in s.messageFromId && s.messageFromId[i].redundancyKey.None? ==>
      i in Push(s, m).messageFromId && Push(s, m).messageFromId[i] == s.messageFromId[i]
    ensures Push(s, m).messageFromId.Keys <= s.messageFromId.Keys + {s.messageCounter}
    ensures Indexed(Push(s, m))
  {
    var r := Push(s, m);
    var id := s.messageCounter;
    forall i | i in r.messageFromId
      ensures 0 <= i < r.messageCounter
      ensures r.messageFromId[i].redundancyKey.Some? ==>
        r.messageFromId[i].redundancyKey in r.idFromRedundancyKey &&
        r.idFromRedundancyKey[r.messageFromId[i].redundancyKey] == i
    {
      if i != id {
        assert i in s.messageFromId && r.messageFromId[i] == s.messageFromId[i];
      }
    }
  }

  /** Two buffered messages with the same non-`None` key are the same message. */
  lemma AtMostOnePerKey(s: BufferState, i: int, j: int)
    requires Indexed(s)
    requires i in s.messageFromId && j in s.messageFromId
    requires s.messageFromId[i].redundancyKey.Some?
    requires s.messageFromId[i].redundancyKey == s.messageFromId[j].redundancyKey
    ensures i == j
  {
  }

  /** While nothing but culling removes messages, `push` as written never raises and agrees with `Push`. */
  lemma {:induction false} PushAsWrittenOnCompleteBuffer(s: BufferState, m: Message)
    requires Complete(s)
    ensures PushAsWritten(s, m) == (Push(s, m), false)
    ensures Complete(Push(s, m))
  {
    var id := s.messageCounter;
    var key := m.redundancyKey;
    if key.Some? && key in s.idFromRedundancyKey {
      var oldId := s.idFromRedundancyKey[key];
      assert oldId in s.messageFromId && oldId != id;
    }
    PushSpec(s, m);
  }

  /** A consumer popping the messages with ids in [lo, hi) (non-persistent buffers). */
  function Drop(messages: map<int, Message>, lo: int, hi: int): map<int, Message>
  {
    map i | i in messages && !(lo <= i < hi) :: messages[i]
  }

  /** Popping sent messages keeps `Indexed` (but not `Complete`). */
  lemma DropKeepsIndexed(s: BufferState, lo: int, hi: int)
    requires Indexed(s)
    ensures Indexed(s.(messageFromId := Drop(s.messageFromId, lo, hi)))
  {
  }

  /**
   * Finding: after a non-persistent consumer has sent and popped a message, pushing
   * another message with the same key raises; the tolerant `Push` stores it and keeps
   * the buffer indexed.
   */
  lemma PushAfterSendRaises()
    ensures var m := Message("v", Some("gui_value/x"), None);
      var sent := Push(EmptyBuffer(), m);
      var popped := sent.(messageFromId := Drop(sent.messageFromId, 0, 1));
      PushAsWritten(popped, m).1 &&
      Indexed(popped) && Indexed(Push(popped, m)) &&
      Push(popped, m).messageFromId == map[1 := m] &&
      Push(popped, m).idFromRedundancyKey == map[Some("gui_value/x") := 1]
  {
    var m := Message("v", Some("gui_value/x"), None);
    var sent := Push(EmptyBuffer(), m);
    assert sent.messageFromId == map[0 := m];
    var popped := sent.(messageFromId := Drop(sent.messageFromId, 0, 1));
    assert popped.messageFromId == map[];
    assert Push(popped, m).messageFromId == map[1 := m];
  }

  /** Whether the consumer of client `clientId` sends `m` (`excluded_self_client != client_id`). */
  predicate SentTo(m: Message, clientId: int)
  {
    m.excludedSelfClient != Some(clientId)
  }

  /** The messages a consumer sends while visiting ids lo .. hi-1 in increasing order. */
  function Deliverable(messages: map<int, Message>, lo: int, hi: int, clientId: int): seq<Message>
    decreases hi - lo
  {
    if hi <= lo then []
    else Deliverable(messages, lo, hi - 1, clientId) +
         (if hi - 1 in messages && SentTo(messages[hi - 1], clientId) then [messages[hi - 1]] else [])
  }

  /**
   * Everything delivered is a buffered message with an id in range that is not
   * excluded for the client, and there are at most hi - lo of them.
   */
  lemma {:induction false} DeliverableSound(messages: map<int, Message>, lo: int, hi: int, clientId: int)
    ensures var d := Deliverable(messages, lo, hi, clientId);
      (hi <= lo ==> d == []) &&
      (lo <= hi ==> |d| <= hi - lo) &&
      forall x :: x in d ==> SentTo(x, clientId) && exists i :: lo <= i < hi && i in messages && messages[i] == x
    decreases hi - lo
  {
    if lo < hi {
      DeliverableSound(messages, lo, hi - 1, clientId);
    }
  }

  /** Visiting [lo, mid) and then [mid, hi) sends what visiting [lo, hi) sends: each id once, in order. */
  lemma {:induction false} DeliverableSplit(messages: map<int, Message>, lo: int, mid: int, hi: int, clientId: int)
    requires lo <= mid <= hi
    ensures Deliverable(messages, lo, hi, clientId) ==
            Deliverable(messages, lo, mid, clientId) + Deliverable(messages, mid, hi, clientId)
    decreases hi - mid
  {
    if mid < hi {
      DeliverableSplit(messages, lo, mid, hi - 1, clientId);
    }
  }

  /** Only ids in the range matter. */
  lemma {:induction false} DeliverableFrame(m1: map<int, Message>, m2: map<int, Message>, lo: int, hi: int, clientId: int)
    requires forall i :: lo <= i < hi ==> (i in m1 <==> i in m2) && (i in m1 ==> m1[i] == m2[i])
    ensures Deliverable(m1, lo, hi, clientId) == Deliverable(m2, lo, hi, clientId)
    decreases hi - lo
  {
    if lo < hi {
      DeliverableFrame(m1, m2, lo, hi - 1, clientId);
    }
  }
}
