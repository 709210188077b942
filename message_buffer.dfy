/**
 * src/viser/infra/_async_message_buffer.py: the buffer with optional persistence, a
 * window-size cap and a `done` flag, and one pass of its window generator. Waiting for
 * the message and flush events, and the flush delay, are not modelled; a pass that
 * finds nothing to send reports `Wait`.
 */
module MessageBuffer {
  import opened Wrappers
  import opened BufferCore

  /** What one pass of the generator's outer loop does. */
  datatype Pass = Finished | Yield(window: seq<Message>) | Wait

  class AsyncMessageBuffer {
    const persistentMessages: bool
    const maxWindowSize: int
    var messageCounter: int
    var messageFromId: map<int, Message>
    var idFromRedundancyKey: map<Option<string>, int>
    var done: bool

    function State(): BufferState
      reads this
    {
      BufferState(messageCounter, messageFromId, idFromRedundancyKey)
    }

    /** The dataclass default for `max_window_size` is 1024. */
    constructor (persistent: bool, maxWindow: int)
      ensures persistentMessages == persistent && maxWindowSize == maxWindow
      ensures State() == EmptyBuffer() && !done
    {
      persistentMessages := persistent;
      maxWindowSize := maxWindow;
      messageCounter := 0;
      messageFromId := map[];
      idFromRedundancyKey := map[];
      done := false;
    }

    /**
     * `push`, with the culled message popped only when still buffered (see
     * `BufferCore.PushAfterSendRaises` for what the unguarded `pop` does).
     */
    method Push(message: Message)
      requires Indexed(State())
      modifies this
      ensures State() == BufferCore.Push(old(State()), message)
      ensures Indexed(State()) && done == old(done)
    {
      PushSpec(State(), message);
      var newMessageId := messageCounter;
      messageFromId := messageFromId[newMessageId := message];
      messageCounter := messageCounter + 1;
      var redundancyKey := message.redundancyKey;
      if redundancyKey.Some? && redundancyKey in idFromRedundancyKey {
        var oldMessageId := idFromRedundancyKey[redundancyKey];
        idFromRedundancyKey := idFromRedundancyKey - {redundancyKey};
        if oldMessageId in messageFromId {
          messageFromId := messageFromId - {oldMessageId};
        }
      }
      idFromRedundancyKey := idFromRedundancyKey[redundancyKey := newMessageId];
    }

    /** `set_done` (the flush that wakes the generator is not modelled). */
    method SetDone()
      modifies this
      ensures done && State() == old(State())
    {
      done := true;
    }
  }

  /** The local state of one `window_generator(client_id)`. */
  class WindowGenerator {
    const clientId: int
    var lastSentId: int

    constructor (id: int)
      ensures clientId == id && lastSentId == -1
    {
      clientId := id;
      lastSentId := -1;
    }

    /**
     * The inner loop: visit ids after `last_sent_id` up to the newest one while the
     * window has room, popping each visited message unless the buffer is persistent and
     * collecting those not excluded for this client.
     */
    method FillWindow(buffer: AsyncMessageBuffer) returns (window: seq<Message>)
      modifies this, buffer
      ensures old(lastSentId) <= lastSentId
      ensures lastSentId > old(lastSentId) ==> lastSentId <= buffer.messageCounter - 1
      ensures lastSentId >= buffer.messageCounter - 1 || |window| >= buffer.maxWindowSize
      ensures |window| <= if buffer.maxWindowSize < 0 then 0 else buffer.maxWindowSize
      ensures window == Deliverable(old(buffer.messageFromId), old(lastSentId) + 1, lastSentId + 1, clientId)
      ensures buffer.messageFromId ==
        if buffer.persistentMessages then old(buffer.messageFromId)
        else Drop(old(buffer.messageFromId), old(lastSentId) + 1, lastSentId + 1)
      ensures buffer.messageCounter == old(buffer.messageCounter)
      ensures buffer.idFromRedundancyKey == old(buffer.idFromRedundancyKey)
      ensures buffer.done == old(buffer.done)
    {
      window := [];
      var mostRecentMessageId := buffer.messageCounter - 1;
      ghost var start := lastSentId + 1;
      ghost var original := buffer.messageFromId;
      while lastSentId < mostRecentMessageId && |window| < buffer.maxWindowSize
        invariant start - 1 <= lastSentId
        invariant lastSentId > start - 1 ==> lastSentId <= mostRecentMessageId
        invariant |window| <= if buffer.maxWindowSize < 0 then 0 else buffer.maxWindowSize
        invariant window == Deliverable(original, start, lastSentId + 1, clientId)
        invariant buffer.messageFromId ==
          if buffer.persistentMessages then original else Drop(original, start, lastSentId + 1)
        invariant buffer.messageCounter == old(buffer.messageCounter)
        invariant buffer.idFromRedundancyKey == old(buffer.idFromRedundancyKey)
        invariant buffer.done == old(buffer.done)
        decreases mostRecentMessageId - lastSentId
      {
        lastSentId := lastSentId + 1;
        var message: Option<Message> := if lastSentId in buffer.messageFromId then Some(buffer.messageFromId[lastSentId]) else None;
        assert message == if lastSentId in original then Some(original[lastSentId]) else None;
        if !buffer.persistentMessages && message.Some? {
          buffer.messageFromId := buffer.messageFromId - {lastSentId};
        }
        if message.Some? && SentTo(message.value, clientId) {
          window := window + [message.value];
        }
        assert buffer.persistentMessages || buffer.messageFromId == Drop(original, start, lastSentId + 1);
      }
    }

    /** One pass of the outer loop: stop once `done`, else yield a non-empty window or wait. */
    method Next(buffer: AsyncMessageBuffer) returns (pass: Pass)
      modifies this, buffer
      ensures old(buffer.done) <==> pass == Finished
      ensures old(buffer.done) ==> lastSentId == old(lastSentId) && buffer.messageFromId == old(buffer.messageFromId)
      ensures pass.Yield? ==>
        1 <= |pass.window| <= buffer.maxWindowSize && lastSentId > old(lastSentId) &&
        pass.window == Deliverable(old(buffer.messageFromId), old(lastSentId) + 1, lastSentId + 1, clientId)
      ensures pass.Wait? ==> Deliverable(old(buffer.messageFromId), old(lastSentId) + 1, lastSentId + 1, clientId) == []
      ensures lastSentId > old(lastSentId) ==> lastSentId <= buffer.messageCounter - 1
      ensures !old(buffer.done) ==>
                buffer.messageFromId ==
                  if buffer.persistentMessages then old(buffer.messageFromId)
                  else Drop(old(buffer.messageFromId), old(lastSentId) + 1, lastSentId + 1)
      ensures buffer.messageCounter == old(buffer.messageCounter)
      ensures buffer.idFromRedundancyKey == old(buffer.idFromRedundancyKey)
      ensures buffer.done == old(buffer.done)
    {
      if buffer.done {
        return Finished;
      }
      var window := FillWindow(buffer);
      if |window| > 0 {
        DeliverableSound(old(buffer.messageFromId), old(lastSentId) + 1, lastSentId + 1, clientId);
        pass := Yield(window);
      } else {
        pass := Wait;
      }
    }
  }

  /** A client's stream never carries a message excluded for that client. */
  lemma ExcludedNeverSent(messages: map<int, Message>, lo: int, hi: int, clientId: int, m: Message)
    requires m in Deliverable(messages, lo, hi, clientId)
    ensures m.excludedSelfClient != Some(clientId)
  {
    DeliverableSound(messages, lo, hi, clientId);
  }
}
