/**
 * viser/infra/_async_message_buffer.py: the persistent buffer, the per-client window
 * generator (one loop iteration per `Step`) and `MessageWindow`. Wall-clock time is
 * the parameter `now`; waiting on the message event is the `Step` that finds no new id.
 */
module InfraMessageBuffer {
  import opened Wrappers
  import opened BufferCore

  class AsyncMessageBuffer {
    var messageCounter: int
    var messageFromId: map<int, Message>
    var idFromRedundancyKey: map<Option<string>, int>

    function State(): BufferState
      reads this
    {
      BufferState(messageCounter, messageFromId, idFromRedundancyKey)
    }

    constructor ()
      ensures State() == EmptyBuffer()
    {
      messageCounter := 0;
      messageFromId := map[];
      idFromRedundancyKey := map[];
    }

    /** `push`: nothing but culling removes messages here, so the invariant is `Complete`. */
    method Push(message: Message)
      requires Complete(State())
      modifies this
      ensures State() == BufferCore.Push(old(State()), message)
      ensures Complete(State())
    {
      PushAsWrittenOnCompleteBuffer(State(), message);
      var newMessageId := messageCounter;
      messageFromId := messageFromId[newMessageId := message];
      messageCounter := messageCounter + 1;
      var redundancyKey := message.redundancyKey;
      if redundancyKey.Some? && redundancyKey in idFromRedundancyKey {
        var oldMessageId := idFromRedundancyKey[redundancyKey];
        idFromRedundancyKey := idFromRedundancyKey - {redundancyKey};
        messageFromId := messageFromId - {oldMessageId};
      }
      idFromRedundancyKey := idFromRedundancyKey[redundancyKey := newMessageId];
    }
  }

  /** Whether `get_window_to_send` hands the window out. */
  predicate Ready(windowLength: int, startTime: real, now: real, durationSec: real, maxLength: int)
  {
    (windowLength > 0 && now - startTime >= durationSec) || windowLength >= maxLength
  }

  /** With a positive length cap, a window that is ready is never empty. */
  lemma ReadyWindowIsNonEmpty(windowLength: nat, startTime: real, now: real, durationSec: real, maxLength: int)
    requires maxLength >= 1
    ensures Ready(windowLength, startTime, now, durationSec, maxLength) ==> windowLength >= 1
    ensures windowLength >= maxLength ==> Ready(windowLength, startTime, now, durationSec, maxLength)
  {
  }

  class MessageWindow {
    const windowDurationSec: real
    const windowMaxLength: int
    var windowStartTime: real
    var window: seq<Message>

    /** The dataclass defaults are 1/60 s and 1024 messages. */
    constructor (durationSec: real, maxLength: int)
      ensures windowDurationSec == durationSec && windowMaxLength == maxLength
      ensures windowStartTime == -1.0 && window == []
    {
      windowDurationSec := durationSec;
      windowMaxLength := maxLength;
      windowStartTime := -1.0;
      window := [];
    }

    /** `append_to_window`: the start time is taken only when the window was empty. */
    method AppendToWindow(message: Message, now: real)
      modifies this
      ensures window == old(window) + [message]
      ensures windowStartTime == if old(window) == [] then now else old(windowStartTime)
    {
      if |window| == 0 {
        windowStartTime := now;
      }
      window := window + [message];
    }

    /** `get_window_to_send`: the whole window, cleared, when ready; otherwise `None` and the window kept. */
    method GetWindowToSend(now: real) returns (out: Option<seq<Message>>)
      modifies this
      ensures Ready(|old(window)|, old(windowStartTime), now, windowDurationSec, windowMaxLength) ==>
        out == Some(old(window)) && window == []
      ensures !Ready(|old(window)|, old(windowStartTime), now, windowDurationSec, windowMaxLength) ==>
        out == None && window == old(window)
      ensures windowStartTime == old(windowStartTime)
    {
      var ready := false;
      if |window| > 0 && now - windowStartTime >= windowDurationSec {
        ready := true;
      } else if |window| >= windowMaxLength {
        ready := true;
      }
      if ready {
        out := Some(window);
        window := [];
      } else {
        out := None;
      }
    }
  }

  /** The local state of one `window_generator(ignore_client_id)`. */
  class WindowGenerator {
    const ignoreClientId: int
    const window: MessageWindow
    var lastSentId: int

    constructor (clientId: int, durationSec: real, maxLength: int)
      ensures ignoreClientId == clientId && lastSentId == -1
      ensures fresh(window) && window.window == [] && window.windowMaxLength == maxLength
      ensures window.windowDurationSec == durationSec
    {
      ignoreClientId := clientId;
      window := new MessageWindow(durationSec, maxLength);
      lastSentId := -1;
    }

    /**
     * One iteration of the generator loop. With no id past `last_sent_id` the generator
     * would wait, and nothing changes. Otherwise it visits the next id, appends its
     * message unless culled or excluded for this client, and yields the window if ready.
     */
    method Step(buffer: AsyncMessageBuffer, now: real) returns (out: Option<seq<Message>>)
      modifies this, window
      ensures old(lastSentId) >= buffer.messageCounter - 1 ==>
        out == None && lastSentId == old(lastSentId) && window.window == old(window.window) &&
        window.windowStartTime == old(window.windowStartTime)
      ensures old(lastSentId) < buffer.messageCounter - 1 ==>
        var appended := old(window.window) + Deliverable(buffer.messageFromId, old(lastSentId) + 1, old(lastSentId) + 2, ignoreClientId);
        lastSentId == old(lastSentId) + 1 &&
        (Ready(|appended|, window.windowStartTime, now, window.windowDurationSec, window.windowMaxLength) ==>
           out == Some(appended) && window.window == []) &&
        (!Ready(|appended|, window.windowStartTime, now, window.windowDurationSec, window.windowMaxLength) ==>
           out == None && window.window == appended) &&
        window.windowStartTime == (if old(window.window) == [] && |appended| > 0 then now else old(window.windowStartTime))
    {
      var mostRecentMessageId := buffer.messageCounter - 1;
      if lastSentId >= mostRecentMessageId {
        return None;
      }
      lastSentId := lastSentId + 1;
      assert Deliverable(buffer.messageFromId, lastSentId, lastSentId + 1, ignoreClientId) ==
        if lastSentId in buffer.messageFromId && SentTo(buffer.messageFromId[lastSentId], ignoreClientId)
        then [buffer.messageFromId[lastSentId]] else [];
      if lastSentId in buffer.messageFromId && SentTo(buffer.messageFromId[lastSentId], ignoreClientId) {
        window.AppendToWindow(buffer.messageFromId[lastSentId], now);
      } else {
        assert old(window.window) + [] == window.window;
      }
      out := window.GetWindowToSend(now);
    }
  }
}
