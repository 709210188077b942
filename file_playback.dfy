/**
 * Playback of a recorded viser session (src/viser/client/src/FilePlayback.tsx): the
 * `continuePlayback` scheduler that pushes every message whose timestamp has been
 * reached onto the client's message queue and then asks to be called again after the
 * gap to the next timestamp, or loops back to the loop start at the end of the file.
 * Downloading and decompressing the file and the timer itself are not modelled: each
 * call returns the delay it would hand to `setTimeout`.
 */
module FilePlayback {
  import opened Wrappers

  /** A decoded message, kept opaque. */
  datatype Payload = Payload(bytes: seq<int>)

  datatype Recording = Recording(
    loopStartIndex: Option<int>,
    durationSeconds: real,
    messages: seq<(real, Payload)>)

  /** The first index at or after j whose timestamp lies beyond t, or the end of the recording. */
  function BatchEnd(messages: seq<(real, Payload)>, j: nat, t: real): (e: nat)
    requires j <= |messages|
    ensures j <= e <= |messages|
    ensures forall k :: j <= k < e ==> messages[k].0 <= t
    ensures e < |messages| ==> messages[e].0 > t
    decreases |messages| - j
  {
    if j == |messages| || messages[j].0 > t then j else BatchEnd(messages, j + 1, t)
  }

  function Payloads(messages: seq<(real, Payload)>): (ps: seq<Payload>)
    ensures |ps| == |messages| && forall k :: 0 <= k < |messages| ==> ps[k] == messages[k].1
  {
    seq(|messages|, k requires 0 <= k < |messages| => messages[k].1)
  }

  /** What one call does: the messages it pushes, where it leaves the index, and the next delay in milliseconds. */
  datatype StepResult = StepResult(pushed: seq<Payload>, nextIndex: int, delayMs: Option<real>)

  /**
   * A call pushes at least one message, the next ones in recording order, exactly those
   * up to the first later timestamp; it waits for the gap to that timestamp, or at the
   * end stops (no loop) or restarts at the loop start after the rest of the duration.
   */
  function Step(rec: Recording, i: nat): (r: StepResult)
    requires i < |rec.messages|
    ensures var msgs := rec.messages;
            && 1 <= |r.pushed| <= |msgs| - i
            && r.pushed == Payloads(msgs)[i..i + |r.pushed|]
            && (forall k :: i <= k < i + |r.pushed| ==> msgs[k].0 <= msgs[i].0)
            && (i + |r.pushed| < |msgs| ==>
                  msgs[i + |r.pushed|].0 > msgs[i].0 && r.nextIndex == i + |r.pushed|
                  && r.delayMs == Some((msgs[r.nextIndex].0 - msgs[i].0) * 1000.0))
            && (i + |r.pushed| == |msgs| ==>
                  (rec.loopStartIndex.None? <==> r.delayMs.None?)
                  && (rec.loopStartIndex.Some? ==>
                        r.nextIndex == rec.loopStartIndex.value
                        && r.delayMs == Some((rec.durationSeconds - msgs[i].0) * 1000.0)))
  {
    var msgs := rec.messages;
    var current := msgs[i].0;
    var e := BatchEnd(msgs, i + 1, current);
    if e == |msgs| then
      match rec.loopStartIndex
      case None => StepResult(Payloads(msgs)[i..], e, None)
      case Some(start) => StepResult(Payloads(msgs)[i..], start, Some((rec.durationSeconds - current) * 1000.0))
    else StepResult(Payloads(msgs)[i..e], e, Some((msgs[e].0 - current) * 1000.0))
  }

  /** Within the recording, the next call comes strictly later. */
  lemma StepDelayIsPositive(rec: Recording, i: nat)
    requires i < |rec.messages|
    requires BatchEnd(rec.messages, i + 1, rec.messages[i].0) < |rec.messages|
    ensures Step(rec, i).delayMs.Some? && Step(rec, i).delayMs.value > 0.0
  {
  }

  /** With a loop start inside the recording, every call that schedules another leaves a valid index. */
  lemma StepKeepsIndexInRange(rec: Recording, i: nat)
    requires i < |rec.messages|
    requires rec.loopStartIndex.Some? ==> 0 <= rec.loopStartIndex.value < |rec.messages|
    ensures Step(rec, i).delayMs.Some? ==> 0 <= Step(rec, i).nextIndex < |rec.messages|
  {
  }

  /** The batches one pass through the recording pushes, from index i to the end. */
  function Pass(rec: Recording, i: nat): (r: seq<seq<Payload>>)
    requires i <= |rec.messages|
    ensures |r| <= |rec.messages| - i
    decreases |rec.messages| - i
  {
    if i == |rec.messages| then []
    else
      var e := BatchEnd(rec.messages, i + 1, rec.messages[i].0);
      [Payloads(rec.messages)[i..e]] + Pass(rec, e)
  }

  function Concat(bs: seq<seq<Payload>>): seq<Payload>
  {
    if |bs| == 0 then [] else bs[0] + Concat(bs[1..])
  }

  /** One pass delivers every message from i on exactly once, in recording order, in non-empty batches. */
  lemma {:induction false} PassDeliversEveryMessage(rec: Recording, i: nat)
    requires i <= |rec.messages|
    ensures Concat(Pass(rec, i)) == Payloads(rec.messages)[i..]
    ensures forall b :: b in Pass(rec, i) ==> |b| > 0
    decreases |rec.messages| - i
  {
    if i < |rec.messages| {
      var e := BatchEnd(rec.messages, i + 1, rec.messages[i].0);
      PassDeliversEveryMessage(rec, e);
      var ps := Payloads(rec.messages);
      assert Pass(rec, i)[1..] == Pass(rec, e);
      assert ps[i..e] + ps[e..] == ps[i..];
    }
  }

  /** The first call is scheduled at the first message's timestamp; an empty recording fails there. */
  function FirstDelayMs(rec: Recording): (r: Result<real>)
    ensures r.Ok? <==> |rec.messages| > 0
    ensures r.Ok? ==> r.value == rec.messages[0].0 * 1000.0
  {
    if |rec.messages| == 0 then Err("TypeError: recording.messages[0] is undefined")
    else Ok(rec.messages[0].0 * 1000.0)
  }

  lemma SliceGrows(s: seq<Payload>, a: nat, b: nat)
    requires a <= b < |s|
    ensures s[a..b + 1] == s[a..b] + [s[b]]
  {
  }

  /** The playback closure: the recording, the message index it advances, and the client's queue it pushes onto. */
  class Playback {
    const recording: Recording
    var messageIndex: int
    var queue: seq<Payload>
    var loaded: bool

    constructor (recording: Recording, queue: seq<Payload>)
      ensures this.recording == recording && messageIndex == 0 && this.queue == queue && !loaded
    {
      this.recording := recording;
      messageIndex := 0;
      this.queue := queue;
      loaded := false;
    }

    /**
     * The loop of `continuePlayback`: pushes the message at `start` and every following
     * one that shares its timestamp or an earlier one; returns the index after them.
     */
    method PushDue(start: nat) returns (index: nat)
      requires start < |recording.messages|
      modifies this`queue
      ensures index == BatchEnd(recording.messages, start + 1, recording.messages[start].0)
      ensures queue == old(queue) + Payloads(recording.messages)[start..index]
    {
      var msgs := recording.messages;
      var currentTimeSeconds := msgs[start].0;
      ghost var ps := Payloads(msgs);
      ghost var e := BatchEnd(msgs, start + 1, currentTimeSeconds);
      index := start;
      while index < |msgs| && currentTimeSeconds >= msgs[index].0
        invariant start <= index <= e
        invariant queue == old(queue) + ps[start..index]
        decreases |msgs| - index
      {
        queue := queue + [msgs[index].1];
        SliceGrows(ps, start, index);
        index := index + 1;
      }
    }

    /** `continuePlayback`: returns the delay for the next call, or None when playback ends. */
    method ContinuePlayback() returns (delayMs: Option<real>)
      requires 0 <= messageIndex < |recording.messages|
      modifies this
      ensures loaded
      ensures var r := Step(recording, old(messageIndex));
              queue == old(queue) + r.pushed && messageIndex == r.nextIndex && delayMs == r.delayMs
    {
      loaded := true;
      var msgs := recording.messages;
      var start := messageIndex;
      var currentTimeSeconds := msgs[start].0;
      var index := PushDue(start);
      if index == |msgs| {
        assert Payloads(msgs)[start..index] == Payloads(msgs)[start..];
        match recording.loopStartIndex
        case None =>
          messageIndex := index;
          delayMs := None;
        case Some(loopStart) =>
          messageIndex := loopStart;
          delayMs := Some((recording.durationSeconds - currentTimeSeconds) * 1000.0);
      } else {
        messageIndex := index;
        delayMs := Some((msgs[index].0 - currentTimeSeconds) * 1000.0);
      }
    }
  }
}
