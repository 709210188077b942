/**
 * viser/_async_message_buffer.py: the oldest buffer. It culls by
 * `str(type(message)) + name` instead of a redundancy key. A reset clears it, and
 * removing a scene node also drops every indexed entry whose key starts with the
 * removal's key.
 */
module LegacyMessageBuffer {
  import opened Wrappers
  import opened Text

  /** A message of viser/_messages.py: its class name and its `name` field, if the class has one. */
  datatype Message = Message(className: string, name: Option<string>, body: string)

  const ResetSceneClass := "ResetSceneMessage"
  const BackgroundImageClass := "BackgroundImageMessage"
  const RemoveSceneNodeClass := "RemoveSceneNodeMessage"
  const BackgroundImageName := "__viser_background_image__"

  /** `str(type(message))` for a class defined in `viser._messages`. */
  function TypeString(m: Message): string
  {
    "<class 'viser._messages." + m.className + "'>"
  }

  /** The key a message is indexed under, if any (`node_name` after the type prefix). */
  function CullKey(m: Message): Option<string>
  {
    if m.className == BackgroundImageClass then Some(TypeString(m) + BackgroundImageName)
    else if m.name.Some? then Some(TypeString(m) + m.name.value)
    else None
  }

  datatype BufferState = BufferState(
    messageCounter: int,
    messageFromId: map<int, Message>,
    idFromName: map<string, int>)

  /**
   * Ids are below the counter, every indexed key maps to a buffered message with that
   * key, and every buffered message with a key is the one its key maps to.
   */
  predicate Valid(s: BufferState)
  {
    s.messageCounter >= 0 &&
    (forall id :: id in s.messageFromId ==>
       0 <= id < s.messageCounter &&
       (CullKey(s.messageFromId[id]).Some? ==>
          CullKey(s.messageFromId[id]).value in s.idFromName &&
          s.idFromName[CullKey(s.messageFromId[id]).value] == id)) &&
    (forall n :: n in s.idFromName ==>
       s.idFromName[n] in s.messageFromId && CullKey(s.messageFromId[s.idFromName[n]]) == Some(n))
  }

  /** The `(name, id)` pairs a removal with key `key` collects in `remove_list`. */
  function PrefixEntries(idFromName: map<string, int>, key: string): set<(string, int)>
  {
    set n | n in idFromName && StartsWith(n, key) :: (n, idFromName[n])
  }

  function Names(entries: set<(string, int)>): set<string>
  {
    set e | e in entries :: e.0
  }

  function Ids(entries: set<(string, int)>): set<int>
  {
    set e | e in entries :: e.1
  }

  /** Popping `key` from the index and its message from the buffer, if indexed. */
  function Cull(s: BufferState, key: string): (r: BufferState)
    ensures key !in r.idFromName && r.messageCounter == s.messageCounter
    ensures forall n :: n in s.idFromName && n != key ==> n in r.idFromName && r.idFromName[n] == s.idFromName[n]
    ensures r.idFromName.Keys <= s.idFromName.Keys && r.messageFromId.Keys <= s.messageFromId.Keys
  {
    if key in s.idFromName
    then s.(idFromName := s.idFromName - {key}, messageFromId := s.messageFromId - {s.idFromName[key]})
    else s
  }

  /** Popping every indexed entry whose key starts with `key`, and its message. */
  function Cascade(s: BufferState, key: string): (r: BufferState)
    ensures r.messageCounter == s.messageCounter
    ensures forall n :: n in s.idFromName && !StartsWith(n, key) ==> n in r.idFromName && r.idFromName[n] == s.idFromName[n]
    ensures r.idFromName.Keys <= s.idFromName.Keys && r.messageFromId.Keys <= s.messageFromId.Keys
  {
    var entries := PrefixEntries(s.idFromName, key);
    s.(idFromName := s.idFromName - Names(entries), messageFromId := s.messageFromId - Ids(entries))
  }

  /** `push`, stated on values. */
  function Pushed(s: BufferState, m: Message): (r: BufferState)
    ensures r.messageCounter == s.messageCounter + 1
    ensures CullKey(m).Some? ==> CullKey(m).value in r.idFromName && r.idFromName[CullKey(m).value] == s.messageCounter
  {
    var added := Added(s, m);
    match CullKey(m)
    case None => added
    case Some(key) =>
      var culled := Cull(added, key);
      var cascaded := if m.className == RemoveSceneNodeClass then Cascade(culled, key) else culled;
      cascaded.(idFromName := cascaded.idFromName[key := s.messageCounter])
  }

  /** The first steps of `push`: a reset empties the buffer, then the message is stored under the counter. */
  function Added(s: BufferState, m: Message): BufferState
  {
    var cleared := if m.className == ResetSceneClass then s.(messageFromId := map[], idFromName := map[]) else s;
    cleared.(messageFromId := cleared.messageFromId[s.messageCounter := m], messageCounter := s.messageCounter + 1)
  }

  /** Every push bumps the counter by exactly one and stores the pushed message under the old counter. */
  lemma PushStoresAndCounts(s: BufferState, m: Message)
    requires Valid(s)
    ensures Pushed(s, m).messageCounter == s.messageCounter + 1
    ensures s.messageCounter in Pushed(s, m).messageFromId && Pushed(s, m).messageFromId[s.messageCounter] == m
    ensures CullKey(m).Some? ==> Pushed(s, m).idFromName[CullKey(m).value] == s.messageCounter
  {
    var id := s.messageCounter;
    if m.className != ResetSceneClass && CullKey(m).Some? {
      var key := CullKey(m).value;
      var culledIds := (if key in s.idFromName then {s.idFromName[key]} else {}) +
                       Ids(PrefixEntries(s.idFromName - {key}, key));
      forall i | i in culledIds ensures i < id {
      }
    }
  }

  /** After a reset only the reset itself is buffered, and nothing is indexed. */
  lemma ResetLeavesOnlyItself(s: BufferState, m: Message)
    requires m.className == ResetSceneClass && m.name.None?
    ensures Pushed(s, m).messageFromId == map[s.messageCounter := m]
    ensures Pushed(s, m).idFromName == map[]
  {
  }

  /** Messages without a key are removed only by a reset. */
  lemma KeylessMessagesSurvive(s: BufferState, m: Message, id: int)
    requires Valid(s)
    requires id in s.messageFromId && CullKey(s.messageFromId[id]).None?
    requires m.className != ResetSceneClass
    ensures id in Pushed(s, m).messageFromId && Pushed(s, m).messageFromId[id] == s.messageFromId[id]
  {
    if CullKey(m).Some? {
      var key := CullKey(m).value;
      var culled := s.idFromName - {key};
      forall e | e in PrefixEntries(culled, key) ensures e.1 != id {
      }
    }
  }

  /**
   * A message with a key is removed only by a reset, by a push with the same key, or by
   * a scene-node removal whose key is a prefix of its key.
   */
  lemma KeyedMessagesSurvive(s: BufferState, m: Message, id: int)
    requires Valid(s)
    requires id in s.messageFromId && CullKey(s.messageFromId[id]).Some?
    requires m.className != ResetSceneClass
    requires CullKey(m).Some? ==> CullKey(s.messageFromId[id]) != CullKey(m)
    requires CullKey(m).Some? && m.className == RemoveSceneNodeClass ==>
               !StartsWith(CullKey(s.messageFromId[id]).value, CullKey(m).value)
    ensures id in Pushed(s, m).messageFromId && Pushed(s, m).messageFromId[id] == s.messageFromId[id]
  {
    var own := CullKey(s.messageFromId[id]).value;
    assert s.idFromName[own] == id;
    if CullKey(m).Some? {
      var key := CullKey(m).value;
      var added := Added(s, m);
      assert added.idFromName == s.idFromName && added.messageFromId[id] == s.messageFromId[id];
      assert key in s.idFromName ==> s.idFromName[key] != id;
      var culled := Cull(added, key);
      assert id in culled.messageFromId && culled.messageFromId[id] == s.messageFromId[id];
      if m.className == RemoveSceneNodeClass {
        forall e | e in PrefixEntries(culled.idFromName, key) ensures e.1 != id {
        }
      }
    }
  }

  /** Two buffered messages with the same key are the same message; in particular at most one background image is buffered. */
  lemma AtMostOnePerKey(s: BufferState, i: int, j: int)
    requires Valid(s)
    requires i in s.messageFromId && j in s.messageFromId
    requires CullKey(s.messageFromId[i]).Some? && CullKey(s.messageFromId[i]) == CullKey(s.messageFromId[j])
    ensures i == j
  {
  }

  lemma AtMostOneBackgroundImage(s: BufferState, i: int, j: int)
    requires Valid(s)
    requires i in s.messageFromId && j in s.messageFromId
    requires s.messageFromId[i].className == BackgroundImageClass && s.messageFromId[j].className == BackgroundImageClass
    ensures i == j
  {
    AtMostOnePerKey(s, i, j);
  }

  /** `Valid`, except that the message `id` is not yet indexed. */
  predicate ValidBut(s: BufferState, id: int)
  {
    s.messageCounter >= 0 &&
    (forall i :: i in s.messageFromId ==>
       0 <= i < s.messageCounter &&
       (i != id && CullKey(s.messageFromId[i]).Some? ==>
          CullKey(s.messageFromId[i]).value in s.idFromName &&
          s.idFromName[CullKey(s.messageFromId[i]).value] == i)) &&
    (forall n :: n in s.idFromName ==>
       s.idFromName[n] != id && s.idFromName[n] in s.messageFromId &&
       CullKey(s.messageFromId[s.idFromName[n]]) == Some(n))
  }

  lemma CullKeepsValidBut(s: BufferState, key: string, id: int)
    requires ValidBut(s, id)
    ensures ValidBut(Cull(s, key), id) && key !in Cull(s, key).idFromName
  {
  }

  lemma CascadeKeepsValidBut(s: BufferState, key: string, id: int)
    requires ValidBut(s, id)
    ensures ValidBut(Cascade(s, key), id) && Cascade(s, key).idFromName.Keys <= s.idFromName.Keys
  {
    var c := Cascade(s, key);
    var entries := PrefixEntries(s.idFromName, key);
    forall i | i in c.messageFromId && i != id && CullKey(c.messageFromId[i]).Some?
      ensures CullKey(c.messageFromId[i]).value in c.idFromName
    {
      var n := CullKey(c.messageFromId[i]).value;
      assert forall e | e in entries :: e.1 in Ids(entries);
      assert forall e | e in entries :: e.0 == n ==> e.1 == i;
      assert n !in Names(entries);
    }
    forall n | n in c.idFromName ensures c.idFromName[n] in c.messageFromId {
      var i := s.idFromName[n];
      assert forall e | e in entries :: e.0 in Names(entries);
      assert forall e | e in entries :: e.1 == i ==> e.0 == n;
      assert i !in Ids(entries);
    }
  }

  lemma IndexNewKeepsValid(s: BufferState, key: string, id: int)
    requires ValidBut(s, id) && key !in s.idFromName
    requires id in s.messageFromId && CullKey(s.messageFromId[id]) == Some(key)
    ensures Valid(s.(idFromName := s.idFromName[key := id]))
  {
  }

  /** `push` keeps the index consistent with the buffer, so every `pop` in it finds its key. */
  lemma {:induction false} PushKeepsValid(s: BufferState, m: Message)
    requires Valid(s)
    ensures Valid(Pushed(s, m))
  {
    var id := s.messageCounter;
    var added := Added(s, m);
    assert ValidBut(added, id);
    if CullKey(m).Some? {
      var key := CullKey(m).value;
      CullKeepsValidBut(added, key, id);
      var culled := Cull(added, key);
      var cascaded := if m.className == RemoveSceneNodeClass then Cascade(culled, key) else culled;
      if m.className == RemoveSceneNodeClass {
        CascadeKeepsValidBut(culled, key, id);
      }
      assert id in cascaded.messageFromId by {
        if m.className == RemoveSceneNodeClass {
          assert id !in Ids(PrefixEntries(culled.idFromName, key));
        }
      }
      IndexNewKeepsValid(cascaded, key, id);
    }
  }

  /** After a removal with key k, the only indexed key starting with k is k itself. */
  lemma RemovalCascades(s: BufferState, m: Message)
    requires m.className == RemoveSceneNodeClass && m.name.Some?
    ensures forall n :: n in Pushed(s, m).idFromName && StartsWith(n, CullKey(m).value) ==> n == CullKey(m).value
  {
    var key := CullKey(m).value;
    var added := s.(messageFromId := s.messageFromId[s.messageCounter := m], messageCounter := s.messageCounter + 1);
    var culled := Cull(added, key);
    forall n | n in culled.idFromName && StartsWith(n, key)
      ensures n in Names(PrefixEntries(culled.idFromName, key))
    {
      assert (n, culled.idFromName[n]) in PrefixEntries(culled.idFromName, key);
    }
  }

  const ExampleFrame := Message("FrameMessage", Some("/a/b"), "")
  const ExampleRemoveAb := Message(RemoveSceneNodeClass, Some("/ab"), "")
  const ExampleRemoveA := Message(RemoveSceneNodeClass, Some("/a"), "")

  /** The example's keys: the removal of "/a" prefixes the removal of "/ab" but not the frame, whose class differs. */
  lemma ExampleKeys()
    ensures var kFrame := CullKey(ExampleFrame).value;
            var kAb := CullKey(ExampleRemoveAb).value;
            var kA := CullKey(ExampleRemoveA).value;
            StartsWith(kAb, kA) && !StartsWith(kFrame, kA) && !StartsWith(kFrame, kAb) && kA != kAb
  {
    var kFrame := CullKey(ExampleFrame).value;
    var kAb := CullKey(ExampleRemoveAb).value;
    var kA := CullKey(ExampleRemoveA).value;
    assert kFrame[24] != kAb[24] && kFrame[24] != kA[24];
    assert |kA| < |kAb|;
  }

  /** A frame "/a/b" and then a removal of "/ab" are both kept and indexed. */
  lemma CascadeExampleSetup()
    ensures Pushed(Pushed(BufferState(0, map[], map[]), ExampleFrame), ExampleRemoveAb)
            == BufferState(2, map[0 := ExampleFrame, 1 := ExampleRemoveAb],
                           map[CullKey(ExampleFrame).value := 0, CullKey(ExampleRemoveAb).value := 1])
  {
    var s1 := Pushed(BufferState(0, map[], map[]), ExampleFrame);
    var kFrame := CullKey(ExampleFrame).value;
    var kAb := CullKey(ExampleRemoveAb).value;
    assert s1 == BufferState(1, map[0 := ExampleFrame], map[kFrame := 0]);
    ExampleKeys();
    assert PrefixEntries(s1.idFromName, kAb) == {};
  }

  /**
   * Because the key carries the class, removing "/a" does not drop a buffered frame
   * "/a/b", while it does drop an earlier removal of "/ab" (a string prefix, not a path
   * segment).
   */
  lemma CascadeIsPerClassStringPrefix()
    ensures var s := Pushed(Pushed(Pushed(BufferState(0, map[], map[]), ExampleFrame), ExampleRemoveAb), ExampleRemoveA);
      0 in s.messageFromId && 1 !in s.messageFromId && 2 in s.messageFromId
  {
    CascadeExampleSetup();
    var kFrame := CullKey(ExampleFrame).value;
    var kAb := CullKey(ExampleRemoveAb).value;
    var kA := CullKey(ExampleRemoveA).value;
    var s2 := BufferState(2, map[0 := ExampleFrame, 1 := ExampleRemoveAb], map[kFrame := 0, kAb := 1]);
    ExampleKeys();
    var added := Added(s2, ExampleRemoveA);
    assert added.idFromName == s2.idFromName && kA !in added.idFromName;
    assert PrefixEntries(added.idFromName, kA) == {(kAb, 1)};
  }


  class AsyncMessageBuffer {
    var messageCounter: int
    var messageFromId: map<int, Message>
    var idFromName: map<string, int>

    function State(): BufferState
      reads this
    {
      BufferState(messageCounter, messageFromId, idFromName)
    }

    constructor ()
      ensures State() == BufferState(0, map[], map[]) && Valid(State())
    {
      messageCounter := 0;
      messageFromId := map[];
      idFromName := map[];
    }

    method Push(message: Message)
      requires Valid(State())
      modifies this
      ensures State() == Pushed(old(State()), message)
      ensures Valid(State())
    {
      PushKeepsValid(State(), message);
      ghost var s0 := State();
      if message.className == ResetSceneClass {
        messageFromId := map[];
        idFromName := map[];
      }
      var newMessageId := messageCounter;
      messageFromId := messageFromId[newMessageId := message];
      messageCounter := messageCounter + 1;
      assert State() == Added(s0, message);
      var nodeName := CullKey(message);
      if nodeName.Some? {
        var key := nodeName.value;
        ghost var added := State();
        if key in idFromName {
          var oldMessageId := idFromName[key];
          idFromName := idFromName - {key};
          messageFromId := messageFromId - {oldMessageId};
        }
        assert State() == Cull(added, key);
        if message.className == RemoveSceneNodeClass {
          RemovePrefixed(key);
          assert State() == Cascade(Cull(added, key), key);
        }
        idFromName := idFromName[key := newMessageId];
      }
    }

    /** The two loops of the cascade: collect the `(name, id)` pairs, then pop each. */
    method RemovePrefixed(key: string)
      modifies this
      ensures messageCounter == old(messageCounter)
      ensures idFromName == old(idFromName) - Names(PrefixEntries(old(idFromName), key))
      ensures messageFromId == old(messageFromId) - Ids(PrefixEntries(old(idFromName), key))
    {
      var removeList: set<(string, int)> := {};
      var pending := idFromName.Keys;
      while pending != {}
        invariant pending <= idFromName.Keys
        invariant removeList == set n | n in idFromName && n !in pending && StartsWith(n, key) :: (n, idFromName[n])
        decreases pending
      {
        var n :| n in pending;
        if StartsWith(n, key) {
          removeList := removeList + {(n, idFromName[n])};
        }
        pending := pending - {n};
      }
      assert removeList == PrefixEntries(idFromName, key);
      var todo := removeList;
      while todo != {}
        invariant todo <= removeList
        invariant idFromName == old(idFromName) - Names(removeList - todo)
        invariant messageFromId == old(messageFromId) - Ids(removeList - todo)
        invariant messageCounter == old(messageCounter)
        decreases todo
      {
        var e :| e in todo;
        assert Names(removeList - (todo - {e})) == Names(removeList - todo) + {e.0};
        assert Ids(removeList - (todo - {e})) == Ids(removeList - todo) + {e.1};
        idFromName := idFromName - {e.0};
        messageFromId := messageFromId - {e.1};
        todo := todo - {e};
      }
      assert removeList - todo == removeList;
    }
  }
}
