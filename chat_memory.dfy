/**
 * Per-conversation chat memory: a map from conversation id to its message history,
 * each history capped at the newest `MaxMessages` entries.
 */
module ChatMemory {
  import opened Seqs
  import opened Messages

  const MaxMessages: nat := 10

  /** The newest `MaxMessages` entries of `h`, oldest first (what `splice(0, length - max)` leaves). */
  function Newest(h: seq<Message>): (r: seq<Message>)
    ensures |r| == if |h| <= MaxMessages then |h| else MaxMessages
  {
    if |h| > MaxMessages then h[|h| - MaxMessages..] else h
  }

  /** The kept entries are a suffix of the history: the newest ones, in their original order. */
  lemma NewestIsSuffix(h: seq<Message>)
    ensures Newest(h) == h[|h| - |Newest(h)|..]
  {
  }

  /**
   * Capping after every push is the same as capping once: trimming an already trimmed
   * history and then appending loses nothing the single trim would have kept.
   */
  lemma NewestStep(h: seq<Message>, m: Message)
    ensures Newest(Newest(h) + [m]) == Newest(h + [m])
  {
    var t := Newest(h);
    NewestIsSuffix(h);
    NewestIsSuffix(t + [m]);
    NewestIsSuffix(h + [m]);
    assert t + [m] == (h + [m])[|h| - |t|..];
    var x := Newest(t + [m]);
    var y := Newest(h + [m]);
    assert |x| == |y|;
    assert x == (h + [m])[|h| + 1 - |x|..];
  }

  /** Appending `ms` one message at a time, as repeated `addMessage` calls do. */
  function Replay(h: seq<Message>, ms: seq<Message>): (r: seq<Message>)
    ensures |h| <= MaxMessages ==> |r| <= MaxMessages
    ensures ms != [] ==> |r| >= 1 && r[|r| - 1] == ms[|ms| - 1]
    decreases |ms|
  {
    if ms == [] then h else Replay(Newest(h + [ms[0]]), ms[1..])
  }

  /**
   * Any sequence of appends to one conversation leaves exactly the newest `MaxMessages`
   * messages of everything appended, in the order they were appended.
   */
  lemma {:induction false} ReplayIsNewest(h: seq<Message>, ms: seq<Message>)
    ensures Replay(Newest(h), ms) == Newest(h + ms)
    decreases |ms|
  {
    if ms == [] {
      assert h + ms == h;
      NewestTwice(h);
    } else {
      var h1 := h + [ms[0]];
      calc {
        Replay(Newest(h), ms);
        Replay(Newest(Newest(h) + [ms[0]]), ms[1..]);
        { NewestStep(h, ms[0]); }
        Replay(Newest(h1), ms[1..]);
        { ReplayIsNewest(h1, ms[1..]); }
        Newest(h1 + ms[1..]);
        { assert h1 + ms[1..] == h + ms; }
        Newest(h + ms);
      }
    }
  }

  /** Trimming is idempotent. */
  lemma NewestTwice(h: seq<Message>)
    ensures Newest(Newest(h)) == Newest(h)
  {
  }

  class ChatMemoryService {
    /** Conversation id to its history. */
    var memoryStore: map<int, seq<Message>>
    /** The ids of `memoryStore` in insertion order (the iteration order of a JS `Map`). */
    var keyOrder: seq<int>

    ghost predicate Valid()
      reads this
    {
      && NoDuplicates(keyOrder)
      && (forall id :: id in memoryStore <==> id in keyOrder)
      && (forall id :: id in memoryStore ==> |memoryStore[id]| <= MaxMessages)
    }

    constructor ()
      ensures Valid() && memoryStore == map[] && keyOrder == []
    {
      memoryStore := map[];
      keyOrder := [];
    }

    /** `getHistory`: the stored history, or the empty history for an unknown id. */
    function GetHistory(memoryId: int): (r: seq<Message>)
      reads this
      requires Valid()
      ensures |r| <= MaxMessages
      ensures memoryId !in keyOrder ==> r == []
    {
      if memoryId in memoryStore then memoryStore[memoryId] else []
    }

    /** `addMessage`: push the message, then drop the oldest entries beyond the cap. */
    method AddMessage(memoryId: int, message: Message)
      requires Valid()
      modifies this
      ensures Valid()
      ensures memoryStore == old(memoryStore)[memoryId := Newest(old(GetHistory(memoryId)) + [message])]
      ensures keyOrder == if memoryId in old(keyOrder) then old(keyOrder) else old(keyOrder) + [memoryId]
      ensures forall id :: id != memoryId ==> GetHistory(id) == old(GetHistory(id))
    {
      if memoryId !in memoryStore {
        memoryStore := memoryStore[memoryId := []];
        keyOrder := keyOrder + [memoryId];
      }
      var history := memoryStore[memoryId];
      history := history + [message];
      if |history| > MaxMessages {
        history := history[|history| - MaxMessages..];
      }
      memoryStore := memoryStore[memoryId := history];
    }

    /** `clearHistory`: forget one conversation. */
    method ClearHistory(memoryId: int)
      requires Valid()
      modifies this
      ensures Valid()
      ensures memoryStore == old(memoryStore) - {memoryId}
      ensures keyOrder == RemoveFirst(old(keyOrder), memoryId)
      ensures GetHistory(memoryId) == []
      ensures forall id :: id != memoryId ==> GetHistory(id) == old(GetHistory(id))
    {
      RemoveFirstMembers(keyOrder, memoryId);
      memoryStore := memoryStore - {memoryId};
      keyOrder := RemoveFirst(keyOrder, memoryId);
    }

    /** `getAllMemoryIds`: every id with a history, each once, in insertion order. */
    method GetAllMemoryIds() returns (ids: seq<int>)
      requires Valid()
      ensures forall id :: id in ids <==> id in memoryStore
      ensures NoDuplicates(ids)
      ensures ids == keyOrder
    {
      ids := keyOrder;
    }
  }
}
