/** The memory store (`utils/storage.ts`) and the device's key-value storage it sits on.

    The key-value layer holds three keys. The memory collection key `lenabean_memories`
    holds a JSON array of memories; the model keeps its decoded value, or the fact that it
    cannot be read. The other two keys, `tips_enabled` and `favorite_tips`, are written by
    the reminders and wisdom-book screens directly. */
module Storage {
  import opened Wrappers
  import opened Seqs

  /** One journal entry. `imageUri` is absent when no photo was attached. */
  datatype Memory = Memory(id: string, content: string, category: string, date: string, imageUri: Option<string>)

  /** What the memory collection key holds: nothing, a readable array, or a value whose
      read or parse throws. */
  datatype Slot = Absent | Stored(memories: seq<Memory>) | Unreadable

  /** The outcome of a write: the key-value layer accepted it, or rejected it (`saveMemory` and `deleteMemory` rethrow). */
  datatype WriteResult = Written | WriteFailed

  /** The list `getMemories` yields for a slot: an absent or unreadable slot reads as empty. */
  function Read(slot: Slot): seq<Memory>
  {
    match slot
    case Stored(ms) => ms
    case _ => []
  }

  /** The list with every record carrying `id` left out. */
  function WithoutId(ms: seq<Memory>, id: string): seq<Memory>
  {
    Filter(ms, (m: Memory) => m.id != id)
  }

  /** Deleting by id removes every record with that id, keeps every copy of every other record
      and keeps the survivors in their original order. */
  lemma DeleteCharacterization(ms: seq<Memory>, id: string)
    ensures forall m :: multiset(WithoutId(ms, id))[m] == if m.id == id then 0 else multiset(ms)[m]
    ensures forall m :: m in WithoutId(ms, id) <==> m in ms && m.id != id
    ensures IsSubsequence(WithoutId(ms, id), ms)
  {
    FilterCount(ms, (m: Memory) => m.id != id);
    FilterMembership(ms, (m: Memory) => m.id != id);
    FilterIsSubsequence(ms, (m: Memory) => m.id != id);
  }

  /** Deleting an id no record carries leaves the list as it was. */
  lemma DeleteAbsentIsIdentity(ms: seq<Memory>, id: string)
    requires forall m :: m in ms ==> m.id != id
    ensures WithoutId(ms, id) == ms
  {
    FilterKeepsAll(ms, (m: Memory) => m.id != id);
  }

  lemma DeleteIdempotent(ms: seq<Memory>, id: string)
    ensures WithoutId(WithoutId(ms, id), id) == WithoutId(ms, id)
  {
    FilterIdempotent(ms, (m: Memory) => m.id != id);
  }

  /** Saving a record whose id is new and then deleting that id gives back the earlier list. */
  lemma DeleteUndoesSave(prior: seq<Memory>, m: Memory)
    requires forall x :: x in prior ==> x.id != m.id
    ensures WithoutId([m] + prior, m.id) == prior
  {
    DeleteAbsentIsIdentity(prior, m.id);
    assert ([m] + prior)[1..] == prior;
  }

  /** The list after a series of successful saves, made in the order of `adds`, starting from `prior`. */
  function AfterSaves(prior: seq<Memory>, adds: seq<Memory>): seq<Memory>
    decreases |adds|
  {
    if adds == [] then prior else AfterSaves([adds[0]] + prior, adds[1..])
  }

  /** Newest first: after a series of saves the list shows them in reverse order of saving,
      in front of what was there before. */
  lemma {:induction false} AfterSavesIsReversed(prior: seq<Memory>, adds: seq<Memory>)
    ensures AfterSaves(prior, adds) == Reverse(adds) + prior
    decreases |adds|
  {
    if adds != [] {
      AfterSavesIsReversed([adds[0]] + prior, adds[1..]);
      assert adds == [adds[0]] + adds[1..];
      assert Reverse(adds) == Reverse(adds[1..]) + [adds[0]];
      assert Reverse(adds[1..]) + ([adds[0]] + prior) == (Reverse(adds[1..]) + [adds[0]]) + prior;
    }
  }

  /** AsyncStorage as the app uses it. */
  class Store {
    /** key `lenabean_memories` */
    var memories: Slot
    /** key `tips_enabled`: the text last written, if any */
    var tipsEnabled: Option<string>
    /** key `favorite_tips`: the string array last written, if any */
    var favoriteTips: Option<seq<string>>

    /** A fresh installation: no key holds a value. */
    constructor ()
      ensures memories == Absent && tipsEnabled == None && favoriteTips == None
    {
      memories := Absent;
      tipsEnabled := None;
      favoriteTips := None;
    }

    /** `getMemories`: never fails; an absent or unreadable slot yields the empty list. */
    method GetMemories() returns (ms: seq<Memory>)
      ensures memories.Stored? ==> ms == memories.memories
      ensures memories.Absent? ==> ms == []
      ensures memories.Unreadable? ==> ms == []
    {
      ms := Read(memories);
    }

    /** `saveMemory`: read the list, put `m` in front, write the whole list back. There is no
        check that `m.id` is new. A failed write is reported and leaves the slot as it was. */
    method SaveMemory(m: Memory, writeOk: bool) returns (r: WriteResult)
      modifies this`memories
      ensures r == (if writeOk then Written else WriteFailed)
      ensures writeOk ==> memories == Stored([m] + Read(old(memories)))
      ensures writeOk && old(memories).Unreadable? ==> memories == Stored([m])
      ensures !writeOk ==> memories == old(memories)
    {
      var existing := GetMemories();
      var updated := [m] + existing;
      if writeOk {
        memories := Stored(updated);
        r := Written;
      } else {
        r := WriteFailed;
      }
    }

    /** `deleteMemory`: read the list, drop every record with `id`, write the list back.
        A failed write is reported and leaves the slot as it was. */
    method DeleteMemory(id: string, writeOk: bool) returns (r: WriteResult)
      modifies this`memories
      ensures r == (if writeOk then Written else WriteFailed)
      ensures writeOk ==> memories == Stored(WithoutId(Read(old(memories)), id))
      ensures !writeOk ==> memories == old(memories)
    {
      var existing := GetMemories();
      var updated := WithoutId(existing, id);
      if writeOk {
        memories := Stored(updated);
        r := Written;
      } else {
        r := WriteFailed;
      }
    }
  }

  /** The round trip of a first entry: save it into an empty store, list it, delete it, list again. */
  method FirstStepsScenario(id: string, date: string)
  {
    var store := new Store();
    var before := store.GetMemories();
    assert before == [];
    var m := Memory(id, "First steps", "milestone", date, None);
    var saved := store.SaveMemory(m, true);
    var listed := store.GetMemories();
    assert listed == [m];
    var deleted := store.DeleteMemory(id, true);
    DeleteUndoesSave([], m);
    var after := store.GetMemories();
    assert after == [];
  }
}
