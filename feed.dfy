/** The memories feed (`app/(tabs)/index.tsx`): the stored list, newest first, each card tagged
    with its category's emoji; a confirmed long press deletes a memory and reloads the list. */
module Feed {
  import opened Storage
  import AddMemory

  /** The emoji table of the feed's category tags. */
  const CategoryEmojis: map<string, string> := map[
    "sweet" := "💝",
    "proud" := "🌟",
    "funny" := "😄",
    "milestone" := "🎯",
    "creative" := "🎨",
    "kind" := "🫂"
  ]

  /** The tag of a category outside the table. */
  const DefaultEmoji: string := "✨"

  /** Names every plain JavaScript object inherits from `Object.prototype`. Looking one of them up
      on the emoji table yields the inherited member, which is truthy. */
  const ObjectPrototypeMembers: set<string> := {
    "constructor", "hasOwnProperty", "isPrototypeOf", "propertyIsEnumerable", "toLocaleString",
    "toString", "valueOf", "__proto__", "__defineGetter__", "__defineSetter__",
    "__lookupGetter__", "__lookupSetter__"
  }

  /** What the feed's lookup yields: text to show, or an inherited function or object. */
  datatype EmojiLookup = Emoji(text: string) | InheritedMember(name: string)

  /** The lookup as `getCategoryEmoji` writes it: index the table object, fall back to the default
      when the result is falsy. Inherited members are not falsy, so they are returned. */
  function LookupAsWritten(category: string): EmojiLookup
  {
    if category in CategoryEmojis then Emoji(CategoryEmojis[category])
    else if category in ObjectPrototypeMembers then InheritedMember(category)
    else Emoji(DefaultEmoji)
  }

  /** A stored category of "toString" gets no emoji: the lookup returns the inherited method. */
  lemma LookupAsWrittenMissesDefault()
    ensures "toString" !in CategoryEmojis
    ensures LookupAsWritten("toString") == InheritedMember("toString")
  {
  }

  /** The lookup as intended: a category's own entry in the table, or the default. */
  function CategoryEmoji(category: string): string
  {
    if category in CategoryEmojis then CategoryEmojis[category] else DefaultEmoji
  }

  /** Every category outside the table, whatever its name, is tagged with the default. */
  lemma UnknownCategoryGetsDefault(category: string)
    requires category !in CategoryEmojis
    ensures CategoryEmoji(category) == DefaultEmoji
  {
  }

  /** The two lookups agree exactly on the categories that are not inherited names. */
  lemma LookupAgreesOutsidePrototype(category: string)
    ensures LookupAsWritten(category) == Emoji(CategoryEmoji(category))
        <==> category in CategoryEmojis || category !in ObjectPrototypeMembers
  {
  }

  /** The six categories and their tags. */
  lemma KnownCategoryEmojis()
    ensures CategoryEmoji("sweet") == "💝" && CategoryEmoji("proud") == "🌟"
    ensures CategoryEmoji("funny") == "😄" && CategoryEmoji("milestone") == "🎯"
    ensures CategoryEmoji("creative") == "🎨" && CategoryEmoji("kind") == "🫂"
  {
  }

  /** Every category the add form offers has an entry in the table, and the feed tags it with
      the same emoji the form showed on its button. */
  lemma FormCategoriesHaveEmojis()
    ensures forall i :: 0 <= i < |AddMemory.Categories| ==>
      AddMemory.Categories[i].id in CategoryEmojis &&
      CategoryEmoji(AddMemory.Categories[i].id) == AddMemory.Categories[i].emoji
  {
  }

  class MemoriesScreen {
    const store: Store
    var memories: seq<Memory>

    constructor (store: Store)
      ensures this.store == store && memories == []
    {
      this.store := store;
      memories := [];
    }

    /** The feed shows the "no memories yet" notice exactly when its list is empty. */
    predicate ShowsEmptyState()
      reads this
    {
      |memories| == 0
    }

    /** `loadMemories`: the feed shows exactly what the store reads back. */
    method LoadMemories()
      modifies this`memories
      ensures memories == Read(store.memories)
      ensures ShowsEmptyState() <==> !store.memories.Stored? || store.memories.memories == []
    {
      memories := store.GetMemories();
    }

    /** `handleDeleteMemory`: delete from the store, then reload. After a successful delete the
        feed shows the store's former list without the record's id; after a failed one the store
        and the feed are as they were. */
    method HandleDeleteMemory(id: string, writeOk: bool) returns (r: WriteResult)
      modifies this`memories, store`memories
      ensures r == (if writeOk then Written else WriteFailed)
      ensures writeOk ==> store.memories == Stored(WithoutId(Read(old(store.memories)), id))
      ensures writeOk ==> memories == WithoutId(Read(old(store.memories)), id)
      ensures writeOk ==> forall m :: m in memories ==> m.id != id
      ensures !writeOk ==> store.memories == old(store.memories) && memories == old(memories)
    {
      r := store.DeleteMemory(id, writeOk);
      if r == Written {
        LoadMemories();
        DeleteCharacterization(Read(old(store.memories)), id);
      }
    }
  }
}
