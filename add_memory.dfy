/** The add-memory form (`app/(tabs)/add.tsx`): text, one category from a fixed list and an
    optional photo; saving checks the form, builds the record and hands it to the store. */
module AddMemory {
  import opened Wrappers
  import opened Storage

  datatype Category = Category(id: string, caption: string, emoji: string)

  /** The categories the form offers, in display order. */
  const Categories: seq<Category> := [
    Category("sweet", "Sweet", "💝"),
    Category("funny", "Funny", "😄"),
    Category("proud", "Proud", "🌟"),
    Category("milestone", "Milestone", "🎯"),
    Category("creative", "Creative", "🎨"),
    Category("kind", "Kind", "🫂")
  ]

  /** The save handler's guard: the text is not empty and a category is chosen (an empty or
      missing value is falsy in JavaScript). */
  predicate CanSave(content: string, category: Option<string>)
  {
    content != "" && category.Some? && category.value != ""
  }

  /** The save button's `disabled` flag, written out separately in the form markup. */
  predicate SaveButtonDisabled(content: string, category: Option<string>)
  {
    content == "" || category == None || category == Some("")
  }

  /** The button is disabled exactly when the handler would refuse to save. */
  lemma SaveButtonMatchesGuard(content: string, category: Option<string>)
    ensures SaveButtonDisabled(content, category) <==> !CanSave(content, category)
  {
  }

  /** The record a valid form produces. The id (the current time in milliseconds, as text)
      and the ISO date come from the clock and are given by the caller. */
  function NewMemory(id: string, content: string, category: string, date: string, image: Option<string>): Memory
  {
    Memory(id, content, category, date, image)
  }

  datatype SaveOutcome = MissingInfo | Saved | SaveFailed

  class AddMemoryScreen {
    const store: Store
    var memory: string
    var selectedCategory: Option<string>
    var image: Option<string>

    constructor (store: Store)
      ensures this.store == store
      ensures memory == "" && selectedCategory == None && image == None
    {
      this.store := store;
      memory := "";
      selectedCategory := None;
      image := None;
    }

    method ChangeText(text: string)
      modifies this`memory
      ensures memory == text
    {
      memory := text;
    }

    /** Pressing the `index`-th category button. */
    method SelectCategory(index: nat)
      requires index < |Categories|
      modifies this`selectedCategory
      ensures selectedCategory == Some(Categories[index].id)
    {
      selectedCategory := Some(Categories[index].id);
    }

    /** The picker's answer: the chosen image's uri, or `None` when the user cancelled. */
    method PickImage(picked: Option<string>)
      modifies this`image
      ensures image == if picked.Some? then picked else old(image)
    {
      if picked.Some? {
        image := picked;
      }
    }

    /** `handleSave`. An incomplete form is refused before the store is touched. A complete one
        is saved as one new record at the front of the list. A failed save is reported. In every
        case the form keeps its contents: it is cleared only once the user acknowledges success. */
    method HandleSave(id: string, date: string, writeOk: bool) returns (r: SaveOutcome)
      modifies store`memories
      ensures r == MissingInfo <==> !CanSave(memory, selectedCategory)
      ensures r == Saved <==> CanSave(memory, selectedCategory) && writeOk
      ensures r == Saved ==>
        store.memories == Stored([NewMemory(id, memory, selectedCategory.value, date, image)] + Read(old(store.memories)))
      ensures r == Saved ==> |Read(store.memories)| == |Read(old(store.memories))| + 1
      ensures r == Saved ==>
        var saved := Read(store.memories)[0];
        saved.id == id && saved.content == memory && saved.category == selectedCategory.value &&
        saved.date == date && saved.imageUri == image
      ensures r != Saved ==> store.memories == old(store.memories)
      ensures memory == old(memory) && selectedCategory == old(selectedCategory) && image == old(image)
    {
      if !CanSave(memory, selectedCategory) {
        return MissingInfo;
      }
      var newMemory := NewMemory(id, memory, selectedCategory.value, date, image);
      var written := store.SaveMemory(newMemory, writeOk);
      r := if written == Written then Saved else SaveFailed;
    }

    /** The "OK" of the success notice: the form is cleared. */
    method AcknowledgeSaved()
      modifies this`memory, this`selectedCategory, this`image
      ensures memory == "" && selectedCategory == None && image == None
    {
      memory := "";
      selectedCategory := None;
      image := None;
    }
  }
}
