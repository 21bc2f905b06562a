# LenaBean memories app — a Dafny model of its logic

LenaBean is a small React Native journaling app. A parent records short "memories" about a
child. Each memory has text, a category tag, a creation date and an optional photo. The app
keeps the memories as one list in the device's key-value storage, newest first. Four screens
use that list:

- the **feed** lists every memory, and a confirmed long press deletes one;
- the **add form** checks its input, builds a record and saves it;
- **reminders** shows "on this day" flashbacks and has a persisted switch for a daily
  notification;
- the **wisdom book** is a deck of five parenting tips. A swipe turns the page and a heart
  button toggles a favourite.

The project models the memory store and the logic of those four screens:

- `common.dfy`: `Option`, and sequence filtering with its lemmas. Filtering keeps exactly the
  accepted elements, in order, keeping every copy of each.
- `storage.dfy`: `Storage.Store`, the key-value storage. Its field `memories` holds the
  `lenabean_memories` slot, which is `Absent`, a stored list, or `Unreadable` (the read or
  the parse throws). The fields `tipsEnabled` and `favoriteTips` hold the other two keys. The
  class has the three store operations, read-modify-write each.
- `reminders.dfy`: the flashback filter, the tips switch, and the notification calls.
- `wisdom_book.dfy`: the page state machine and the favourites toggle.
- `feed.dfy`: the category emoji lookup, loading the feed, and delete-then-reload.
- `add_memory.dfy`: the form state, its guard, record construction, save and reset.

Each screen is a class whose fields are the screen's React state. Each handler is a method
whose `ensures` gives the new state of the screen and of the store. The pure parts
(filtering, the page step, the toggle, the lookups) are functions, and the lemmas beside
them prove their properties.

The outside world comes in as parameters:

- whether a storage write succeeds (`writeOk`);
- the clock-derived id and date of a new memory;
- the local calendar date of a stored ISO date (`dateOf`, where `None` stands for an invalid
  date);
- today's date;
- the swipe distance `dx` (a `real`);
- the image picker's answer.

The notification facility is `Reminders.NotificationCenter`. It keeps a log of the calls made
to it and a count of the pending reminders.

The comment at reminders.tsx:139 says the reminders are for the "next 7 days". The loop at
reminders.tsx:140-164 computes the same trigger time (the next 19:30) on every pass, so the
model makes seven identical schedule calls.

`Storage.FirstStepsScenario` is a worked example and not a member of the model. It starts from
an empty store, which lists `[]`. It saves a memory `m`, after which the store lists `[m]`. It
deletes `m`'s id, after which the store lists `[]` again.

## Model

| member | source | states |
|---|---|---|
| Storage.Store.GetMemories | storage.ts:29-37 | never fails: a stored list is returned as it is; an absent slot and an unreadable one (read or parse throws) both give `[]` |
| Storage.Store.SaveMemory | storage.ts:13-27 | on a successful write the slot holds `[m]` followed by the previous list, so the new record is at index 0 and the list has one more record. The id is not checked, so a duplicate id becomes a second record. An unreadable slot is overwritten by `[m]`. A failed write returns `WriteFailed` and leaves the slot unchanged |
| Storage.Store.DeleteMemory | storage.ts:39-48 | on a successful write the slot holds the previous list without the records that carry `id`; a failed write returns `WriteFailed` and leaves the slot unchanged |
| Storage.DeleteCharacterization | storage.ts:41-43 | after a delete no record carries `id`; every other record keeps all its copies; the survivors are a subsequence of the old list in the same order |
| Storage.DeleteAbsentIsIdentity | storage.ts:42-43 | deleting an id that no record carries leaves the list unchanged |
| Storage.DeleteIdempotent | storage.ts:42-43 | deleting the same id twice gives the same list as deleting it once |
| Storage.DeleteUndoesSave | storage.ts:13-48 | saving a record whose id is new and then deleting that id gives back the earlier list |
| Storage.AfterSavesIsReversed | storage.ts:16-22 | after a series of saves the list shows them newest first (the reverse of saving order), in front of the earlier list |
| Reminders.Flashbacks | reminders.tsx:113-118 | every result has a valid date with today's day and month and a strictly earlier year, so the current year is never returned |
| Reminders.FlashbacksExact | reminders.tsx:110-118 | a memory is in the result exactly when it is in the input and is a flashback (completeness and soundness); the result is an order-preserving subsequence of the input |
| Reminders.FlashbackExample | reminders.tsx:113-118 | with memories dated 2023-05-10 and 2024-05-10 and today 2024-05-10, only the 2023 memory is returned |
| Reminders.TipsFlagRoundTrip | reminders.tsx:98-134 | the text `toggleDailyTips(e)` persists (`"true"`/`"false"`) is read back by `loadTipsState` as `e` |
| Reminders.TipsNotificationCalls | reminders.tsx:136-168 | enabling makes one cancel-all and then exactly 7 schedule calls; disabling makes only the cancel-all |
| Reminders.NotificationCenter.CancelAllScheduled | reminders.tsx:137-137 | cancel-all leaves no pending reminder and is logged |
| Reminders.NotificationCenter.ScheduleNotification | reminders.tsx:157-163 | each schedule call adds one pending reminder and is logged |
| Reminders.RemindersScreen.constructor | reminders.tsx:82-84 | both switches start off and the flashback list starts empty |
| Reminders.RemindersScreen.LoadTipsState | reminders.tsx:98-107 | a stored `"true"` turns the switch on; any other stored text turns it off; no value leaves the switch as it was |
| Reminders.RemindersScreen.CheckAndLoadMemories | reminders.tsx:109-121 | the flashback list becomes the flashback filter applied to what `getMemories` returns |
| Reminders.RemindersScreen.SetFlashbacksEnabled | reminders.tsx:184-188 | the flashbacks switch changes only its own value, not the list shown |
| Reminders.RemindersScreen.ToggleDailyTips | reminders.tsx:131-174 | the switch takes the value `e` first. On a successful write `tips_enabled` holds `e`'s text. Then there is one cancel-all, and 7 schedules when enabling, leaving 7 (or 0) reminders pending. A failed write changes neither the key nor the notifications |
| WisdomBook.NextPage | wisdombook.tsx:61-87 | a release stays within the deck; it adds 1 exactly when `dx < -50` and the page is not the last; it subtracts 1 exactly when `dx > 50` and the page is not the first; in every other case the page is unchanged |
| WisdomBook.SwipesStayInDeck | wisdombook.tsx:62-102 | after any series of releases the page is still in `[0, 4]`, so `parentingTips[currentPage]` always exists |
| WisdomBook.LeftSwipesAdvance | wisdombook.tsx:62-70 | `k` long left swipes move exactly `k` pages on while the deck lasts, so every tip can be reached from page 0 |
| WisdomBook.SwipeLeftThenRight | wisdombook.tsx:62-79 | a long left swipe followed by a long right swipe returns to the starting page, unless the start was the last page |
| WisdomBook.ToggleFlipsOnlyId | wisdombook.tsx:92-94 | toggling flips the membership of `id` and of no other id; a present id loses every copy; an absent id is appended at the end |
| WisdomBook.ToggleTwiceRestoresMembership | wisdombook.tsx:92-94 | toggling the same id twice restores the membership of every id |
| WisdomBook.ToggleTwiceAbsentIsIdentity | wisdombook.tsx:92-94 | favouriting a tip that was not a favourite and then toggling it again gives back exactly the old list |
| WisdomBook.ToggleKeepsDistinct | wisdombook.tsx:92-94 | toggling never makes an id appear twice |
| WisdomBook.WisdomBookScreen.constructor | wisdombook.tsx:52-53 | the deck opens on page 0 with no favourites, and the stored favourites are not read back |
| WisdomBook.WisdomBookScreen.CurrentTip | wisdombook.tsx:102-102 | while the page is in the deck, the tip shown is one of the five tips |
| WisdomBook.WisdomBookScreen.OnPanResponderRelease | wisdombook.tsx:61-87 | the page becomes `NextPage(page, dx)`; the screen invariant (page in the deck, no repeated favourite) is kept |
| WisdomBook.WisdomBookScreen.ToggleFavorite | wisdombook.tsx:90-100 | the list on screen becomes the toggled list. On a successful write `favorite_tips` holds exactly that list. A failed write leaves the key unchanged, but the list on screen keeps the change |
| Feed.LookupAsWrittenMissesDefault | index.tsx:15-25 | the lookup as written gives the category `"toString"` the inherited method instead of `'✨'` |
| Feed.LookupAgreesOutsidePrototype | index.tsx:15-25 | the lookup as written and the intended own-entry lookup agree exactly on the categories that are in the table or are not inherited `Object.prototype` names |
| Feed.KnownCategoryEmojis | index.tsx:16-23 | each of the six categories gets its fixed emoji |
| Feed.UnknownCategoryGetsDefault | index.tsx:24-24 | with the intended lookup, every category outside the table gets `'✨'` |
| Feed.FormCategoriesHaveEmojis | add.tsx:17-24 | every category the add form offers has an entry in the feed's table, and the feed shows the same emoji as the form's button |
| Feed.MemoriesScreen.constructor | index.tsx:84-84 | the feed starts with an empty list |
| Feed.MemoriesScreen.LoadMemories | index.tsx:86-89 | the feed shows exactly what `getMemories` returns; the empty state shows exactly when that is `[]` |
| Feed.MemoriesScreen.HandleDeleteMemory | index.tsx:97-105 | after a successful delete the store and the feed both hold the store's former list without `id`, because the feed reloads from the store; after a failure both are unchanged |
| AddMemory.SaveButtonMatchesGuard | add.tsx:133-139 | the save button is disabled exactly when the save handler's guard would refuse |
| AddMemory.AddMemoryScreen.constructor | add.tsx:28-30 | the form starts with empty text, no category and no image |
| AddMemory.AddMemoryScreen.ChangeText | add.tsx:95-96 | typing replaces the form's text |
| AddMemory.AddMemoryScreen.SelectCategory | add.tsx:103-110 | pressing a category button selects that category's id |
| AddMemory.AddMemoryScreen.PickImage | add.tsx:32-43 | a picked image replaces the form's image; a cancelled pick leaves it |
| AddMemory.AddMemoryScreen.HandleSave | add.tsx:45-83 | empty text or no category is refused and the store is not touched. A valid form saves exactly one record, in front of the list, carrying the form's text and category and the given id, date and image. A failed save is reported and leaves the store alone. The form itself is unchanged in every case |
| AddMemory.AddMemoryScreen.AcknowledgeSaved | add.tsx:69-73 | after the success notice is acknowledged, the form is reset: text `""`, no category, no image |

## Findings

| source | as written | input that shows it | evidently intended | confidence | as-written member | corrected member |
|---|---|---|---|---|---|---|
| index.tsx:15-25 | the emoji lookup indexes a plain object literal and falls back to `'✨'` only when the result is falsy, so names inherited from `Object.prototype` return a function or an object | a stored memory whose category is `"toString"` (or `"__proto__"`, `"constructor"`, …); the store does not validate categories | a category outside the six gets `'✨'` | not executed; only reachable through stored data the add form cannot produce | Feed.LookupAsWrittenMissesDefault (on Feed.LookupAsWritten) | Feed.UnknownCategoryGetsDefault (on Feed.CategoryEmoji), related to the as-written lookup by Feed.LookupAgreesOutsidePrototype |

## Left out

- JSON and AsyncStorage as libraries: the slot keeps the decoded list. Three things share
  the `Unreadable` case, since `getMemories` gives `[]` for all of them: a parse error, a
  read fault, and the empty string (which is falsy). A read fault is therefore modelled as a
  lasting state of the slot. In the app, a passing `getItem` failure leaves the stored list in
  place, and the next read can return it again. In the model, an `Unreadable` slot reads as
  `[]` until a successful write replaces it.
- JSON text that parses to something other than an array of memories (`"null"`, an object):
  the model assumes every readable value is a list of memories.
- Races between overlapping asynchronous calls: there is no locking, and the model is
  sequential. This includes swipe animations that have not finished and two quick heart presses.
- The trigger time of the reminders and the random tip chosen as each notification's body.
  Failures of the notification facility are also left out: its calls always succeed.
- The notification permission request, handler registration and the received-notification
  listener (reminders.tsx:17-23, 91-95, 123-129): none of them affects the state modelled here.
- Date parsing, `toISOString`, `Date.now()` and the formatting of dates for display:
  `dateOf`, the id and the date are parameters.
- A failing read of `tips_enabled` in `loadTipsState`: it is caught and changes nothing, like
  an absent key, so the model treats it as absent.
- Rendering, styles, the `Animated` position value, `Alert` dialogs, navigation (`router.push`),
  the image picker's internals and the tab layout (`_layout.tsx`): they are UI only. Only their
  effect on state is modelled, for example the form reset that runs when the success dialog is
  acknowledged.
- How ids are generated: the id of a new memory is a parameter, and nothing in the app checks
  that it is unique. Storage.AfterSavesIsReversed shows that saves appear newest first whatever
  the ids are.
