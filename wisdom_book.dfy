/** The wisdom book (`app/(tabs)/wisdombook.tsx`): a fixed deck of parenting tips flipped by
    horizontal swipes, and a list of favourite tip ids toggled by the heart button. */
module WisdomBook {
  import opened Wrappers
  import opened Seqs
  import opened Storage

  datatype Tip = Tip(id: string, title: string, message: string, emoji: string)

  const ParentingTips: seq<Tip> := [
    Tip("1", "Learning Independence",
        "When she's taking forever to put on her shoes, remember: she's learning independence with each tiny struggle. Deep breath - she's not giving you a hard time, she's having a hard time.",
        "👟"),
    Tip("2", "Big Feelings",
        "During tantrums, remember that big emotions are hard for little hearts. You're her safe space to feel all feelings.",
        "💗"),
    Tip("3", "Growing Mind",
        "When she asks 'why' for the hundredth time, remember: her curiosity is building her understanding of the world.",
        "🌱"),
    Tip("4", "Little Helper",
        "When simple tasks take longer because she wants to help, remember: you're raising a person who wants to contribute.",
        "🌟"),
    Tip("5", "Gentle Reminder",
        "Your patience in her slow moments is teaching her it's okay to take the time she needs.",
        "🫂")
  ]

  /** A release must travel further than this, in either direction, to turn the page. */
  const SwipeThreshold: real := 50.0

  /** The page after a release with horizontal travel `dx` (negative is leftwards): a long
      swipe left moves to the next page unless this is the last, a long swipe right moves to the
      previous page unless this is the first, and any other release stays put. */
  function NextPage(page: int, dx: real): (r: int)
    ensures 0 <= page < |ParentingTips| ==> 0 <= r < |ParentingTips|
    ensures r == page + 1 <==> dx < -SwipeThreshold && page < |ParentingTips| - 1
    ensures r == page - 1 <==> dx > SwipeThreshold && page > 0
    ensures r == page <==> !(dx < -SwipeThreshold && page < |ParentingTips| - 1) && !(dx > SwipeThreshold && page > 0)
  {
    if dx < -SwipeThreshold && page < |ParentingTips| - 1 then page + 1
    else if dx > SwipeThreshold && page > 0 then page - 1
    else page
  }

  /** The page after the releases `dxs`, one after the other. */
  function AfterSwipes(page: int, dxs: seq<real>): int
    decreases |dxs|
  {
    if dxs == [] then page else AfterSwipes(NextPage(page, dxs[0]), dxs[1..])
  }

  /** No series of swipes leaves the deck, so `parentingTips[currentPage]` always exists. */
  lemma {:induction false} SwipesStayInDeck(page: int, dxs: seq<real>)
    requires 0 <= page < |ParentingTips|
    ensures 0 <= AfterSwipes(page, dxs) < |ParentingTips|
    decreases |dxs|
  {
    if dxs != [] {
      SwipesStayInDeck(NextPage(page, dxs[0]), dxs[1..]);
    }
  }

  /** `k` long swipes left from page `page` land `k` pages further on while the deck lasts. */
  lemma {:induction false} LeftSwipesAdvance(page: int, k: nat, dx: real)
    requires 0 <= page && page + k < |ParentingTips|
    requires dx < -SwipeThreshold
    ensures AfterSwipes(page, seq(k, _ => dx)) == page + k
    decreases k
  {
    if k > 0 {
      assert seq(k, _ => dx)[1..] == seq(k - 1, _ => dx);
      LeftSwipesAdvance(page + 1, k - 1, dx);
    }
  }

  /** A long swipe left followed by a long swipe right comes back to the same page, unless the
      first swipe was made on the last page. */
  lemma SwipeLeftThenRight(page: int, left: real, right: real)
    requires 0 <= page < |ParentingTips| - 1
    requires left < -SwipeThreshold && right > SwipeThreshold
    ensures AfterSwipes(page, [left, right]) == page
  {
    assert [left, right][1..] == [right];
    assert [right][1..] == [];
    assert AfterSwipes(page + 1, [right]) == AfterSwipes(page, []);
  }

  /** The favourites list after the heart button is pressed on tip `id`. */
  function Toggled(favorites: seq<string>, id: string): seq<string>
  {
    if id in favorites then Filter(favorites, (f: string) => f != id) else favorites + [id]
  }

  /** Toggling flips the membership of `id` and no other: a present id loses every copy, an
      absent one is appended at the end. */
  lemma ToggleFlipsOnlyId(favorites: seq<string>, id: string)
    ensures id in Toggled(favorites, id) <==> id !in favorites
    ensures forall x :: x != id ==> (x in Toggled(favorites, id) <==> x in favorites)
    ensures id in favorites ==> multiset(Toggled(favorites, id))[id] == 0
    ensures id !in favorites ==> Toggled(favorites, id) == favorites + [id]
  {
    FilterMembership(favorites, (f: string) => f != id);
    FilterCount(favorites, (f: string) => f != id);
  }

  /** Toggling twice gives every id its former membership. */
  lemma ToggleTwiceRestoresMembership(favorites: seq<string>, id: string)
    ensures forall x :: x in Toggled(Toggled(favorites, id), id) <==> x in favorites
  {
    ToggleFlipsOnlyId(favorites, id);
    ToggleFlipsOnlyId(Toggled(favorites, id), id);
  }

  /** Favouriting a tip and then un-favouriting it gives back the very same list. */
  lemma ToggleTwiceAbsentIsIdentity(favorites: seq<string>, id: string)
    requires id !in favorites
    ensures Toggled(Toggled(favorites, id), id) == favorites
  {
    var keep := (f: string) => f != id;
    FilterAppend(favorites, [id], keep);
    FilterKeepsAll(favorites, keep);
    assert [id][1..] == [];
    assert Filter([id], keep) == [];
  }

  /** Toggling never repeats an id. */
  lemma ToggleKeepsDistinct(favorites: seq<string>, id: string)
    requires Distinct(favorites)
    ensures Distinct(Toggled(favorites, id))
  {
    if id in favorites {
      FilterDistinct(favorites, (f: string) => f != id);
    } else {
      assert multiset(favorites)[id] == 0;
      assert multiset(favorites + [id]) == multiset(favorites) + multiset{id};
    }
  }

  class WisdomBookScreen {
    const store: Store
    var currentPage: int
    var favorites: seq<string>

    /** The page shown is a page of the deck, and no tip is favourited twice. */
    ghost predicate Valid()
      reads this
    {
      0 <= currentPage < |ParentingTips| && Distinct(favorites)
    }

    /** The favourites start empty: the screen never reads back `favorite_tips`. */
    constructor (store: Store)
      ensures Valid()
      ensures this.store == store && currentPage == 0 && favorites == []
    {
      this.store := store;
      currentPage := 0;
      favorites := [];
    }

    /** The tip on the page being shown. */
    function CurrentTip(): (t: Tip)
      reads this
      requires Valid()
      ensures t in ParentingTips
    {
      ParentingTips[currentPage]
    }

    /** `onPanResponderRelease`, with the page change its animation applies on completion. */
    method OnPanResponderRelease(dx: real)
      requires Valid()
      modifies this`currentPage
      ensures Valid()
      ensures currentPage == NextPage(old(currentPage), dx)
    {
      if dx < -SwipeThreshold && currentPage < |ParentingTips| - 1 {
        currentPage := currentPage + 1;
      } else if dx > SwipeThreshold && currentPage > 0 {
        currentPage := currentPage - 1;
      }
    }

    /** `toggleFavorite(id)`: the list on screen changes first; then exactly that list is
        persisted. A failed write is caught, and the list on screen keeps the change. */
    method ToggleFavorite(id: string, writeOk: bool)
      requires Valid()
      modifies this`favorites, store`favoriteTips
      ensures Valid()
      ensures favorites == Toggled(old(favorites), id)
      ensures store.favoriteTips == if writeOk then Some(favorites) else old(store.favoriteTips)
    {
      ToggleKeepsDistinct(favorites, id);
      var newFavorites := Toggled(favorites, id);
      favorites := newFavorites;
      if writeOk {
        store.favoriteTips := Some(newFavorites);
      }
    }
  }
}
