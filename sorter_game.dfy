/**
 * The sorting game for young players: each level shows six items and two
 * categories, and the player drags every item into the bucket of its category.
 * A correct drop earns XP and moves the item into the bucket; a wrong one
 * shakes it. Sorting the whole level earns a bonus and unlocks the next level.
 */
module SorterGame {
  import opened Wrappers
  import opened Seqs
  import opened Random
  import opened Progression

  datatype Item = Item(id: string, emoji: string, category: string)

  datatype Category = Category(id: string, name: string, emoji: string, color: string)

  datatype Level = Level(name: string, categories: seq<Category>, items: seq<Item>)

  const COLOURS: Level := Level("צבעים",
    [Category("red", "אדום", "🔴", "bg-red-200 border-red-400"),
     Category("blue", "כחול", "🔵", "bg-blue-200 border-blue-400")],
    [Item("1", "🍎", "red"), Item("2", "🍓", "red"), Item("3", "❤️", "red"),
     Item("4", "🧢", "blue"), Item("5", "🐳", "blue"), Item("6", "💙", "blue")])

  const SHAPES: Level := Level("צורות",
    [Category("circle", "עיגול", "⭕", "bg-green-200 border-green-400"),
     Category("square", "ריבוע", "⬜", "bg-yellow-200 border-yellow-400")],
    [Item("1", "🔴", "circle"), Item("2", "🟠", "circle"), Item("3", "⚽", "circle"),
     Item("4", "📦", "square"), Item("5", "🎁", "square"), Item("6", "📱", "square")])

  const ANIMALS: Level := Level("חיות",
    [Category("land", "יבשה", "🌳", "bg-green-200 border-green-400"),
     Category("sea", "ים", "🌊", "bg-blue-200 border-blue-400")],
    [Item("1", "🦁", "land"), Item("2", "🐘", "land"), Item("3", "🐕", "land"),
     Item("4", "🐠", "sea"), Item("5", "🐙", "sea"), Item("6", "🐳", "sea")])

  const LEVELS: seq<Level> := [COLOURS, SHAPES, ANIMALS]

  /** The game id under which the sorter's levels are unlocked. */
  const GAME_ID: string := "sorter"

  /** Milliseconds before the completion screen and before the shake stops. */
  const DELAY: nat := 500

  function ItemIds(items: seq<Item>): seq<string> {
    MapSeq((i: Item) => i.id, items)
  }

  function CategoryIds(level: Level): set<string> {
    set c | c in level.categories :: c.id
  }

  /**
   * Six items, each of one of the level's categories, no two with the same
   * id.
   */
  predicate WellFormed(level: Level) {
    && |level.items| == 6
    && (forall i :: i in level.items ==> i.category in CategoryIds(level))
    && Distinct(ItemIds(level.items))
  }

  /** Six items with ids "1" to "6", the first three in one category and the rest in another. */
  lemma SixItemsWellFormed(level: Level)
    requires |level.items| == 6 && |level.categories| == 2
    requires forall k :: 0 <= k < 3 ==> level.items[k].category == level.categories[0].id
    requires forall k :: 3 <= k < 6 ==> level.items[k].category == level.categories[1].id
    requires ItemIds(level.items) == ["1", "2", "3", "4", "5", "6"]
    ensures WellFormed(level)
  {
    forall i | i in level.items ensures i.category in CategoryIds(level) {
      var k :| 0 <= k < 6 && level.items[k] == i;
      if k < 3 {
        assert level.categories[0] in level.categories;
      } else {
        assert level.categories[1] in level.categories;
      }
    }
  }

  lemma LevelsWellFormed(l: nat)
    requires l < |LEVELS|
    ensures WellFormed(LEVELS[l])
  {
    if l == 0 {
      SixItemsWellFormed(COLOURS);
    } else if l == 1 {
      SixItemsWellFormed(SHAPES);
    } else {
      SixItemsWellFormed(ANIMALS);
    }
  }

  /** `Object.fromEntries(level.categories.map(c => [c.id, []]))`: an empty bucket per category. */
  function EmptyBuckets(level: Level): (buckets: map<string, seq<Item>>)
    ensures buckets.Keys == CategoryIds(level)
    ensures forall c :: c in buckets ==> buckets[c] == []
  {
    map c | c in CategoryIds(level) :: []
  }

  /** The ids of all items in any bucket. */
  function SortedIds(buckets: map<string, seq<Item>>): set<string> {
    set c, i | c in buckets && i in buckets[c] :: i.id
  }

  /** `items.filter(i => i.id !== id)`. */
  function WithoutId(items: seq<Item>, id: string): (r: seq<Item>)
    ensures |r| <= |items|
  {
    if items == [] then []
    else (if items[0].id == id then [] else [items[0]]) + WithoutId(items[1..], id)
  }

  lemma {:induction false} WithoutIdConcat(a: seq<Item>, b: seq<Item>, id: string)
    ensures WithoutId(a + b, id) == WithoutId(a, id) + WithoutId(b, id)
  {
    if a == [] {
      assert a + b == b;
    } else {
      assert (a + b)[0] == a[0] && (a + b)[1..] == a[1..] + b;
      WithoutIdConcat(a[1..], b, id);
    }
  }

  /** The filtered sequence holds exactly the items whose id differs. */
  lemma {:induction false} WithoutIdMembers(items: seq<Item>, id: string, i: Item)
    ensures i in WithoutId(items, id) <==> i in items && i.id != id
  {
    if items != [] {
      WithoutIdMembers(items[1..], id, i);
      assert items == [items[0]] + items[1..];
    }
  }

  /**
   * The pile of items still to sort: `items` without every item whose id is
   * already in a bucket.
   */
  function Unsorted(items: seq<Item>, sorted: set<string>): (r: seq<Item>)
    ensures |r| <= |items|
  {
    if items == [] then []
    else (if items[0].id in sorted then [] else [items[0]]) + Unsorted(items[1..], sorted)
  }

  /** The pile holds exactly the items whose id is not sorted. */
  lemma {:induction false} UnsortedMembers(items: seq<Item>, sorted: set<string>, i: Item)
    ensures i in Unsorted(items, sorted) <==> i in items && i.id !in sorted
  {
    if items != [] {
      UnsortedMembers(items[1..], sorted, i);
      assert items == [items[0]] + items[1..];
    }
  }

  /** Putting an item in a bucket adds exactly its id to the sorted ids. */
  lemma SortedIdsAppend(buckets: map<string, seq<Item>>, c: string, item: Item)
    requires c in buckets
    ensures SortedIds(buckets[c := buckets[c] + [item]]) == SortedIds(buckets) + {item.id}
  {
    var after := buckets[c := buckets[c] + [item]];
    forall id | id in SortedIds(after) ensures id in SortedIds(buckets) + {item.id} {
      var d: string, i: Item :| d in after && i in after[d] && i.id == id;
      if d != c || i != item {
        assert i in buckets[d];
      }
    }
    forall id | id in SortedIds(buckets) + {item.id} ensures id in SortedIds(after) {
      if id == item.id {
        assert item in after[c];
      } else {
        var d: string, i: Item :| d in buckets && i in buckets[d] && i.id == id;
        assert i in after[d];
      }
    }
  }

  /** Sorting one more id takes exactly the items with that id off the pile. */
  lemma {:induction false} UnsortedAdd(items: seq<Item>, sorted: set<string>, id: string)
    ensures Unsorted(items, sorted + {id}) == WithoutId(Unsorted(items, sorted), id)
  {
    if items != [] {
      UnsortedAdd(items[1..], sorted, id);
      var head := if items[0].id in sorted then [] else [items[0]];
      var rest := Unsorted(items[1..], sorted);
      WithoutIdConcat(head, rest, id);
      if head != [] {
        assert head[1..] == [];
      }
    }
  }

  /** The pile keeps the order of `items`, so it keeps their ids distinct. */
  lemma {:induction false} UnsortedDistinct(items: seq<Item>, sorted: set<string>)
    requires Distinct(ItemIds(items))
    ensures Distinct(ItemIds(Unsorted(items, sorted)))
  {
    if items != [] {
      assert ItemIds(items) == [items[0].id] + ItemIds(items[1..]);
      assert Distinct(ItemIds(items[1..]));
      UnsortedDistinct(items[1..], sorted);
      var rest := Unsorted(items[1..], sorted);
      if items[0].id !in sorted {
        assert items[0].id !in ItemIds(rest) by {
          forall k | 0 <= k < |rest| ensures rest[k].id != items[0].id {
            UnsortedMembers(items[1..], sorted, rest[k]);
            var j :| 0 <= j < |items[1..]| && items[1..][j] == rest[k];
            assert ItemIds(items)[j + 1] == rest[k].id;
          }
        }
        assert ItemIds([items[0]] + rest) == [items[0].id] + ItemIds(rest);
        DistinctAppend([items[0].id], ItemIds(rest));
      }
    }
  }

  /** Filtering out the id of an item of a sequence without repeated ids removes that item only. */
  lemma {:induction false} WithoutIdLength(items: seq<Item>, item: Item)
    requires Distinct(ItemIds(items)) && item in items
    ensures |WithoutId(items, item.id)| == |items| - 1
  {
    assert ItemIds(items) == [items[0].id] + ItemIds(items[1..]);
    assert Distinct(ItemIds(items[1..]));
    if items[0] == item {
      assert WithoutId(items[1..], item.id) == items[1..] by {
        WithoutIdKeepsAll(items[1..], item.id);
      }
    } else {
      assert items[0].id != item.id by {
        var j :| 0 <= j < |items| && items[j] == item;
        assert ItemIds(items)[j] == item.id;
      }
      WithoutIdLength(items[1..], item);
    }
  }

  lemma {:induction false} WithoutIdKeepsAll(items: seq<Item>, id: string)
    requires id !in ItemIds(items)
    ensures WithoutId(items, id) == items
  {
    if items != [] {
      assert ItemIds(items)[0] == items[0].id;
      assert ItemIds(items[1..]) == ItemIds(items)[1..];
      WithoutIdKeepsAll(items[1..], id);
    }
  }

  // ---------------------------------------------------------------------------
  // Completion
  // ---------------------------------------------------------------------------

  /**
   * The completion check as written: `items.filter(i => i.id !== item.id)` is
   * empty. `items` always holds the whole level, so for any item of a level
   * some other item stays: the check never succeeds.
   */
  lemma CompletionAsWrittenNeverFires(l: nat, items: seq<Item>, item: Item)
    requires l < |LEVELS| && multiset(items) == multiset(LEVELS[l].items)
    ensures WithoutId(items, item.id) != []
  {
    var level := LEVELS[l].items;
    LevelsWellFormed(l);
    assert ItemIds(level)[0] != ItemIds(level)[1];
    OtherIdStays(level, items, item);
  }

  /** When the deal holds two items with different ids, one of them survives the filter. */
  lemma OtherIdStays(level: seq<Item>, items: seq<Item>, item: Item)
    requires |level| >= 2 && level[0].id != level[1].id
    requires multiset(items) == multiset(level)
    ensures WithoutId(items, item.id) != []
  {
    var first, second := level[0], level[1];
    assert first in multiset(items) && second in multiset(items);
    WithoutIdMembers(items, item.id, first);
    WithoutIdMembers(items, item.id, second);
  }

  /**
   * The completion check as intended: the pile left after the drop is empty.
   * For a pile without repeated ids and a dropped item on it, that happens
   * exactly when the item was the last one on the pile.
   */
  lemma LastDropCompletes(items: seq<Item>, sorted: set<string>, item: Item)
    requires Distinct(ItemIds(items)) && item in Unsorted(items, sorted)
    ensures |Unsorted(items, sorted + {item.id})| == |Unsorted(items, sorted)| - 1
    ensures Unsorted(items, sorted + {item.id}) == [] <==> |Unsorted(items, sorted)| == 1
  {
    UnsortedAdd(items, sorted, item.id);
    UnsortedDistinct(items, sorted);
    WithoutIdLength(Unsorted(items, sorted), item);
  }

  /**
   * A level laid out: the items are the level's in some order, without
   * repeated ids; there is a bucket per category, every item's category has
   * one, and each bucket holds only items of its category.
   */
  predicate Dealt(level: Level, items: seq<Item>, buckets: map<string, seq<Item>>) {
    && multiset(items) == multiset(level.items)
    && Distinct(ItemIds(items))
    && buckets.Keys == CategoryIds(level)
    && (forall i :: i in items ==> i.category in buckets)
    && (forall c, i :: c in buckets && i in buckets[c] ==> i in items && i.category == c)
  }

  /** A well-formed level shuffled, with empty buckets, is laid out, and nothing is sorted yet. */
  lemma ShuffledDealt(level: Level, draws: seq<Draw>)
    requires WellFormed(level) && |draws| >= |level.items| - 1
    ensures Dealt(level, Shuffled(level.items, draws), EmptyBuckets(level))
    ensures SortedIds(EmptyBuckets(level)) == {}
    ensures Unsorted(Shuffled(level.items, draws), {}) == Shuffled(level.items, draws)
  {
    var items := Shuffled(level.items, draws);
    ShuffledPermutation(level.items, draws);
    ShuffledMap((i: Item) => i.id, level.items, draws);
    ShuffledDistinct(ItemIds(level.items), draws);
    forall i | i in items ensures i.category in EmptyBuckets(level) {
      assert i in multiset(level.items);
    }
    UnsortedNone(items);
  }

  /** Putting an item of the deal in its own category's bucket keeps the level laid out. */
  lemma DropDealt(level: Level, items: seq<Item>, buckets: map<string, seq<Item>>, item: Item)
    requires Dealt(level, items, buckets) && item in items
    ensures item.category in buckets
    ensures Dealt(level, items, buckets[item.category := buckets[item.category] + [item]])
  {
  }

  /** A drop of a pile item on its own bucket keeps the deal and takes exactly that item off the pile. */
  lemma DropFacts(level: Level, items: seq<Item>, buckets: map<string, seq<Item>>, item: Item)
    requires Dealt(level, items, buckets) && item in Unsorted(items, SortedIds(buckets))
    ensures item.category in buckets
    ensures var after := buckets[item.category := buckets[item.category] + [item]];
      && Dealt(level, items, after)
      && |Unsorted(items, SortedIds(after))| == |Unsorted(items, SortedIds(buckets))| - 1
      && (Unsorted(items, SortedIds(after)) == [] <==> |Unsorted(items, SortedIds(buckets))| == 1)
  {
    UnsortedMembers(items, SortedIds(buckets), item);
    DropDealt(level, items, buckets, item);
    SortedIdsAppend(buckets, item.category, item);
    LastDropCompletes(items, SortedIds(buckets), item);
  }

  /** What a drop schedules. */
  datatype Followup = NoFollowup | CompleteAfter(delay: nat) | UnshakeAfter(delay: nat)

  class Game {
    var currentLevel: nat
    var items: seq<Item>
    var sortedItems: map<string, seq<Item>>
    var shake: Option<string>
    var showComplete: bool

    /**
     * The items are the current level's, shuffled; there is a bucket per
     * category of the level, and each bucket holds only items of its category.
     */
    predicate Valid()
      reads this
    {
      currentLevel < |LEVELS| && Dealt(LEVELS[currentLevel], items, sortedItems)
    }

    /** The pile the player still drags from. */
    function Pile(): seq<Item>
      reads this
    {
      Unsorted(items, SortedIds(sortedItems))
    }

    /**
     * The component's initial state, before the first level is laid out. The
     * effect on `currentLevel` lays it out: the caller's next call is
     * `ResetLevel`.
     */
    constructor ()
      ensures currentLevel == 0 && items == [] && sortedItems == map[]
      ensures shake == None && !showComplete
    {
      currentLevel := 0;
      items := [];
      sortedItems := map[];
      shake := None;
      showComplete := false;
    }

    /** `resetLevel`: the level's items shuffled with `draws`, every bucket empty. */
    method ResetLevel(draws: seq<Draw>)
      requires currentLevel < |LEVELS|
      requires |draws| >= |LEVELS[currentLevel].items| - 1
      modifies this
      ensures currentLevel == old(currentLevel)
      ensures items == Shuffled(LEVELS[old(currentLevel)].items, draws)
      ensures sortedItems == EmptyBuckets(LEVELS[old(currentLevel)])
      ensures !showComplete
      ensures shake == old(shake)
      ensures Pile() == items
      ensures Valid()
    {
      LevelsWellFormed(currentLevel);
      LayOut(LEVELS[currentLevel], draws);
    }

    /** The body of `resetLevel` for a given level. */
    method LayOut(level: Level, draws: seq<Draw>)
      requires WellFormed(level) && |draws| >= |level.items| - 1
      modifies this
      ensures items == Shuffled(level.items, draws) && sortedItems == EmptyBuckets(level)
      ensures !showComplete
      ensures currentLevel == old(currentLevel) && shake == old(shake)
      ensures Unsorted(items, SortedIds(sortedItems)) == items
      ensures Dealt(level, items, sortedItems)
    {
      var dealt := ShuffleArray(level.items, draws);
      var buckets := EmptyBuckets(level);
      ShuffledDealt(level, draws);
      items, sortedItems := dealt, buckets;
      showComplete := false;
    }

    /**
     * `handleDragEnd`: a drop on no bucket is ignored. A drop on the item's own
     * category puts it at the end of that bucket only and earns 10 `sorting`
     * XP; the completion test as written filters the whole level, so it never
     * schedules the completion, not even when the pile becomes empty. A drop
     * on another bucket changes no bucket, shakes the item and records a 0-XP
     * `sorting` attempt.
     */
    method HandleDragEnd(item: Item, over: Option<string>, store: GameStore, today: string) returns (next: Followup)
      requires Valid() && item in Pile()
      modifies this, store
      ensures Valid()
      ensures currentLevel == old(currentLevel) && items == old(items) && showComplete == old(showComplete)
      ensures over == None ==>
        next == NoFollowup && store.State() == old(store.State())
        && sortedItems == old(sortedItems) && shake == old(shake)
      ensures over == Some(item.category) ==>
        && item.category in old(sortedItems)
        && sortedItems == old(sortedItems)[item.category := old(sortedItems)[item.category] + [item]]
        && store.State() == AddXPStep(old(store.State()), 10, Some("sorting"), Some(true), today)
        && |Pile()| == |old(Pile())| - 1
        && (Pile() == [] <==> |old(Pile())| == 1)
        && next == NoFollowup
        && shake == old(shake)
      ensures over.Some? && over.value != item.category ==>
        && sortedItems == old(sortedItems)
        && store.State() == AddXPStep(old(store.State()), 0, Some("sorting"), Some(false), today)
        && shake == Some(item.id) && next == UnshakeAfter(500)
    {
      if over == None {
        return NoFollowup;
      }
      if item.category == over.value {
        next := SortItem(item, store, today);
      } else {
        shake := Some(item.id);
        store.AddXP(0, Some("sorting"), Some(false), today);
        next := UnshakeAfter(DELAY);
      }
    }

    /**
     * A drop on the item's own bucket: the item joins it and earns 10
     * `sorting` XP. The completion test filters `items`, the whole level, by
     * the dropped id; a level has more than one id, so the test always fails
     * and no completion is scheduled, even after the last drop.
     */
    method SortItem(item: Item, store: GameStore, today: string) returns (next: Followup)
      requires Valid() && item in Pile()
      modifies this, store
      ensures Valid()
      ensures currentLevel == old(currentLevel) && items == old(items) && showComplete == old(showComplete)
      ensures item.category in old(sortedItems)
      ensures sortedItems == old(sortedItems)[item.category := old(sortedItems)[item.category] + [item]]
      ensures store.State() == AddXPStep(old(store.State()), 10, Some("sorting"), Some(true), today)
      ensures |Pile()| == |old(Pile())| - 1
      ensures Pile() == [] <==> |old(Pile())| == 1
      ensures next == NoFollowup
      ensures shake == old(shake)
    {
      CompletionAsWrittenNeverFires(currentLevel, items, item);
      Drop(item);
      store.AddXP(10, Some("sorting"), Some(true), today);
      var remaining := WithoutId(items, item.id);
      if remaining == [] {
        next := CompleteAfter(DELAY);
      } else {
        next := NoFollowup;
      }
    }

    /**
     * The same drop with the completion test as intended: the completion is
     * scheduled exactly when the drop leaves the pile empty.
     */
    method SortItemIntended(item: Item, store: GameStore, today: string) returns (next: Followup)
      requires Valid() && item in Pile()
      modifies this, store
      ensures Valid()
      ensures currentLevel == old(currentLevel) && items == old(items) && showComplete == old(showComplete)
      ensures item.category in old(sortedItems)
      ensures sortedItems == old(sortedItems)[item.category := old(sortedItems)[item.category] + [item]]
      ensures store.State() == AddXPStep(old(store.State()), 10, Some("sorting"), Some(true), today)
      ensures |Pile()| == |old(Pile())| - 1
      ensures next == CompleteAfter(500) <==> |old(Pile())| == 1
      ensures next != CompleteAfter(500) ==> next == NoFollowup
      ensures shake == old(shake)
    {
      Drop(item);
      store.AddXP(10, Some("sorting"), Some(true), today);
      var remaining := Unsorted(items, SortedIds(sortedItems));
      if remaining == [] {
        next := CompleteAfter(DELAY);
      } else {
        next := NoFollowup;
      }
    }

    /** `sortedItems[category] = [...sortedItems[category], item]`: the pile loses exactly that item. */
    method Drop(item: Item)
      requires Valid() && item in Pile()
      modifies this
      ensures Valid()
      ensures currentLevel == old(currentLevel) && items == old(items) && showComplete == old(showComplete)
      ensures item.category in old(sortedItems)
      ensures sortedItems == old(sortedItems)[item.category := old(sortedItems)[item.category] + [item]]
      ensures |Pile()| == |old(Pile())| - 1
      ensures Pile() == [] <==> |old(Pile())| == 1
      ensures shake == old(shake)
    {
      DropFacts(LEVELS[currentLevel], items, sortedItems, item);
      var after := sortedItems[item.category := sortedItems[item.category] + [item]];
      assert Dealt(LEVELS[currentLevel], items, after);
      sortedItems := after;
    }

    /** The completion timeout: the success screen, 50 XP for no subject and the next level unlocked. */
    method CompleteTimeout(store: GameStore, today: string)
      modifies this, store
      ensures showComplete
      ensures currentLevel == old(currentLevel) && items == old(items)
      ensures sortedItems == old(sortedItems) && shake == old(shake)
      ensures store.State() == UnlockStep(AddXPStep(old(store.State()), 50, None, None, today), GAME_ID, old(currentLevel) + 2)
    {
      var unlocked := currentLevel + 2;
      showComplete := true;
      store.AddXP(50, None, None, today);
      store.UnlockLevel(GAME_ID, unlocked);
    }

    /** The shake timeout: the item stops shaking. */
    method UnshakeTimeout()
      modifies this
      ensures shake == None
      ensures currentLevel == old(currentLevel) && items == old(items)
      ensures sortedItems == old(sortedItems) && showComplete == old(showComplete)
    {
      shake := None;
    }

    /**
     * `nextLevel`: moves to the following level, or, after the last level,
     * leaves the game (`leave`) with the level unchanged. The change of level
     * fires the effect that lays the new level out, which is the caller's
     * follow-up call to `ResetLevel`.
     */
    method NextLevel() returns (leave: bool)
      requires currentLevel < |LEVELS|
      modifies this
      ensures currentLevel < |LEVELS|
      ensures leave <==> old(currentLevel) == |LEVELS| - 1
      ensures !leave ==> currentLevel == old(currentLevel) + 1
      ensures leave ==> currentLevel == old(currentLevel)
      ensures items == old(items) && sortedItems == old(sortedItems)
      ensures shake == old(shake) && showComplete == old(showComplete)
    {
      if currentLevel < |LEVELS| - 1 {
        currentLevel := currentLevel + 1;
        leave := false;
      } else {
        leave := true;
      }
    }
  }

  /** With nothing sorted the pile is every item. */
  lemma {:induction false} UnsortedNone(items: seq<Item>)
    ensures Unsorted(items, {}) == items
  {
    if items != [] {
      UnsortedNone(items[1..]);
    }
  }
}
