/**
 * The to-do list view-model: the two stores chosen by the owner id (the local list when
 * `userId` is empty, the user's remote collection otherwise), the operations over them, the
 * expiry sweep and the "due today and not done" count behind the daily summary.
 */
module ToDoList {
  import opened Wrappers
  import opened Firestore
  import opened ToDoItem
  import Notifications

  /** One day in seconds: `calendar.date(byAdding: .day, value: -1, to: now)` is `now - Day`. */
  const Day := 86400

  // ---------------------------------------------------------------------------------------
  // The local list
  // ---------------------------------------------------------------------------------------

  /** `items.removeAll { $0.id == id }`: the items with another id, in their order. */
  function WithoutId(items: seq<ToDoListItem>, id: string): (r: seq<ToDoListItem>)
    ensures |r| <= |items|
    ensures forall x :: x in r <==> x in items && x.id != id
  {
    if items == [] then []
    else if items[0].id == id then WithoutId(items[1..], id)
    else [items[0]] + WithoutId(items[1..], id)
  }

  /** Removal works piece by piece, so the kept items keep their relative order. */
  lemma {:induction false} WithoutIdConcat(a: seq<ToDoListItem>, b: seq<ToDoListItem>, id: string)
    ensures WithoutId(a + b, id) == WithoutId(a, id) + WithoutId(b, id)
  {
    if a != [] {
      assert (a + b)[1..] == a[1..] + b;
      WithoutIdConcat(a[1..], b, id);
    } else {
      assert a + b == b;
    }
  }

  /** Removing an id that is absent changes nothing. */
  lemma {:induction false} WithoutAbsentId(items: seq<ToDoListItem>, id: string)
    requires forall j :: 0 <= j < |items| ==> items[j].id != id
    ensures WithoutId(items, id) == items
  {
    if items != [] {
      WithoutAbsentId(items[1..], id);
    }
  }

  /** Deleting twice is deleting once. */
  lemma WithoutIdIdempotent(items: seq<ToDoListItem>, id: string)
    ensures WithoutId(WithoutId(items, id), id) == WithoutId(items, id)
  {
    var r := WithoutId(items, id);
    forall j | 0 <= j < |r| ensures r[j].id != id {
      assert r[j] in r;
    }
    WithoutAbsentId(r, id);
  }

  /** The items whose id is not in `ids`, in order. */
  function WithoutIds(items: seq<ToDoListItem>, ids: set<string>): (r: seq<ToDoListItem>)
    ensures forall x :: x in r <==> x in items && x.id !in ids
  {
    if items == [] then []
    else if items[0].id in ids then WithoutIds(items[1..], ids)
    else [items[0]] + WithoutIds(items[1..], ids)
  }

  /** Removing one more id after a set of them is removing the larger set. */
  lemma {:induction false} WithoutIdsStep(items: seq<ToDoListItem>, ids: set<string>, id: string)
    ensures WithoutId(WithoutIds(items, ids), id) == WithoutIds(items, ids + {id})
  {
    if items != [] {
      WithoutIdsStep(items[1..], ids, id);
    }
  }

  /** `i` is the first index whose item has id `id` (`firstIndex(where:)`). */
  predicate IsFirstWithId(items: seq<ToDoListItem>, id: string, i: int)
  {
    0 <= i < |items| && items[i].id == id && forall j :: 0 <= j < i ==> items[j].id != id
  }

  /** `firstIndex(where: { $0.id == id })`. */
  method FirstIndexOfId(items: seq<ToDoListItem>, id: string) returns (index: Option<nat>)
    ensures index.Some? ==> IsFirstWithId(items, id, index.value)
    ensures index.None? <==> forall j :: 0 <= j < |items| ==> items[j].id != id
  {
    var i := 0;
    while i < |items|
      invariant 0 <= i <= |items|
      invariant forall j :: 0 <= j < i ==> items[j].id != id
    {
      if items[i].id == id {
        return Some(i);
      }
      i := i + 1;
    }
    return None;
  }

  /** The list with its first item of id `id` replaced by `x`. */
  function ReplaceFirst(items: seq<ToDoListItem>, id: string, x: ToDoListItem): (r: seq<ToDoListItem>)
    ensures |r| == |items|
  {
    if items == [] then []
    else if items[0].id == id then [x] + items[1..]
    else [items[0]] + ReplaceFirst(items[1..], id, x)
  }

  /** Only the first matching position changes. */
  lemma {:induction false} ReplaceFirstAt(items: seq<ToDoListItem>, id: string, x: ToDoListItem, i: int)
    requires IsFirstWithId(items, id, i)
    ensures ReplaceFirst(items, id, x) == items[i := x]
  {
    if i > 0 {
      assert IsFirstWithId(items[1..], id, i - 1);
      ReplaceFirstAt(items[1..], id, x, i - 1);
    }
  }

  /** With no matching item nothing changes. */
  lemma {:induction false} ReplaceFirstAbsent(items: seq<ToDoListItem>, id: string, x: ToDoListItem)
    requires forall j :: 0 <= j < |items| ==> items[j].id != id
    ensures ReplaceFirst(items, id, x) == items
  {
    if items != [] {
      ReplaceFirstAbsent(items[1..], id, x);
    }
  }

  // ---------------------------------------------------------------------------------------
  // The expiry sweep and the daily count, over fetched documents
  // ---------------------------------------------------------------------------------------

  /** The server-side filter `whereField("dueDate", isLessThan: cutoff)`. */
  predicate DueBefore(data: Fields, cutoff: int)
  {
    "dueDate" in data && data["dueDate"].Num? && data["dueDate"].n < cutoff
  }

  /** `document.data()["isDone"] as? Bool` is present and false. */
  predicate IsNotDone(data: Fields)
  {
    "isDone" in data && data["isDone"] == Bool(false)
  }

  /** The documents the expiry query returns, in snapshot order. */
  function QueryDueBefore(docs: seq<Document>, cutoff: int): (r: seq<Document>)
    ensures forall d :: d in r <==> d in docs && DueBefore(d.data, cutoff)
  {
    if docs == [] then []
    else if DueBefore(docs[0].data, cutoff) then [docs[0]] + QueryDueBefore(docs[1..], cutoff)
    else QueryDueBefore(docs[1..], cutoff)
  }

  /** The ids of the not-done documents among `docs`. */
  function NotDoneIds(docs: seq<Document>): set<string>
  {
    set d | d in docs && IsNotDone(d.data) :: d.documentID
  }

  /**
   * The ids the sweep deletes: exactly the fetched documents due more than a day before
   * `now` whose `isDone` is the boolean false.
   */
  function ExpiredIds(docs: seq<Document>, now: int): set<string>
  {
    NotDoneIds(QueryDueBefore(docs, now - Day))
  }

  lemma ExpiredIdsExactly(docs: seq<Document>, now: int, id: string)
    ensures id in ExpiredIds(docs, now) <==>
      exists d :: d in docs && d.documentID == id && DueBefore(d.data, now - Day) && IsNotDone(d.data)
  {
  }

  /** A document written from a done item is never swept, whatever its due date. */
  lemma DoneItemsNeverSwept(item: ToDoListItem, now: int)
    requires item.isDone
    ensures ExpiredIds([Document(item.id, AsDictionary(item))], now) == {}
  {
    assert !IsNotDone(AsDictionary(item));
  }

  /** For documents written from items, the sweep test is "not done and due before the cutoff". */
  lemma SweepOfItem(item: ToDoListItem, now: int)
    ensures item.id in ExpiredIds([Document(item.id, AsDictionary(item))], now) <==>
            !item.isDone && item.dueDate < now - Day
  {
    var d := Document(item.id, AsDictionary(item));
    if !item.isDone && item.dueDate < now - Day {
      assert d in QueryDueBefore([d], now - Day);
    }
  }

  /** The daily-count filter on one document: numeric due date on the day of `now`, not done. */
  predicate DueTodayNotDone(data: Fields, now: int, dayOf: int -> int)
  {
    "dueDate" in data && data["dueDate"].Num? && IsNotDone(data) &&
    dayOf(data["dueDate"].n) == dayOf(now)
  }

  /** `documents.filter { ... }` of the daily count, in snapshot order. */
  function TodayTasks(docs: seq<Document>, now: int, dayOf: int -> int): (r: seq<Document>)
    ensures |r| <= |docs|
    ensures forall d :: d in r <==> d in docs && DueTodayNotDone(d.data, now, dayOf)
  {
    if docs == [] then []
    else if DueTodayNotDone(docs[0].data, now, dayOf) then [docs[0]] + TodayTasks(docs[1..], now, dayOf)
    else TodayTasks(docs[1..], now, dayOf)
  }

  /** The count of a snapshot is the sum of the counts of its parts. */
  lemma {:induction false} TodayTasksConcat(a: seq<Document>, b: seq<Document>, now: int, dayOf: int -> int)
    ensures |TodayTasks(a + b, now, dayOf)| == |TodayTasks(a, now, dayOf)| + |TodayTasks(b, now, dayOf)|
  {
    if a != [] {
      assert (a + b)[1..] == a[1..] + b;
      TodayTasksConcat(a[1..], b, now, dayOf);
    } else {
      assert a + b == b;
    }
  }

  /** The documents written for a list of items. */
  function Documents(items: seq<ToDoListItem>): (r: seq<Document>)
    ensures |r| == |items|
    ensures forall i :: 0 <= i < |items| ==> r[i] == Document(items[i].id, AsDictionary(items[i]))
  {
    seq(|items|, i requires 0 <= i < |items| => Document(items[i].id, AsDictionary(items[i])))
  }

  /** The items due on the day of `now` and not done. */
  function DueTodayItems(items: seq<ToDoListItem>, now: int, dayOf: int -> int): seq<ToDoListItem>
  {
    if items == [] then []
    else if !items[0].isDone && dayOf(items[0].dueDate) == dayOf(now)
    then [items[0]] + DueTodayItems(items[1..], now, dayOf)
    else DueTodayItems(items[1..], now, dayOf)
  }

  /** Over documents written from items, the count is the number of pending items due today. */
  lemma {:induction false} TodayCountOfItems(items: seq<ToDoListItem>, now: int, dayOf: int -> int)
    ensures |TodayTasks(Documents(items), now, dayOf)| == |DueTodayItems(items, now, dayOf)|
  {
    if items != [] {
      assert Documents(items) == [Documents(items)[0]] + Documents(items[1..]);
      TodayTasksConcat([Documents(items)[0]], Documents(items[1..]), now, dayOf);
      TodayCountOfItems(items[1..], now, dayOf);
    }
  }

  // ---------------------------------------------------------------------------------------
  // The view-model
  // ---------------------------------------------------------------------------------------

  class ToDoListViewModel {
    var showingNewItemView: bool
    const userId: string
    const db: Database
    /** The "todos" entry of the device's defaults: `None` when absent or undecodable. */
    var savedTodos: Option<seq<ToDoListItem>>

    constructor (userId: string, db: Database, savedTodos: Option<seq<ToDoListItem>>)
      ensures this.userId == userId && this.db == db && this.savedTodos == savedTodos
      ensures !showingNewItemView
    {
      this.showingNewItemView := false;
      this.userId := userId;
      this.db := db;
      this.savedTodos := savedTodos;
    }

    /** `getLocalItems()`: the saved list, or `[]` when there is none that decodes. */
    function LocalItems(): seq<ToDoListItem>
      reads this
    {
      savedTodos.GetOr([])
    }

    /** `saveLocalItems(_:)`. */
    method SaveLocalItems(items: seq<ToDoListItem>)
      modifies this`savedTodos
      ensures savedTodos == Some(items)
    {
      savedTodos := Some(items);
    }

    /**
     * `delete(id:)`: with an owner, deletes document `id` of the owner's collection;
     * without one, removes every local item with that id and keeps the rest in order.
     */
    method Delete(id: string)
      modifies this`savedTodos, db
      ensures db.users == old(db.users)
      ensures userId != "" ==>
        Coll(db.todos, userId) == Coll(old(db.todos), userId) - {id} &&
        OthersUnchanged(old(db.todos), db.todos, userId) && savedTodos == old(savedTodos)
      ensures userId == "" ==>
        db.todos == old(db.todos) && savedTodos == Some(WithoutId(old(LocalItems()), id))
    {
      if userId != "" {
        db.Delete(userId, id);
      } else {
        var items := LocalItems();
        items := WithoutId(items, id);
        SaveLocalItems(items);
      }
    }

    /**
     * `toggleIsDone(item:)`: writes a copy of `item` with the flag flipped. With an owner
     * the whole document `item.id` is replaced; without one, the first local item with that
     * id is replaced, and when none has it nothing is written.
     */
    method ToggleIsDone(item: ToDoListItem)
      modifies this`savedTodos, db
      ensures db.users == old(db.users)
      ensures userId != "" ==>
        Coll(db.todos, userId) == Coll(old(db.todos), userId)[item.id := AsDictionary(item.SetDone(!item.isDone))] &&
        OthersUnchanged(old(db.todos), db.todos, userId) && savedTodos == old(savedTodos)
      ensures userId == "" ==> db.todos == old(db.todos)
      ensures userId == "" && (exists j :: 0 <= j < |old(LocalItems())| && old(LocalItems())[j].id == item.id) ==>
        savedTodos == Some(ReplaceFirst(old(LocalItems()), item.id, item.SetDone(!item.isDone)))
      ensures userId == "" && (forall j :: 0 <= j < |old(LocalItems())| ==> old(LocalItems())[j].id != item.id) ==>
        savedTodos == old(savedTodos)
    {
      var itemCopy := item.SetDone(!item.isDone);
      if userId != "" {
        db.SetData(userId, item.id, AsDictionary(itemCopy));
      } else {
        var items := LocalItems();
        var index := FirstIndexOfId(items, item.id);
        if index.Some? {
          ReplaceFirstAt(items, item.id, itemCopy, index.value);
          items := items[index.value := itemCopy];
          SaveLocalItems(items);
        }
      }
    }

    /**
     * `addItem(_:)`: with an owner, writes the document keyed by `item.id` (replacing one
     * with that id); without one, appends to the local list with no duplicate check.
     */
    method AddItem(item: ToDoListItem)
      modifies this`savedTodos, db
      ensures db.users == old(db.users)
      ensures userId != "" ==>
        Coll(db.todos, userId) == Coll(old(db.todos), userId)[item.id := AsDictionary(item)] &&
        OthersUnchanged(old(db.todos), db.todos, userId) && savedTodos == old(savedTodos)
      ensures userId == "" ==>
        db.todos == old(db.todos) && savedTodos == Some(old(LocalItems()) + [item])
    {
      if userId != "" {
        db.SetData(userId, item.id, AsDictionary(item));
      } else {
        var items := LocalItems();
        items := items + [item];
        SaveLocalItems(items);
      }
    }

    /**
     * One cycle of `checkExpiredTasks()`. `snapshot` is what the fetch of the owner's
     * collection delivered (`None` on error); the query keeps the documents due more than a
     * day before `now`, and every one of those whose `isDone` is false is deleted through
     * `Delete`, so the store deleted from follows `userId`.
     */
    method CheckExpiredTasks(now: int, snapshot: Option<seq<Document>>)
      modifies this`savedTodos, db
      ensures db.users == old(db.users)
      ensures snapshot.None? ==> db.todos == old(db.todos) && savedTodos == old(savedTodos)
      ensures snapshot.Some? && userId != "" ==>
        Coll(db.todos, userId) == Coll(old(db.todos), userId) - ExpiredIds(snapshot.value, now) &&
        OthersUnchanged(old(db.todos), db.todos, userId) && savedTodos == old(savedTodos)
      ensures snapshot.Some? && userId == "" ==>
        db.todos == old(db.todos) &&
        LocalItems() == WithoutIds(old(LocalItems()), ExpiredIds(snapshot.value, now))
    {
      if snapshot.None? {
        return;
      }
      var yesterday := now - Day;
      var documents := QueryDueBefore(snapshot.value, yesterday);
      var i := 0;
      ghost var local := LocalItems();
      WithoutIdsNone(local);
      assert NotDoneIds(documents[..0]) == {};
      while i < |documents|
        invariant 0 <= i <= |documents|
        invariant userId != "" ==>
          Coll(db.todos, userId) == Coll(old(db.todos), userId) - NotDoneIds(documents[..i]) &&
          OthersUnchanged(old(db.todos), db.todos, userId) && savedTodos == old(savedTodos)
        invariant userId == "" ==>
          db.todos == old(db.todos) &&
          LocalItems() == WithoutIds(local, NotDoneIds(documents[..i]))
        invariant local == old(LocalItems())
        invariant db.users == old(db.users)
      {
        var document := documents[i];
        NotDoneIdsStep(documents, i);
        if IsNotDone(document.data) {
          ghost var before := LocalItems();
          Delete(document.documentID);
          if userId == "" {
            WithoutIdsStep(local, NotDoneIds(documents[..i]), document.documentID);
            assert LocalItems() == WithoutId(before, document.documentID);
          }
        }
        i := i + 1;
      }
      assert documents[..i] == documents;
    }

    /**
     * One delivery of the collection listener in `scheduleDailyNotification()`: counts the
     * documents due on the day of `now` that are not done and hands that count to the
     * daily summary. `dayOf` stands for the calendar's day boundaries.
     */
    method ScheduleDailyNotification(now: int, dayOf: int -> int, snapshot: Option<seq<Document>>,
                                     manager: Notifications.NotificationManager)
      modifies manager.center
      ensures snapshot.None? ==> manager.center.pending == old(manager.center.pending)
      ensures snapshot.Some? ==>
        manager.center.pending ==
          Notifications.WithoutIdentifier(old(manager.center.pending), Notifications.DailyIdentifier) +
          [Notifications.Request(Notifications.DailyIdentifier,
             Notifications.Content(Notifications.DailyTitle,
                                   Notifications.DailyBody(|TodayTasks(snapshot.value, now, dayOf)|), true),
             Notifications.SummaryTrigger)]
    {
      if snapshot.None? {
        return;
      }
      var todayTasks := TodayTasks(snapshot.value, now, dayOf);
      manager.UpdateNotificationWithTaskCount(|todayTasks|);
    }
  }

  /** Taking one more document into the sweep adds its id exactly when it is not done. */
  lemma NotDoneIdsStep(docs: seq<Document>, i: int)
    requires 0 <= i < |docs|
    ensures IsNotDone(docs[i].data) ==> NotDoneIds(docs[..i + 1]) == NotDoneIds(docs[..i]) + {docs[i].documentID}
    ensures !IsNotDone(docs[i].data) ==> NotDoneIds(docs[..i + 1]) == NotDoneIds(docs[..i])
  {
    assert docs[..i + 1] == docs[..i] + [docs[i]];
  }

  /** Removing no id keeps the list. */
  lemma {:induction false} WithoutIdsNone(items: seq<ToDoListItem>)
    ensures WithoutIds(items, {}) == items
  {
    if items != [] {
      WithoutIdsNone(items[1..]);
    }
  }
}
