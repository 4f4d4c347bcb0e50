/**
 * The per-row view-model of a to-do item: an optimistic toggle written with a partial
 * update, reverted when the write fails, and broadcast on success so that every other row
 * showing the same item adopts the new state.
 */
module ItemStatus {
  import opened Wrappers
  import opened Firestore
  import opened ToDoItem

  /** The partial update `updateData(["isDone": newState])` a toggle issues. */
  datatype UpdateRequest = UpdateRequest(uid: string, docId: string, newState: bool)

  /**
   * The state a row shows after hearing "item `todoId` is now `status`": it adopts the
   * status only when it holds an item with that id, and keeps its own otherwise.
   */
  function StatusAfter(item: Option<ToDoListItem>, isDone: bool, todoId: string, status: bool): (r: bool)
    ensures item.Some? && item.value.id == todoId ==> r == status
    ensures item.None? || item.value.id != todoId ==> r == isDone
  {
    if item.Some? && item.value.id == todoId then status else isDone
  }

  /** Hearing the same broadcast twice leaves the row as hearing it once. */
  lemma StatusAfterIdempotent(item: Option<ToDoListItem>, isDone: bool, todoId: string, status: bool)
    ensures StatusAfter(item, StatusAfter(item, isDone, todoId, status), todoId, status) ==
            StatusAfter(item, isDone, todoId, status)
  {
  }

  /** A later broadcast for the same item overrides an earlier one. */
  lemma StatusAfterLastWins(item: Option<ToDoListItem>, isDone: bool, todoId: string, s1: bool, s2: bool)
    requires item.Some? && item.value.id == todoId
    ensures StatusAfter(item, StatusAfter(item, isDone, todoId, s1), todoId, s2) == s2
  {
  }

  class ToDoListItemViewModel {
    var isDone: bool
    var item: Option<ToDoListItem>

    /** A new row shows "not done" and holds no item until one is toggled or set. */
    constructor ()
      ensures !isDone && item.None?
    {
      isDone := false;
      item := None;
    }

    /** `setItem(_:)`. */
    method SetItem(todoItem: ToDoListItem)
      modifies this`item
      ensures item == Some(todoItem)
    {
      item := Some(todoItem);
    }

    /**
     * `handleTodoStatusChanged(_:)`: adopts `status` when the row holds an item whose id is
     * `todoId`; a row with no item, or another item, ignores the broadcast.
     */
    method HandleTodoStatusChanged(todoId: string, status: bool)
      modifies this`isDone
      ensures isDone == StatusAfter(item, old(isDone), todoId, status)
    {
      if item.None? || item.value.id != todoId {
        return;
      }
      isDone := status;
    }

    /**
     * `toggleIsDone(item:)`, up to the write: the row shows the flipped state at once and
     * keeps the updated copy. With a signed-in user (`uid`) it returns the partial update to
     * send; with none it returns nothing and the change stays local.
     */
    method ToggleIsDone(it: ToDoListItem, uid: Option<string>) returns (req: Option<UpdateRequest>)
      modifies this
      ensures isDone == !it.isDone
      ensures item == Some(it.SetDone(!it.isDone))
      ensures uid.None? ==> req.None?
      ensures uid.Some? ==> req == Some(UpdateRequest(uid.value, it.id, !it.isDone))
    {
      item := Some(it);
      var newState := !it.isDone;
      isDone := newState;
      var updatedItem := it.SetDone(newState);
      item := Some(updatedItem);
      if uid.None? {
        return None;
      }
      return Some(UpdateRequest(uid.value, it.id, newState));
    }

    /**
     * The completion of the partial update. `reachable` stands for the network: the write
     * fails when the store cannot be reached or the document is gone, and then this row
     * reverts to `!newState` and nobody is told. On success the change is posted to
     * `observers`, the rows currently listening.
     */
    method CompleteToggle(req: UpdateRequest, reachable: bool, db: Database,
                          observers: set<ToDoListItemViewModel>)
      returns (ok: bool)
      modifies this, db, observers
      ensures db.users == old(db.users)
      ensures ok <==> reachable && req.docId in Coll(old(db.todos), req.uid)
      ensures ok ==>
        Coll(db.todos, req.uid) ==
          Coll(old(db.todos), req.uid)[req.docId := Coll(old(db.todos), req.uid)[req.docId]["isDone" := Bool(req.newState)]]
      ensures !ok ==> db.todos == old(db.todos)
      ensures OthersUnchanged(old(db.todos), db.todos, req.uid)
      ensures !ok ==> isDone == !req.newState && item == old(item)
      ensures !ok ==> forall o :: o in observers && o != this ==> o.isDone == old(o.isDone)
      ensures ok ==> forall o :: o in observers ==>
        o.isDone == StatusAfter(old(o.item), old(o.isDone), req.docId, req.newState)
      ensures ok && this !in observers ==> isDone == old(isDone)
      ensures item == old(item)
      ensures forall o :: o in observers ==> o.item == old(o.item)
    {
      ok := db.UpdateData(req.uid, req.docId, "isDone", Bool(req.newState), reachable);
      if !ok {
        isDone := !req.newState;
      } else {
        NotifyStatusChange(req.docId, req.newState, observers);
      }
    }

    /** `notifyStatusChange(todoId:isDone:)`: every listening row handles the broadcast. */
    method NotifyStatusChange(todoId: string, status: bool, observers: set<ToDoListItemViewModel>)
      modifies observers
      ensures forall o :: o in observers ==> o.isDone == StatusAfter(o.item, old(o.isDone), todoId, status)
      ensures forall o :: o in observers ==> o.item == old(o.item)
    {
      var remaining := observers;
      while remaining != {}
        invariant remaining <= observers
        invariant forall o :: o in observers - remaining ==>
          o.isDone == StatusAfter(o.item, old(o.isDone), todoId, status)
        invariant forall o :: o in remaining ==> o.isDone == old(o.isDone)
        invariant forall o :: o in observers ==> o.item == old(o.item)
        decreases remaining
      {
        var o :| o in remaining;
        o.HandleTodoStatusChanged(todoId, status);
        remaining := remaining - {o};
      }
    }

    /** `delete(id:)`: removes the signed-in user's document; with no user nothing happens. */
    method Delete(id: string, uid: Option<string>, db: Database)
      modifies db
      ensures db.users == old(db.users)
      ensures uid.None? ==> db.todos == old(db.todos)
      ensures uid.Some? ==> Coll(db.todos, uid.value) == Coll(old(db.todos), uid.value) - {id}
      ensures uid.Some? ==> OthersUnchanged(old(db.todos), db.todos, uid.value)
    {
      if uid.None? {
        return;
      }
      db.Delete(uid.value, id);
    }
  }

  /**
   * Two rows showing the same item: after one of them toggles it and the write succeeds,
   * both show the new state and the stored document carries it.
   */
  method TwoRowsConverge(a: ToDoListItemViewModel, b: ToDoListItemViewModel, it: ToDoListItem,
                         uid: string, db: Database)
    requires a != b
    requires b.item.Some? && b.item.value.id == it.id
    requires it.id in Coll(db.todos, uid)
    modifies a, b, db
    ensures a.isDone == !it.isDone && b.isDone == !it.isDone
    ensures it.id in Coll(db.todos, uid) && "isDone" in Coll(db.todos, uid)[it.id]
    ensures Coll(db.todos, uid)[it.id]["isDone"] == Bool(!it.isDone)
  {
    var req := a.ToggleIsDone(it, Some(uid));
    var ok := a.CompleteToggle(req.value, true, db, {a, b});
  }
}
