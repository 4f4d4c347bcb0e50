/** The new-item form: the save guard and the write of a freshly built record. */
module NewItem {
  import opened Wrappers
  import opened Text
  import opened Firestore
  import opened ToDoItem

  /** The earliest accepted due date: one day (86400 s) before `now`. */
  function EarliestDueDate(now: int): int
  {
    now - 86400
  }

  /**
   * `canSave` as a function of the form's fields: a title that is not blank once spaces are
   * trimmed, and a due date no earlier than one day before `now`.
   */
  predicate CanSaveForm(title: string, dueDate: int, now: int)
  {
    !IsBlank(title) && dueDate >= EarliestDueDate(now)
  }

  /** The title test is "some character is not a space"; newlines count as content. */
  lemma CanSaveExactly(title: string, dueDate: int, now: int)
    ensures CanSaveForm(title, dueDate, now) <==>
      (exists k :: 0 <= k < |title| && !IsWhitespace(title[k])) && dueDate >= now - 86400
  {
    if !AllSatisfy(title, IsWhitespace) {
      var k :| 0 <= k < |title| && !IsWhitespace(title[k]);
    }
  }

  /** A due date of exactly one day ago is still accepted; one second earlier is not. */
  lemma DueDateBoundary(title: string, now: int)
    requires !IsBlank(title)
    ensures CanSaveForm(title, now - 86400, now)
    ensures !CanSaveForm(title, now - 86401, now)
  {
  }

  /** A lone line break is a title: `.whitespaces` does not trim it. */
  lemma NewlineTitleIsNotBlank()
    ensures !IsBlank("\n")
  {
    assert !AllSatisfy("\n", IsWhitespace) by {
      assert !IsWhitespace("\n"[0]);
    }
  }

  class NewItemViewModel {
    var title: string
    var dueDate: int
    var showAlert: bool
    var description: string

    /** The form opens empty, due at `now`. */
    constructor (now: int)
      ensures title == "" && dueDate == now && !showAlert && description == ""
    {
      title := "";
      dueDate := now;
      showAlert := false;
      description := "";
    }

    /** `canSave` at time `now`. */
    predicate CanSave(now: int)
      reads this
      ensures CanSave(now) <==>
        (exists k :: 0 <= k < |title| && !IsWhitespace(title[k])) && dueDate >= now - 86400
    {
      CanSaveExactly(title, dueDate, now);
      CanSaveForm(title, dueDate, now)
    }

    /**
     * `save()`: when the form can be saved and a user (`uid`) is signed in, builds the record
     * with the fresh id `newItemId`, not done, created at `now`, and writes it under that same
     * id in the user's collection. Otherwise nothing is written and nothing is returned.
     */
    method Save(now: int, uid: Option<string>, newItemId: string, db: Database)
      returns (saved: Option<ToDoListItem>)
      modifies db
      ensures db.users == old(db.users)
      ensures !CanSave(now) || uid.None? ==> saved.None? && db.todos == old(db.todos)
      ensures CanSave(now) && uid.Some? ==>
        saved == Some(ToDoListItem(newItemId, title, Some(description), dueDate, now, false))
      ensures saved.Some? ==>
        Coll(db.todos, uid.value) == Coll(old(db.todos), uid.value)[saved.value.id := AsDictionary(saved.value)] &&
        OthersUnchanged(old(db.todos), db.todos, uid.value)
    {
      if !CanSave(now) {
        return None;
      }
      if uid.None? {
        return None;
      }
      var newItem := ToDoListItem(newItemId, title, Some(description), dueDate, now, false);
      db.SetData(uid.value, newItemId, AsDictionary(newItem));
      return Some(newItem);
    }
  }
}
