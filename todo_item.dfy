/** The to-do record and its document form. */
module ToDoItem {
  import opened Wrappers
  import opened Firestore

  /**
   * A to-do item. Times are whole seconds since the epoch. Only `isDone` can change after
   * construction, and only through `SetDone`; every other field is fixed.
   */
  datatype ToDoListItem = ToDoListItem(
    id: string,
    title: string,
    description: Option<string>,
    dueDate: int,
    createdDate: int,
    isDone: bool)
  {
    /** `setDone(state)`: the same record with `isDone == state`. */
    function SetDone(state: bool): (r: ToDoListItem)
      ensures r.isDone == state
      ensures r.id == id && r.title == title && r.description == description
      ensures r.dueDate == dueDate && r.createdDate == createdDate
    {
      this.(isDone := state)
    }
  }

  /** Setting the flag twice to the same value is setting it once. */
  lemma SetDoneIdempotent(item: ToDoListItem, state: bool)
    ensures item.SetDone(state).SetDone(state) == item.SetDone(state)
  {
  }

  /** Flipping the flag twice restores the record. */
  lemma ToggleTwiceRestores(item: ToDoListItem)
    ensures item.SetDone(!item.isDone).SetDone(!item.SetDone(!item.isDone).isDone) == item
  {
  }

  /**
   * The document written for an item (`asDictionary()` of the Codable record): one field
   * per stored property, `description` omitted when nil.
   */
  function AsDictionary(item: ToDoListItem): (d: Fields)
    ensures d.Keys == {"id", "title", "dueDate", "createdDate", "isDone"} +
                      (if item.description.Some? then {"description"} else {})
    ensures d["id"] == Str(item.id) && d["title"] == Str(item.title)
    ensures d["dueDate"] == Num(item.dueDate) && d["createdDate"] == Num(item.createdDate)
    ensures d["isDone"] == Bool(item.isDone)
    ensures item.description.Some? ==> d["description"] == Str(item.description.value)
  {
    var base := map["id" := Str(item.id), "title" := Str(item.title),
                     "dueDate" := Num(item.dueDate), "createdDate" := Num(item.createdDate),
                     "isDone" := Bool(item.isDone)];
    if item.description.Some? then base["description" := Str(item.description.value)] else base
  }

  /** Reads an item back from its document, as the list query decodes it. */
  function FromDictionary(d: Fields): (r: Option<ToDoListItem>)
    ensures r.Some? ==> forall k :: k in AsDictionary(r.value) ==> k in d && d[k] == AsDictionary(r.value)[k]
  {
    if && "id" in d && d["id"].Str?
       && "title" in d && d["title"].Str?
       && "dueDate" in d && d["dueDate"].Num?
       && "createdDate" in d && d["createdDate"].Num?
       && "isDone" in d && d["isDone"].Bool?
       && ("description" in d ==> d["description"].Str?)
    then
      Some(ToDoListItem(d["id"].s, d["title"].s,
                        if "description" in d then Some(d["description"].s) else None,
                        d["dueDate"].n, d["createdDate"].n, d["isDone"].b))
    else None
  }

  /** The document form loses nothing. */
  lemma DictionaryRoundTrip(item: ToDoListItem)
    ensures FromDictionary(AsDictionary(item)) == Some(item)
  {
  }
}
