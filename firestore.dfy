/**
 * The remote document store as the view-models see it: each signed-in user owns a
 * `users/<uid>/todos` collection of documents, and a document is a map from field name to
 * value. Only the calls the core makes are modelled: whole-document `setData`, `delete` and
 * the partial `updateData`.
 */
module Firestore {

  /** The field values the core writes and reads back. */
  datatype FieldValue = Str(s: string) | Num(n: int) | Bool(b: bool)

  type Fields = map<string, FieldValue>

  /** One document of a fetched snapshot. */
  datatype Document = Document(documentID: string, data: Fields)

  type Collections = map<string, map<string, Fields>>

  /** The `todos` collection of user `uid`: empty when the user has no document yet. */
  function Coll(todos: Collections, uid: string): map<string, Fields>
  {
    if uid in todos then todos[uid] else map[]
  }

  /** Every user's collection other than `uid`'s is the same in both states. */
  ghost predicate OthersUnchanged(todos: Collections, todos': Collections, uid: string)
  {
    forall u :: u != uid ==> Coll(todos', u) == Coll(todos, u)
  }

  /** The value a numeric increment starts from: the field's number, or 0 when it has none. */
  function NumberOr0(data: Fields, key: string): int
  {
    if key in data && data[key].Num? then data[key].n else 0
  }

  class Database {
    /** users/<uid>/todos/<documentID> -> fields */
    var todos: Collections
    /** users/<uid> -> fields of the user's profile document */
    var users: map<string, Fields>

    constructor ()
      ensures todos == map[] && users == map[]
    {
      todos := map[];
      users := map[];
    }

    /** `setData(fields)`: replaces the whole document, creating it when absent. */
    method SetData(uid: string, docId: string, data: Fields)
      modifies this
      ensures Coll(todos, uid) == Coll(old(todos), uid)[docId := data]
      ensures OthersUnchanged(old(todos), todos, uid)
      ensures users == old(users)
    {
      todos := todos[uid := Coll(todos, uid)[docId := data]];
    }

    /** `delete()`: removes the document; deleting an absent document is not an error. */
    method Delete(uid: string, docId: string)
      modifies this
      ensures Coll(todos, uid) == Coll(old(todos), uid) - {docId}
      ensures OthersUnchanged(old(todos), todos, uid)
      ensures users == old(users)
    {
      todos := todos[uid := Coll(todos, uid) - {docId}];
    }

    /**
     * `updateData([key: value])`: sets one field of an existing document and keeps the
     * others. It fails, changing nothing, when the store cannot be reached or the document
     * does not exist.
     */
    method UpdateData(uid: string, docId: string, key: string, value: FieldValue, reachable: bool)
      returns (ok: bool)
      modifies this
      ensures ok <==> reachable && docId in Coll(old(todos), uid)
      ensures ok ==> Coll(todos, uid) == Coll(old(todos), uid)[docId := Coll(old(todos), uid)[docId][key := value]]
      ensures !ok ==> todos == old(todos)
      ensures OthersUnchanged(old(todos), todos, uid)
      ensures users == old(users)
    {
      ok := reachable && docId in Coll(todos, uid);
      if ok {
        var c := Coll(todos, uid);
        todos := todos[uid := c[docId := c[docId][key := value]]];
      }
    }

    /**
     * `updateData([key: FieldValue.increment(amount)])` on the profile document of `uid`: the
     * field becomes its old number plus `amount` (a missing or non-numeric field counts as 0),
     * and the other fields stay. It fails, changing nothing, when the store cannot be
     * reached or the document does not exist.
     */
    method IncrementField(uid: string, key: string, amount: int, reachable: bool) returns (ok: bool)
      modifies this
      ensures ok <==> reachable && uid in old(users)
      ensures ok ==> users == old(users)[uid := old(users)[uid][key := Num(NumberOr0(old(users)[uid], key) + amount)]]
      ensures !ok ==> users == old(users)
      ensures todos == old(todos)
    {
      ok := reachable && uid in users;
      if ok {
        users := users[uid := users[uid][key := Num(NumberOr0(users[uid], key) + amount)]];
      }
    }
  }
}
