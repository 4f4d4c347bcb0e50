/** The profile record of a signed-up user and its document form. */
module UserRecord {
  import opened Firestore

  /**
   * A user's profile. `joined` is whole seconds since the epoch. `aiMessageQuota` is the
   * only field that changes after creation, and only through `WithQuota`.
   */
  datatype User = User(id: string, name: string, email: string, joined: int, aiMessageQuota: int)
  {
    /** The same profile with another quota. */
    function WithQuota(quota: int): (r: User)
      ensures r.aiMessageQuota == quota
      ensures r.id == id && r.name == name && r.email == email && r.joined == joined
    {
      this.(aiMessageQuota := quota)
    }
  }

  /** `asDictionary()`: one field per property, under the property's own name. */
  function AsDictionary(u: User): (d: Fields)
    ensures d.Keys == {"id", "name", "email", "joined", "aiMessageQuota"}
    ensures d["id"] == Str(u.id) && d["name"] == Str(u.name) && d["email"] == Str(u.email)
    ensures d["joined"] == Num(u.joined) && d["aiMessageQuota"] == Num(u.aiMessageQuota)
  {
    map["id" := Str(u.id), "name" := Str(u.name), "email" := Str(u.email),
        "joined" := Num(u.joined), "aiMessageQuota" := Num(u.aiMessageQuota)]
  }

  /** Two profiles with the same document are the same profile. */
  lemma AsDictionaryInjective(u: User, v: User)
    requires AsDictionary(u) == AsDictionary(v)
    ensures u == v
  {
    assert AsDictionary(u)["id"] == AsDictionary(v)["id"];
    assert AsDictionary(u)["name"] == AsDictionary(v)["name"];
    assert AsDictionary(u)["email"] == AsDictionary(v)["email"];
    assert AsDictionary(u)["joined"] == AsDictionary(v)["joined"];
    assert AsDictionary(u)["aiMessageQuota"] == AsDictionary(v)["aiMessageQuota"];
  }
}
