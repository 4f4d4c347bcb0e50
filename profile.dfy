/** The profile screen's view-model: loading the signed-in user's record. */
module Profile {
  import opened Wrappers
  import opened Firestore
  import opened UserRecord

  /** `data[key] as? String ?? ""`. */
  function StringOr(data: Fields, key: string): string
  {
    if key in data && data[key].Str? then data[key].s else ""
  }

  /** `data[key] as? Int ?? 0` (and the same for the `TimeInterval` field). */
  function NumberOr(data: Fields, key: string): int
  {
    if key in data && data[key].Num? then data[key].n else 0
  }

  /** The record `fetchUser()` builds from a profile document, with "" and 0 for what is missing. */
  function DecodeUser(data: Fields): (u: User)
    ensures u.id == StringOr(data, "id") && u.name == StringOr(data, "name")
    ensures u.email == StringOr(data, "email")
    ensures u.joined == NumberOr(data, "joined") && u.aiMessageQuota == NumberOr(data, "aiMessageQuota")
  {
    User(StringOr(data, "id"), StringOr(data, "name"), StringOr(data, "email"),
         NumberOr(data, "joined"), NumberOr(data, "aiMessageQuota"))
  }

  /** Decoding a written profile gives the profile back. */
  lemma DecodeAsDictionary(u: User)
    ensures DecodeUser(AsDictionary(u)) == u
  {
  }

  /**
   * A document with no usable field (no string id, name or email, no numeric joined or
   * quota) decodes to the all-default profile.
   */
  lemma DecodeDefaults(data: Fields)
    requires forall k | k in ["id", "name", "email"] :: k !in data || !data[k].Str?
    requires forall k | k in ["joined", "aiMessageQuota"] :: k !in data || !data[k].Num?
    ensures DecodeUser(data) == User("", "", "", 0, 0)
  {
  }

  /** What the profile document read delivered. */
  datatype FetchResult = FetchError | NoData | Data(fields: Fields)

  class ProfileViewModel {
    var user: Option<User>
    var isLoading: bool

    /**
     * `init()`: no user yet, and the initial `fetchUser()` leaves it loading exactly when
     * someone is signed in (`uid`), whose read is then pending.
     */
    constructor (uid: Option<string>)
      ensures user.None? && (isLoading <==> uid.Some?)
    {
      user := None;
      isLoading := true;
      new;
      var fetch := FetchUser(uid);
    }

    /**
     * `fetchUser()` up to the read: loading starts; with no signed-in user it stops again
     * at once and no read is issued.
     */
    method FetchUser(uid: Option<string>) returns (fetch: bool)
      modifies this`isLoading
      ensures fetch <==> uid.Some?
      ensures isLoading <==> fetch
    {
      isLoading := true;
      if uid.None? {
        isLoading := false;
        return false;
      }
      return true;
    }

    /**
     * The read completion: loading always stops; only a document with data replaces the
     * user, decoded with defaults.
     */
    method CompleteFetch(result: FetchResult)
      modifies this
      ensures !isLoading
      ensures result.Data? ==> user == Some(DecodeUser(result.fields))
      ensures !result.Data? ==> user == old(user)
    {
      match result {
        case FetchError =>
          isLoading := false;
        case NoData =>
          isLoading := false;
        case Data(fields) =>
          user := Some(DecodeUser(fields));
          isLoading := false;
      }
    }
  }

  /** Loading a profile document written with `asDictionary()` shows that very profile. */
  method FetchWrittenProfile(vm: ProfileViewModel, db: Database, u: User)
    requires u.id in db.users && db.users[u.id] == AsDictionary(u)
    modifies vm
    ensures !vm.isLoading && vm.user == Some(u)
  {
    var fetch := vm.FetchUser(Some(u.id));
    vm.CompleteFetch(Data(db.users[u.id]));
    DecodeAsDictionary(u);
  }
}
