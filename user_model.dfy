/** The `users` collection: the User record of the schema and the collection
    the controllers read and write. */
module UserModel {
  import opened Common

  type UserId = nat

  /** A stored user. `role` is 0 for a regular user and 1 for an admin;
      `password` holds the hash, never the raw password. */
  datatype User = User(
    id: UserId,
    name: string,
    email: string,
    password: string,
    phone: string,
    address: string,
    answer: string,
    role: int)

  /** The role a user gets when none is supplied. */
  const DefaultRole: int := 0

  /** The schema's `required: true` fields are present (Mongoose rejects an
      empty string for a required String). */
  predicate HasRequiredFields(u: User) {
    u.name != "" && u.email != "" && u.password != "" && u.phone != ""
    && u.address != "" && u.answer != ""
  }

  /** `trim: true` on name and email: what is stored has no white space at
      either end. */
  predicate TrimmedFields(u: User) {
    Trimmed(u.name) && Trimmed(u.email)
  }

  /** A record that passes the schema's validation on `save()`. */
  predicate Conforms(u: User) {
    HasRequiredFields(u) && TrimmedFields(u)
  }

  /** `unique: true` on email, and identifiers are unique. */
  ghost predicate Keyed(users: seq<User>) {
    && (forall i, j :: 0 <= i < j < |users| ==> users[i].id != users[j].id)
    && (forall i, j :: 0 <= i < j < |users| ==> users[i].email != users[j].email)
  }

  ghost predicate AllTrimmed(users: seq<User>) {
    forall i :: 0 <= i < |users| ==> TrimmedFields(users[i])
  }

  /** `findOne({ email })`: the position of the first user with that email
      (the unique index makes it the only one). */
  function FindByEmail(users: seq<User>, email: string): (r: Option<nat>)
    ensures r.Some? ==> r.value < |users| && users[r.value].email == email
    ensures r.Some? ==> forall j :: 0 <= j < r.value ==> users[j].email != email
    ensures r.None? ==> forall j :: 0 <= j < |users| ==> users[j].email != email
  {
    if users == [] then None
    else if users[0].email == email then Some(0)
    else match FindByEmail(users[1..], email)
      case None => None
      case Some(k) => Some(k + 1)
  }

  /** `findById(id)`: the position of the user with that identifier. */
  function FindById(users: seq<User>, id: UserId): (r: Option<nat>)
    ensures r.Some? ==> r.value < |users| && users[r.value].id == id
    ensures r.Some? ==> forall j :: 0 <= j < r.value ==> users[j].id != id
    ensures r.None? ==> forall j :: 0 <= j < |users| ==> users[j].id != id
  {
    if users == [] then None
    else if users[0].id == id then Some(0)
    else match FindById(users[1..], id)
      case None => None
      case Some(k) => Some(k + 1)
  }

  /** In a keyed collection the email lookup finds every stored user by its
      own email. */
  lemma FindByEmailOfStored(users: seq<User>, i: nat)
    requires Keyed(users) && i < |users|
    ensures FindByEmail(users, users[i].email) == Some(i)
  {
  }

  /** Appending a trimmed user whose identifier and email nobody has keeps
      the collection keyed and trimmed. */
  lemma AppendKeepsKeys(users: seq<User>, u: User)
    requires Keyed(users) && AllTrimmed(users) && TrimmedFields(u)
    requires forall j :: 0 <= j < |users| ==> users[j].id != u.id && users[j].email != u.email
    ensures Keyed(users + [u]) && AllTrimmed(users + [u])
  {
    var w := users + [u];
    assert forall j :: 0 <= j < |users| ==> w[j] == users[j];
  }

  /** The `users` collection. */
  class UserCollection {
    var users: seq<User>

    ghost predicate Valid()
      reads this
    {
      Keyed(users) && AllTrimmed(users)
    }

    constructor ()
      ensures Valid() && users == []
    {
      users := [];
    }
  }
}
