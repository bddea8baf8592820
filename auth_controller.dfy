/** The handlers of the `/auth` routes: registration, login, password reset,
    profile update and the order queries. Password hashing and comparison
    and token signing are parameters: `hash`, `matches` and `sign`. */
module AuthController {
  import opened Common
  import opened UserModel
  import opened Orders

  // ---------------------------------------------------------------- register

  datatype RegisterForm = RegisterForm(
    name: Option<string>,
    email: Option<string>,
    password: Option<string>,
    phone: Option<string>,
    address: Option<string>,
    answer: Option<string>)

  predicate Complete(f: RegisterForm) {
    Truthy(f.name) && Truthy(f.email) && Truthy(f.password) && Truthy(f.phone)
    && Truthy(f.address) && Truthy(f.answer)
  }

  /** The message of the first missing field, checked in the order name,
      email, password, phone, address, answer. */
  function MissingField(f: RegisterForm): (r: Option<string>)
    ensures r.None? <==> Complete(f)
    ensures r == Some("Name is required") <==> !Truthy(f.name)
    ensures r == Some("Email is required") <==> Truthy(f.name) && !Truthy(f.email)
    ensures r == Some("Password is required") <==>
      Truthy(f.name) && Truthy(f.email) && !Truthy(f.password)
    ensures r == Some("Phone number is required") <==>
      Truthy(f.name) && Truthy(f.email) && Truthy(f.password) && !Truthy(f.phone)
    ensures r == Some("Address is required") <==>
      Truthy(f.name) && Truthy(f.email) && Truthy(f.password) && Truthy(f.phone)
      && !Truthy(f.address)
    ensures r == Some("Answer is required") <==>
      Truthy(f.name) && Truthy(f.email) && Truthy(f.password) && Truthy(f.phone)
      && Truthy(f.address) && !Truthy(f.answer)
  {
    if !Truthy(f.name) then Some("Name is required")
    else if !Truthy(f.email) then Some("Email is required")
    else if !Truthy(f.password) then Some("Password is required")
    else if !Truthy(f.phone) then Some("Phone number is required")
    else if !Truthy(f.address) then Some("Address is required")
    else if !Truthy(f.answer) then Some("Answer is required")
    else None
  }

  /** The record `save()` stores for a complete form: name and email trimmed
      by the schema, the password hashed, the role left to its default. */
  function NewUser(id: UserId, f: RegisterForm, hash: string -> string): (u: User)
    requires Complete(f)
    ensures u.id == id && u.role == DefaultRole
    ensures u.password == hash(f.password.value) && u.answer == f.answer.value
    ensures u.phone == f.phone.value && u.address == f.address.value
    ensures TrimmedFields(u)
    ensures u.name == Trim(f.name.value) && u.email == Trim(f.email.value)
  {
    User(id, Trim(f.name.value), Trim(f.email.value), hash(f.password.value),
         f.phone.value, f.address.value, f.answer.value, DefaultRole)
  }

  /** registerController. `id` is the identifier the store gives the new
      document. */
  method Register(db: UserCollection, f: RegisterForm, hash: string -> string, id: UserId)
    returns (resp: Response)
    requires db.Valid()
    requires forall u :: u in db.users ==> u.id != id
    modifies db
    ensures db.Valid()
    ensures !Complete(f) ==>
      resp == Failure(200, MissingField(f).value) && db.users == old(db.users)
    ensures Complete(f) && FindByEmail(old(db.users), Trim(f.email.value)).Some? ==>
      resp == Failure(200, "User already exists. Please Login") && db.users == old(db.users)
    ensures Complete(f) && FindByEmail(old(db.users), Trim(f.email.value)).None? ==>
      if Conforms(NewUser(id, f, hash)) then
        resp == Success(200, "User registered successfully")
        && db.users == old(db.users) + [NewUser(id, f, hash)]
      else
        resp == Crash(ValidationError) && db.users == old(db.users)
  {
    var missing := MissingField(f);
    if missing.Some? {
      return Failure(200, missing.value);
    }
    var existing := FindByEmail(db.users, Trim(f.email.value));
    if existing.Some? {
      return Failure(200, "User already exists. Please Login");
    }
    var user := NewUser(id, f, hash);
    if !Conforms(user) {
      return Crash(ValidationError);
    }
    AppendKeepsKeys(db.users, user);
    db.users := db.users + [user];
    resp := Success(200, "User registered successfully");
  }

  // ------------------------------------------------------------------- login

  /** The user object a successful login returns: no password, no answer. */
  datatype PublicUser = PublicUser(name: string, email: string, phone: string, address: string, role: int)

  function Public(u: User): PublicUser {
    PublicUser(u.name, u.email, u.phone, u.address, u.role)
  }

  /** `expiresIn: "7d"`, in seconds. */
  const TokenLifetime: nat := 7 * 24 * 60 * 60

  datatype LoginReply = LoginReply(response: Response, user: Option<PublicUser>, token: Option<string>)

  /** loginController. `matches(raw, hashed)` is the password comparison and
      `sign(id, lifetime)` the token issued for the payload `{ _id: id }`. */
  function Login(users: seq<User>, email: Option<string>, password: Option<string>,
                 matches: (string, string) -> bool, sign: (UserId, nat) -> string): (r: LoginReply)
    ensures r.token.Some? <==> r.response.success == Some(true)
    ensures r.token.Some? <==> r.user.Some?
    ensures !Truthy(email) || !Truthy(password) ==>
      r.response == Failure(404, "Invalid email or password")
    ensures Truthy(email) && Truthy(password) ==>
      match FindByEmail(users, Trim(email.value))
      case None => r.response == Failure(200, "Email is not registered") && r.token.None?
      case Some(k) =>
        if matches(password.value, users[k].password) then
          r.response == Success(200, "User logged in successfully")
          && r.token == Some(sign(users[k].id, TokenLifetime))
          && r.user == Some(Public(users[k]))
        else
          r.response == Failure(200, "Invalid Credentials") && r.token.None?
  {
    if !Truthy(email) || !Truthy(password) then
      LoginReply(Failure(404, "Invalid email or password"), None, None)
    else match FindByEmail(users, Trim(email.value))
      case None => LoginReply(Failure(200, "Email is not registered"), None, None)
      case Some(k) =>
        if !matches(password.value, users[k].password) then
          LoginReply(Failure(200, "Invalid Credentials"), None, None)
        else
          LoginReply(Success(200, "User logged in successfully"), Some(Public(users[k])),
                     Some(sign(users[k].id, TokenLifetime)))
  }

  /** A token is issued only to a stored user whose password matches, and it
      is signed for that user's identifier with the seven-day lifetime. */
  lemma LoginIssuesTokenOnlyToOwner(users: seq<User>, email: Option<string>, password: Option<string>,
                                    matches: (string, string) -> bool, sign: (UserId, nat) -> string)
    requires Login(users, email, password, matches, sign).token.Some?
    ensures Truthy(email) && Truthy(password)
    ensures exists k :: (0 <= k < |users| && users[k].email == Trim(email.value)
      && matches(password.value, users[k].password)
      && Login(users, email, password, matches, sign).token == Some(sign(users[k].id, TokenLifetime)))
  {
    var k := FindByEmail(users, Trim(email.value)).value;
    assert users[k].email == Trim(email.value);
  }

  // --------------------------------------------------------- forgot password

  /** `findOne({ email, answer })`: the first user with both; the email is
      matched after the schema's trim, the answer as given. */
  function FindByEmailAndAnswer(users: seq<User>, email: string, answer: string): (r: Option<nat>)
    ensures r.Some? ==> r.value < |users| && users[r.value].email == email && users[r.value].answer == answer
    ensures r.Some? ==> forall j :: 0 <= j < r.value ==> !(users[j].email == email && users[j].answer == answer)
    ensures r.None? ==> forall j :: 0 <= j < |users| ==> !(users[j].email == email && users[j].answer == answer)
  {
    if users == [] then None
    else if users[0].email == email && users[0].answer == answer then Some(0)
    else match FindByEmailAndAnswer(users[1..], email, answer)
      case None => None
      case Some(k) => Some(k + 1)
  }

  /** forgotPasswordController. */
  method ForgotPassword(db: UserCollection, email: Option<string>, answer: Option<string>,
                        newPassword: Option<string>, hash: string -> string)
    returns (resp: Response)
    requires db.Valid()
    modifies db
    ensures db.Valid()
    ensures !(Truthy(email) && Truthy(answer) && Truthy(newPassword)) ==>
      resp == Failure(200, "All fields are required") && db.users == old(db.users)
    ensures Truthy(email) && Truthy(answer) && Truthy(newPassword) ==>
      match FindByEmailAndAnswer(old(db.users), Trim(email.value), answer.value)
      case None =>
        resp == Failure(200, "Invalid email or answer") && db.users == old(db.users)
      case Some(k) =>
        resp == Success(200, "Password changed successfully")
        && db.users == old(db.users)[k := old(db.users)[k].(password := hash(newPassword.value))]
  {
    if !Truthy(email) || !Truthy(answer) || !Truthy(newPassword) {
      return Failure(200, "All fields are required");
    }
    var found := FindByEmailAndAnswer(db.users, Trim(email.value), answer.value);
    if found.None? {
      return Failure(200, "Invalid email or answer");
    }
    var k := found.value;
    db.users := db.users[k := db.users[k].(password := hash(newPassword.value))];
    resp := Success(200, "Password changed successfully");
  }

  // ---------------------------------------------------------- update profile

  datatype ProfileForm = ProfileForm(
    name: Option<string>,
    email: Option<string>,
    password: Option<string>,
    address: Option<string>,
    phone: Option<string>)

  /** `password && password.length < 6`, the length in UTF-16 code units. */
  predicate TooShort(f: ProfileForm) {
    Truthy(f.password) && Utf16Length(f.password.value) < 6
  }

  /** Three characters above U+FFFF are six code units, long enough. */
  lemma AstralPasswordLongEnough()
    ensures !TooShort(ProfileForm(None, None, Some("\U{1F600}\U{1F600}\U{1F600}"), None, None))
  {
    var e := "\U{1F600}";
    assert Utf16Length(e) == 2 by { assert e[..0] == []; }
    Utf16LengthAppend(e, e);
    Utf16LengthAppend(e + e, e);
    assert e + e + e == "\U{1F600}\U{1F600}\U{1F600}";
  }

  /** The hashed new password, or `undefined` when none was sent. */
  function HashedPassword(f: ProfileForm, hash: string -> string): Option<string> {
    if Truthy(f.password) then Some(hash(f.password.value)) else None
  }

  /** The update document `{ name: name || user.name, ... }` applied to `u`;
      name and email pass through the schema's trim. */
  function Revised(u: User, f: ProfileForm, hash: string -> string): (v: User)
    ensures v.id == u.id && v.answer == u.answer && v.role == u.role
    ensures v.name == Trim(if Truthy(f.name) then f.name.value else u.name)
    ensures v.email == Trim(if Truthy(f.email) then f.email.value else u.email)
    ensures v.password == (if Truthy(f.password) && hash(f.password.value) != "" then hash(f.password.value) else u.password)
    ensures v.phone == (if Truthy(f.phone) then f.phone.value else u.phone)
    ensures v.address == (if Truthy(f.address) then f.address.value else u.address)
  {
    u.(name := Trim(OrElse(f.name, u.name)),
       email := Trim(OrElse(f.email, u.email)),
       password := OrElse(HashedPassword(f, hash), u.password),
       phone := OrElse(f.phone, u.phone),
       address := OrElse(f.address, u.address))
  }

  /** With no stored user, building the update document `{ name: name ||
      user.name, ... }` reads a property of `null` at the first falsy value;
      None when every value is truthy and nothing is read. */
  function NullUserFault(f: ProfileForm, hash: string -> string): (r: Option<Fault>)
    ensures r.None? <==> Truthy(f.name) && Truthy(f.email) && Truthy(HashedPassword(f, hash))
                         && Truthy(f.phone) && Truthy(f.address)
    ensures r.Some? ==> r.value.TypeError?
  {
    if !Truthy(f.name) then Some(TypeError("name"))
    else if !Truthy(f.email) then Some(TypeError("email"))
    else if !Truthy(HashedPassword(f, hash)) then Some(TypeError("password"))
    else if !Truthy(f.phone) then Some(TypeError("phone"))
    else if !Truthy(f.address) then Some(TypeError("address"))
    else None
  }

  /** Revising a stored, trimmed user leaves the email owned by nobody else
      exactly when the lookup by the new email finds nobody or the user. */
  predicate EmailFree(users: seq<User>, k: nat, email: string) {
    match FindByEmail(users, email)
    case None => true
    case Some(j) => j == k
  }

  /** Replacing user `k` by a record with the same identifier, trimmed
      fields and an email nobody else has keeps the collection valid. */
  lemma ReviseKeepsKeys(users: seq<User>, k: nat, v: User)
    requires Keyed(users) && AllTrimmed(users) && k < |users|
    requires v.id == users[k].id && TrimmedFields(v) && EmailFree(users, k, v.email)
    ensures Keyed(users[k := v]) && AllTrimmed(users[k := v])
  {
    var w := users[k := v];
    forall i, j | 0 <= i < j < |w|
      ensures w[i].email != w[j].email
    {
      if i == k || j == k {
        var other := if i == k then j else i;
        match FindByEmail(users, v.email)
        case None =>
        case Some(m) =>
          assert m == k;
          assert users[other].email != v.email by {
            if users[other].email == v.email {
              FindByEmailOfStored(users, other);
            }
          }
      }
    }
  }

  /** updateProfileController, for the caller `callerId` (`req.user._id`). */
  method UpdateProfile(db: UserCollection, callerId: UserId, f: ProfileForm, hash: string -> string)
    returns (resp: Response, updated: Option<User>)
    requires db.Valid()
    modifies db
    ensures db.Valid()
    ensures TooShort(f) ==>
      resp == Response(200, None, Says("Password is required and must be 6 character long"))
      && db.users == old(db.users)
    ensures !TooShort(f) && FindById(old(db.users), callerId).None? ==>
      db.users == old(db.users) && updated.None?
      && resp == match NullUserFault(f, hash)
                 case None => Response(200, Some(true), Says("Profile Updated Successfully!"))
                 case Some(e) => Crash(e)
    ensures !TooShort(f) && FindById(old(db.users), callerId).Some? ==>
      var k := FindById(old(db.users), callerId).value;
      var v := Revised(old(db.users)[k], f, hash);
      if EmailFree(old(db.users), k, v.email) then
        resp == Response(200, Some(true), Says("Profile Updated Successfully!"))
        && updated == Some(v) && db.users == old(db.users)[k := v]
      else
        resp == Crash(DuplicateKey) && db.users == old(db.users)
  {
    updated := None;
    var found := FindById(db.users, callerId);
    if TooShort(f) {
      return Response(200, None, Says("Password is required and must be 6 character long")), None;
    }
    if found.None? {
      var fault := NullUserFault(f, hash);
      if fault.Some? {
        return Crash(fault.value), None;
      }
      // findByIdAndUpdate matches no document and yields null
      return Response(200, Some(true), Says("Profile Updated Successfully!")), None;
    }
    var k := found.value;
    var v := Revised(db.users[k], f, hash);
    if !EmailFree(db.users, k, v.email) {
      // the unique index on email refuses the write
      return Crash(DuplicateKey), None;
    }
    ReviseKeepsKeys(db.users, k, v);
    db.users := db.users[k := v];
    resp := Response(200, Some(true), Says("Profile Updated Successfully!"));
    updated := Some(v);
  }

  // ------------------------------------------------------------------ orders

  /** getOrdersController: the caller's orders, newest first. */
  function BuyerOrders(orders: seq<Order>, buyer: UserId): (r: seq<Order>)
    ensures forall o :: o in r <==> o in orders && o.buyer == buyer
  {
    var newest := NewestFirst(orders);
    assert forall o :: o in newest <==> o in multiset(newest);
    OfBuyer(newest, buyer)
  }

  /** getAllOrdersController: every order, newest first. */
  function AllOrders(orders: seq<Order>): (r: seq<Order>)
    ensures multiset(r) == multiset(orders)
  {
    NewestFirst(orders)
  }

  /** An order recorded after all others is the first of its buyer's list,
      and nobody else's list changes. */
  lemma {:induction false} BuyerOrdersNewestFirst(orders: seq<Order>, o: Order, buyer: UserId)
    ensures BuyerOrders(orders + [o], buyer)
      == (if o.buyer == buyer then [o] else []) + BuyerOrders(orders, buyer)
  {
    NewestFirstAppend(orders, o);
    var rest := NewestFirst(orders);
    assert ([o] + rest)[1..] == rest;
  }

  /** An order recorded after all others heads the admin's list. */
  lemma AllOrdersNewestFirst(orders: seq<Order>, o: Order)
    ensures AllOrders(orders + [o]) == [o] + AllOrders(orders)
  {
    NewestFirstAppend(orders, o);
  }

  /** orderStatusController: sets the status of the order `orderId` and of
      no other; an unknown id still answers success with a null order. */
  method OrderStatus(db: OrderCollection, orderId: OrderId, status: string)
    returns (resp: Response, updated: Option<Order>)
    requires db.Valid()
    modifies db
    ensures db.Valid()
    ensures resp == Response(200, Some(true), Silent)
    ensures match FindOrder(old(db.orders), orderId)
      case None => updated.None? && db.orders == old(db.orders)
      case Some(k) =>
        updated == Some(old(db.orders)[k].(status := Some(status)))
        && db.orders == old(db.orders)[k := updated.value]
  {
    resp := Response(200, Some(true), Silent);
    var found := FindOrder(db.orders, orderId);
    if found.None? {
      return resp, None;
    }
    var k := found.value;
    var o := db.orders[k].(status := Some(status));
    db.orders := db.orders[k := o];
    updated := Some(o);
  }
}
