/** `AuthService.registerUser`: a checked insert into the user table. The username is checked
    before the email; a new user gets the request's fields, the encoded password and the next
    generated id. Authentication (`authenticateUser`) is not part of this model. */
module AuthService {
  import opened Entities
  import opened Collections
  import opened Persistence

  /** The status of a `ResponseEntity`. */
  datatype HttpStatus = OK | BAD_REQUEST

  /** A `ResponseEntity<String>`. */
  datatype Response = Response(status: HttpStatus, body: string)

  const USERNAME_TAKEN := "Error: Username is already taken!"
  const EMAIL_IN_USE := "Error: Email is already in use!"
  const REGISTERED := "User registered successfully!"

  /** `existsByUsername`. */
  predicate ExistsByUsername(users: seq<User>, username: string) {
    exists i :: 0 <= i < |users| && users[i].username == username
  }

  /** `existsByEmail`. */
  predicate ExistsByEmail(users: seq<User>, email: string) {
    exists i :: 0 <= i < |users| && users[i].email == email
  }

  /** The user built from a sign-up request: the request's fields with the password passed
      through the password encoder, saved under id `id`. */
  function NewUser(request: SignupRequest, encode: string -> string, id: int): (u: User)
    ensures u.id == id && u.username == request.username && u.email == request.email
    ensures u.password == encode(request.password)
    ensures u.firstName == request.firstName && u.lastName == request.lastName
    ensures u.address == request.address && u.phone == request.phone
  {
    User(id, request.username, request.email, encode(request.password),
         request.firstName, request.lastName, request.address, request.phone)
  }

  /** What registerUser returns and leaves in the user table and the user id counter. */
  datatype Registration = Registration(response: Response, users: seq<User>, nextUserId: int)

  /** `registerUser` on values. */
  function Register(users: seq<User>, nextUserId: int, request: SignupRequest, encode: string -> string): Registration
  {
    if ExistsByUsername(users, request.username) then
      Registration(Response(BAD_REQUEST, USERNAME_TAKEN), users, nextUserId)
    else if ExistsByEmail(users, request.email) then
      Registration(Response(BAD_REQUEST, EMAIL_IN_USE), users, nextUserId)
    else
      Registration(Response(OK, REGISTERED), users + [NewUser(request, encode, nextUserId)], nextUserId + 1)
  }

  /** A registration succeeds exactly when neither the username nor the email is in use; a
      rejection saves nothing, and a taken username is reported even when the email is taken too. */
  lemma RegisterRejections(users: seq<User>, nextUserId: int, request: SignupRequest, encode: string -> string)
    ensures var out := Register(users, nextUserId, request, encode);
      && (out.response.status == OK <==>
            (forall i :: 0 <= i < |users| ==> users[i].username != request.username && users[i].email != request.email))
      && (out.response.status == BAD_REQUEST ==> out.users == users && out.nextUserId == nextUserId)
      && ((exists i :: 0 <= i < |users| && users[i].username == request.username) ==>
            out.response == Response(BAD_REQUEST, USERNAME_TAKEN))
      && ((forall i :: 0 <= i < |users| ==> users[i].username != request.username)
          && (exists i :: 0 <= i < |users| && users[i].email == request.email) ==>
            out.response == Response(BAD_REQUEST, EMAIL_IN_USE))
  {
    var out := Register(users, nextUserId, request, encode);
    if out.response.status == BAD_REQUEST && !ExistsByUsername(users, request.username) {
      var i :| 0 <= i < |users| && users[i].email == request.email;
      assert !(users[i].username != request.username && users[i].email != request.email);
    }
  }

  /** A successful registration adds exactly one row, at the end, holding the request's
      fields, the encoded password and the next id, and answers "User registered successfully!". */
  lemma RegisterAddsOne(users: seq<User>, nextUserId: int, request: SignupRequest, encode: string -> string)
    ensures var out := Register(users, nextUserId, request, encode);
      out.response.status == OK ==>
        && out.response.body == REGISTERED
        && |out.users| == |users| + 1 && out.users[..|users|] == users
        && out.users[|users|] == NewUser(request, encode, nextUserId)
        && out.nextUserId == nextUserId + 1
  {
    var out := Register(users, nextUserId, request, encode);
    if out.response.status == OK {
      assert out.users == users + [NewUser(request, encode, nextUserId)];
      assert out.users[..|users|] == users;
    }
  }

  /** Repeating a successful registration is rejected: the username now exists. */
  lemma RegisterTwiceRejected(users: seq<User>, nextUserId: int, request: SignupRequest, encode: string -> string)
    ensures var once := Register(users, nextUserId, request, encode);
      once.response.status == OK ==>
        Register(once.users, once.nextUserId, request, encode).response == Response(BAD_REQUEST, USERNAME_TAKEN)
  {
    var once := Register(users, nextUserId, request, encode);
    if once.response.status == OK {
      assert once.users[|users|].username == request.username;
    }
  }

  /** Registration keeps the user ids, usernames and emails distinct and the ids below the counter. */
  lemma RegisterKeepsConsistent(users: seq<User>, categories: seq<Category>, products: seq<Product>,
                                orders: seq<Order>, nextUserId: int, nextProductId: int, nextOrderId: int,
                                request: SignupRequest, encode: string -> string)
    requires Consistent(users, categories, products, orders, nextUserId, nextProductId, nextOrderId)
    ensures var out := Register(users, nextUserId, request, encode);
      Consistent(out.users, categories, products, orders, out.nextUserId, nextProductId, nextOrderId)
  {
    var out := Register(users, nextUserId, request, encode);
    if out.response.status == OK {
      var u := NewUser(request, encode, nextUserId);
      forall j | 0 <= j < |users| ensures users[j].username != u.username && users[j].email != u.email {
        RegisterRejections(users, nextUserId, request, encode);
      }
      DistinctAppend(users, UserId, u);
      DistinctAppend(users, Username, u);
      DistinctAppend(users, UserEmail, u);
    }
  }

  /** The method form of registerUser, proved against `Register`: the two existence checks,
      then `save` of the new user under the next id. */
  method RegisterUser(db: Database, request: SignupRequest, encode: string -> string) returns (response: Response)
    requires db.Valid()
    modifies db
    ensures db.Valid()
    ensures Registration(response, db.users, db.nextUserId) == Register(old(db.users), old(db.nextUserId), request, encode)
    ensures db.categories == old(db.categories) && db.products == old(db.products) && db.orders == old(db.orders)
    ensures db.nextProductId == old(db.nextProductId) && db.nextOrderId == old(db.nextOrderId)
  {
    if Find(db.users, Username, request.username).Some? {
      return Response(BAD_REQUEST, USERNAME_TAKEN);
    }
    if Find(db.users, UserEmail, request.email).Some? {
      return Response(BAD_REQUEST, EMAIL_IN_USE);
    }
    var user := NewUser(request, encode, db.nextUserId);
    RegisterKeepsConsistent(db.users, db.categories, db.products, db.orders,
                            db.nextUserId, db.nextProductId, db.nextOrderId, request, encode);
    db.users := db.users + [user];
    db.nextUserId := db.nextUserId + 1;
    response := Response(OK, REGISTERED);
  }
}
