/**
 * app/services/auth_service.py: registration, login and access tokens over the
 * `users` collection. Password hashing (bcrypt) and its check are oracle functions;
 * a JWT is modelled symbolically by the payload, key and algorithm it is signed with.
 */
module AuthService {
  import opened Common

  /** A MongoDB ObjectId, abstractly. */
  type ObjectId = nat

  /** One document of the users collection: `{"_id", "username", "password"}` (the password is a hash). */
  datatype UserDoc = UserDoc(id: ObjectId, username: string, password: string)

  /** A JWT claim value: a string, a user id (`str(user["_id"])`) or an expiry instant. */
  datatype Claim = Text(text: string) | UserIdClaim(id: ObjectId) | Expiry(at: int)

  /** The signed token `jwt.encode(payload, key, algorithm=algorithm)`. */
  datatype Token = Jwt(payload: map<string, Claim>, key: string, algorithm: string)

  datatype Registration = Registration(message: string, userId: ObjectId)
  datatype UserLoginResponse = UserLoginResponse(userId: ObjectId, accessToken: Token)

  const Algorithm: string := "HS256"
  const AccessTokenExpireMinutes: int := 30

  const UserExists: Error := HttpException(400, "User already exists")
  const InvalidCredentials: Error := HttpException(401, "Invalid username or password")

  // ---------------------------------------------------------------------------
  // The users collection

  /** `find_one({"username": username})`: the position of the first document with that username. */
  function FindByUsername(users: seq<UserDoc>, username: string): (r: Option<nat>)
    ensures r.Some? ==> r.value < |users| && users[r.value].username == username
    ensures r.Some? ==> forall j :: 0 <= j < r.value ==> users[j].username != username
    ensures r.None? ==> forall j :: 0 <= j < |users| ==> users[j].username != username
  {
    if users == [] then None
    else if users[0].username == username then Some(0)
    else match FindByUsername(users[1..], username)
         case None => None
         case Some(i) => Some(i + 1)
  }

  /** An ObjectId larger than every id in `users`. */
  function NextObjectId(users: seq<UserDoc>): (r: ObjectId)
    ensures forall j :: 0 <= j < |users| ==> users[j].id < r
  {
    if users == [] then 0
    else
      var rest := NextObjectId(users[1..]);
      if users[0].id < rest then rest else users[0].id + 1
  }

  ghost predicate UniqueUsernames(users: seq<UserDoc>) {
    forall i, j :: 0 <= i < j < |users| ==> users[i].username != users[j].username
  }

  ghost predicate UniqueIds(users: seq<UserDoc>) {
    forall i, j :: 0 <= i < j < |users| ==> users[i].id != users[j].id
  }

  /** Appending a document leaves earlier finds as they were; a username found nowhere before is found at the new document. */
  lemma {:induction false} FindAfterAppend(users: seq<UserDoc>, doc: UserDoc, username: string)
    ensures FindByUsername(users, username).Some? ==>
      FindByUsername(users + [doc], username) == FindByUsername(users, username)
    ensures FindByUsername(users, username).None? && doc.username == username ==>
      FindByUsername(users + [doc], username) == Some(|users|)
    ensures FindByUsername(users, username).None? && doc.username != username ==>
      FindByUsername(users + [doc], username) == None
  {
    if users != [] {
      assert (users + [doc])[1..] == users[1..] + [doc];
      FindAfterAppend(users[1..], doc, username);
    }
  }

  /** The users collection, in MongoDB's natural (insertion) order. */
  class UsersCollection {
    var documents: seq<UserDoc>

    ghost predicate Valid()
      reads this
    {
      UniqueIds(documents) && UniqueUsernames(documents)
    }

    constructor ()
      ensures Valid() && documents == []
    {
      documents := [];
    }

    /** `insert_one({"username": username, "password": password}).inserted_id`: a new, unused id. */
    method InsertOne(username: string, password: string) returns (id: ObjectId)
      requires UniqueIds(documents)
      modifies this
      ensures UniqueIds(documents)
      ensures forall j :: 0 <= j < |old(documents)| ==> old(documents)[j].id != id
      ensures documents == old(documents) + [UserDoc(id, username, password)]
    {
      id := NextObjectId(documents);
      documents := documents + [UserDoc(id, username, password)];
    }
  }

  // ---------------------------------------------------------------------------
  // The service operations

  /**
   * `create_access_token(data, expires_delta)` at clock reading `now` (seconds): the payload
   * is a copy of `data` with "exp" set to `now` plus the delta, where a missing or zero
   * delta (a falsy timedelta) means ACCESS_TOKEN_EXPIRE_MINUTES. `data` itself is a value
   * and is not changed.
   */
  function CreateAccessToken(data: map<string, Claim>, expiresDelta: Option<int> := None, now: int, secretKey: string)
    : (t: Token)
    ensures t.payload.Keys == data.Keys + {"exp"}
    ensures forall k :: k in data && k != "exp" ==> t.payload[k] == data[k]
    ensures expiresDelta.Some? && expiresDelta.value != 0 ==> t.payload["exp"] == Expiry(now + expiresDelta.value)
    ensures expiresDelta.None? || expiresDelta.value == 0 ==>
      t.payload["exp"] == Expiry(now + AccessTokenExpireMinutes * 60)
    ensures t.key == secretKey && t.algorithm == Algorithm
  {
    var delta := if expiresDelta.Some? && expiresDelta.value != 0 then expiresDelta.value
                 else AccessTokenExpireMinutes * 60;
    Jwt(data["exp" := Expiry(now + delta)], secretKey, Algorithm)
  }

  /**
   * `register_user(username, password)`: 400 when the username is taken, leaving the
   * collection unchanged; otherwise one document holding `hashPassword(password)` is
   * appended under a new id and no other document changes.
   */
  method RegisterUser(users: UsersCollection, hashPassword: string -> string, username: string, password: string)
    returns (r: Result<Registration>)
    requires users.Valid()
    modifies users
    ensures users.Valid()
    ensures FindByUsername(old(users.documents), username).Some? ==>
      r == Err(UserExists) && users.documents == old(users.documents)
    ensures FindByUsername(old(users.documents), username).None? ==>
      && r.Ok? && r.value.message == "User registered successfully"
      && (forall j :: 0 <= j < |old(users.documents)| ==> old(users.documents)[j].id != r.value.userId)
      && users.documents == old(users.documents) + [UserDoc(r.value.userId, username, hashPassword(password))]
  {
    if FindByUsername(users.documents, username).Some? {
      return Err(UserExists);
    }
    var hashed := hashPassword(password);
    var id := users.InsertOne(username, hashed);
    r := Ok(Registration("User registered successfully", id));
  }

  /**
   * `login_user(username, password)` at clock reading `now`: 401 when no user has that
   * username or the password does not verify against the stored hash; otherwise the
   * stored id and a default-lifetime token whose "user_id" claim is that id.
   */
  function LoginUser(users: seq<UserDoc>, verifyPassword: (string, string) -> bool, username: string,
                     password: string, now: int, secretKey: string): (r: Result<UserLoginResponse>)
    ensures r.Err? <==> FindByUsername(users, username).None? ||
                        !verifyPassword(password, users[FindByUsername(users, username).value].password)
    ensures r.Err? ==> r.error == InvalidCredentials
    ensures r.Ok? ==>
      var user := users[FindByUsername(users, username).value];
      && user.username == username
      && r.value.userId == user.id
      && r.value.accessToken.payload == map["user_id" := UserIdClaim(user.id),
                                            "exp" := Expiry(now + AccessTokenExpireMinutes * 60)]
  {
    match FindByUsername(users, username)
    case None => Err(InvalidCredentials)
    case Some(i) =>
      if !verifyPassword(password, users[i].password) then Err(InvalidCredentials)
      else Ok(UserLoginResponse(users[i].id, CreateAccessToken(map["user_id" := UserIdClaim(users[i].id)], now := now, secretKey := secretKey)))
  }

  /**
   * Registering and then logging in with the same password succeeds, for the new user,
   * whenever `verifyPassword` accepts the hash of that password.
   */
  lemma RegisterThenLogin(users: seq<UserDoc>, hashPassword: string -> string, verifyPassword: (string, string) -> bool,
                          username: string, password: string, id: ObjectId, now: int, secretKey: string)
    requires FindByUsername(users, username).None?
    requires verifyPassword(password, hashPassword(password))
    ensures var r := LoginUser(users + [UserDoc(id, username, hashPassword(password))], verifyPassword,
                               username, password, now, secretKey);
      r.Ok? && r.value.userId == id && r.value.accessToken.payload["user_id"] == UserIdClaim(id)
  {
    FindAfterAppend(users, UserDoc(id, username, hashPassword(password)), username);
  }

  /** Registration leaves every other user's login outcome unchanged. */
  lemma RegisterKeepsOtherLogins(users: seq<UserDoc>, doc: UserDoc, verifyPassword: (string, string) -> bool,
                                 username: string, password: string, now: int, secretKey: string)
    requires FindByUsername(users, doc.username).None?
    requires username != doc.username
    ensures LoginUser(users + [doc], verifyPassword, username, password, now, secretKey)
         == LoginUser(users, verifyPassword, username, password, now, secretKey)
  {
    FindAfterAppend(users, doc, username);
  }

  /** A taken username cannot be registered again, so the collection never holds it twice. */
  lemma RegisterKeepsUsernamesUnique(users: seq<UserDoc>, doc: UserDoc)
    requires UniqueUsernames(users)
    requires FindByUsername(users, doc.username).None?
    ensures UniqueUsernames(users + [doc])
  {
  }
}
