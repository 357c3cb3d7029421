/** The server's account routes (server/routes/auth.js): signup, login and
    the profile update, over the users collection held as a sequence in the
    collection's natural order (the order `findOne` and `updateOne` search).
    bcrypt is passed in: `hash` stands for `bcrypt.hash` and `compare` for
    `bcrypt.compare`. */
module AuthRoutes {
  import opened Common
  import opened ObjectIds

  /** A document's `_id`: an ObjectId, or a plain string. */
  datatype DocKey = ObjectKey(hex: string) | TextKey(text: string)

  /** A users document. `id` is a separate field some documents carry. */
  datatype UserDoc = UserDoc(
    key: DocKey,
    id: Option<string>,
    name: string,
    email: string,
    password: string,
    createdAt: int)

  /** A user as the routes send it back: everything but the password. */
  datatype PublicUser = PublicUser(key: DocKey, id: Option<string>, name: string, email: string, createdAt: int)

  datatype AuthReply =
    | AuthFailure(status: int, message: string)
    | SignedUp(id: string, name: string, email: string, createdAt: int)
    | LoggedIn(user: PublicUser)
    | ProfileUpdated
    | LocalOnly(message: string)

  const AllFieldsRequired: string := "All fields are required"
  const EmailExists: string := "User already exists with this email"
  const CredentialsRequired: string := "Email and password are required"
  const InvalidCredentials: string := "Invalid credentials"
  const ProfileFieldsRequired: string := "User ID and name are required"
  const UserNotFound: string := "User not found"
  const DatabaseUnavailable: string := "Profile updated in local state only (database unavailable)"
  const DatabaseError: string := "Profile updated in local state only (database error)"

  function StatusOf(r: AuthReply): int {
    match r
    case AuthFailure(status, _) => status
    case SignedUp(_, _, _, _) => 201
    case _ => 200
  }

  /** The database as the update-profile route finds it: absent, present
      with every call throwing, or present and answering. */
  datatype Database = NoDatabase | Failing | Working

  /** The response without its password. */
  function Public(u: UserDoc): (p: PublicUser)
    ensures p.key == u.key && p.id == u.id && p.name == u.name && p.email == u.email
    ensures p.createdAt == u.createdAt
  {
    PublicUser(u.key, u.id, u.name, u.email, u.createdAt)
  }

  function HasEmail(email: string): UserDoc -> bool {
    (u: UserDoc) => u.email == email
  }

  predicate EmailTaken(users: seq<UserDoc>, email: string) {
    exists i :: 0 <= i < |users| && users[i].email == email
  }

  /** No two users share an email: what the 409 check keeps. */
  predicate UniqueEmails(users: seq<UserDoc>) {
    forall i, j :: 0 <= i < j < |users| ==> users[i].email != users[j].email
  }

  /** The first lookup: `_id` is the ObjectId `userId` spells. */
  predicate ByObjectId(u: UserDoc, userId: string) {
    ParseObjectId(userId).Some? && u.key == ObjectKey(ParseObjectId(userId).value)
  }

  /** The second lookup: `_id` is `userId` as a plain string. */
  predicate ByTextKey(u: UserDoc, userId: string) {
    u.key == TextKey(userId)
  }

  /** The third lookup: the separate `id` field is `userId`. */
  predicate ByIdField(u: UserDoc, userId: string) {
    u.id == Some(userId)
  }

  // The three lookups as the filters `findOne` and `updateOne` are given.
  function ObjectIdLookup(userId: string): UserDoc -> bool {
    (u: UserDoc) => ByObjectId(u, userId)
  }

  function TextKeyLookup(userId: string): UserDoc -> bool {
    (u: UserDoc) => ByTextKey(u, userId)
  }

  function IdFieldLookup(userId: string): UserDoc -> bool {
    (u: UserDoc) => ByIdField(u, userId)
  }

  /** Does `userId` name this document by one of the three lookups? */
  predicate NamedBy(u: UserDoc, userId: string) {
    ByObjectId(u, userId) || ByTextKey(u, userId) || ByIdField(u, userId)
  }

  /** The document the profile update renames: the first one with that
      ObjectId, else the first with that string `_id`, else the first whose
      `id` field is that string. */
  function ProfileTarget(users: seq<UserDoc>, userId: string): (r: Option<nat>)
    ensures r.Some? ==> r.value < |users| && NamedBy(users[r.value], userId)
    ensures r.None? <==> forall i :: 0 <= i < |users| ==> !NamedBy(users[i], userId)
    // an ObjectId match is taken first, and the earliest of them
    ensures (exists i :: 0 <= i < |users| && ByObjectId(users[i], userId)) ==>
      r.Some? && ByObjectId(users[r.value], userId) &&
      forall j :: 0 <= j < r.value ==> !ByObjectId(users[j], userId)
    // without one, the earliest string `_id` match
    ensures ((forall i :: 0 <= i < |users| ==> !ByObjectId(users[i], userId)) &&
             (exists i :: 0 <= i < |users| && ByTextKey(users[i], userId))) ==>
      r.Some? && ByTextKey(users[r.value], userId) &&
      forall j :: 0 <= j < r.value ==> !ByTextKey(users[j], userId)
    // without either, the earliest `id` field match
    ensures ((forall i :: 0 <= i < |users| ==> !ByObjectId(users[i], userId) && !ByTextKey(users[i], userId)) &&
             (exists i :: 0 <= i < |users| && ByIdField(users[i], userId))) ==>
      r.Some? && ByIdField(users[r.value], userId) &&
      forall j :: 0 <= j < r.value ==> !ByIdField(users[j], userId)
  {
    var byObjectId := FindIndex(users, ObjectIdLookup(userId));
    if byObjectId.Some? then byObjectId
    else
      var byText := FindIndex(users, TextKeyLookup(userId));
      if byText.Some? then byText
      else FindIndex(users, IdFieldLookup(userId))
  }

  /** A document with that ObjectId wins over any match of the later
      lookups, wherever it stands in the collection. */
  lemma ProfileTargetPrefersObjectId(users: seq<UserDoc>, userId: string, i: nat)
    requires i < |users| && ParseObjectId(userId).Some?
    requires users[i].key == ObjectKey(ParseObjectId(userId).value)
    ensures ProfileTarget(users, userId).Some?
    ensures users[ProfileTarget(users, userId).value].key == ObjectKey(ParseObjectId(userId).value)
  {
    assert ByObjectId(users[i], userId);
  }

  /** Renaming at an index, or nowhere. */
  function RenameAt(users: seq<UserDoc>, at: Option<nat>, name: string): (r: seq<UserDoc>)
    requires at.Some? ==> at.value < |users|
    ensures |r| == |users|
    ensures forall i :: 0 <= i < |users| && at != Some(i) ==> r[i] == users[i]
    ensures at.Some? ==> r[at.value] == users[at.value].(name := name)
  {
    if at.Some? then users[at.value := users[at.value].(name := name)] else users
  }

  /** Renaming changes no email, so it keeps emails unique. */
  lemma RenameKeepsEmails(users: seq<UserDoc>, at: Option<nat>, name: string)
    requires at.Some? ==> at.value < |users|
    ensures UniqueEmails(RenameAt(users, at, name)) <==> UniqueEmails(users)
  {
    var r := RenameAt(users, at, name);
    assert forall i :: 0 <= i < |users| ==> r[i].email == users[i].email;
  }

  /** The users collection. */
  class UserCollection {
    var users: seq<UserDoc>

    constructor ()
      ensures users == []
    {
      users := [];
    }

    /** `POST /signup`: 400 when a field is empty, 409 when the email is
        taken, otherwise a new document with the hashed password, answered
        with 201 and everything but the password. */
    method Signup(name: string, email: string, password: string, hash: string -> string, newKey: string, now: int)
      returns (reply: AuthReply)
      requires IsCanonical(newKey)
      modifies this
      ensures name == "" || email == "" || password == "" ==>
        reply == AuthFailure(400, AllFieldsRequired) && users == old(users)
      ensures name != "" && email != "" && password != "" && EmailTaken(old(users), email) ==>
        reply == AuthFailure(409, EmailExists) && users == old(users)
      ensures name != "" && email != "" && password != "" && !EmailTaken(old(users), email) ==>
        && users == old(users) + [UserDoc(ObjectKey(newKey), None, name, email, hash(password), now)]
        && reply == SignedUp(newKey, name, email, now)
      ensures UniqueEmails(old(users)) ==> UniqueEmails(users)
    {
      if name == "" || email == "" || password == "" {
        return AuthFailure(400, AllFieldsRequired);
      }
      var existing := FindIndex(users, HasEmail(email));
      if existing.Some? {
        return AuthFailure(409, EmailExists);
      }
      assert !EmailTaken(users, email) by {
        assert forall j :: 0 <= j < |users| ==> !HasEmail(email)(users[j]);
      }
      var hashed := hash(password);
      users := users + [UserDoc(ObjectKey(newKey), None, name, email, hashed, now)];
      reply := SignedUp(newKey, name, email, now);
    }

    /** `POST /login`: 400 when a field is empty; the first document with
        that email must exist and its hash must accept the password, and
        both failures give the same 401. The answer carries no password. */
    method Login(email: string, password: string, compare: (string, string) -> bool) returns (reply: AuthReply)
      ensures email == "" || password == "" ==> reply == AuthFailure(400, CredentialsRequired)
      ensures reply.LoggedIn? <==>
        && email != "" && password != ""
        && (exists i :: 0 <= i < |users| && users[i].email == email && compare(password, users[i].password)
              && (forall j :: 0 <= j < i ==> users[j].email != email))
      ensures reply.LoggedIn? ==>
        exists i :: 0 <= i < |users| && users[i].email == email && reply.user == Public(users[i])
          && (forall j :: 0 <= j < i ==> users[j].email != email)
      ensures email != "" && password != "" && !reply.LoggedIn? ==> reply == AuthFailure(401, InvalidCredentials)
    {
      if email == "" || password == "" {
        return AuthFailure(400, CredentialsRequired);
      }
      var found := FindIndex(users, HasEmail(email));
      if found.None? {
        assert forall j :: 0 <= j < |users| ==> !HasEmail(email)(users[j]);
        return AuthFailure(401, InvalidCredentials);
      }
      var i := found.value;
      assert forall j :: 0 <= j < i ==> !HasEmail(email)(users[j]);
      if !compare(password, users[i].password) {
        assert forall m :: 0 <= m < |users| && users[m].email == email && (forall j :: 0 <= j < m ==> users[j].email != email) ==> m == i by {
          forall m | 0 <= m < |users| && users[m].email == email && (forall j :: 0 <= j < m ==> users[j].email != email)
            ensures m == i
          {
          }
        }
        return AuthFailure(401, InvalidCredentials);
      }
      reply := LoggedIn(Public(users[i]));
    }

    /** One `updateOne` with `$set: {name}`: renames the first document
        the filter matches, and says whether one matched. */
    method UpdateFirst(filter: UserDoc -> bool, name: string) returns (matched: bool)
      modifies this
      ensures matched <==> FindIndex(old(users), filter).Some?
      ensures users == RenameAt(old(users), FindIndex(old(users), filter), name)
    {
      var at := FindIndex(users, filter);
      users := RenameAt(users, at, name);
      matched := at.Some?;
    }

    /** `POST /update-profile`: 400 when a field is empty; without a
        database, or when the database throws, a 200 that says only the
        local state changed; otherwise the three lookups in turn, and 404
        when none finds the user. */
    method UpdateProfile(userId: string, name: string, db: Database) returns (reply: AuthReply)
      modifies this
      ensures userId == "" || name == "" ==> reply == AuthFailure(400, ProfileFieldsRequired) && users == old(users)
      ensures userId != "" && name != "" && db == NoDatabase ==>
        reply == LocalOnly(DatabaseUnavailable) && users == old(users)
      ensures userId != "" && name != "" && db == Failing ==>
        reply == LocalOnly(DatabaseError) && users == old(users)
      ensures userId != "" && name != "" && db == Working ==>
        && users == RenameAt(old(users), ProfileTarget(old(users), userId), name)
        && (reply == AuthFailure(404, UserNotFound) <==> ProfileTarget(old(users), userId).None?)
        && (reply == ProfileUpdated <==> ProfileTarget(old(users), userId).Some?)
      ensures UniqueEmails(old(users)) ==> UniqueEmails(users)
    {
      RenameKeepsEmails(users, ProfileTarget(users, userId), name);
      if userId == "" || name == "" {
        return AuthFailure(400, ProfileFieldsRequired);
      }
      if db == NoDatabase {
        return LocalOnly(DatabaseUnavailable);
      }
      if db == Failing {
        // The first lookup's own handler swallows its error; the second
        // lookup's error reaches the outer handler.
        return LocalOnly(DatabaseError);
      }
      var matched := false;
      var id := ParseObjectId(userId);
      if id.Some? {
        matched := UpdateFirst(ObjectIdLookup(userId), name);
      }
      if !matched {
        matched := UpdateFirst(TextKeyLookup(userId), name);
      }
      if !matched {
        matched := UpdateFirst(IdFieldLookup(userId), name);
      }
      if !matched {
        return AuthFailure(404, UserNotFound);
      }
      reply := ProfileUpdated;
    }
  }

  /** Signing up and then logging in with the same password succeeds
      exactly when the hash function's output is accepted by the compare
      function for that password, and the login answers with the new user. */
  method SignupThenLogin(c: UserCollection, name: string, email: string, password: string,
                         hash: string -> string, compare: (string, string) -> bool, newKey: string, now: int)
    returns (signup: AuthReply, login: AuthReply)
    requires IsCanonical(newKey) && name != "" && email != "" && password != ""
    requires !EmailTaken(c.users, email)
    modifies c
    ensures signup == SignedUp(newKey, name, email, now)
    ensures login.LoggedIn? <==> compare(password, hash(password))
    ensures login.LoggedIn? ==> login.user == PublicUser(ObjectKey(newKey), None, name, email, now)
  {
    signup := c.Signup(name, email, password, hash, newKey, now);
    var n := |c.users| - 1;
    assert c.users[n].email == email;
    assert forall j :: 0 <= j < n ==> c.users[j].email != email;
    login := c.Login(email, password, compare);
  }
}
