/**
 * The request handlers of the auth and message routes, as methods on one
 * in-memory store: a map from ids to user records and the message log. Each
 * handler runs its checks in the order the route does and either answers with
 * an error status, leaving the store as it was, or updates the store and
 * answers. Outcomes the handlers cannot decide themselves (the random
 * friend code, bcrypt, the mailer, the JWT signer and verifier, the clock and
 * a failing `deleteMany`) are parameters; the verification code is an
 * arbitrary choice in its range.
 */
module Backend {
  import opened Wrappers
  import opened UserSchema
  import opened MessageSchema
  import Gate
  import Codes
  import Friends
  import Chat

  /** The JSON bodies the handlers answer with. */
  datatype Body =
    | Note(message: string)              // { message: ... }
    | Fault                              // { error: err.message }
    | Session(token: string, user: User) // { token, user }
    | NewFriend(friend: User)            // { newFriend: friend }
    | Profile(profile: PublicUser)
    | Saved(record: Message)
    | Messages(messages: seq<Message>)

  datatype Response = Response(status: int, body: Body)

  const ServerError := Response(500, Fault)
  const UserExists := Response(400, Note("User already exists"))
  const CodeSent := Response(200, Note("Verification code sent to your email"))
  const UserNotFound := Response(404, Note("User not found"))
  const AlreadyVerified := Response(400, Note("User is already verified"))
  const InvalidCode := Response(400, Note("Invalid verification code"))
  const AccountVerified := Response(200, Note("Account verified successfully"))
  const VerifyFirst := Response(403, Note("Please verify your email before logging in"))
  const InvalidCredentials := Response(400, Note("Invalid credentials"))
  const AccessDenied := Response(403, Note("Access denied"))
  const InvalidToken := Response(401, Note("Invalid or expired token"))
  const FriendNotFound := Response(404, Note("Friend not found"))
  const FriendRemoved := Response(200, Note("Friend and associated messages removed successfully"))
  const PartyNotFound := Response(404, Note("Sender or Receiver not found"))

  ghost predicate EmailTaken(users: map<UserId, User>, email: string)
  {
    exists id :: id in users && users[id].email == email
  }

  ghost predicate FriendCodeTaken(users: map<UserId, User>, friendCode: string)
  {
    exists id :: id in users && users[id].friendCode == friendCode
  }

  /** A request field naming a user that exists. */
  predicate Known(users: map<UserId, User>, id: Option<UserId>)
  {
    id.Some? && id.value in users
  }

  /** `user.save()` succeeds: validation, then the pre-save hook, then the unique indexes. */
  predicate Saves(users: map<UserId, User>, id: UserId, doc: User, path: PasswordPath)
  {
    HasRequiredFields(doc) && PreSave(doc, path).Some? && !Clashes(users, id, doc)
  }

  /**
   * How the user collection may change across any request: no account
   * disappears, name, email, password and friend code never change, and a
   * verified account stays verified.
   */
  ghost predicate Evolves(before: map<UserId, User>, after: map<UserId, User>)
  {
    && before.Keys <= after.Keys
    && forall id :: id in before ==>
      && after[id].name == before[id].name
      && after[id].email == before[id].email
      && after[id].password == before[id].password
      && after[id].friendCode == before[id].friendCode
      && (before[id].isVerified ==> after[id].isVerified)
  }

  /** A stored account: required fields present, password hashed, and a code held exactly while unverified. */
  ghost predicate Stored(u: User)
  {
    HasRequiredFields(u) && u.password.Digest? && (u.isVerified <==> u.verificationCode.None?)
  }

  /** A stored message: non-empty text, and both parties are accounts of the store. */
  ghost predicate Delivered(m: Message, users: map<UserId, User>)
  {
    Present(m.text) && Known(users, m.sender) && Known(users, m.receiver)
  }

  lemma EvolvesTransitive(a: map<UserId, User>, b: map<UserId, User>, c: map<UserId, User>)
    requires Evolves(a, b) && Evolves(b, c)
    ensures Evolves(a, c)
  {
  }

  /**
   * The store's invariant: ids below the allocator, the unique indexes hold,
   * every account is stored as the schema demands, friend lists and messages
   * refer to accounts that exist.
   */
  ghost predicate Consistent(users: map<UserId, User>, messages: seq<Message>, nextId: UserId)
  {
    && (forall id :: id in users ==> id < nextId)
    && Unique(users)
    && (forall id :: id in users ==> Stored(users[id]))
    && (forall id, f :: id in users && f in users[id].friends ==> f in users)
    && (forall m :: m in messages ==> Delivered(m, users))
  }

  /** Replacing an account by one with the same constrained fields keeps the invariant. */
  lemma UpdateConsistent(users: map<UserId, User>, messages: seq<Message>, nextId: UserId, id: UserId, doc: User)
    requires Consistent(users, messages, nextId) && id in users
    requires doc.name == users[id].name && doc.email == users[id].email
    requires doc.password == users[id].password && doc.friendCode == users[id].friendCode
    requires doc.isVerified <==> doc.verificationCode.None?
    requires forall f :: f in doc.friends ==> f in users
    requires users[id].isVerified ==> doc.isVerified
    ensures Consistent(users[id := doc], messages, nextId)
    ensures Evolves(users, users[id := doc])
  {
  }

  /** Inserting a well-formed account under the next id, when no index clashes, keeps the invariant. */
  lemma InsertConsistent(users: map<UserId, User>, messages: seq<Message>, nextId: UserId, doc: User)
    requires Consistent(users, messages, nextId)
    requires Stored(doc) && doc.friends == [] && !Clashes(users, nextId, doc)
    ensures nextId !in users
    ensures Consistent(users[nextId := doc], messages, nextId + 1)
    ensures Evolves(users, users[nextId := doc])
  {
  }

  /** For an id not yet in use and an email nobody has, only the friend code can clash. */
  lemma FreshDocumentClashes(users: map<UserId, User>, id: UserId, doc: User)
    requires id !in users && !EmailTaken(users, doc.email)
    ensures Clashes(users, id, doc) <==> FriendCodeTaken(users, doc.friendCode)
  {
  }

  /** An update that keeps every field the schema constrains always saves. */
  lemma UpdateSaves(users: map<UserId, User>, messages: seq<Message>, nextId: UserId, id: UserId, doc: User)
    requires Consistent(users, messages, nextId) && id in users
    requires doc.name == users[id].name && doc.email == users[id].email
    requires doc.password == users[id].password && doc.friendCode == users[id].friendCode
    ensures Saves(users, id, doc, Unmodified)
  {
  }

  class Store {
    var users: map<UserId, User>
    var messages: seq<Message>
    /** The next ObjectId to hand out. */
    var nextId: UserId

    ghost predicate Valid()
      reads this
    {
      Consistent(users, messages, nextId)
    }

    constructor ()
      ensures Valid() && users == map[] && messages == []
    {
      users := map[];
      messages := [];
      nextId := 0;
    }

    /** `User.findOne({ email })`. */
    method FindOneByEmail(email: string) returns (found: Option<UserId>)
      ensures found.Some? ==> found.value in users && users[found.value].email == email
      ensures found.None? <==> !EmailTaken(users, email)
    {
      if exists id :: id in users && users[id].email == email {
        var id :| id in users && users[id].email == email;
        found := Some(id);
      } else {
        found := None;
      }
    }

    /** `User.findOne({ friendCode })`. */
    method FindOneByFriendCode(friendCode: string) returns (found: Option<UserId>)
      ensures found.Some? ==> found.value in users && users[found.value].friendCode == friendCode
      ensures found.None? <==> !FriendCodeTaken(users, friendCode)
    {
      if exists id :: id in users && users[id].friendCode == friendCode {
        var id :| id in users && users[id].friendCode == friendCode;
        found := Some(id);
      } else {
        found := None;
      }
    }

    /** `doc.save()` for the document with id `id`; on failure nothing is persisted. */
    method Save(id: UserId, doc: User, path: PasswordPath) returns (ok: bool)
      modifies this`users
      ensures ok == Saves(old(users), id, doc, path)
      ensures users == if ok then old(users)[id := PreSave(doc, path).value] else old(users)
    {
      if !HasRequiredFields(doc) {
        return false;
      }
      var stored := PreSave(doc, path);
      if stored.None? {
        return false;
      }
      if Clashes(users, id, doc) {
        return false;
      }
      users := users[id := stored.value];
      ok := true;
    }

    /** POST /register. */
    method Register(name: string, email: string, password: string, friendCode: string,
                    hashing: Bcrypt, mailSent: bool)
      returns (r: Response, ghost code: nat)
      requires Valid()
      modifies this
      ensures Valid() && messages == old(messages) && Evolves(old(users), users)
      ensures EmailTaken(old(users), email) ==> r == UserExists && users == old(users)
      ensures !EmailTaken(old(users), email) ==> Codes.MinCode <= code <= Codes.MaxCode
      ensures !EmailTaken(old(users), email) ==>
        var saved := Present(name) && Present(email) && Present(password) && Present(friendCode)
                     && hashing.Salt? && !FriendCodeTaken(old(users), friendCode);
        if saved then
          && old(nextId) !in old(users)
          && users == old(users)[old(nextId) := User(name, email, Digest(Plain(password), hashing.value),
                                                     friendCode, [], false, Some(Codes.Decimal(code)))]
          && r == (if mailSent then CodeSent else ServerError)
        else
          users == old(users) && r == ServerError
    {
      var existing := FindOneByEmail(email);
      if existing.Some? {
        // No code is drawn on this path.
        return UserExists, 0;
      }
      var c :| Codes.MinCode <= c <= Codes.MaxCode;
      code := c;
      var id := nextId;
      nextId := nextId + 1;
      var doc := NewUser(name, email, password, friendCode, Some(Codes.Decimal(c)));
      FreshDocumentClashes(users, id, doc);
      ghost var before := users;
      var ok := Save(id, doc, Modified(hashing));
      if !ok {
        return ServerError, code;
      }
      InsertConsistent(before, messages, id, users[id]);
      if !mailSent {
        return ServerError, code;
      }
      r := CodeSent;
    }

    /** POST /verify. */
    method Verify(email: string, verificationCode: Option<string>) returns (r: Response)
      requires Valid()
      modifies this
      ensures Valid() && messages == old(messages) && nextId == old(nextId)
      ensures Evolves(old(users), users)
      ensures !EmailTaken(old(users), email) ==> r == UserNotFound && users == old(users)
      ensures forall id :: id in old(users) && old(users)[id].email == email ==>
        var u := old(users)[id];
        if u.isVerified then r == AlreadyVerified && users == old(users)
        else if u.verificationCode != verificationCode then r == InvalidCode && users == old(users)
        else r == AccountVerified && users == old(users)[id := u.(isVerified := true, verificationCode := None)]
    {
      var found := FindOneByEmail(email);
      if found.None? {
        return UserNotFound;
      }
      var id := found.value;
      var u := users[id];
      if u.isVerified {
        return AlreadyVerified;
      }
      if u.verificationCode != verificationCode {
        return InvalidCode;
      }
      var doc := u.(isVerified := true, verificationCode := None);
      UpdateSaves(users, messages, nextId, id, doc);
      UpdateConsistent(users, messages, nextId, id, doc);
      var ok := Save(id, doc, Unmodified);
      r := AccountVerified;
    }

    /** POST /login; `sign` stands for `jwt.sign({ id }, secret, { expiresIn: "1h" })`. */
    method Login(email: string, password: string, sign: UserId -> string) returns (r: Response)
      requires Valid()
      ensures !EmailTaken(users, email) ==> r == UserNotFound
      ensures forall id :: id in users && users[id].email == email ==>
        r == if !users[id].isVerified then VerifyFirst
             else if !Compare(password, users[id].password) then InvalidCredentials
             else Response(200, Session(sign(id), users[id]))
      ensures r.status == 200 <==>
        exists id :: id in users && users[id].email == email && users[id].isVerified && Compare(password, users[id].password)
    {
      var found := FindOneByEmail(email);
      if found.None? {
        return UserNotFound;
      }
      var id := found.value;
      var u := users[id];
      if !u.isVerified {
        return VerifyFirst;
      }
      if !Compare(password, u.password) {
        return InvalidCredentials;
      }
      r := Response(200, Session(sign(id), u));
    }

    /** POST /add_friend, behind the gate. */
    method AddFriend(authorization: Option<string>, verify: string -> Option<UserId>, friendCode: string)
      returns (r: Response)
      requires Valid()
      modifies this
      ensures Valid() && messages == old(messages) && nextId == old(nextId)
      ensures Evolves(old(users), users)
      ensures match Gate.Authenticate(authorization, verify)
        case Denied => r == AccessDenied && users == old(users)
        case Rejected => r == InvalidToken && users == old(users)
        case Admitted(id) =>
          if !FriendCodeTaken(old(users), friendCode) then r == FriendNotFound && users == old(users)
          else if id !in old(users) then r == ServerError && users == old(users)
          else forall f :: f in old(users) && old(users)[f].friendCode == friendCode ==>
            && r == Response(200, NewFriend(old(users)[f]))
            && users == old(users)[id := old(users)[id].(friends := Friends.Push(old(users)[id].friends, f))]
    {
      var verdict := Gate.Authenticate(authorization, verify);
      if verdict.Denied? {
        return AccessDenied;
      }
      if verdict.Rejected? {
        return InvalidToken;
      }
      var id := verdict.id;
      var friend := FindOneByFriendCode(friendCode);
      if friend.None? {
        return FriendNotFound;
      }
      if id !in users {
        // `user` is null, so `user.friends.push` throws.
        return ServerError;
      }
      var f := friend.value;
      var friendDoc := users[f];
      var u := users[id];
      var doc := u.(friends := Friends.Push(u.friends, f));
      UpdateSaves(users, messages, nextId, id, doc);
      UpdateConsistent(users, messages, nextId, id, doc);
      var ok := Save(id, doc, Unmodified);
      r := Response(200, NewFriend(friendDoc));
    }

    /** DELETE /remove_friend, behind the gate; `purged` is whether `deleteMany` completes. */
    method RemoveFriend(authorization: Option<string>, verify: string -> Option<UserId>, friendId: UserId,
                        purged: bool)
      returns (r: Response)
      requires Valid()
      modifies this
      ensures Valid() && nextId == old(nextId)
      ensures Evolves(old(users), users)
      ensures match Gate.Authenticate(authorization, verify)
        case Denied => r == AccessDenied && users == old(users) && messages == old(messages)
        case Rejected => r == InvalidToken && users == old(users) && messages == old(messages)
        case Admitted(id) =>
          if id !in old(users) then r == ServerError && users == old(users) && messages == old(messages)
          else
            && users == old(users)[id := old(users)[id].(friends := Friends.RemoveAll(old(users)[id].friends, friendId))]
            && if purged then r == FriendRemoved && messages == Chat.Purge(old(messages), id, friendId)
               else r == ServerError && messages == old(messages)
    {
      var verdict := Gate.Authenticate(authorization, verify);
      if verdict.Denied? {
        return AccessDenied;
      }
      if verdict.Rejected? {
        return InvalidToken;
      }
      var id := verdict.id;
      if id !in users {
        // `user` is null, so reading `user.friends` throws.
        return ServerError;
      }
      var u := users[id];
      var doc := u.(friends := Friends.RemoveAll(u.friends, friendId));
      UpdateSaves(users, messages, nextId, id, doc);
      UpdateConsistent(users, messages, nextId, id, doc);
      var ok := Save(id, doc, Unmodified);
      if !purged {
        // The friend list is already saved: there is no rollback.
        return ServerError;
      }
      messages := Chat.Purge(messages, id, friendId);
      r := FriendRemoved;
    }

    /** GET /user, behind the gate: the caller's record without its password. */
    method CurrentUser(authorization: Option<string>, verify: string -> Option<UserId>) returns (r: Response)
      ensures match Gate.Authenticate(authorization, verify)
        case Denied => r == AccessDenied
        case Rejected => r == InvalidToken
        case Admitted(id) =>
          if id in users then r == Response(200, Profile(Public(users[id]))) else r == UserNotFound
    {
      var verdict := Gate.Authenticate(authorization, verify);
      if verdict.Denied? {
        return AccessDenied;
      }
      if verdict.Rejected? {
        return InvalidToken;
      }
      if verdict.id !in users {
        return UserNotFound;
      }
      r := Response(200, Profile(Public(users[verdict.id])));
    }

    /** GET /messages/:userId/:friendId: the conversation in store order. */
    method History(userId: UserId, friendId: UserId) returns (r: Response)
      ensures r.status == 200 && r.body.Messages?
      ensures forall m :: m in r.body.messages <==>
        m in messages && (m.sender, m.receiver) in {(Some(userId), Some(friendId)), (Some(friendId), Some(userId))}
      ensures r.body.messages == Chat.Between(messages, userId, friendId)
    {
      r := Response(200, Messages(Chat.Between(messages, userId, friendId)));
    }

    /** POST /messages: both parties must exist; the text is checked when the record is saved. */
    method Send(text: Option<string>, sender: Option<UserId>, receiver: Option<UserId>, now: nat)
      returns (r: Response)
      requires Valid()
      modifies this`messages
      ensures Valid()
      ensures !(Known(users, sender) && Known(users, receiver)) ==>
        r == PartyNotFound && messages == old(messages)
      ensures Known(users, sender) && Known(users, receiver) && !TextPresent(text) ==>
        r == ServerError && messages == old(messages)
      ensures Known(users, sender) && Known(users, receiver) && TextPresent(text) ==>
        var m := Message(sender, receiver, text.value, now);
        r == Response(201, Saved(m)) && messages == old(messages) + [m]
    {
      if !Known(users, sender) || !Known(users, receiver) {
        return PartyNotFound;
      }
      var m := Validate(sender, receiver, text, now);
      if m.None? {
        return ServerError;
      }
      messages := messages + [m.value];
      r := Response(201, Saved(m.value));
    }
  }
}
