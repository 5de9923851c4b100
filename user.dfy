/**
 * The User schema: the shape of a stored account, the `required` and `unique`
 * constraints, the `isVerified` default and the pre-save hook that hashes a
 * modified password. bcrypt is modelled symbolically: a digest is the term
 * `Digest(of, salt)`, and the only operation that looks inside it is `Compare`.
 */
module UserSchema {
  import opened Wrappers

  /** A document id (Mongo's ObjectId), opaque apart from equality. */
  type UserId = nat

  /** The password path: plaintext as the client sent it, or bcrypt's output. */
  datatype Password = Plain(text: string) | Digest(of: Password, salt: nat)

  /** What one run of bcrypt (`genSalt` then `hash`) produced. */
  datatype Bcrypt = HashError | Salt(value: nat)

  /** Whether a save touches the password path, and if so what hashing produced. */
  datatype PasswordPath = Unmodified | Modified(bcrypt: Bcrypt)

  datatype User = User(
    name: string,
    email: string,
    password: Password,
    friendCode: string,
    friends: seq<UserId>,
    isVerified: bool,
    verificationCode: Option<string>)

  /** A user as `select("-password")` returns it: every field but the password. */
  datatype PublicUser = PublicUser(
    name: string,
    email: string,
    friendCode: string,
    friends: seq<UserId>,
    isVerified: bool,
    verificationCode: Option<string>)

  function Public(u: User): PublicUser
  {
    PublicUser(u.name, u.email, u.friendCode, u.friends, u.isVerified, u.verificationCode)
  }

  /** `new User({...})`: the friends array starts empty and `isVerified` defaults to false. */
  function NewUser(name: string, email: string, password: string, friendCode: string,
                   verificationCode: Option<string>): (u: User)
    ensures !u.isVerified && u.friends == []
    ensures u.name == name && u.email == email && u.password == Plain(password)
    ensures u.friendCode == friendCode && u.verificationCode == verificationCode
    ensures HasRequiredFields(u) <==> Present(name) && Present(email) && Present(password) && Present(friendCode)
  {
    User(name, email, Plain(password), friendCode, [], false, verificationCode)
  }

  /** Mongoose's `required` check on a String path: the empty string fails it. */
  predicate Present(s: string)
  {
    s != ""
  }

  predicate PasswordPresent(p: Password)
  {
    match p
    case Plain(text) => Present(text)
    case Digest(_, _) => true
  }

  /** name, email, password and friendCode are required. */
  predicate HasRequiredFields(u: User)
  {
    Present(u.name) && Present(u.email) && PasswordPresent(u.password) && Present(u.friendCode)
  }

  /** The unique indexes on email and friendCode. */
  ghost predicate Unique(users: map<UserId, User>)
  {
    forall i, j :: i in users && j in users && i != j ==>
      users[i].email != users[j].email && users[i].friendCode != users[j].friendCode
  }

  /** Storing `doc` under `id` would break a unique index. */
  predicate Clashes(users: map<UserId, User>, id: UserId, doc: User)
  {
    exists other :: other in users && other != id &&
      (users[other].email == doc.email || users[other].friendCode == doc.friendCode)
  }

  /**
   * `bcrypt.compare(plain, stored)`: true exactly when `stored` is what hashing
   * `plain` yields under some salt. A password stored as plaintext is refused,
   * even when it equals the attempt.
   */
  function Compare(plain: string, stored: Password): (ok: bool)
    ensures ok <==> exists salt: nat :: stored == Digest(Plain(plain), salt)
    ensures stored.Plain? ==> !ok
  {
    match stored
    case Plain(_) => false
    case Digest(of, _) => of == Plain(plain)
  }

  /**
   * The pre-save hook. An unmodified password path is left as it is; a modified
   * one is replaced by its digest, and a hashing error fails the save.
   */
  function PreSave(doc: User, path: PasswordPath): (r: Option<User>)
    ensures r.None? <==> path == Modified(HashError)
    ensures r.Some? ==> r.value == doc.(password := r.value.password)
    ensures path.Unmodified? ==> r == Some(doc)
    ensures r.Some? && path.Modified? ==> r.value.password.Digest? && r.value.password != doc.password
    ensures r.Some? && path.Modified? && doc.password.Plain? ==>
      forall attempt :: Compare(attempt, r.value.password) <==> attempt == doc.password.text
    ensures path.Modified? && path.bcrypt.Salt? ==>
      r.Some? && r.value.password == Digest(doc.password, path.bcrypt.value)
  {
    match path
    case Unmodified => Some(doc)
    case Modified(HashError) => None
    case Modified(Salt(salt)) => Some(doc.(password := Digest(doc.password, salt)))
  }

  /**
   * A modified password is stored as a digest, and `bcrypt.compare` accepts the
   * original plaintext against it and nothing else; every other field is stored
   * as given. That the digest differs from the plaintext holds here because
   * `Plain` and `Digest` are different constructors of the symbolic model, not
   * because of any property of bcrypt itself.
   */
  lemma HashedPasswordVerifies(doc: User, plain: string, salt: nat, attempt: string)
    requires doc.password == Plain(plain)
    ensures PreSave(doc, Modified(Salt(salt))).Some?
    ensures var stored := PreSave(doc, Modified(Salt(salt))).value;
      && stored.password != Plain(plain)
      && Compare(plain, stored.password)
      && (Compare(attempt, stored.password) <==> attempt == plain)
      && stored == doc.(password := stored.password)
  {
  }
}
