/**
 * A client of the store that walks through the routes in order: two users
 * register, one verifies and logs in, adds the other as a friend, sends a
 * message, reads the history and removes the friend again. Every step is
 * proved from the handlers' contracts alone.
 */
module Scenario {
  import opened Wrappers
  import opened UserSchema
  import opened MessageSchema
  import Gate
  import Chat
  import opened Backend

  /** A stand-in signer: the token for id n is n + 1 letters 't'. */
  function Sign(id: UserId): string
  {
    seq(id + 1, _ => 't')
  }

  /** The matching verifier: accepts exactly the strings `Sign` produces. */
  function Decode(token: string): Option<UserId>
  {
    if |token| > 0 && forall i :: 0 <= i < |token| ==> token[i] == 't' then Some(|token| - 1) else None
  }

  lemma SignedTokensDecode(id: UserId)
    ensures Sign(id) != "" && Decode(Sign(id)) == Some(id)
  {
  }

  /** Two registrations succeed; registering the first email again is refused and changes nothing. */
  method Registration() returns (store: Store, a: UserId, b: UserId)
    ensures fresh(store) && store.Valid() && store.messages == []
    ensures a in store.users && b in store.users && a != b
    ensures store.users[a].email == "alice@example.com" && !store.users[a].isVerified
    ensures store.users[a].password == Digest(Plain("secret"), 1) && store.users[a].friends == []
    ensures store.users[b].friendCode == "e5f6g7h8"
  {
    store := new Store();
    var r: Response;
    ghost var code: nat;
    a := store.nextId;
    r, code := store.Register("Alice", "alice@example.com", "secret", "a1b2c3d4", Salt(1), true);
    assert r == CodeSent;
    b := store.nextId;
    r, code := store.Register("Bob", "bob@example.com", "hunter2", "e5f6g7h8", Salt(2), true);
    assert r == CodeSent;
    var before := store.users;
    r, code := store.Register("Alice", "alice@example.com", "other", "zzzzzzzz", Salt(3), true);
    assert r == UserExists && store.users == before;
  }

  method Walkthrough(now: nat)
  {
    var store, a, b := Registration();
    Verification(store, a);
    Friendship(store, a, b, now);
  }

  /** Login is refused until the mailed code is entered; a wrong code changes nothing; the code works once. */
  method Verification(store: Store, a: UserId)
    requires store.Valid() && a in store.users
    requires store.users[a].email == "alice@example.com" && !store.users[a].isVerified
    requires store.users[a].password == Digest(Plain("secret"), 1)
    modifies store
    ensures store.Valid() && a in store.users && store.users[a].isVerified
    ensures store.messages == old(store.messages)
    ensures forall id :: id in old(store.users) ==>
      && id in store.users
      && store.users[id].friendCode == old(store.users[id].friendCode)
      && store.users[id].friends == old(store.users[id].friends)
  {
    var r := store.Login("alice@example.com", "secret", Sign);
    assert r == VerifyFirst;

    var mailed := store.users[a].verificationCode.value;
    r := store.Verify("alice@example.com", Some(mailed + "0"));
    assert mailed + "0" != mailed by { assert |mailed + "0"| != |mailed|; }
    assert r == InvalidCode && !store.users[a].isVerified;
    r := store.Verify("alice@example.com", Some(mailed));
    assert r == AccountVerified && store.users[a].isVerified;
    // Replaying the code is refused by the already-verified check.
    r := store.Verify("alice@example.com", Some(mailed));
    assert r == AlreadyVerified;

    r := store.Login("alice@example.com", "wrong", Sign);
    assert r == InvalidCredentials;
    r := store.Login("alice@example.com", "secret", Sign);
    assert r == Response(200, Session(Sign(a), store.users[a]));
  }

  /** With the token from login Alice adds Bob, writes to him, and after removing him their history is empty. */
  method Friendship(store: Store, a: UserId, b: UserId, now: nat)
    requires store.Valid() && a in store.users && b in store.users && a != b
    requires store.users[b].friendCode == "e5f6g7h8" && store.users[a].friends == []
    requires store.messages == []
    modifies store
  {
    var header := Some(Gate.Scheme + Sign(a));
    SignedTokensDecode(a);
    Gate.IssuedTokenAdmitted(a, Sign, Decode);
    var bobRecord := store.users[b];
    var r := store.AddFriend(header, Decode, "e5f6g7h8");
    assert r == Response(200, NewFriend(bobRecord));
    assert store.users[a].friends == [b];

    r := store.Send(Some("hi"), Some(a), Some(b), now);
    var m := Message(Some(a), Some(b), "hi", now);
    assert r == Response(201, Saved(m)) && store.messages == [m];

    r := store.History(b, a);
    assert Chat.Involves(m, b, a);
    assert r.body.messages == [m];

    r := store.RemoveFriend(header, Decode, b, true);
    assert r == FriendRemoved && store.users[a].friends == [];
    Chat.PurgeClearsHistory([m], a, b);
    r := store.History(a, b);
    assert r.body.messages == [];
  }
}
