/**
 * The friend list of one account: an ordered array of user ids. Adding pushes
 * at the end with no duplicate check; removing keeps every entry that is not
 * the removed id, in order.
 */
module Friends {
  import opened UserSchema

  /** `user.friends.push(friend._id)`. */
  function Push(friends: seq<UserId>, id: UserId): (r: seq<UserId>)
    ensures |r| == |friends| + 1 && r[|friends|] == id
    ensures r[..|friends|] == friends
    ensures multiset(r)[id] == multiset(friends)[id] + 1
  {
    friends + [id]
  }

  /** `user.friends.filter((friend) => friend.toString() !== friendId)`. */
  function RemoveAll(friends: seq<UserId>, id: UserId): (r: seq<UserId>)
    ensures id !in r
    ensures forall x :: x in r ==> x in friends
    ensures |r| <= |friends|
  {
    if friends == [] then []
    else if friends[0] == id then RemoveAll(friends[1..], id)
    else [friends[0]] + RemoveAll(friends[1..], id)
  }

  /** Removing from a concatenation removes from each part: the order of what is kept is the original order. */
  lemma {:induction false} RemoveAllDistributes(a: seq<UserId>, b: seq<UserId>, id: UserId)
    ensures RemoveAll(a + b, id) == RemoveAll(a, id) + RemoveAll(b, id)
    decreases |a|
  {
    if a != [] {
      assert (a + b)[1..] == a[1..] + b;
      RemoveAllDistributes(a[1..], b, id);
    } else {
      assert a + b == b;
    }
  }

  /** Every other id keeps its multiplicity. */
  lemma {:induction false} RemoveAllKeepsOthers(friends: seq<UserId>, id: UserId, other: UserId)
    requires other != id
    ensures multiset(RemoveAll(friends, id))[other] == multiset(friends)[other]
    decreases |friends|
  {
    if friends != [] {
      RemoveAllKeepsOthers(friends[1..], id, other);
      assert friends == [friends[0]] + friends[1..];
    }
  }

  /** A list that does not hold the id is left exactly as it was. */
  lemma {:induction false} RemoveAllAbsent(friends: seq<UserId>, id: UserId)
    requires id !in friends
    ensures RemoveAll(friends, id) == friends
    decreases |friends|
  {
    if friends != [] {
      RemoveAllAbsent(friends[1..], id);
    }
  }

  /** Removing twice is removing once. */
  lemma RemoveAllIdempotent(friends: seq<UserId>, id: UserId)
    ensures RemoveAll(RemoveAll(friends, id), id) == RemoveAll(friends, id)
  {
  }

  /** However many times an id was pushed, one removal clears every copy and leaves the rest as before. */
  lemma {:induction false} RemoveAfterPushes(friends: seq<UserId>, id: UserId, n: nat)
    ensures RemoveAll(friends + seq(n, _ => id), id) == RemoveAll(friends, id)
    decreases n
  {
    RemoveAllDistributes(friends, seq(n, _ => id), id);
    PushedCopiesVanish(id, n);
    assert RemoveAll(friends, id) + [] == RemoveAll(friends, id);
  }

  lemma {:induction false} PushedCopiesVanish(id: UserId, n: nat)
    ensures RemoveAll(seq(n, _ => id), id) == []
    decreases n
  {
    if n > 0 {
      assert seq(n, _ => id)[1..] == seq(n - 1, _ => id);
      PushedCopiesVanish(id, n - 1);
    }
  }
}
