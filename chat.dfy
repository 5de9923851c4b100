/**
 * The two queries over the message collection that select a conversation:
 * `find` for the history between two users (in store order: the sort key it
 * names is not a field of the schema) and `deleteMany` for the purge that
 * follows a friend removal. Both use the same filter, a message whose
 * (sender, receiver) is (a, b) or (b, a).
 */
module Chat {
  import opened Wrappers
  import opened UserSchema
  import opened MessageSchema

  predicate Involves(m: Message, a: UserId, b: UserId)
  {
    (m.sender == Some(a) && m.receiver == Some(b)) || (m.sender == Some(b) && m.receiver == Some(a))
  }

  /** `Message.find({ $or: [...] })`: the conversation between a and b. */
  function Between(log: seq<Message>, a: UserId, b: UserId): (r: seq<Message>)
    ensures forall m :: m in r <==> m in log && Involves(m, a, b)
    ensures |r| <= |log|
  {
    if log == [] then []
    else if Involves(log[0], a, b) then [log[0]] + Between(log[1..], a, b)
    else Between(log[1..], a, b)
  }

  /** `Message.deleteMany({ $or: [...] })`: what the collection holds afterwards. */
  function Purge(log: seq<Message>, a: UserId, b: UserId): (r: seq<Message>)
    ensures forall m :: m in r <==> m in log && !Involves(m, a, b)
    ensures |r| <= |log|
  {
    if log == [] then []
    else if Involves(log[0], a, b) then Purge(log[1..], a, b)
    else [log[0]] + Purge(log[1..], a, b)
  }

  /** The pair is unordered: asking for (b, a) gives the same messages, in the same order, as (a, b). */
  lemma {:induction false} BetweenSymmetric(log: seq<Message>, a: UserId, b: UserId)
    ensures Between(log, a, b) == Between(log, b, a)
    decreases |log|
  {
    if log != [] {
      BetweenSymmetric(log[1..], a, b);
    }
  }

  /** The history query works message by message, so it splits over a concatenation and keeps store order. */
  lemma {:induction false} BetweenDistributes(x: seq<Message>, y: seq<Message>, a: UserId, b: UserId)
    ensures Between(x + y, a, b) == Between(x, a, b) + Between(y, a, b)
    decreases |x|
  {
    if x == [] {
      assert x + y == y;
    } else {
      assert (x + y)[0] == x[0];
      assert (x + y)[1..] == x[1..] + y;
      BetweenDistributes(x[1..], y, a, b);
      if Involves(x[0], a, b) {
        assert Between(x + y, a, b) == [x[0]] + (Between(x[1..], a, b) + Between(y, a, b));
      } else {
        assert Between(x + y, a, b) == Between(x[1..], a, b) + Between(y, a, b);
      }
    }
  }

  /** So does the purge. */
  lemma {:induction false} PurgeDistributes(x: seq<Message>, y: seq<Message>, a: UserId, b: UserId)
    ensures Purge(x + y, a, b) == Purge(x, a, b) + Purge(y, a, b)
    decreases |x|
  {
    if x == [] {
      assert x + y == y;
    } else {
      assert (x + y)[0] == x[0];
      assert (x + y)[1..] == x[1..] + y;
      PurgeDistributes(x[1..], y, a, b);
      if Involves(x[0], a, b) {
        assert Purge(x + y, a, b) == Purge(x[1..], a, b) + Purge(y, a, b);
      } else {
        assert Purge(x + y, a, b) == [x[0]] + (Purge(x[1..], a, b) + Purge(y, a, b));
      }
    }
  }

  /** A message appended to the log shows up at the end of the history it belongs to, and nowhere else. */
  lemma HistoryAfterSend(log: seq<Message>, m: Message, a: UserId, b: UserId)
    ensures Between(log + [m], a, b) == Between(log, a, b) + (if Involves(m, a, b) then [m] else [])
  {
    BetweenDistributes(log, [m], a, b);
    assert [m][1..] == [];
  }

  /** The two queries partition the log: every message is in exactly one of them, as often as in the log. */
  lemma {:induction false} PurgePartitions(log: seq<Message>, a: UserId, b: UserId)
    ensures multiset(Between(log, a, b)) + multiset(Purge(log, a, b)) == multiset(log)
    decreases |log|
  {
    if log != [] {
      PurgePartitions(log[1..], a, b);
      assert log == [log[0]] + log[1..];
    }
  }

  /** After the purge the history between a and b, in either order, is empty. */
  lemma PurgeClearsHistory(log: seq<Message>, a: UserId, b: UserId)
    ensures Between(Purge(log, a, b), a, b) == []
    ensures Between(Purge(log, a, b), b, a) == []
  {
  }

  /** {a, b} and {c, d} are the same unordered pair. */
  predicate SamePair(a: UserId, b: UserId, c: UserId, d: UserId)
  {
    (a == c && b == d) || (a == d && b == c)
  }

  /** The purge leaves every other conversation exactly as it was. */
  lemma {:induction false} PurgeKeepsOtherHistories(log: seq<Message>, a: UserId, b: UserId, c: UserId, d: UserId)
    requires !SamePair(a, b, c, d)
    ensures Between(Purge(log, a, b), c, d) == Between(log, c, d)
    decreases |log|
  {
    if log != [] {
      PurgeKeepsOtherHistories(log[1..], a, b, c, d);
      if Involves(log[0], a, b) {
        assert !Involves(log[0], c, d);
      } else {
        assert Purge(log, a, b) == [log[0]] + Purge(log[1..], a, b);
        assert ([log[0]] + Purge(log[1..], a, b))[1..] == Purge(log[1..], a, b);
      }
    }
  }
}
