/**
 * The mistakes store: the set of question ids the learner got wrong, kept in insertion order
 * (the iteration order of a JavaScript `Set`), and the set of callbacks to call whenever that
 * set actually changes. Callbacks are identified by a number; calling one is recorded in the
 * `calls` log, in call order.
 */
module MistakesStore {

  type QuestionId = string

  /** A callback, identified by reference as a JavaScript `Set` does. */
  type Callback = nat

  predicate NoDuplicates<T(==,!new)>(s: seq<T>) {
    forall i, j :: 0 <= i < j < |s| ==> s[i] != s[j]
  }

  /** `Set.prototype.add`: appended when new, otherwise the set is unchanged. */
  function Inserted<T(==,!new)>(s: seq<T>, x: T): seq<T> {
    if x in s then s else s + [x]
  }

  /** `Set.prototype.delete`: the remaining elements, in their order. */
  function Deleted<T(==,!new)>(s: seq<T>, x: T): (r: seq<T>)
    ensures forall y :: y in r <==> y in s && y != x
    ensures |r| <= |s|
    ensures x !in s ==> r == s
  {
    if s == [] then []
    else
      var rest := Deleted(s[1..], x);
      assert forall y :: y in s <==> y == s[0] || y in s[1..];
      if s[0] == x then rest else [s[0]] + rest
  }

  /** How many times `c` appears in a call log. */
  function Count(calls: seq<Callback>, c: Callback): nat {
    if calls == [] then 0
    else Count(calls[..|calls| - 1], c) + (if calls[|calls| - 1] == c then 1 else 0)
  }

  /** The call log of `k` notifications: the subscribers, in subscription order, `k` times over. */
  function Rounds(subscribers: seq<Callback>, k: nat): seq<Callback> {
    if k == 0 then [] else Rounds(subscribers, k - 1) + subscribers
  }

  class Store {
    /** The question ids, in insertion order. */
    var mistakes: seq<QuestionId>
    /** The subscribed callbacks, in subscription order. */
    var subscribers: seq<Callback>
    /** Every callback invocation so far, in order. */
    var calls: seq<Callback>

    predicate Valid()
      reads this
    {
      NoDuplicates(mistakes) && NoDuplicates(subscribers)
    }

    constructor ()
      ensures Valid() && mistakes == [] && subscribers == [] && calls == []
    {
      mistakes, subscribers, calls := [], [], [];
    }

    /** `notifySubscribers`: every subscriber once, in subscription order. */
    method NotifySubscribers()
      modifies this`calls
      ensures calls == old(calls) + subscribers
    {
      var i := 0;
      while i < |subscribers|
        invariant 0 <= i <= |subscribers|
        invariant calls == old(calls) + subscribers[..i]
      {
        calls := calls + [subscribers[i]];
        assert subscribers[..i + 1] == subscribers[..i] + [subscribers[i]];
        i := i + 1;
      }
      assert subscribers[..i] == subscribers;
    }

    /** `add`: a new id is appended and the subscribers are told; a known id changes nothing. */
    method Add(q: QuestionId)
      requires Valid()
      modifies this`mistakes, this`calls
      ensures Valid()
      ensures mistakes == Inserted(old(mistakes), q)
      ensures calls == if q in old(mistakes) then old(calls) else old(calls) + subscribers
    {
      if q !in mistakes {
        mistakes := mistakes + [q];
        NotifySubscribers();
      }
    }

    /** `remove`: a known id is deleted and the subscribers are told; an unknown id changes nothing. */
    method Remove(q: QuestionId)
      requires Valid()
      modifies this`mistakes, this`calls
      ensures Valid()
      ensures mistakes == Deleted(old(mistakes), q)
      ensures calls == if q in old(mistakes) then old(calls) + subscribers else old(calls)
    {
      if q in mistakes {
        DeletedKeepsNoDuplicates(mistakes, q);
        mistakes := Deleted(mistakes, q);
        NotifySubscribers();
      }
    }

    /** `clear`: a non-empty store is emptied and the subscribers are told; an empty one changes nothing. */
    method Clear()
      requires Valid()
      modifies this`mistakes, this`calls
      ensures Valid() && mistakes == []
      ensures calls == if old(mistakes) != [] then old(calls) + subscribers else old(calls)
    {
      if |mistakes| > 0 {
        mistakes := [];
        NotifySubscribers();
      }
    }

    method Has(q: QuestionId) returns (b: bool)
      ensures b <==> q in mistakes
    {
      b := q in mistakes;
    }

    /** `getAll`: a copy of the ids in insertion order. */
    method GetAll() returns (all: seq<QuestionId>)
      ensures all == mistakes
    {
      all := mistakes;
    }

    /**
     * `subscribe`: adds the callback (once, however often it is subscribed); the returned
     * function is `Unsubscribe` applied to the same callback.
     */
    method Subscribe(c: Callback)
      requires Valid()
      modifies this`subscribers
      ensures Valid() && subscribers == Inserted(old(subscribers), c)
    {
      if c !in subscribers {
        subscribers := subscribers + [c];
      }
    }

    /** The function `subscribe` returns: deletes the callback, whether or not it is still there. */
    method Unsubscribe(c: Callback)
      requires Valid()
      modifies this`subscribers
      ensures Valid() && subscribers == Deleted(old(subscribers), c)
    {
      DeletedKeepsNoDuplicates(subscribers, c);
      subscribers := Deleted(subscribers, c);
    }
  }

  // ---------------------------------------------------------------------------
  // Properties

  lemma {:induction false} DeletedKeepsNoDuplicates<T(!new)>(s: seq<T>, x: T)
    requires NoDuplicates(s)
    ensures NoDuplicates(Deleted(s, x))
    decreases |s|
  {
    if s != [] {
      DeletedKeepsNoDuplicates(s[1..], x);
      var rest := Deleted(s[1..], x);
      if s[0] != x {
        assert s[0] !in s[1..];
        assert s[0] !in rest;
        var r := [s[0]] + rest;
        forall i, j | 0 <= i < j < |r|
          ensures r[i] != r[j]
        {
          if i == 0 {
            assert r[j] in rest;
          } else {
            assert r[i] == rest[i - 1] && r[j] == rest[j - 1];
          }
        }
      }
    }
  }

  lemma InsertedKeepsNoDuplicates<T(!new)>(s: seq<T>, x: T)
    requires NoDuplicates(s)
    ensures NoDuplicates(Inserted(s, x))
  {
  }

  /** Adding an id that was not there and removing it again restores the store exactly, order included. */
  lemma {:induction false} AddThenRemove<T(!new)>(s: seq<T>, x: T)
    requires x !in s
    ensures Deleted(Inserted(s, x), x) == s
    decreases |s|
  {
    if s == [] {
      assert Inserted(s, x) == [x];
      assert Deleted([x], x) == Deleted([x][1..], x);
    } else {
      AddThenRemove(s[1..], x);
      assert (s + [x])[1..] == s[1..] + [x];
      assert Inserted(s[1..], x) == s[1..] + [x];
      assert [s[0]] + s[1..] == s;
    }
  }

  /** Removing a present id and adding it back keeps the same ids but moves that one to the end. */
  lemma RemoveThenAdd<T(!new)>(s: seq<T>, x: T)
    requires x in s
    ensures var r := Inserted(Deleted(s, x), x);
      (forall y :: y in r <==> y in s) && r[|r| - 1] == x
  {
  }

  lemma {:induction false} CountAppend(a: seq<Callback>, b: seq<Callback>, c: Callback)
    ensures Count(a + b, c) == Count(a, c) + Count(b, c)
    decreases |b|
  {
    if b == [] {
      assert a + b == a;
    } else {
      assert (a + b)[..|a + b| - 1] == a + b[..|b| - 1];
      CountAppend(a, b[..|b| - 1], c);
    }
  }

  lemma {:induction false} CountNoDuplicates(s: seq<Callback>, c: Callback)
    requires NoDuplicates(s)
    ensures Count(s, c) == if c in s then 1 else 0
    decreases |s|
  {
    if s != [] {
      var init := s[..|s| - 1];
      CountNoDuplicates(init, c);
      assert s == init + [s[|s| - 1]];
      assert s[|s| - 1] !in init;
    }
  }

  /**
   * One notification round calls each subscriber exactly once and any other callback never:
   * in particular a callback that has unsubscribed hears nothing more.
   */
  lemma NotifiedOnce(calls: seq<Callback>, subscribers: seq<Callback>, c: Callback)
    requires NoDuplicates(subscribers)
    ensures Count(calls + subscribers, c) == Count(calls, c) + (if c in subscribers then 1 else 0)
  {
    CountAppend(calls, subscribers, c);
    CountNoDuplicates(subscribers, c);
  }

  /** After `Unsubscribe(c)` the callback is no longer among those a notification round reaches. */
  lemma UnsubscribedNotNotified(calls: seq<Callback>, subscribers: seq<Callback>, c: Callback)
    requires NoDuplicates(subscribers)
    ensures Count(calls + Deleted(subscribers, c), c) == Count(calls, c)
  {
    DeletedKeepsNoDuplicates(subscribers, c);
    NotifiedOnce(calls, Deleted(subscribers, c), c);
  }

  /** After `k` notifications every subscriber has been called exactly `k` times, and nobody else at all. */
  lemma {:induction false} RoundsCount(subscribers: seq<Callback>, k: nat, c: Callback)
    requires NoDuplicates(subscribers)
    ensures Count(Rounds(subscribers, k), c) == if c in subscribers then k else 0
  {
    if k > 0 {
      RoundsCount(subscribers, k - 1, c);
      CountAppend(Rounds(subscribers, k - 1), subscribers, c);
      CountNoDuplicates(subscribers, c);
    }
  }
}
