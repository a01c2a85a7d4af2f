/**
 * The event registry (`EventManager`): a table from an event name to the
 * multicast delegate of its subscribers. A delegate is modelled as the
 * ordered list of the callbacks it holds; a callback is an opaque id.
 * Removing the last callback leaves the name in the table with an empty
 * (null) delegate, which the next `Notify` under that name then invokes.
 */
module Events {

  type EventId = string

  datatype Callback = Callback(id: nat)

  /** One invocation made by `Notify`. */
  datatype Call<S, E> = Call(callback: Callback, sender: S, event: E)

  /**
   * What `Notify` does: the invocations in order, or the NullReferenceException
   * raised by invoking a null delegate.
   */
  datatype Dispatch<S, E> = Invoked(calls: seq<Call<S, E>>) | NullCallback

  /** C# delegate subtraction of a single callback: removes its LAST occurrence. */
  function RemoveLast(s: seq<Callback>, cb: Callback): (r: seq<Callback>)
    ensures cb !in s ==> r == s
    ensures cb in s ==> |r| == |s| - 1
    ensures multiset(r) == multiset(s) - multiset{cb}
    decreases |s|
  {
    if s == [] then []
    else if s[|s| - 1] == cb then
      assert s == s[..|s| - 1] + [cb];
      s[..|s| - 1]
    else
      assert s == s[..|s| - 1] + [s[|s| - 1]];
      RemoveLast(s[..|s| - 1], cb) + [s[|s| - 1]]
  }

  /** Where the last occurrence of `cb` in `s` is. */
  function LastIndex(s: seq<Callback>, cb: Callback): (i: nat)
    requires cb in s
    ensures i < |s| && s[i] == cb && cb !in s[i + 1..]
    decreases |s|
  {
    var n := |s| - 1;
    if s[n] == cb then n
    else
      assert s == s[..n] + [s[n]];
      var i := LastIndex(s[..n], cb);
      assert s[i + 1..] == s[..n][i + 1..] + [s[n]];
      i
  }

  /**
   * The occurrence removed is the last one: everything before it and
   * everything after it is kept, in order.
   */
  lemma {:induction false} RemoveLastIsLastOccurrence(s: seq<Callback>, cb: Callback)
    requires cb in s
    ensures var i := LastIndex(s, cb); RemoveLast(s, cb) == s[..i] + s[i + 1..]
    decreases |s|
  {
    var n := |s| - 1;
    if s[n] == cb {
      assert LastIndex(s, cb) == n;
      assert s[n + 1..] == [];
      assert s[..n] + s[n + 1..] == s[..n];
    } else {
      var init := s[..n];
      assert s == init + [s[n]];
      RemoveLastIsLastOccurrence(init, cb);
      var i := LastIndex(init, cb);
      assert LastIndex(s, cb) == i;
      calc {
        RemoveLast(s, cb);
        RemoveLast(init, cb) + [s[n]];
        (init[..i] + init[i + 1..]) + [s[n]];
        { assert init[..i] == s[..i]; assert init[i + 1..] + [s[n]] == s[i + 1..]; }
        s[..i] + s[i + 1..];
      }
    }
  }

  /** The table after `Subscribe(id, cb)`. */
  function Subscribed(table: map<EventId, seq<Callback>>, id: EventId, cb: Callback): (t: map<EventId, seq<Callback>>)
    ensures t.Keys == table.Keys + {id}
    ensures id !in table ==> t[id] == [cb]
    ensures id in table ==> t[id] == table[id] + [cb]
    ensures forall e :: e in table && e != id ==> t[e] == table[e]
  {
    if id in table then table[id := table[id] + [cb]] else table[id := [cb]]
  }

  /** The table after `Unsubscribe(id, cb)`. */
  function Unsubscribed(table: map<EventId, seq<Callback>>, id: EventId, cb: Callback): (t: map<EventId, seq<Callback>>)
    ensures t.Keys == table.Keys
    ensures id in table ==> t[id] == RemoveLast(table[id], cb)
    ensures forall e :: e in table && e != id ==> t[e] == table[e]
  {
    if id in table then table[id := RemoveLast(table[id], cb)] else table
  }

  /**
   * Unsubscribing what was just subscribed restores the table, except that
   * a name that was new stays behind with an empty delegate.
   */
  lemma SubscribeThenUnsubscribe(table: map<EventId, seq<Callback>>, id: EventId, cb: Callback)
    ensures id in table ==> Unsubscribed(Subscribed(table, id, cb), id, cb) == table
    ensures id !in table ==> Unsubscribed(Subscribed(table, id, cb), id, cb) == table[id := []]
  {
    if id in table {
      var s := table[id];
      assert RemoveLast(s + [cb], cb) == s by {
        assert (s + [cb])[..|s + [cb]| - 1] == s;
      }
    } else {
      assert RemoveLast([cb], cb) == [];
    }
  }

  class EventRegistry {
    var subscribers: map<EventId, seq<Callback>>

    constructor ()
      ensures subscribers == map[]
    {
      subscribers := map[];
    }

    /** Appends `cb` to the delegate of `id`, creating the entry if `id` is new. */
    method Subscribe(id: EventId, cb: Callback)
      modifies this
      ensures subscribers == Subscribed(old(subscribers), id, cb)
    {
      if id in subscribers {
        subscribers := subscribers[id := subscribers[id] + [cb]];
      } else {
        subscribers := subscribers[id := [cb]];
      }
    }

    /** Removes the last occurrence of `cb` under `id`; an unknown `id` is ignored. */
    method Unsubscribe(id: EventId, cb: Callback)
      modifies this
      ensures subscribers == Unsubscribed(old(subscribers), id, cb)
    {
      if id in subscribers {
        subscribers := subscribers[id := RemoveLast(subscribers[id], cb)];
      }
    }

    /**
     * Invokes every callback under `id` in subscription order, all with the
     * same sender and event. An unknown `id` does nothing; a known `id` whose
     * delegate has become empty (null) raises. The table is never changed.
     */
    method Notify<S, E>(id: EventId, sender: S, ev: E) returns (d: Dispatch<S, E>)
      ensures id !in subscribers ==> d == Invoked([])
      ensures id in subscribers && subscribers[id] == [] ==> d == NullCallback
      ensures id in subscribers && subscribers[id] != [] ==>
        d.Invoked? && |d.calls| == |subscribers[id]| &&
        forall i :: 0 <= i < |d.calls| ==> d.calls[i] == Call(subscribers[id][i], sender, ev)
    {
      if id !in subscribers {
        return Invoked([]);
      }
      var delegate := subscribers[id];
      if delegate == [] {
        return NullCallback;
      }
      var calls: seq<Call<S, E>> := [];
      var i := 0;
      while i < |delegate|
        invariant 0 <= i <= |delegate|
        invariant |calls| == i
        invariant forall j :: 0 <= j < i ==> calls[j] == Call(delegate[j], sender, ev)
      {
        calls := calls + [Call(delegate[i], sender, ev)];
        i := i + 1;
      }
      d := Invoked(calls);
    }
  }
}
