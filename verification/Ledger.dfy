/** Bookkeeping shared by the queues of a low-level client: entries that are submitted once, finish
    once, and have their user callback run when they do. */
module Ledger {
  import opened Options
  import opened Sequences

  // A submitted entry. `id` numbers the submissions; `payload` is what else the entry carries.
  datatype Entry<P> = Entry(id: nat, callback: Option<nat>, context: nat, payload: P)

  datatype Finish<P, R> = Finish(entry: Entry<P>, result: R)

  // One invocation of a user callback.
  datatype UserCall<R> = UserCall(id: nat, callback: nat, context: nat, result: R)

  // An entry with a callback causes one call, an entry without causes none.
  function CallFor<P, R>(e: Entry<P>, result: R): seq<UserCall<R>> {
    if e.callback.Some? then [UserCall(e.id, e.callback.value, e.context, result)] else []
  }

  function CallsFor<P, R>(entries: seq<Entry<P>>, result: R): seq<UserCall<R>> {
    if entries == [] then []
    else CallsFor(entries[..|entries| - 1], result) + CallFor(entries[|entries| - 1], result)
  }

  function Finishes<P, R>(entries: seq<Entry<P>>, result: R): (r: seq<Finish<P, R>>)
    ensures |r| == |entries|
    ensures forall i :: 0 <= i < |r| ==> r[i] == Finish(entries[i], result)
  {
    if entries == [] then []
    else Finishes(entries[..|entries| - 1], result) + [Finish(entries[|entries| - 1], result)]
  }

  function EntriesOf<P, R>(finished: seq<Finish<P, R>>): (r: seq<Entry<P>>)
    ensures |r| == |finished|
    ensures forall i :: 0 <= i < |r| ==> r[i] == finished[i].entry
  {
    if finished == [] then [] else EntriesOf(finished[..|finished| - 1]) + [finished[|finished| - 1].entry]
  }

  function CallsOf<P, R>(finished: seq<Finish<P, R>>): seq<UserCall<R>> {
    if finished == [] then []
    else
      var last := finished[|finished| - 1];
      CallsOf(finished[..|finished| - 1]) + CallFor(last.entry, last.result)
  }

  function CountCalls<R>(calls: seq<UserCall<R>>, id: nat): nat {
    if calls == [] then 0
    else CountCalls(calls[..|calls| - 1], id) + (if calls[|calls| - 1].id == id then 1 else 0)
  }

  lemma {:induction false} EntriesOfExtended<P, R>(finished: seq<Finish<P, R>>, entries: seq<Entry<P>>, result: R)
    ensures EntriesOf(finished + Finishes(entries, result)) == EntriesOf(finished) + entries
  {
    if entries == [] {
      assert finished + [] == finished;
      assert EntriesOf(finished) + [] == EntriesOf(finished);
    } else {
      var earlier, last := entries[..|entries| - 1], entries[|entries| - 1];
      EntriesOfExtended(finished, earlier, result);
      AppendLast(finished, Finishes(earlier, result), Finish(last, result));
      assert entries == earlier + [last];
      Associate(EntriesOf(finished), earlier, [last]);
    }
  }

  lemma {:induction false} CallsOfExtended<P, R>(finished: seq<Finish<P, R>>, entries: seq<Entry<P>>, result: R)
    ensures CallsOf(finished + Finishes(entries, result)) == CallsOf(finished) + CallsFor(entries, result)
  {
    if entries == [] {
      assert finished + [] == finished;
      assert CallsOf(finished) + [] == CallsOf(finished);
    } else {
      var earlier, last := entries[..|entries| - 1], entries[|entries| - 1];
      CallsOfExtended(finished, earlier, result);
      AppendLast(finished, Finishes(earlier, result), Finish(last, result));
      Associate(CallsOf(finished), CallsFor(earlier, result), CallFor(last, result));
    }
  }

  // An entry's callback has run as often as the entry has finished, when no other has its id.
  lemma {:induction false} CountCallsOf<P, R>(finished: seq<Finish<P, R>>, e: Entry<P>)
    requires forall n <- EntriesOf(finished) :: n.id == e.id ==> n == e
    ensures CountCalls(CallsOf(finished), e.id)
         == if e.callback.Some? then multiset(EntriesOf(finished))[e] else 0
  {
    if finished != [] {
      var earlier, last := finished[..|finished| - 1], finished[|finished| - 1];
      assert forall n <- EntriesOf(earlier) :: n in EntriesOf(finished);
      CountCallsOf(earlier, e);
      assert last.entry in EntriesOf(finished);
      assert multiset(EntriesOf(finished)) == multiset(EntriesOf(earlier)) + multiset{last.entry};
      var calls := CallsOf(finished);
      if last.entry.callback.Some? {
        assert calls[..|calls| - 1] == CallsOf(earlier);
      } else {
        assert calls == CallsOf(earlier);
      }
    }
  }

  // The call that tells an entry's user: its own callback, with its own context and the result given.
  predicate Tells<P, R(==)>(call: UserCall<R>, e: Entry<P>, result: R) {
    && e.callback == Some(call.callback) && call.id == e.id && call.context == e.context && call.result == result
  }

  // How many of the entries have a callback.
  function WithCallback<P>(entries: seq<Entry<P>>): nat {
    if entries == [] then 0
    else WithCallback(entries[..|entries| - 1]) + (if entries[|entries| - 1].callback.Some? then 1 else 0)
  }

  // Telling a list of entries runs the callbacks of those that have one, in the order of the list, and
  // nothing else: the call for entry i comes after those for the entries before it.
  lemma {:induction false} CallsForAre<P, R>(entries: seq<Entry<P>>, result: R)
    ensures |CallsFor(entries, result)| == WithCallback(entries)
    ensures forall i :: 0 <= i < |entries| && entries[i].callback.Some? ==>
              && WithCallback(entries[..i]) < |CallsFor(entries, result)|
              && Tells(CallsFor(entries, result)[WithCallback(entries[..i])], entries[i], result)
    ensures forall c <- CallsFor(entries, result) :: c.result == result
  {
    if entries != [] {
      var earlier, last := entries[..|entries| - 1], entries[|entries| - 1];
      CallsForAre(earlier, result);
      forall i | 0 <= i < |entries| && entries[i].callback.Some?
        ensures WithCallback(entries[..i]) < |CallsFor(entries, result)|
             && Tells(CallsFor(entries, result)[WithCallback(entries[..i])], entries[i], result)
      {
        if i < |earlier| {
          assert entries[..i] == earlier[..i] && earlier[i].callback.Some?;
        }
      }
    }
  }

  // Every call is a finished entry's own callback with its own context and result.
  lemma {:induction false} CallsAreFaithful<P, R>(finished: seq<Finish<P, R>>, i: nat)
    requires i < |CallsOf(finished)|
    ensures exists f <- finished :: Tells(CallsOf(finished)[i], f.entry, f.result)
  {
    var earlier, last := finished[..|finished| - 1], finished[|finished| - 1];
    if i < |CallsOf(earlier)| {
      CallsAreFaithful(earlier, i);
    } else {
      assert last in finished && Tells(CallsOf(finished)[i], last.entry, last.result);
    }
  }
}
