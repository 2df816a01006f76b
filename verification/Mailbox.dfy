/**
 * What the process controller keeps for workers that wait (`PendingMessages`) and for messages
 * that nobody waits for yet (`MessageStore`), with the index of state keys.
 */
module Mailbox {
  import opened Wrappers
  import opened Bytes
  import opened Scheduler

  const ANY: string := "ANY"

  // ----------------------------------------------------------- pending requests

  /** `here` is history: whether the invocation was asked of this process or of another one. */
  datatype Wait = ForMessage | ForResult(here: bool)

  /** One entry of the multimap; a result is awaited whatever its source. */
  datatype Waiter = Waiter(key: Key, wait: Wait, source: string, worker: nat) {
    predicate Takes(key: Key, source: string) {
      this.key == key && wait == ForMessage && (this.source == ANY || this.source == source)
    }
  }

  function FirstTaking(ws: seq<Waiter>, key: Key, source: string): (n: nat)
    ensures n <= |ws| && forall i :: 0 <= i < n ==> !ws[i].Takes(key, source)
    ensures n < |ws| ==> ws[n].Takes(key, source)
  {
    if ws == [] || ws[0].Takes(key, source) then 0 else 1 + FirstTaking(ws[1..], key, source)
  }

  /** An unordered multimap leaves open where among equal keys a new entry goes: `at` is where
      it went, and with it the order in which later searches come across it. */
  function Placed(ws: seq<Waiter>, x: Waiter, at: nat): (r: seq<Waiter>)
    ensures forall y :: y in r <==> y in ws || y == x
  {
    if at < |ws| then ws[..at] + [x] + ws[at..] else ws + [x]
  }

  /** The waiters under a key, of both kinds: what `equal_range` spans. */
  function Under(ws: seq<Waiter>, key: Key): (r: seq<Waiter>)
    ensures forall x :: x in r <==> x in ws && x.key == key
  {
    if ws == [] then []
    else Under(ws[..|ws| - 1], key) + if ws[|ws| - 1].key == key then [ws[|ws| - 1]] else []
  }

  function NotUnder(ws: seq<Waiter>, key: Key): (r: seq<Waiter>)
    ensures forall x :: x in r <==> x in ws && x.key != key
  {
    if ws == [] then []
    else NotUnder(ws[..|ws| - 1], key) + if ws[|ws| - 1].key == key then [] else [ws[|ws| - 1]]
  }

  lemma UnderMore(init: seq<Waiter>, x: Waiter, key: Key)
    ensures Under(init + [x], key) == if x.key == key then Under(init, key) + [x] else Under(init, key)
    ensures NotUnder(init + [x], key) == if x.key == key then NotUnder(init, key) else NotUnder(init, key) + [x]
  {
    assert (init + [x])[..|init|] == init;
  }

  lemma OneMore(s: seq<Waiter>, x: Waiter, y: Waiter)
    ensures multiset(s + [x])[y] == multiset(s)[y] + One(x == y)
  {
  }

  lemma {:induction false} CountByKey(ws: seq<Waiter>, key: Key, y: Waiter)
    ensures multiset(Under(ws, key))[y] + multiset(NotUnder(ws, key))[y] == multiset(ws)[y]
  {
    if ws != [] {
      var init, x := ws[..|ws| - 1], ws[|ws| - 1];
      CountByKey(init, key, y);
      assert ws == init + [x];
      UnderMore(init, x, key);
      OneMore(init, x, y);
      if x.key == key {
        OneMore(Under(init, key), x, y);
      } else {
        OneMore(NotUnder(init, key), x, y);
      }
    }
  }

  /** Taking the waiters under a key loses none. */
  lemma SplitByKey(ws: seq<Waiter>, key: Key)
    ensures multiset(Under(ws, key)) + multiset(NotUnder(ws, key)) == multiset(ws)
  {
    forall y ensures (multiset(Under(ws, key)) + multiset(NotUnder(ws, key)))[y] == multiset(ws)[y] {
      CountByKey(ws, key, y);
    }
  }

  function WorkersOf(ws: seq<Waiter>): (r: seq<nat>)
    ensures |r| == |ws| && forall i :: 0 <= i < |r| ==> r[i] == ws[i].worker
  {
    if ws == [] then [] else WorkersOf(ws[..|ws| - 1]) + [ws[|ws| - 1].worker]
  }

  class PendingMessages {
    var waiters: seq<Waiter>

    constructor ()
      ensures waiters == []
    {
      waiters := [];
    }

    method InsertGet(key: Key, source: string, worker: nat, at: nat)
      modifies this
      ensures waiters == Placed(old(waiters), Waiter(key, ForMessage, source, worker), at)
    {
      waiters := Placed(waiters, Waiter(key, ForMessage, source, worker), at);
    }

    method InsertInvocation(key: Key, worker: nat, here: bool, at: nat)
      modifies this
      ensures waiters == Placed(old(waiters), Waiter(key, ForResult(here), "", worker), at)
    {
      waiters := Placed(waiters, Waiter(key, ForResult(here), "", worker), at);
    }

    /** `find_get`: the first worker met under the key that waits for this source or for any. */
    method FindGet(key: Key, source: string) returns (worker: Option<nat>)
      modifies this
      ensures var n := FirstTaking(old(waiters), key, source);
        if n == |old(waiters)| then worker == None && waiters == old(waiters)
        else worker == Some(old(waiters)[n].worker) && waiters == Without(old(waiters), n)
    {
      var i := 0;
      while i < |waiters|
        invariant 0 <= i <= |waiters| && waiters == old(waiters)
        invariant FirstTaking(waiters, key, source) == i + FirstTaking(waiters[i..], key, source)
      {
        if waiters[i].Takes(key, source) {
          worker := Some(waiters[i].worker);
          waiters := Without(waiters, i);
          return;
        }
        assert waiters[i..][1..] == waiters[i + 1..];
        i := i + 1;
      }
      return None;
    }

    /** `find_invocation`: everything under the key, whatever it waits for. */
    method FindInvocation(key: Key) returns (found: seq<nat>)
      modifies this
      ensures found == WorkersOf(Under(old(waiters), key)) && waiters == NotUnder(old(waiters), key)
    {
      found := [];
      ghost var taken: seq<Waiter> := [];
      var rest: seq<Waiter> := [];
      var i := 0;
      while i < |waiters|
        invariant 0 <= i <= |waiters| && waiters == old(waiters)
        invariant taken == Under(waiters[..i], key) && found == WorkersOf(taken)
        invariant rest == NotUnder(waiters[..i], key)
      {
        assert waiters[..i + 1][..i] == waiters[..i];
        if waiters[i].key == key {
          assert (taken + [waiters[i]])[..|taken|] == taken;
          found, taken := found + [waiters[i].worker], taken + [waiters[i]];
        } else {
          rest := rest + [waiters[i]];
        }
        i := i + 1;
      }
      assert waiters[..i] == waiters;
      waiters := rest;
    }
  }

  // --------------------------------------------------------------- stored messages

  type Time = int

  datatype Message = Message(source: string, data: Payload) {
    predicate For(source: string) {
      source == ANY || this.source == source
    }
  }

  datatype Stamped = Stamped(key: Key, at: Time)

  datatype Store = Store(msgs: map<Key, Message>, index: seq<Stamped>)

  /** `put`: the first message under a key stays. */
  function PutInto(s: Store, key: Key, source: string, data: Payload): (Store, bool) {
    if key in s.msgs then (s, false) else (s.(msgs := s.msgs[key := Message(source, data)]), true)
  }

  /** Where a key's entry is in the index. */
  function Stamp(index: seq<Stamped>, key: Key): (n: nat)
    ensures n <= |index| && (forall i :: 0 <= i < n ==> index[i].key != key)
    ensures n < |index| ==> index[n].key == key
  {
    if index == [] || index[0].key == key then 0 else 1 + Stamp(index[1..], key)
  }

  /** `state`: the last value under a key stays. Nothing is returned for the case in which the
      code writes through the end of the index. */
  function WriteState(s: Store, key: Key, data: Payload, now: Time): Option<Store> {
    var msgs := s.msgs[key := Message("", data)];
    var n := Stamp(s.index, key);
    if key !in s.msgs then Some(Store(msgs, s.index + [Stamped(key, now)]))
    else if n == |s.index| then None
    else Some(Store(msgs, s.index[n := Stamped(key, now)]))
  }

  function TakeFrom(s: Store, key: Key, source: string): (Store, Option<Payload>) {
    if key !in s.msgs || !s.msgs[key].For(source) then (s, None)
    else (s.(msgs := s.msgs - {key}), Some(s.msgs[key].data))
  }

  function ReadState(s: Store, key: Key): Option<Payload> {
    if key in s.msgs then Some(s.msgs[key].data) else None
  }

  class MessageStore {
    var msgs: map<Key, Message>
    var index: seq<Stamped>

    ghost function State(): Store
      reads this
    {
      Store(msgs, index)
    }

    constructor ()
      ensures State() == Store(map[], [])
    {
      msgs, index := map[], [];
    }

    method Put(key: Key, source: string, data: Payload) returns (success: bool)
      modifies this
      ensures (State(), success) == PutInto(old(State()), key, source, data)
    {
      if key in msgs {
        return false;
      }
      msgs := msgs[key := Message(source, data)];
      return true;
    }

    /** The result is a failure where the code dereferences the end of the index. */
    method WriteStateKey(key: Key, data: Payload, now: Time) returns (r: Result<()>)
      modifies this
      ensures match WriteState(old(State()), key, data, now)
        case Some(s) => r == Success(()) && State() == s
        case None => r == Failure(OutOfBounds) && State() == old(State()).(msgs := old(msgs)[key := Message("", data)])
    {
      var emplaced := key !in msgs;
      msgs := msgs[key := Message("", data)];
      if emplaced {
        index := index + [Stamped(key, now)];
        return Success(());
      }
      var i := 0;
      while i < |index| && index[i].key != key
        invariant 0 <= i <= |index| && index == old(index)
        invariant Stamp(index, key) == i + Stamp(index[i..], key)
      {
        assert index[i..][1..] == index[i + 1..];
        i := i + 1;
      }
      if i == |index| {
        return Failure(OutOfBounds);
      }
      index := index[i := Stamped(key, now)];
      return Success(());
    }

    method TryGet(key: Key, source: string) returns (data: Option<Payload>)
      modifies this
      ensures (State(), data) == TakeFrom(old(State()), key, source)
    {
      if key !in msgs {
        return None;
      }
      if source != ANY && msgs[key].source != source {
        return None;
      }
      data := Some(msgs[key].data);
      msgs := msgs - {key};
    }

    method TryState(key: Key) returns (data: Option<Payload>)
      ensures data == ReadState(State(), key)
    {
      if key !in msgs {
        return None;
      }
      return Some(msgs[key].data);
    }
  }

  // ------------------------------------------------------------ the state index

  datatype Write = Write(key: Key, data: Payload, at: Time)

  /** The keys of a log of writes, each where it was first written. */
  function WrittenKeys(log: seq<Write>): (ks: seq<Key>)
    ensures NoDuplicates(ks)
    ensures forall k :: k in ks <==> exists i :: 0 <= i < |log| && log[i].key == k
  {
    if log == [] then []
    else
      var ks, w := WrittenKeys(log[..|log| - 1]), log[|log| - 1];
      if w.key in ks then ks else ks + [w.key]
  }

  /** The latest write of a key. */
  function Latest(log: seq<Write>, key: Key): (w: Write)
    requires key in WrittenKeys(log)
    ensures w in log && w.key == key
  {
    if log[|log| - 1].key == key then log[|log| - 1] else Latest(log[..|log| - 1], key)
  }

  /** Where the index has an entry for each key, in order, with the time of its latest write. */
  ghost predicate Listed(index: seq<Stamped>, log: seq<Write>) {
    var ks := WrittenKeys(log);
    |index| == |ks| && forall i :: 0 <= i < |ks| ==> index[i] == Stamped(ks[i], Latest(log, ks[i]).at)
  }

  ghost predicate Kept(msgs: map<Key, Message>, log: seq<Write>) {
    forall k :: k in WrittenKeys(log) ==> k in msgs && msgs[k] == Message("", Latest(log, k).data)
  }

  /** The index lists the keys of the log in first-write order with their latest timestamps,
      and the latest value of each is in the store. */
  ghost predicate IndexAgrees(s: Store, log: seq<Write>) {
    Listed(s.index, log) && Kept(s.msgs, log)
  }

  lemma IndexFinds(s: Store, log: seq<Write>, key: Key)
    requires IndexAgrees(s, log)
    ensures Stamp(s.index, key) < |s.index| <==> key in WrittenKeys(log)
  {
    var n := Stamp(s.index, key);
    if n < |s.index| {
      assert WrittenKeys(log)[n] == key;
    }
    if i :| 0 <= i < |s.index| && WrittenKeys(log)[i] == key {
      assert s.index[i].key == key;
    }
  }

  lemma LatestMore(log: seq<Write>, w: Write, k: Key)
    requires k in WrittenKeys(log + [w])
    ensures Latest(log + [w], k) == if k == w.key then w else Latest(log, k)
    ensures k != w.key ==> k in WrittenKeys(log)
  {
    assert (log + [w])[..|log|] == log;
    if k != w.key {
      assert k in WrittenKeys(log);
    }
  }

  lemma WrittenMore(log: seq<Write>, w: Write)
    ensures WrittenKeys(log + [w]) == if w.key in WrittenKeys(log) then WrittenKeys(log) else WrittenKeys(log) + [w.key]
  {
    assert (log + [w])[..|log|] == log;
  }

  lemma KeptMore(msgs: map<Key, Message>, log: seq<Write>, w: Write)
    requires Kept(msgs, log)
    ensures Kept(msgs[w.key := Message("", w.data)], log + [w])
  {
    WrittenMore(log, w);
    forall k | k in WrittenKeys(log + [w]) ensures Latest(log + [w], k) == if k == w.key then w else Latest(log, k) {
      LatestMore(log, w, k);
    }
  }

  lemma ListedNew(index: seq<Stamped>, log: seq<Write>, w: Write)
    requires Listed(index, log) && w.key !in WrittenKeys(log)
    ensures Listed(index + [Stamped(w.key, w.at)], log + [w])
  {
    WrittenMore(log, w);
    var ks := WrittenKeys(log + [w]);
    forall i | 0 <= i < |ks| ensures (index + [Stamped(w.key, w.at)])[i] == Stamped(ks[i], Latest(log + [w], ks[i]).at) {
      LatestMore(log, w, ks[i]);
    }
  }

  lemma ListedAgain(index: seq<Stamped>, log: seq<Write>, w: Write, n: nat)
    requires Listed(index, log) && n < |index| && index[n].key == w.key
    ensures Listed(index[n := Stamped(w.key, w.at)], log + [w])
  {
    assert WrittenKeys(log)[n] == w.key;
    WrittenMore(log, w);
    var ks := WrittenKeys(log);
    forall i | 0 <= i < |ks| ensures index[n := Stamped(w.key, w.at)][i] == Stamped(ks[i], Latest(log + [w], ks[i]).at) {
      LatestMore(log, w, ks[i]);
    }
  }

  /** A write of state keeps the agreement, unless the key holds a mailbox message: exactly
      then the index is written past its end. */
  lemma StateWriteKeepsIndexIff(s: Store, log: seq<Write>, key: Key, data: Payload, now: Time)
    requires IndexAgrees(s, log)
    ensures var t := WriteState(s, key, data, now);
      && (t.None? <==> key in s.msgs && key !in WrittenKeys(log))
      && (t.Some? ==> IndexAgrees(t.value, log + [Write(key, data, now)]))
  {
    var w, n := Write(key, data, now), Stamp(s.index, key);
    IndexFinds(s, log, key);
    KeptMore(s.msgs, log, w);
    if key !in s.msgs {
      ListedNew(s.index, log, w);
    } else if n < |s.index| {
      ListedAgain(s.index, log, w, n);
    }
  }

  /** A put never disturbs the index. */
  lemma PutKeepsIndex(s: Store, log: seq<Write>, key: Key, source: string, data: Payload)
    requires IndexAgrees(s, log)
    ensures IndexAgrees(PutInto(s, key, source, data).0, log)
  {
  }

  /** A get keeps the agreement unless it names a state key with source ANY or the empty source:
      then the value is gone and the index still lists it. */
  lemma GetKeepsIndexIff(s: Store, log: seq<Write>, key: Key, source: string)
    requires IndexAgrees(s, log)
    ensures IndexAgrees(TakeFrom(s, key, source).0, log) <==> !(key in WrittenKeys(log) && (source == ANY || source == ""))
  {
    if key in WrittenKeys(log) {
      assert s.msgs[key].source == "";
    }
  }
}
