/**
 * Nothing is made up: whatever the process controller sends goes back to the requests and
 * results that came in, with their contents.
 */
module Provenance {
  import opened Wrappers
  import opened Bytes
  import opened Scheduler
  import opened Mailbox
  import opened ProcessController

  // ------------------------------------------------------- what an event provides

  function SourceNamed(cfg: Config, process: string): string {
    if process == SELF then cfg.self else process
  }

  predicate GetsBy(e: Event, w: nat, key: Key) {
    e.FromWorker? && e.worker == w && e.call.Get? && e.call.key == key
  }

  /** Who the message of a put is from; a state write has no source. */
  predicate PutsBy(cfg: Config, e: Event, key: Key, from: string, data: Payload) {
    match e
    case RemotePut(k, sender, d) => k == key && d == data && from == sender
    case FromWorker(_, Put(process, k, d)) => IsSelf(cfg, process) && k == key && d == data && from == cfg.self
    case FromWorker(_, PutState(k, d, _)) => k == key && d == data && from == ""
    case _ => false
  }

  /** A get that accepts the message of a put. */
  predicate Meet(cfg: Config, g: Event, p: Event, w: nat, key: Key, from: string, data: Payload) {
    && GetsBy(g, w, key) && PutsBy(cfg, p, key, from, data)
    && (SourceNamed(cfg, g.call.process) == ANY || SourceNamed(cfg, g.call.process) == from)
  }

  predicate Invokes(e: Event, w: nat, id: Key) {
    e.FromWorker? && e.worker == w && e.call.Invoke? && e.call.id == id
  }

  /** A request to run `id` here, with one part of its payload, from a source. */
  predicate Requests(cfg: Config, e: Event, id: Key, part: Payload) {
    match e
    case RemoteInvoke(_, k, d, _) => k == id && d == part
    case FromWorker(_, Invoke(process, _, k, d, _)) => IsSelf(cfg, process) && k == id && d == part
    case _ => false
  }

  predicate RequestsFrom(e: Event, id: Key, source: Source) {
    e.RemoteInvoke? && e.id == id && e.source == source
  }

  /** A result that came in under `id`: from the worker here that ran it, or from elsewhere. */
  predicate Yields(e: Event, id: Key, code: int, bytes: Payload) {
    match e
    case RemoteResult(k, c, d) => k == id && c == code && d == bytes
    case FromWorker(_, Finish(k, c, d)) => k == id && c == code && d == bytes
    case _ => false
  }

  /** The result of a run, or the refusal to run it. */
  ghost predicate BodyCaused(es: seq<Event>, id: Key, code: int, body: Body) {
    match body
    case Data(bytes) => exists e :: e in es && Yields(e, id, code, bytes)
    case Diagnosis(_) => code == -1
  }

  ghost predicate Caused(cfg: Config, es: seq<Event>, o: Output) {
    match o
    case Answer(w, id, code, body) => AskedFor(cfg, es, w, id) && BodyCaused(es, id, code, body)
    case Reply(source, id, code, body) => AskedFrom(es, id, source) && BodyCaused(es, id, code, body)
    case Deliver(w, key, named, data) =>
      (exists g, p, from :: g in es && p in es && Meet(cfg, g, p, w, key, from, data) && (named == from || named == g.call.process))
    case Request(process, fname, id, data) => exists w, at :: FromWorker(w, Invoke(process, fname, id, data, at)) in es
    case Forward(process, key, data) => exists w :: FromWorker(w, Put(process, key, data)) in es
    case Dropped(key, data) => exists e, from :: e in es && PutsBy(cfg, e, key, from, data)
    case _ => true
  }

  /** A worker that gets an answer under an id asked for it, or for a message of that name. */
  ghost predicate AskedFor(cfg: Config, es: seq<Event>, w: nat, id: Key) {
    exists e :: e in es && (Invokes(e, w, id) || GetsBy(e, w, id))
  }

  ghost predicate AskedFrom(es: seq<Event>, id: Key, source: Source) {
    exists e :: e in es && RequestsFrom(e, id, source)
  }

  ghost predicate WaiterCaused(cfg: Config, es: seq<Event>, x: Waiter) {
    if x.wait.ForResult? then exists e :: e in es && Invokes(e, x.worker, x.key) && IsSelf(cfg, e.call.process) == x.wait.here
    else exists e :: e in es && GetsBy(e, x.worker, x.key) && SourceNamed(cfg, e.call.process) == x.source
  }

  ghost predicate StoredCaused(cfg: Config, es: seq<Event>, key: Key, m: Message) {
    exists e :: e in es && PutsBy(cfg, e, key, m.source, m.data)
  }

  ghost predicate PartsCaused(cfg: Config, es: seq<Event>, id: Key, parts: seq<Payload>) {
    forall i :: 0 <= i < |parts| ==> PartCaused(cfg, es, id, parts[i])
  }

  ghost predicate PartCaused(cfg: Config, es: seq<Event>, id: Key, part: Payload) {
    exists e :: e in es && Requests(cfg, e, id, part)
  }

  /** The function is the one some request for the id named. */
  ghost predicate FunctionCaused(cfg: Config, es: seq<Event>, id: Key, fname: string) {
    exists e :: e in es && Calls(cfg, e, id, fname)
  }

  predicate Calls(cfg: Config, e: Event, id: Key, fname: string) {
    match e
    case RemoteInvoke(f, k, _, _) => k == id && f == fname
    case FromWorker(_, Invoke(process, f, k, _, _)) => IsSelf(cfg, process) && k == id && f == fname
    case _ => false
  }

  ghost predicate RunCaused(cfg: Config, es: seq<Event>, id: Key, i: Invocation) {
    PartsCaused(cfg, es, id, i.payload) && FunctionCaused(cfg, es, id, i.fname) && (i.source.IsRemote() ==> AskedFrom(es, id, i.source))
  }

  ghost predicate DispatchCaused(cfg: Config, es: seq<Event>, d: Dispatch) {
    PartsCaused(cfg, es, d.key, d.parts) && FunctionCaused(cfg, es, d.key, d.fname)
  }

  ghost predicate QueueTraced(cfg: Config, es: seq<Event>, s: Sched) {
    && (forall k :: k in s.queue.active ==> RunCaused(cfg, es, k, s.queue.active[k]))
    && (forall i :: 0 <= i < |s.dispatched| ==> DispatchCaused(cfg, es, s.dispatched[i]))
  }

  ghost predicate ListsTraced(cfg: Config, es: seq<Event>, c: Ctl) {
    && (forall x :: x in c.waiters ==> WaiterCaused(cfg, es, x))
    && (forall k :: k in c.store.msgs ==> StoredCaused(cfg, es, k, c.store.msgs[k]))
  }

  ghost predicate SentTraced(cfg: Config, es: seq<Event>, sent: seq<Output>) {
    forall o :: o in sent ==> Caused(cfg, es, o)
  }

  // ------------------------------------------------------------ causes do not vanish

  lemma CausedLater(cfg: Config, es: seq<Event>, e: Event, o: Output)
    requires Caused(cfg, es, o)
    ensures Caused(cfg, es + [e], o)
  {
    assert forall f :: f in es ==> f in es + [e];
    match o
    case Answer(w, id, code, body) => BodyLater(es, e, id, code, body);
    case Reply(source, id, code, body) => BodyLater(es, e, id, code, body);
    case _ =>
  }

  lemma BodyLater(es: seq<Event>, e: Event, id: Key, code: int, body: Body)
    requires BodyCaused(es, id, code, body)
    ensures BodyCaused(es + [e], id, code, body)
  {
    assert forall f :: f in es ==> f in es + [e];
  }

  lemma SentLater(cfg: Config, es: seq<Event>, e: Event, sent: seq<Output>)
    requires SentTraced(cfg, es, sent)
    ensures SentTraced(cfg, es + [e], sent)
  {
    forall o | o in sent ensures Caused(cfg, es + [e], o) {
      CausedLater(cfg, es, e, o);
    }
  }

  lemma WaiterLater(cfg: Config, es: seq<Event>, e: Event, x: Waiter)
    requires WaiterCaused(cfg, es, x)
    ensures WaiterCaused(cfg, es + [e], x)
  {
    assert forall f :: f in es ==> f in es + [e];
  }

  lemma ListsLater(cfg: Config, es: seq<Event>, e: Event, c: Ctl)
    requires ListsTraced(cfg, es, c)
    ensures ListsTraced(cfg, es + [e], c)
  {
    forall x | x in c.waiters ensures WaiterCaused(cfg, es + [e], x) {
      WaiterLater(cfg, es, e, x);
    }
    assert forall f :: f in es ==> f in es + [e];
  }

  lemma PartsLater(cfg: Config, es: seq<Event>, e: Event, id: Key, parts: seq<Payload>)
    requires PartsCaused(cfg, es, id, parts)
    ensures PartsCaused(cfg, es + [e], id, parts)
  {
    forall i | 0 <= i < |parts| ensures PartCaused(cfg, es + [e], id, parts[i]) {
      assert PartCaused(cfg, es, id, parts[i]);
      var f :| f in es && Requests(cfg, f, id, parts[i]);
      assert f in es + [e];
    }
  }

  lemma FunctionLater(cfg: Config, es: seq<Event>, e: Event, id: Key, fname: string)
    requires FunctionCaused(cfg, es, id, fname)
    ensures FunctionCaused(cfg, es + [e], id, fname)
  {
    assert forall f :: f in es ==> f in es + [e];
  }

  lemma RunLater(cfg: Config, es: seq<Event>, e: Event, id: Key, i: Invocation)
    requires RunCaused(cfg, es, id, i)
    ensures RunCaused(cfg, es + [e], id, i)
  {
    PartsLater(cfg, es, e, id, i.payload);
    FunctionLater(cfg, es, e, id, i.fname);
    assert forall f :: f in es ==> f in es + [e];
  }

  lemma QueueLater(cfg: Config, es: seq<Event>, e: Event, s: Sched)
    requires QueueTraced(cfg, es, s)
    ensures QueueTraced(cfg, es + [e], s)
  {
    forall k | k in s.queue.active ensures RunCaused(cfg, es + [e], k, s.queue.active[k]) {
      RunLater(cfg, es, e, k, s.queue.active[k]);
    }
    forall i | 0 <= i < |s.dispatched| ensures DispatchCaused(cfg, es + [e], s.dispatched[i]) {
      PartsLater(cfg, es, e, s.dispatched[i].key, s.dispatched[i].parts);
      FunctionLater(cfg, es, e, s.dispatched[i].key, s.dispatched[i].fname);
    }
  }

  // ------------------------------------------------------------------ the handlers

  lemma {:induction false} AnswersCaused(cfg: Config, es: seq<Event>, ws: seq<nat>, id: Key, code: int, body: Body)
    requires forall w :: w in ws ==> AskedFor(cfg, es, w, id)
    requires BodyCaused(es, id, code, body)
    ensures SentTraced(cfg, es, Answers(ws, id, code, body))
  {
    if ws != [] {
      AnswersCaused(cfg, es, ws[..|ws| - 1], id, code, body);
      assert ws[|ws| - 1] in ws;
    }
  }

  lemma SentMore(cfg: Config, es: seq<Event>, sent: seq<Output>, more: seq<Output>)
    requires SentTraced(cfg, es, sent) && SentTraced(cfg, es, more)
    ensures SentTraced(cfg, es, sent + more)
  {
  }

  lemma SentOne(cfg: Config, es: seq<Event>, sent: seq<Output>, o: Output)
    requires SentTraced(cfg, es, sent) && Caused(cfg, es, o)
    ensures SentTraced(cfg, es, sent + [o])
  {
  }

  lemma WaitersAsked(cfg: Config, es: seq<Event>, c: Ctl, id: Key)
    requires ListsTraced(cfg, es, c)
    ensures forall w :: w in WorkersOf(Under(c.waiters, id)) ==> AskedFor(cfg, es, w, id)
  {
    var found := Under(c.waiters, id);
    forall w | w in WorkersOf(found) ensures AskedFor(cfg, es, w, id) {
      var i :| 0 <= i < |found| && WorkersOf(found)[i] == w;
      assert found[i] in found;
      assert WaiterCaused(cfg, es, found[i]);
    }
  }

  /** The state after a step has causes among the events so far. */
  ghost predicate Traced(cfg: Config, es: seq<Event>, c: Ctl) {
    QueueTraced(cfg, es, c.sched) && ListsTraced(cfg, es, c) && SentTraced(cfg, es, c.sent)
  }

  lemma ToWaitersTraced(cfg: Config, es: seq<Event>, c: Ctl, id: Key, code: int, body: Body)
    requires Traced(cfg, es, c) && BodyCaused(es, id, code, body)
    ensures Traced(cfg, es, ToWaiters(c, id, code, body))
  {
    var ws := WorkersOf(Under(c.waiters, id));
    WaitersAsked(cfg, es, c, id);
    AnswersCaused(cfg, es, ws, id, code, body);
    SentMore(cfg, es, c.sent, Answers(ws, id, code, body));
  }

  lemma ResolvedTraced(cfg: Config, es: seq<Event>, c: Ctl, source: Source, id: Key, code: int, body: Body)
    requires Traced(cfg, es, c) && BodyCaused(es, id, code, body)
    requires source.IsRemote() ==> AskedFrom(es, id, source)
    ensures Traced(cfg, es, Resolved(c, source, id, code, body))
  {
    if source.IsRemote() {
      SentOne(cfg, es, c.sent, Reply(source, id, code, body));
    } else {
      ToWaitersTraced(cfg, es, c, id, code, body);
    }
  }

  lemma PartsMore(cfg: Config, es: seq<Event>, id: Key, parts: seq<Payload>, part: Payload)
    requires PartsCaused(cfg, es, id, parts) && PartCaused(cfg, es, id, part)
    ensures PartsCaused(cfg, es, id, parts + [part])
  {
  }

  lemma AddTraced(cfg: Config, es: seq<Event>, s: Sched, fname: string, id: Key, data: Payload, source: Source)
    requires QueueTraced(cfg, es, s) && PartCaused(cfg, es, id, data) && FunctionCaused(cfg, es, id, fname)
    requires source.IsRemote() ==> AskedFrom(es, id, source)
    ensures QueueTraced(cfg, es, Add(s, cfg.functions, fname, id, data, source).0)
  {
    if id in s.queue.active {
      PartsMore(cfg, es, id, s.queue.active[id].payload, data);
    }
    assert PartsCaused(cfg, es, id, [data]);
  }

  lemma RequestedTraced(cfg: Config, es: seq<Event>, c: Ctl, fname: string, id: Key, data: Payload, source: Source)
    requires Traced(cfg, es, c) && PartCaused(cfg, es, id, data) && FunctionCaused(cfg, es, id, fname)
    requires source.IsRemote() ==> AskedFrom(es, id, source)
    ensures Traced(cfg, es, Requested(cfg, c, fname, id, data, source))
  {
    var (s, refused) := Add(c.sched, cfg.functions, fname, id, data, source);
    AddTraced(cfg, es, c.sched, fname, id, data, source);
    if refused.Some? {
      ResolvedTraced(cfg, es, c.(sched := s), source, id, -1, Diagnosis(refused.value));
    }
  }

  lemma AcceptedTraced(cfg: Config, es: seq<Event>, c: Ctl, p: Event, key: Key, sender: string, data: Payload)
    requires Traced(cfg, es, c) && p in es && PutsBy(cfg, p, key, sender, data)
    ensures Traced(cfg, es, Accepted(c, key, sender, data))
  {
    var n := FirstTaking(c.waiters, key, sender);
    if n < |c.waiters| {
      var x := c.waiters[n];
      assert WaiterCaused(cfg, es, x);
      var g :| g in es && GetsBy(g, x.worker, x.key) && SourceNamed(cfg, g.call.process) == x.source;
      assert Meet(cfg, g, p, x.worker, key, sender, data);
      SentOne(cfg, es, c.sent, Deliver(x.worker, key, sender, data));
      assert forall y :: y in Without(c.waiters, n) ==> y in c.waiters;
    } else {
      assert Caused(cfg, es, Dropped(key, data));
      SentOne(cfg, es, c.sent, Dropped(key, data));
      StoringTraced(cfg, es, c, p, key, sender, data);
    }
  }

  lemma StoringTraced(cfg: Config, es: seq<Event>, c: Ctl, p: Event, key: Key, sender: string, data: Payload)
    requires ListsTraced(cfg, es, c) && p in es && PutsBy(cfg, p, key, sender, data)
    ensures ListsTraced(cfg, es, c.(store := c.store.(msgs := c.store.msgs[key := Message(sender, data)])))
  {
    var d := c.(store := c.store.(msgs := c.store.msgs[key := Message(sender, data)]));
    forall k | k in d.store.msgs ensures StoredCaused(cfg, es, k, d.store.msgs[k]) {
      if k != key {
        assert StoredCaused(cfg, es, k, c.store.msgs[k]);
      }
    }
  }

  lemma GotTraced(cfg: Config, es: seq<Event>, c: Ctl, w: nat, process: string, key: Key, at: nat)
    requires Traced(cfg, es, c) && FromWorker(w, Get(process, key, at)) in es
    ensures Traced(cfg, es, Got(cfg, c, w, process, key, at))
  {
    var g, sender := FromWorker(w, Get(process, key, at)), SourceNamed(cfg, process);
    var data := TakeFrom(c.store, key, sender).1;
    if data.Some? {
      var m := c.store.msgs[key];
      assert StoredCaused(cfg, es, key, m);
      var p :| p in es && PutsBy(cfg, p, key, m.source, m.data);
      assert Meet(cfg, g, p, w, key, m.source, m.data);
      SentOne(cfg, es, c.sent, Deliver(w, key, process, data.value));
    } else {
      assert WaiterCaused(cfg, es, Waiter(key, ForMessage, sender, w));
    }
  }

  lemma EndedTraced(cfg: Config, es: seq<Event>, c: Ctl, w: nat, id: Key, code: int, data: Payload)
    requires w < |c.sched.pool.busy| == |c.sched.job|
    requires Traced(cfg, es, c) && FromWorker(w, Finish(id, code, data)) in es
    ensures Traced(cfg, es, Ended(c, w, id, code, data))
  {
    var (s, done) := Complete(c.sched, w, id);
    assert Yields(FromWorker(w, Finish(id, code, data)), id, code, data);
    if done.Some? {
      assert RunCaused(cfg, es, id, done.value);
      ResolvedTraced(cfg, es, c.(sched := s), done.value.source, id, code, Data(data));
    }
  }

  lemma InvokedTraced(cfg: Config, es: seq<Event>, c: Ctl, w: nat, process: string, fname: string, id: Key,
                      data: Payload, at: nat)
    requires Traced(cfg, es, c) && FromWorker(w, Invoke(process, fname, id, data, at)) in es
    ensures Traced(cfg, es, Invoked(cfg, c, w, process, fname, id, data, at))
  {
    var e := FromWorker(w, Invoke(process, fname, id, data, at));
    var d := Awaiting(cfg, c, w, process, id, at);
    assert Invokes(e, w, id);
    assert WaiterCaused(cfg, es, Waiter(id, ForResult(IsSelf(cfg, process)), "", w));
    if IsSelf(cfg, process) {
      assert Requests(cfg, e, id, data) && Calls(cfg, e, id, fname);
      RequestedTraced(cfg, es, d, fname, id, data, Local);
    } else {
      SentOne(cfg, es, d.sent, Request(process, fname, id, data));
    }
  }

  lemma DispatchTraced(cfg: Config, es: seq<Event>, s: Sched)
    requires QueueTraced(cfg, es, s) && s.queue.pending != []
    ensures QueueTraced(cfg, es, DispatchOne(s))
  {
    var key := s.queue.pending[0];
    if key in s.queue.active {
      assert RunCaused(cfg, es, key, s.queue.active[key]);
    }
  }

  lemma {:induction false} LoopTraced(cfg: Config, es: seq<Event>, s: Sched)
    requires QueueTraced(cfg, es, s)
    ensures QueueTraced(cfg, es, DispatchLoop(s))
    decreases |s.queue.pending|
  {
    if !s.crashed && s.pool.idle > 0 && s.queue.pending != [] {
      DispatchTraced(cfg, es, s);
      LoopTraced(cfg, es, DispatchOne(s));
    }
  }

  lemma PutTraced(cfg: Config, es: seq<Event>, c: Ctl, w: nat, process: string, key: Key, data: Payload)
    requires w < |c.sched.pool.busy| == |c.sched.job|
    requires Traced(cfg, es, c) && FromWorker(w, Put(process, key, data)) in es
    ensures Traced(cfg, es, Called(cfg, c, w, Put(process, key, data)))
  {
    if IsSelf(cfg, process) {
      AcceptedTraced(cfg, es, c, FromWorker(w, Put(process, key, data)), key, cfg.self, data);
    } else {
      SentOne(cfg, es, c.sent, Forward(process, key, data));
    }
  }

  lemma CallTraced(cfg: Config, es: seq<Event>, c: Ctl, w: nat, call: Call)
    requires w < |c.sched.pool.busy| == |c.sched.job| && Traced(cfg, es, c) && FromWorker(w, call) in es
    ensures Traced(cfg, es, Called(cfg, c, w, call))
  {
    match call
    case Finish(id, code, data) => EndedTraced(cfg, es, c, w, id, code, data);
    case Invoke(process, fname, id, data, at) => InvokedTraced(cfg, es, c, w, process, fname, id, data, at);
    case Put(process, key, data) => PutTraced(cfg, es, c, w, process, key, data);
    case PutState(key, data, now) => StoringTraced(cfg, es, c, FromWorker(w, call), key, "", data);
    case Get(process, key, at) => GotTraced(cfg, es, c, w, process, key, at);
    case GetState(key) => SentOne(cfg, es, c.sent, StateValue(w, key, ReadState(c.store, key)));
    case ListState => SentOne(cfg, es, c.sent, StateKeys(w, c.store.index));
  }

  lemma StepTraced(cfg: Config, es: seq<Event>, c: Ctl, e: Event)
    requires Traced(cfg, es, c) && e in es
    ensures Traced(cfg, es, Step(cfg, c, e))
  {
    if !c.sched.crashed {
      match e
      case RemoteInvoke(fname, id, data, source) =>
        assert Requests(cfg, e, id, data) && Calls(cfg, e, id, fname) && RequestsFrom(e, id, source);
        RequestedTraced(cfg, es, c, fname, id, data, source);
      case RemoteResult(id, code, data) =>
        assert Yields(e, id, code, data);
        ToWaitersTraced(cfg, es, c, id, code, Data(data));
      case RemotePut(key, sender, data) => AcceptedTraced(cfg, es, c, e, key, sender, data);
      case FromWorker(w, call) =>
        if w < |c.sched.pool.busy| == |c.sched.job| {
          CallTraced(cfg, es, c, w, call);
        }
      case DispatchAll => LoopTraced(cfg, es, c.sched);
    }
  }

  /**
   * On every run, without any assumption: each result delivered or returned carries the code and
   * bytes of a result that came in under its id, to somebody who asked, or is a refusal; each
   * message delivered was put under that key by a source its receiver accepts; and the payloads
   * dispatched under an id are those of requests for that id.
   */
  lemma {:induction false} NothingIsMadeUp(cfg: Config, es: seq<Event>)
    ensures Traced(cfg, es, Run(cfg, es))
  {
    if es != [] {
      var before, e := es[..|es| - 1], es[|es| - 1];
      assert es == before + [e];
      NothingIsMadeUp(cfg, before);
      QueueLater(cfg, before, e, Run(cfg, before).sched);
      ListsLater(cfg, before, e, Run(cfg, before));
      SentLater(cfg, before, e, Run(cfg, before).sent);
      StepTraced(cfg, es, Run(cfg, before), e);
    }
  }
}
