/**
 * Every request to the process controller is settled exactly once or is still held: replies to
 * the network, results and messages to workers, and stored messages balance over all runs.
 */
module Conservation {
  import opened Wrappers
  import opened Bytes
  import opened Scheduler
  import opened Mailbox
  import opened ProcessController

  /** What can be outstanding. */
  datatype Debt =
    | RemoteResultFor(source: Source, id: Key)
    | LocalResultFor(worker: nat, id: Key)
    | MessageFor(worker: nat, key: Key)
    | MessagePut(key: Key, data: Payload)

  /** What a request creates. */
  function Owes(cfg: Config, e: Event): multiset<Debt> {
    match e
    case RemoteInvoke(_, id, _, source) => multiset{RemoteResultFor(source, id)}
    case RemotePut(key, _, data) => multiset{MessagePut(key, data)}
    case FromWorker(w, Invoke(_, _, id, _, _)) => multiset{LocalResultFor(w, id)}
    case FromWorker(w, Get(_, key, _)) => multiset{MessageFor(w, key)}
    case FromWorker(_, Put(process, key, data)) => if IsSelf(cfg, process) then multiset{MessagePut(key, data)} else multiset{}
    case _ => multiset{}
  }

  /** What an output pays off; delivering a message settles both the get and the put. */
  function Settles(o: Output): multiset<Debt> {
    match o
    case Answer(w, id, _, _) => multiset{LocalResultFor(w, id)}
    case Deliver(w, key, _, data) => multiset{MessageFor(w, key), MessagePut(key, data)}
    case Reply(source, id, _, _) => multiset{RemoteResultFor(source, id)}
    case Dropped(key, data) => multiset{MessagePut(key, data)}
    case _ => multiset{}
  }

  /** How often a debt was made, and how often it was paid off. */
  function Owed(cfg: Config, es: seq<Event>, d: Debt): nat {
    if es == [] then 0 else Owed(cfg, es[..|es| - 1], d) + Owes(cfg, es[|es| - 1])[d]
  }

  function Settled(sent: seq<Output>, d: Debt): nat {
    if sent == [] then 0 else Settled(sent[..|sent| - 1], d) + Settles(sent[|sent| - 1])[d]
  }

  function DebtOf(x: Waiter): Debt {
    if x.wait.ForResult? then LocalResultFor(x.worker, x.key) else MessageFor(x.worker, x.key)
  }

  function Waiting(ws: seq<Waiter>, d: Debt): nat {
    if ws == [] then 0 else Waiting(ws[..|ws| - 1], d) + One(d == DebtOf(ws[|ws| - 1]))
  }

  /** How often the controller's state holds a debt: in its invocations, its pending requests
      or its mailbox. */
  function Held(kind: Key -> Kind, c: Ctl, d: Debt): nat {
    match d
    case RemoteResultFor(source, id) => HeldRun(c.sched.queue.active, source, id)
    case MessagePut(key, data) => HeldMessage(kind, c.store, key, data)
    case _ => Waiting(c.waiters, d)
  }

  function HeldRun(active: map<Key, Invocation>, source: Source, id: Key): nat {
    One(source.IsRemote() && id in active && active[id].source == source)
  }

  function HeldMessage(kind: Key -> Kind, store: Store, key: Key, data: Payload): nat {
    One(kind(key) == MailboxKey && key in store.msgs && store.msgs[key].data == data)
  }

  function Balance(kind: Key -> Kind, c: Ctl, d: Debt): nat {
    Settled(c.sent, d) + Held(kind, c, d)
  }

  // -------------------------------------------------------------------- the parts

  lemma SendOne(sent: seq<Output>, o: Output, d: Debt)
    ensures Settled(sent + [o], d) == Settled(sent, d) + Settles(o)[d]
  {
    assert (sent + [o])[..|sent|] == sent;
  }

  lemma {:induction false} SendAll(sent: seq<Output>, more: seq<Output>, d: Debt)
    ensures Settled(sent + more, d) == Settled(sent, d) + Settled(more, d)
  {
    if more == [] {
      assert sent + more == sent;
    } else {
      var init := more[..|more| - 1];
      assert (sent + more)[..|sent + more| - 1] == sent + init;
      SendAll(sent, init, d);
    }
  }

  lemma WaitOne(ws: seq<Waiter>, x: Waiter, d: Debt)
    ensures Waiting(ws + [x], d) == Waiting(ws, d) + One(d == DebtOf(x))
  {
    assert (ws + [x])[..|ws|] == ws;
  }

  lemma {:induction false} WaitAll(ws: seq<Waiter>, more: seq<Waiter>, d: Debt)
    ensures Waiting(ws + more, d) == Waiting(ws, d) + Waiting(more, d)
  {
    if more == [] {
      assert ws + more == ws;
    } else {
      var init := more[..|more| - 1];
      assert (ws + more)[..|ws + more| - 1] == ws + init;
      WaitAll(ws, init, d);
    }
  }

  lemma WaitPlaced(ws: seq<Waiter>, x: Waiter, at: nat, d: Debt)
    ensures Waiting(Placed(ws, x, at), d) == Waiting(ws, d) + One(d == DebtOf(x))
  {
    if at < |ws| {
      assert ws[..at] + ws[at..] == ws;
      WaitAll(ws[..at] + [x], ws[at..], d);
      WaitOne(ws[..at], x, d);
      WaitAll(ws[..at], ws[at..], d);
    } else {
      WaitOne(ws, x, d);
    }
  }

  lemma WaitingWithout(ws: seq<Waiter>, n: nat, d: Debt)
    requires n < |ws|
    ensures Waiting(ws, d) == Waiting(Without(ws, n), d) + One(d == DebtOf(ws[n]))
  {
    assert ws == (ws[..n] + [ws[n]]) + ws[n + 1..];
    WaitAll(ws[..n] + [ws[n]], ws[n + 1..], d);
    WaitOne(ws[..n], ws[n], d);
    WaitAll(ws[..n], ws[n + 1..], d);
  }

  lemma {:induction false} WaitingSplits(ws: seq<Waiter>, key: Key, d: Debt)
    ensures Waiting(ws, d) == Waiting(Under(ws, key), d) + Waiting(NotUnder(ws, key), d)
  {
    if ws != [] {
      var init, x := ws[..|ws| - 1], ws[|ws| - 1];
      WaitingSplits(init, key, d);
      if x.key == key {
        assert NotUnder(ws, key) == NotUnder(init, key) && Under(ws, key) == Under(init, key) + [x];
        WaitOne(Under(init, key), x, d);
      } else {
        assert Under(ws, key) == Under(init, key) && NotUnder(ws, key) == NotUnder(init, key) + [x];
        WaitOne(NotUnder(init, key), x, d);
      }
    }
  }

  /** Answering waiters under one key pays off what they wait for, if all wait for the result. */
  lemma {:induction false} AnswersSettle(ws: seq<Waiter>, id: Key, code: int, body: Body, d: Debt)
    requires forall x :: x in ws ==> x.key == id && x.wait.ForResult?
    ensures Settled(Answers(WorkersOf(ws), id, code, body), d) == Waiting(ws, d)
  {
    if ws != [] {
      var init, x := ws[..|ws| - 1], ws[|ws| - 1];
      AnswersSettle(init, id, code, body, d);
      assert WorkersOf(ws)[..|ws| - 1] == WorkersOf(init);
      SendOne(Answers(WorkersOf(init), id, code, body), Answer(x.worker, id, code, body), d);
    }
  }

  /** No worker waits for a message under an invocation's id. */
  predicate OnlyResults(ws: seq<Waiter>, id: Key) {
    forall x :: x in ws && x.key == id ==> x.wait.ForResult?
  }

  lemma ToWaitersBalances(kind: Key -> Kind, c: Ctl, id: Key, code: int, body: Body, d: Debt)
    requires OnlyResults(c.waiters, id)
    ensures Balance(kind, ToWaiters(c, id, code, body), d) == Balance(kind, c, d)
  {
    var found := Under(c.waiters, id);
    var answers := Answers(WorkersOf(found), id, code, body);
    WaitingSplits(c.waiters, id, d);
    AnswersSettle(found, id, code, body, d);
    SendAll(c.sent, answers, d);
    OnlyLocalDebts(found, d);
  }

  lemma {:induction false} OnlyLocalDebts(ws: seq<Waiter>, d: Debt)
    ensures !d.LocalResultFor? && !d.MessageFor? ==> Waiting(ws, d) == 0
  {
    if ws != [] {
      OnlyLocalDebts(ws[..|ws| - 1], d);
    }
  }

  // -------------------------------------------- where a debt could get lost

  lemma {:induction false} AnswersAreResults(ws: seq<nat>, id: Key, code: int, body: Body, d: Debt)
    ensures !d.LocalResultFor? ==> Settled(Answers(ws, id, code, body), d) == 0
  {
    if ws != [] {
      var init := Answers(ws[..|ws| - 1], id, code, body);
      AnswersAreResults(ws[..|ws| - 1], id, code, body, d);
      SendOne(init, Answer(ws[|ws| - 1], id, code, body), d);
    }
  }

  lemma {:induction false} SomebodyWaits(ws: seq<Waiter>, x: Waiter)
    requires x in ws
    ensures Waiting(ws, DebtOf(x)) > 0
  {
    if x in ws[..|ws| - 1] {
      SomebodyWaits(ws[..|ws| - 1], x);
    }
  }

  lemma GetIsLost(kind: Key -> Kind, c: Ctl, x: Waiter, code: int, body: Body)
    requires x in c.waiters && !x.wait.ForResult?
    ensures Balance(kind, ToWaiters(c, x.key, code, body), DebtOf(x)) < Balance(kind, c, DebtOf(x))
  {
    var found := Under(c.waiters, x.key);
    WaitingSplits(c.waiters, x.key, DebtOf(x));
    SomebodyWaits(found, x);
    AnswersAreResults(WorkersOf(found), x.key, code, body, DebtOf(x));
    SendAll(c.sent, Answers(WorkersOf(found), x.key, code, body), DebtOf(x));
  }

  /** Handing a result to the waiters under its id balances exactly when nobody waits for a
      message under that id: such a get is taken out with the rest and never served. */
  lemma ResultsBalanceIff(kind: Key -> Kind, c: Ctl, id: Key, code: int, body: Body)
    ensures (forall d :: Balance(kind, ToWaiters(c, id, code, body), d) == Balance(kind, c, d)) <==> OnlyResults(c.waiters, id)
  {
    if OnlyResults(c.waiters, id) {
      forall d ensures Balance(kind, ToWaiters(c, id, code, body), d) == Balance(kind, c, d) {
        ToWaitersBalances(kind, c, id, code, body, d);
      }
    } else {
      var x :| x in c.waiters && x.key == id && !x.wait.ForResult?;
      GetIsLost(kind, c, x, code, body);
    }
  }

  lemma SendBalances(kind: Key -> Kind, c: Ctl, o: Output, d: Debt)
    ensures Balance(kind, c.(sent := c.sent + [o]), d) == Balance(kind, c, d) + Settles(o)[d]
  {
    SendOne(c.sent, o, d);
  }

  lemma ReplySettles(source: Source, id: Key, code: int, body: Body, d: Debt)
    ensures Settles(Reply(source, id, code, body))[d] == One(d == RemoteResultFor(source, id))
  {
  }

  lemma ResolvedIs(c: Ctl, source: Source, id: Key, code: int, body: Body)
    ensures Resolved(c, source, id, code, body) ==
      if source.IsRemote() then c.(sent := c.sent + [Reply(source, id, code, body)]) else ToWaiters(c, id, code, body)
  {
  }

  lemma ResolvedBalances(kind: Key -> Kind, c: Ctl, source: Source, id: Key, code: int, body: Body, d: Debt)
    requires OnlyResults(c.waiters, id)
    ensures Balance(kind, Resolved(c, source, id, code, body), d) ==
            Balance(kind, c, d) + One(source.IsRemote() && d == RemoteResultFor(source, id))
  {
    ResolvedIs(c, source, id, code, body);
    if source.IsRemote() {
      SendBalances(kind, c, Reply(source, id, code, body), d);
      ReplySettles(source, id, code, body, d);
    } else {
      ToWaitersBalances(kind, c, id, code, body, d);
    }
  }

  /** What an added invocation changes in what is held. */
  lemma AddHolds(cfg: Config, s: Sched, fname: string, id: Key, data: Payload, source: Source, from: Source, k: Key)
    ensures var (t, refused) := Add(s, cfg.functions, fname, id, data, source);
      HeldRun(t.queue.active, from, k) == HeldRun(s.queue.active, from, k)
        + One(refused.None? && id !in s.queue.active && source.IsRemote() && from == source && k == id)
  {
  }

  predicate Merges(c: Ctl, id: Key) {
    id in c.sched.queue.active && !c.sched.queue.active[id].active
  }

  lemma HeldBalances(kind: Key -> Kind, cfg: Config, c: Ctl, fname: string, id: Key, data: Payload, source: Source, d: Debt)
    requires Add(c.sched, cfg.functions, fname, id, data, source).1.None?
    ensures Balance(kind, c.(sched := Add(c.sched, cfg.functions, fname, id, data, source).0), d) ==
            Balance(kind, c, d) + One(source.IsRemote() && d == RemoteResultFor(source, id) && !Merges(c, id))
  {
    if d.RemoteResultFor? {
      AddHolds(cfg, c.sched, fname, id, data, source, d.source, d.id);
    }
  }

  lemma RefusedHoldsNothing(kind: Key -> Kind, cfg: Config, c: Ctl, fname: string, id: Key, data: Payload, source: Source, d: Debt)
    requires Add(c.sched, cfg.functions, fname, id, data, source).1.Some?
    ensures !Merges(c, id)
    ensures Balance(kind, c.(sched := Add(c.sched, cfg.functions, fname, id, data, source).0), d) == Balance(kind, c, d)
  {
  }

  /** A request is refused at once with a reply, or held: unless it is merged into one that
      still waits in the queue. */
  lemma RequestedBalances(kind: Key -> Kind, cfg: Config, c: Ctl, fname: string, id: Key, data: Payload, source: Source, d: Debt)
    requires OnlyResults(c.waiters, id)
    ensures Balance(kind, Requested(cfg, c, fname, id, data, source), d) ==
            Balance(kind, c, d) + One(source.IsRemote() && d == RemoteResultFor(source, id) && !Merges(c, id))
  {
    var (s, refused) := Add(c.sched, cfg.functions, fname, id, data, source);
    if refused.Some? {
      RefusedHoldsNothing(kind, cfg, c, fname, id, data, source, d);
      ResolvedBalances(kind, c.(sched := s), source, id, -1, Diagnosis(refused.value), d);
    } else {
      HeldBalances(kind, cfg, c, fname, id, data, source, d);
    }
  }

  /** A remote request is accounted for exactly when it is not merged. */
  lemma RequestLostExactlyWhenMerged(kind: Key -> Kind, cfg: Config, c: Ctl, fname: string, id: Key, data: Payload, source: Remote)
    requires OnlyResults(c.waiters, id)
    ensures var d := RemoteResultFor(source, id);
      Balance(kind, Requested(cfg, c, fname, id, data, source), d) == Balance(kind, c, d) + 1 <==> !Merges(c, id)
  {
    RequestedBalances(kind, cfg, c, fname, id, data, source, RemoteResultFor(source, id));
  }

  lemma WaitBalances(kind: Key -> Kind, c: Ctl, x: Waiter, at: nat, d: Debt)
    ensures Balance(kind, c.(waiters := Placed(c.waiters, x, at)), d) == Balance(kind, c, d) + One(d == DebtOf(x))
  {
    WaitPlaced(c.waiters, x, at, d);
  }

  lemma TakingBalances(kind: Key -> Kind, c: Ctl, key: Key, d: Debt)
    requires kind(key) == MailboxKey && key in c.store.msgs
    ensures Balance(kind, c.(store := c.store.(msgs := c.store.msgs - {key})), d) + One(d == MessagePut(key, c.store.msgs[key].data))
      == Balance(kind, c, d)
  {
  }

  /** A message delivered to a waiting worker pays off its get and its put. */
  lemma DeliveryBalances(kind: Key -> Kind, c: Ctl, n: nat, key: Key, sender: string, data: Payload, d: Debt)
    requires n < |c.waiters| && c.waiters[n].key == key && c.waiters[n].wait == ForMessage
    ensures var o := Deliver(c.waiters[n].worker, key, sender, data);
      Balance(kind, c.(waiters := Without(c.waiters, n), sent := c.sent + [o]), d) ==
        Balance(kind, c, d) + One(d == MessagePut(key, data))
  {
    WaitingWithout(c.waiters, n, d);
    SendOne(c.sent, Deliver(c.waiters[n].worker, key, sender, data), d);
  }

  lemma StoringBalances(kind: Key -> Kind, c: Ctl, key: Key, sender: string, data: Payload, d: Debt)
    requires kind(key) == MailboxKey && key !in c.store.msgs
    ensures Balance(kind, c.(store := c.store.(msgs := c.store.msgs[key := Message(sender, data)])), d) ==
            Balance(kind, c, d) + One(d == MessagePut(key, data))
  {
  }

  lemma AcceptedBalances(kind: Key -> Kind, c: Ctl, key: Key, sender: string, data: Payload, d: Debt)
    requires kind(key) == MailboxKey
    ensures Balance(kind, Accepted(c, key, sender, data), d) == Balance(kind, c, d) + One(d == MessagePut(key, data))
  {
    var n := FirstTaking(c.waiters, key, sender);
    if n < |c.waiters| {
      DeliveryBalances(kind, c, n, key, sender, data, d);
    } else if key in c.store.msgs {
      SendBalances(kind, c, Dropped(key, data), d);
    } else {
      StoringBalances(kind, c, key, sender, data, d);
    }
  }

  lemma GotBalances(kind: Key -> Kind, cfg: Config, c: Ctl, w: nat, process: string, key: Key, at: nat, d: Debt)
    requires kind(key) == MailboxKey
    ensures Balance(kind, Got(cfg, c, w, process, key, at), d) == Balance(kind, c, d) + One(d == MessageFor(w, key))
  {
    var sender := if process == SELF then cfg.self else process;
    var (store, data) := TakeFrom(c.store, key, sender);
    if data.Some? {
      TakingBalances(kind, c, key, d);
      SendBalances(kind, c.(store := store), Deliver(w, key, process, data.value), d);
    } else {
      WaitBalances(kind, c, Waiter(key, ForMessage, sender, w), at, d);
    }
  }

  lemma FinishedBalances(kind: Key -> Kind, c: Ctl, w: nat, id: Key, code: int, data: Payload, d: Debt)
    requires w < |c.sched.pool.busy| == |c.sched.job| && OnlyResults(c.waiters, id)
    ensures Balance(kind, Ended(c, w, id, code, data), d) == Balance(kind, c, d)
  {
    var (s, done) := Complete(c.sched, w, id);
    if done.Some? {
      ResolvedBalances(kind, c.(sched := s), done.value.source, id, code, Data(data), d);
    }
  }

  lemma AwaitingBalances(kind: Key -> Kind, cfg: Config, c: Ctl, w: nat, process: string, id: Key, at: nat, d: Debt)
    requires OnlyResults(c.waiters, id)
    ensures OnlyResults(Awaiting(cfg, c, w, process, id, at).waiters, id)
    ensures Balance(kind, Awaiting(cfg, c, w, process, id, at), d) == Balance(kind, c, d) + One(d == LocalResultFor(w, id))
  {
    WaitBalances(kind, c, Waiter(id, ForResult(IsSelf(cfg, process)), "", w), at, d);
  }

  lemma InvokedBalances(kind: Key -> Kind, cfg: Config, c: Ctl, w: nat, process: string, fname: string, id: Key, data: Payload,
                        at: nat, d: Debt)
    requires OnlyResults(c.waiters, id)
    ensures Balance(kind, Invoked(cfg, c, w, process, fname, id, data, at), d) == Balance(kind, c, d) + One(d == LocalResultFor(w, id))
  {
    var e := Awaiting(cfg, c, w, process, id, at);
    AwaitingBalances(kind, cfg, c, w, process, id, at, d);
    if IsSelf(cfg, process) {
      RequestedBalances(kind, cfg, e, fname, id, data, Local, d);
    } else {
      SendBalances(kind, e, Request(process, fname, id, data), d);
    }
  }

  /** Dispatching changes which invocations run, and nothing else about them. */
  ghost predicate SameInvocations(q: Queue, r: Queue) {
    && q.active.Keys == r.active.Keys
    && forall k :: k in q.active ==> q.active[k].source == r.active[k].source && q.active[k].payload == r.active[k].payload
  }

  lemma {:induction false} LoopKeepsInvocations(s: Sched)
    ensures SameInvocations(s.queue, DispatchLoop(s).queue)
    decreases |s.queue.pending|
  {
    if !s.crashed && s.pool.idle > 0 && s.queue.pending != [] {
      LoopKeepsInvocations(DispatchOne(s));
    }
  }

  // ------------------------------------------------------------ nothing crashes

  ghost predicate OneBufferEach(q: Queue) {
    forall k :: k in q.active ==> |q.active[k].payload| == 1
  }

  lemma StepKeepsOneBuffer(cfg: Config, c: Ctl, e: Event)
    requires !c.sched.crashed && OneBufferEach(c.sched.queue) && Fresh(cfg, c, e)
    ensures OneBufferEach(Step(cfg, c, e).sched.queue)
  {
    StepOnSched(cfg, c, e);
    LoopKeepsInvocations(c.sched);
  }

  lemma StepDoesNotCrash(kind: Key -> Kind, cfg: Config, c: Ctl, e: Event, log: seq<Write>)
    requires !c.sched.crashed && Inv(c.sched) && OneBufferEach(c.sched.queue)
    requires Obeys(c, e) && StateSound(kind, c.store, log) && KindsOf(kind, e)
    ensures !Step(cfg, c, e).sched.crashed
  {
    StepOnSched(cfg, c, e);
    StepKeepsState(kind, cfg, c, e, log);
    if e.DispatchAll? {
      RunningAreBusy(c.sched);
      var n := Min(c.sched.pool.idle, |c.sched.queue.pending|);
      OneBufferFits(c.sched.queue, n);
      LoopCrashesExactlyWhen(c.sched, n);
    }
  }

  lemma OneBufferFits(q: Queue, n: nat)
    requires QueueAgrees(q) && OneBufferEach(q) && n <= |q.pending|
    ensures Describable(q, n)
  {
    assert forall i :: 0 <= i < n ==> q.pending[i] in q.pending;
  }

  /** With obedient workers, no merged ids and different names for different kinds, no run ends
      in a dangling pointer, a missing worker or a write out of bounds. */
  lemma {:induction false} NoRunCrashes(kind: Key -> Kind, cfg: Config, es: seq<Event>)
    requires Obedient(cfg, es) && Kinded(kind, es) && Unmerged(cfg, es)
    ensures !Run(cfg, es).sched.crashed && OneBufferEach(Run(cfg, es).sched.queue)
  {
    if es != [] {
      var before := es[..|es| - 1];
      NoRunCrashes(kind, cfg, before);
      SchedulerStaysSound(cfg, before);
      IndexFollowsTheWrites(kind, cfg, before);
      StepDoesNotCrash(kind, cfg, Run(cfg, before), es[|es| - 1], Writes(before));
      StepKeepsOneBuffer(cfg, Run(cfg, before), es[|es| - 1]);
    }
  }

  // ------------------------------------------------------------------ over a run

  lemma IdsHaveOnlyResults(kind: Key -> Kind, c: Ctl, id: Key)
    requires Typed(kind, c) && kind(id) == InvocationId
    ensures OnlyResults(c.waiters, id)
  {
    assert forall x :: x in c.waiters ==> WaiterKind(kind, x);
  }

  lemma StepBalances(kind: Key -> Kind, cfg: Config, c: Ctl, e: Event, d: Debt)
    requires !c.sched.crashed && |c.sched.job| == |c.sched.pool.busy| && Obeys(c, e)
    requires Typed(kind, c) && KindsOf(kind, e) && Fresh(cfg, c, e)
    ensures Balance(kind, Step(cfg, c, e), d) == Balance(kind, c, d) + Owes(cfg, e)[d]
  {
    match e
    case RemoteInvoke(fname, id, data, source) =>
      IdsHaveOnlyResults(kind, c, id);
      RequestedBalances(kind, cfg, c, fname, id, data, source, d);
    case RemoteResult(id, code, data) =>
      IdsHaveOnlyResults(kind, c, id);
      ToWaitersBalances(kind, c, id, code, Data(data), d);
    case RemotePut(key, sender, data) => AcceptedBalances(kind, c, key, sender, data, d);
    case FromWorker(w, call) => CallBalances(kind, cfg, c, w, call, d);
    case DispatchAll => LoopKeepsInvocations(c.sched);
  }

  lemma CallBalances(kind: Key -> Kind, cfg: Config, c: Ctl, w: nat, call: Call, d: Debt)
    requires w < |c.sched.pool.busy| == |c.sched.job|
    requires Typed(kind, c) && KindsOf(kind, FromWorker(w, call))
    ensures Balance(kind, Called(cfg, c, w, call), d) == Balance(kind, c, d) + Owes(cfg, FromWorker(w, call))[d]
  {
    match call
    case Finish(id, code, data) =>
      IdsHaveOnlyResults(kind, c, id);
      FinishedBalances(kind, c, w, id, code, data, d);
    case Invoke(process, fname, id, data, at) =>
      IdsHaveOnlyResults(kind, c, id);
      InvokedBalances(kind, cfg, c, w, process, fname, id, data, at, d);
    case Put(process, key, data) => PutBalances(kind, cfg, c, w, process, key, data, d);
    case Get(process, key, at) => GotBalances(kind, cfg, c, w, process, key, at, d);
    case _ => StateBalances(kind, cfg, c, w, call, d);
  }

  lemma StateBalances(kind: Key -> Kind, cfg: Config, c: Ctl, w: nat, call: Call, d: Debt)
    requires w < |c.sched.pool.busy| == |c.sched.job| && KindsOf(kind, FromWorker(w, call))
    requires call.PutState? || call.GetState? || call.ListState?
    ensures Balance(kind, Called(cfg, c, w, call), d) == Balance(kind, c, d)
  {
    match call
    case PutState(key, data, now) => StateHoldsNothing(kind, c, key, data, now, d);
    case GetState(key) => SendBalances(kind, c, StateValue(w, key, ReadState(c.store, key)), d);
    case ListState => SendBalances(kind, c, StateKeys(w, c.store.index), d);
  }

  lemma StateHoldsNothing(kind: Key -> Kind, c: Ctl, key: Key, data: Payload, now: Time, d: Debt)
    requires kind(key) == StateKey
    ensures Balance(kind, StateWritten(c, key, data, now), d) == Balance(kind, c, d)
  {
  }

  lemma PutBalances(kind: Key -> Kind, cfg: Config, c: Ctl, w: nat, process: string, key: Key, data: Payload, d: Debt)
    requires w < |c.sched.pool.busy| == |c.sched.job| && kind(key) == MailboxKey
    ensures Balance(kind, Called(cfg, c, w, Put(process, key, data)), d) ==
            Balance(kind, c, d) + One(IsSelf(cfg, process) && d == MessagePut(key, data))
  {
    if IsSelf(cfg, process) {
      AcceptedBalances(kind, c, key, cfg.self, data, d);
    } else {
      SendBalances(kind, c, Forward(process, key, data), d);
    }
  }

  /**
   * Every request is settled exactly once or still held. On every run without merged ids in
   * which ids, mailbox keys and state keys are different names, each debt was made as often as
   * it was paid off, plus once if the controller still holds it: a remote invocation gets one
   * reply, at its recorded source, once its entry leaves the queue; a worker gets one result
   * per invocation it asked for and one message per get, or still waits; and a message put here
   * was handed to one worker, dropped, or is in the mailbox.
   */
  lemma {:induction false} EveryRequestOnce(kind: Key -> Kind, cfg: Config, es: seq<Event>, d: Debt)
    requires Obedient(cfg, es) && Kinded(kind, es) && Unmerged(cfg, es)
    ensures Owed(cfg, es, d) == Settled(Run(cfg, es).sent, d) + Held(kind, Run(cfg, es), d)
  {
    if es == [] {
    } else {
      var before := es[..|es| - 1];
      EveryRequestOnce(kind, cfg, before, d);
      NoRunCrashes(kind, cfg, before);
      SchedulerStaysSound(cfg, before);
      KindsStayApart(kind, cfg, before);
      StepBalances(kind, cfg, Run(cfg, before), es[|es| - 1], d);
    }
  }

  // ------------------------------------------------- every waiter will be served

  /** The ids passed on for other processes to run and not answered to a worker since. */
  function Elsewhere(sent: seq<Output>): set<Key> {
    if sent == [] then {} else ElsewhereAfter(Elsewhere(sent[..|sent| - 1]), sent[|sent| - 1])
  }

  function ElsewhereAfter(ids: set<Key>, o: Output): set<Key> {
    match o
    case Request(_, _, id, _) => ids + {id}
    case Answer(_, id, _, _) => ids - {id}
    case _ => ids
  }

  /** What a worker that waits for a result waits for: an invocation queued or running here that
      answers locally if it asked this process, a request passed on and unanswered otherwise. */
  predicate Served(c: Ctl, x: Waiter) {
    x.wait.ForResult? ==>
      if x.wait.here then x.key in c.sched.queue.active && c.sched.queue.active[x.key].source == Local
      else x.key in Elsewhere(c.sent)
  }

  ghost predicate AllServed(c: Ctl) {
    forall x :: x in c.waiters ==> Served(c, x)
  }

  lemma PassedOne(sent: seq<Output>, o: Output)
    ensures Elsewhere(sent + [o]) == ElsewhereAfter(Elsewhere(sent), o)
  {
    assert (sent + [o])[..|sent|] == sent;
  }

  lemma {:induction false} AnswersClear(sent: seq<Output>, ws: seq<nat>, id: Key, code: int, body: Body)
    ensures Elsewhere(sent + Answers(ws, id, code, body)) >= Elsewhere(sent) - {id}
  {
    if ws == [] {
      assert sent + [] == sent;
    } else {
      var init, o := Answers(ws[..|ws| - 1], id, code, body), Answer(ws[|ws| - 1], id, code, body);
      AnswersClear(sent, ws[..|ws| - 1], id, code, body);
      PassedOne(sent + init, o);
      Assoc(sent, init, [o]);
    }
  }

  /** The local invocations that a waiter can rely on. */
  ghost predicate KeepsLocal(c: Ctl, d: Ctl, waiters: seq<Waiter>) {
    forall x :: x in waiters && x.key in c.sched.queue.active && c.sched.queue.active[x.key].source == Local ==>
      x.key in d.sched.queue.active && d.sched.queue.active[x.key].source == Local
  }

  /** A step that keeps the local invocations and answers nobody keeps the waiters served. */
  lemma StillServed(c: Ctl, d: Ctl)
    requires AllServed(c) && Elsewhere(d.sent) >= Elsewhere(c.sent)
    requires forall x :: x in d.waiters ==> x in c.waiters || x.wait.ForMessage?
    requires KeepsLocal(c, d, d.waiters)
    ensures AllServed(d)
  {
    assert forall x :: x in c.waiters ==> Served(c, x);
  }

  lemma ToWaitersServes(c: Ctl, id: Key, code: int, body: Body)
    requires forall x :: x in c.waiters && x.key != id ==> Served(c, x)
    ensures AllServed(ToWaiters(c, id, code, body))
  {
    AnswersClear(c.sent, WorkersOf(Under(c.waiters, id)), id, code, body);
  }

  /** Once a local request is in, everybody who asked for its id is served or has an answer. */
  lemma RequestServes(cfg: Config, c: Ctl, fname: string, id: Key, data: Payload, source: Source)
    requires !Merges(c, id)
    requires forall x :: x in c.waiters ==> Served(c, x) || (x.key == id && x.wait == ForResult(true) && source == Local)
    ensures AllServed(Requested(cfg, c, fname, id, data, source))
  {
    var (s, refused) := Add(c.sched, cfg.functions, fname, id, data, source);
    if refused.Some? {
      RefusalServes(c.(sched := s), c, id, source, refused.value);
    }
  }

  lemma RefusalServes(d: Ctl, c: Ctl, id: Key, source: Source, reason: Refusal)
    requires d.sched.queue == c.sched.queue && d.waiters == c.waiters && d.sent == c.sent
    requires forall x :: x in c.waiters ==> Served(c, x) || (x.key == id && source == Local)
    ensures AllServed(Resolved(d, source, id, -1, Diagnosis(reason)))
  {
    assert forall x :: x in c.waiters && Served(c, x) ==> Served(d, x);
    if source.IsRemote() {
      PassedOne(c.sent, Reply(source, id, -1, Diagnosis(reason)));
    } else {
      ToWaitersServes(d, id, -1, Diagnosis(reason));
    }
  }

  /** A local request that is merged leaves its caller without a result exactly when the
      invocation it joins answers elsewhere. */
  lemma MergedCallerServedIff(cfg: Config, c: Ctl, w: nat, fname: string, id: Key, data: Payload, at: nat)
    requires AllServed(c) && Merges(c, id)
    ensures AllServed(Invoked(cfg, c, w, SELF, fname, id, data, at)) <==> c.sched.queue.active[id].source == Local
  {
    var x, d := Waiter(id, ForResult(true), "", w), Invoked(cfg, c, w, SELF, fname, id, data, at);
    assert forall y :: y in d.waiters <==> y in c.waiters || y == x;
    assert forall y :: y in c.waiters ==> Served(c, y) && Served(d, y);
    assert Served(d, x) <==> c.sched.queue.active[id].source == Local;
  }

  lemma FinishServes(c: Ctl, w: nat, id: Key, code: int, data: Payload)
    requires w < |c.sched.pool.busy| == |c.sched.job| && AllServed(c)
    ensures AllServed(Ended(c, w, id, code, data))
  {
    var (s, done) := Complete(c.sched, w, id);
    if done.Some? {
      var d := c.(sched := s);
      assert forall x :: x in c.waiters && x.key != id ==> Served(c, x) && Served(d, x);
      if done.value.source.IsRemote() {
        PassedOne(c.sent, Reply(done.value.source, id, code, Data(data)));
        assert forall x :: x in c.waiters ==> Served(c, x);
      } else {
        ToWaitersServes(d, id, code, Data(data));
      }
    }
  }

  lemma InvokeServes(cfg: Config, c: Ctl, w: nat, process: string, fname: string, id: Key, data: Payload, at: nat)
    requires AllServed(c) && (IsSelf(cfg, process) ==> !Merges(c, id))
    ensures AllServed(Invoked(cfg, c, w, process, fname, id, data, at))
  {
    var d := Awaiting(cfg, c, w, process, id, at);
    assert forall x :: x in c.waiters ==> Served(c, x) && Served(d, x);
    if IsSelf(cfg, process) {
      RequestServes(cfg, d, fname, id, data, Local);
    } else {
      PassedOne(d.sent, Request(process, fname, id, data));
    }
  }

  lemma CallServes(cfg: Config, c: Ctl, w: nat, call: Call)
    requires w < |c.sched.pool.busy| == |c.sched.job| && AllServed(c) && Fresh(cfg, c, FromWorker(w, call))
    ensures AllServed(Called(cfg, c, w, call))
  {
    match call
    case Finish(id, code, data) => FinishServes(c, w, id, code, data);
    case Invoke(process, fname, id, data, at) => InvokeServes(cfg, c, w, process, fname, id, data, at);
    case _ =>
      OtherCallsPass(cfg, c, w, call);
      StillServed(c, Called(cfg, c, w, call));
  }

  /** Nothing about invocations changes, and only waiters for messages join. */
  ghost predicate Passes(c: Ctl, d: Ctl) {
    && Elsewhere(d.sent) == Elsewhere(c.sent) && d.sched.queue == c.sched.queue
    && forall x :: x in d.waiters ==> x in c.waiters || x.wait.ForMessage?
  }

  lemma SendPasses(c: Ctl, o: Output)
    requires !o.Answer? && !o.Request?
    ensures Passes(c, c.(sent := c.sent + [o]))
  {
    PassedOne(c.sent, o);
  }

  lemma AcceptPasses(c: Ctl, key: Key, sender: string, data: Payload)
    ensures Passes(c, Accepted(c, key, sender, data))
  {
    var n := FirstTaking(c.waiters, key, sender);
    if n < |c.waiters| {
      SendPasses(c, Deliver(c.waiters[n].worker, key, sender, data));
    } else {
      SendPasses(c, Dropped(key, data));
    }
  }

  lemma GetPasses(cfg: Config, c: Ctl, w: nat, process: string, key: Key, at: nat)
    ensures Passes(c, Got(cfg, c, w, process, key, at))
  {
    var sender := if process == SELF then cfg.self else process;
    var data := TakeFrom(c.store, key, sender).1;
    if data.Some? {
      SendPasses(c, Deliver(w, key, process, data.value));
    }
  }

  /** The calls that are not about invocations neither answer nor run any. */
  lemma OtherCallsPass(cfg: Config, c: Ctl, w: nat, call: Call)
    requires w < |c.sched.pool.busy| == |c.sched.job| && !call.Finish? && !call.Invoke?
    ensures Passes(c, Called(cfg, c, w, call))
  {
    match call
    case Put(process, key, data) =>
      AcceptPasses(c, key, cfg.self, data);
      SendPasses(c, Forward(process, key, data));
    case PutState(_, _, _) =>
    case Get(process, key, at) => GetPasses(cfg, c, w, process, key, at);
    case GetState(key) => SendPasses(c, StateValue(w, key, ReadState(c.store, key)));
    case ListState => SendPasses(c, StateKeys(w, c.store.index));
  }

  lemma StepServes(cfg: Config, c: Ctl, e: Event)
    requires !c.sched.crashed && |c.sched.job| == |c.sched.pool.busy| && Obeys(c, e) && Fresh(cfg, c, e)
    requires AllServed(c)
    ensures AllServed(Step(cfg, c, e))
  {
    match e
    case RemoteInvoke(fname, id, data, source) => RequestServes(cfg, c, fname, id, data, source);
    case RemoteResult(id, code, data) => ToWaitersServes(c, id, code, Data(data));
    case RemotePut(key, sender, data) => AcceptServes(c, key, sender, data);
    case FromWorker(w, call) => CallServes(cfg, c, w, call);
    case DispatchAll =>
      LoopKeepsInvocations(c.sched);
      StillServed(c, Step(cfg, c, e));
  }

  lemma AcceptServes(c: Ctl, key: Key, sender: string, data: Payload)
    requires AllServed(c)
    ensures AllServed(Accepted(c, key, sender, data))
  {
    AcceptPasses(c, key, sender, data);
    StillServed(c, Accepted(c, key, sender, data));
  }

  /** Whoever waits for a result that this process is to produce has its invocation queued or
      running here, to be answered locally; whoever waits for another process's has a request
      that was handed to the server and is unanswered. On every run without merged ids. */
  lemma {:induction false} WaitersHaveInvocations(cfg: Config, es: seq<Event>)
    requires Obedient(cfg, es) && Unmerged(cfg, es) && !Run(cfg, es).sched.crashed
    ensures AllServed(Run(cfg, es))
  {
    if es != [] {
      var before := es[..|es| - 1];
      WaitersHaveInvocations(cfg, before);
      SchedulerStaysSound(cfg, before);
      StepServes(cfg, Run(cfg, before), es[|es| - 1]);
    }
  }

  // ------------------------------------------------------------------- at rest

  /** No invocation waits and no worker runs one. */
  predicate AtRest(c: Ctl) {
    c.sched.queue.pending == [] && c.sched.pool.idle == |c.sched.pool.busy|
  }

  lemma RestMeansEmpty(s: Sched)
    requires Inv(s) && s.queue.pending == [] && s.pool.idle == |s.pool.busy|
    ensures s.queue.active == map[]
  {
    RunningAreBusy(s);
    assert forall k :: k in s.queue.active ==> k in Running(s.queue);
  }

  /** The ids under which other processes were asked and have not answered since. */
  function OutThere(cfg: Config, es: seq<Event>): set<Key> {
    if es == [] then {}
    else match es[|es| - 1]
      case FromWorker(_, Invoke(process, _, id, _, _)) =>
        OutThere(cfg, es[..|es| - 1]) + if process != SELF && process != cfg.self then {id} else {}
      case RemoteResult(id, _, _) => OutThere(cfg, es[..|es| - 1]) - {id}
      case _ => OutThere(cfg, es[..|es| - 1])
  }

  /** Whoever waits here for another process's result waits under one of these ids. */
  ghost predicate WaitsOnlyFor(c: Ctl, ids: set<Key>) {
    forall x :: x in c.waiters && x.wait == ForResult(false) ==> x.key in ids
  }

  lemma RequestedWaits(cfg: Config, c: Ctl, fname: string, id: Key, data: Payload, source: Source, ids: set<Key>)
    requires WaitsOnlyFor(c, ids)
    ensures WaitsOnlyFor(Requested(cfg, c, fname, id, data, source), ids)
  {
    RequestedOnLists(cfg, c, fname, id, data, source);
  }

  lemma CallWaits(cfg: Config, c: Ctl, w: nat, call: Call, ids: set<Key>)
    requires WaitsOnlyFor(c, ids) && w < |c.sched.pool.busy| == |c.sched.job|
    ensures WaitsOnlyFor(Called(cfg, c, w, call),
      ids + if call.Invoke? && call.process != SELF && call.process != cfg.self then {call.id} else {})
  {
    if call.Invoke? && IsSelf(cfg, call.process) {
      RequestedWaits(cfg, Awaiting(cfg, c, w, call.process, call.id, call.at), call.fname, call.id, call.data, Local, ids);
    }
  }

  /** A result of another process leaves nobody waiting under its id, on any run. */
  lemma {:induction false} NobodyWaitsForAnAnswer(cfg: Config, es: seq<Event>)
    requires !Run(cfg, es).sched.crashed
    ensures WaitsOnlyFor(Run(cfg, es), OutThere(cfg, es))
  {
    if es != [] {
      var before, e := es[..|es| - 1], es[|es| - 1];
      var c, ids := Run(cfg, before), OutThere(cfg, before);
      NobodyWaitsForAnAnswer(cfg, before);
      match e
      case RemoteInvoke(fname, id, data, source) => RequestedWaits(cfg, c, fname, id, data, source, ids);
      case FromWorker(w, call) =>
        if w < |c.sched.pool.busy| == |c.sched.job| {
          CallWaits(cfg, c, w, call, ids);
        }
      case _ =>
    }
  }

  /** What no other process still has to answer. */
  predicate AnsweredHere(cfg: Config, es: seq<Event>, d: Debt) {
    d.RemoteResultFor? || (d.LocalResultFor? && (d.id !in OutThere(cfg, es) || d.id !in Elsewhere(Run(cfg, es).sent)))
  }

  /** When the controller comes to rest, every remote request has had exactly its replies, and
      so has every worker's request under an id that no other process was asked for without having
      answered since. */
  lemma AtRestAllIsAnswered(kind: Key -> Kind, cfg: Config, es: seq<Event>, d: Debt)
    requires Obedient(cfg, es) && Kinded(kind, es) && Unmerged(cfg, es)
    ensures var c := Run(cfg, es);
      AtRest(c) && AnsweredHere(cfg, es, d) ==> Owed(cfg, es, d) == Settled(c.sent, d)
  {
    var c := Run(cfg, es);
    if AtRest(c) && AnsweredHere(cfg, es, d) {
      NoRunCrashes(kind, cfg, es);
      SchedulerStaysSound(cfg, es);
      EveryRequestOnce(kind, cfg, es, d);
      WaitersHaveInvocations(cfg, es);
      NobodyWaitsForAnAnswer(cfg, es);
      NothingHeldAtRest(kind, c, OutThere(cfg, es), d);
    }
  }

  lemma NothingHeldAtRest(kind: Key -> Kind, c: Ctl, ids: set<Key>, d: Debt)
    requires Inv(c.sched) && AllServed(c) && AtRest(c) && WaitsOnlyFor(c, ids)
    requires d.RemoteResultFor? || (d.LocalResultFor? && (d.id !in ids || d.id !in Elsewhere(c.sent)))
    ensures Held(kind, c, d) == 0
  {
    RestMeansEmpty(c.sched);
    NoneOf(c.waiters, d);
  }

  lemma {:induction false} NoneOf(ws: seq<Waiter>, d: Debt)
    ensures Waiting(ws, d) > 0 ==> exists x :: x in ws && DebtOf(x) == d
  {
    if ws != [] {
      NoneOf(ws[..|ws| - 1], d);
      if Waiting(ws[..|ws| - 1], d) > 0 {
        var x :| x in ws[..|ws| - 1] && DebtOf(x) == d;
        assert x in ws;
      } else if DebtOf(ws[|ws| - 1]) == d {
        assert ws[|ws| - 1] in ws;
      }
    }
  }
}
