/**
 * Short runs of the process controller, by workers that keep to the protocol, into the states in
 * which it does less than it means to.
 */
module Deviations {
  import opened Wrappers
  import opened Scheduler
  import opened Mailbox
  import opened ProcessController
  import Conservation

  lemma OneMore(cfg: Config, es: seq<Event>, e: Event)
    ensures Run(cfg, es + [e]) == Step(cfg, Run(cfg, es), e)
    ensures Obedient(cfg, es + [e]) <==> Obedient(cfg, es) && Obeys(Run(cfg, es), e)
  {
    assert (es + [e])[..|es|] == es;
  }

  /** Two requests of the data plane, each given to a worker of its own. */
  function TwoRun(f: string, a: Key, b: Key): seq<Event> {
    [RemoteInvoke(f, a, [], DataPlane)] + [RemoteInvoke(f, b, [], DataPlane)] + [DispatchAll]
  }

  function Asked(f: string): Invocation {
    Invocation(f, DataPlane, [[]], false)
  }

  lemma TwoAreQueued(cfg: Config, f: string, a: Key, b: Key) returns (c: Ctl)
    requires f in cfg.functions && a != b
    ensures c == Run(cfg, [RemoteInvoke(f, a, [], DataPlane)] + [RemoteInvoke(f, b, [], DataPlane)])
    ensures Obedient(cfg, [RemoteInvoke(f, a, [], DataPlane)] + [RemoteInvoke(f, b, [], DataPlane)])
    ensures !c.sched.crashed && c.sched.queue == Queue(map[a := Asked(f), b := Asked(f)], [a, b])
    ensures c.sched.pool == Initial(cfg.workers).pool && c.sched.job == Initial(cfg.workers).job
    ensures c.waiters == [] && c.store == Store(map[], [])
  {
    OneMore(cfg, [], RemoteInvoke(f, a, [], DataPlane));
    assert [] + [RemoteInvoke(f, a, [], DataPlane)] == [RemoteInvoke(f, a, [], DataPlane)];
    OneMore(cfg, [RemoteInvoke(f, a, [], DataPlane)], RemoteInvoke(f, b, [], DataPlane));
    c := Run(cfg, [RemoteInvoke(f, a, [], DataPlane)] + [RemoteInvoke(f, b, [], DataPlane)]);
  }

  lemma DispatchesFirst(s: Sched, f: string) returns (t: Sched)
    requires s.queue.pending != [] && s.pool.idle > 0 && |s.job| == |s.pool.busy|
    requires FirstIdle(s.pool.busy) < |s.job| && !s.crashed
    requires s.queue.pending[0] in s.queue.active && s.queue.active[s.queue.pending[0]] == Asked(f)
    ensures t == Submitted(s, FirstIdle(s.pool.busy), s.queue.pending[0], Asked(f))
    ensures DispatchLoop(s) == DispatchLoop(t)
  {
    t := DispatchOne(s);
  }

  lemma BothDispatched(s: Sched, f: string, a: Key, b: Key) returns (t: Sched)
    requires a != b && s.queue == Queue(map[a := Asked(f), b := Asked(f)], [a, b]) && !s.crashed
    requires s.pool == Pool([false, false], 2) && s.job == [None, None]
    ensures t == DispatchLoop(s) && t.job == [Some(a), Some(b)] && |t.pool.busy| == 2 && !t.crashed
  {
    var first := DispatchesFirst(s, f);
    assert first.pool.busy == [true, false] && [true, false][1..] == [false];
    t := DispatchesFirst(first, f);
  }

  /** With two workers both requests run, the first on worker 0 and the second on worker 1. */
  lemma TwoRunning(cfg: Config, f: string, a: Key, b: Key) returns (c: Ctl)
    requires f in cfg.functions && a != b && cfg.workers == 2
    ensures c == Run(cfg, TwoRun(f, a, b)) && Obedient(cfg, TwoRun(f, a, b)) && !c.sched.crashed
    ensures c.sched.job == [Some(a), Some(b)] && |c.sched.pool.busy| == 2
    ensures c.waiters == [] && c.store == Store(map[], [])
  {
    var queued := TwoAreQueued(cfg, f, a, b);
    OneMore(cfg, [RemoteInvoke(f, a, [], DataPlane)] + [RemoteInvoke(f, b, [], DataPlane)], DispatchAll);
    assert queued.sched.pool == Pool([false, false], 2) && queued.sched.job == [None, None];
    var s := BothDispatched(queued.sched, f, a, b);
    c := Run(cfg, TwoRun(f, a, b));
  }

  /** A get from anybody waits; a state write of another worker under the same key goes past it. */
  lemma StateGoesPastAGet(cfg: Config, f: string, a: Key, b: Key, key: Key, data: Payload, now: Time)
    requires f in cfg.functions && a != b && cfg.workers == 2
    ensures var es := TwoRun(f, a, b) + [FromWorker(0, Get(ANY, key, 0))] + [FromWorker(1, PutState(key, data, now))];
      Obedient(cfg, es) && !NothingMissed(Run(cfg, es))
  {
    var c := TwoRunning(cfg, f, a, b);
    var get, put := FromWorker(0, Get(ANY, key, 0)), FromWorker(1, PutState(key, data, now));
    OneMore(cfg, TwoRun(f, a, b), get);
    OneMore(cfg, TwoRun(f, a, b) + [get], put);
    var d := Step(cfg, c, get);
    assert d.waiters == [Waiter(key, ForMessage, ANY, 0)];
    assert Waiter(key, ForMessage, ANY, 0) in Step(cfg, d, put).waiters;
  }

  /** A worker that writes state and then gets a message under that key from anybody takes the
      state away, and the index goes on listing it. */
  lemma GetTakesState(cfg: Config, f: string, a: Key, b: Key, key: Key, data: Payload, now: Time)
    requires f in cfg.functions && a != b && cfg.workers == 2
    ensures var es := TwoRun(f, a, b) + [FromWorker(0, PutState(key, data, now))] + [FromWorker(0, Get(ANY, key, 0))];
      Obedient(cfg, es) && !IndexAgrees(Run(cfg, es).store, [Write(key, data, now)])
  {
    var c := TwoRunning(cfg, f, a, b);
    var put, get := FromWorker(0, PutState(key, data, now)), FromWorker(0, Get(ANY, key, 0));
    OneMore(cfg, TwoRun(f, a, b), put);
    OneMore(cfg, TwoRun(f, a, b) + [put], get);
    var log := [Write(key, data, now)];
    assert log[..0] == [];
    assert key in WrittenKeys(log);
    assert key !in Run(cfg, TwoRun(f, a, b) + [put] + [get]).store.msgs;
  }

  /** With one worker the first request runs and the second waits in the queue. */
  lemma OneRunning(cfg: Config, f: string, a: Key, b: Key) returns (c: Ctl)
    requires f in cfg.functions && a != b && cfg.workers == 1
    ensures c == Run(cfg, TwoRun(f, a, b)) && Obedient(cfg, TwoRun(f, a, b)) && !c.sched.crashed
    ensures c.sched.job == [Some(a)] && |c.sched.pool.busy| == 1
    ensures b in c.sched.queue.active && c.sched.queue.active[b] == Asked(f) && c.waiters == []
  {
    var queued := TwoAreQueued(cfg, f, a, b);
    OneMore(cfg, [RemoteInvoke(f, a, [], DataPlane)] + [RemoteInvoke(f, b, [], DataPlane)], DispatchAll);
    assert queued.sched.pool.busy == [false] && queued.sched.job == [None];
    var first := DispatchesFirst(queued.sched, f);
    assert first.pool.idle == 0;
    c := Run(cfg, TwoRun(f, a, b));
  }

  /** A worker that asks this process for an id under which a client's request still waits is merged
      with it, and waits for a result that goes to the client alone. */
  lemma MergedCallerWaitsInVain(cfg: Config, f: string, a: Key, b: Key)
    requires f in cfg.functions && a != b && cfg.workers == 1
    ensures var es := TwoRun(f, a, b) + [FromWorker(0, Invoke(SELF, f, b, [], 0))];
      Obedient(cfg, es) && !Conservation.AllServed(Run(cfg, es))
  {
    var c := OneRunning(cfg, f, a, b);
    var call := FromWorker(0, Invoke(SELF, f, b, [], 0));
    OneMore(cfg, TwoRun(f, a, b), call);
    var d := Step(cfg, c, call);
    assert Waiter(b, ForResult(true), "", 0) in d.waiters;
    assert !Conservation.Served(d, Waiter(b, ForResult(true), "", 0));
  }
}
