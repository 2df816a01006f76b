/**
 * The process controller's work queue and its pool of function workers. Invocations wait in
 * arrival order, run on one worker each, and leave when their result comes in.
 */
module Scheduler {
  import opened Wrappers
  import opened Bytes
  import Messages

  type Key = string
  type Payload = seq<byte>

  /** Where a request came from, and so where its result goes. */
  datatype Source = DataPlane | ControlPlane | Process(name: string) | Local {
    predicate IsRemote() {
      !Local?
    }
  }

  datatype Invocation = Invocation(fname: string, source: Source, payload: seq<Payload>, active: bool)

  /** `_active_invocations` and `_pending_invocations`; a pointer into the map is its key. */
  datatype Queue = Queue(active: map<Key, Invocation>, pending: seq<Key>)

  datatype Refusal = UnknownFunction | AlreadyRunning

  // ---------------------------------------------------------------- work queue

  /** `WorkQueue::add_payload`: extends an invocation still waiting, or starts a new one. */
  function Added(q: Queue, functions: set<string>, fname: string, key: Key, buf: Payload, source: Source): (Queue, Option<Refusal>) {
    if key in q.active && !q.active[key].active then
      var i := q.active[key];
      (q.(active := q.active[key := i.(payload := i.payload + [buf])]), None)
    else if fname !in functions then (q, Some(UnknownFunction))
    else if key in q.active then (q, Some(AlreadyRunning))
    else (Queue(q.active[key := Invocation(fname, source, [buf], false)], q.pending + [key]), None)
  }

  /** `WorkQueue::finish`: only an invocation that runs can finish. */
  function Finished(q: Queue, key: Key): (Queue, Option<Invocation>) {
    if key !in q.active || !q.active[key].active then (q, None)
    else (q.(active := q.active - {key}), Some(q.active[key]))
  }

  class WorkQueue {
    const functions: set<string>
    var active: map<Key, Invocation>
    var pending: seq<Key>

    ghost function State(): Queue
      reads this
    {
      Queue(active, pending)
    }

    constructor (functions: set<string>)
      ensures State() == Queue(map[], []) && this.functions == functions
    {
      this.functions := functions;
      active, pending := map[], [];
    }

    method AddPayload(fname: string, key: Key, buf: Payload, source: Source) returns (refused: Option<Refusal>)
      modifies this
      ensures (State(), refused) == Added(old(State()), functions, fname, key, buf, source)
    {
      if key in active && !active[key].active {
        var i := active[key];
        active := active[key := i.(payload := i.payload + [buf])];
        return None;
      }
      if fname !in functions {
        return Some(UnknownFunction);
      }
      if key in active {
        return Some(AlreadyRunning);
      }
      active := active[key := Invocation(fname, source, [buf], false)];
      pending := pending + [key];
      return None;
    }

    /** `next`: the first pending invocation whose trigger is ready. The only triggers there
        are, direct ones, always are, so the scan stops at the front. */
    method Next() returns (next: Option<Key>)
      modifies this
      ensures active == old(active)
      ensures if old(pending) == [] then next == None && pending == []
              else next == Some(old(pending)[0]) && pending == old(pending)[1..]
    {
      if |pending| == 0 {
        return None;
      }
      next := Some(pending[0]);
      pending := pending[1..];
    }

    method Finish(key: Key) returns (done: Option<Invocation>)
      modifies this
      ensures (State(), done) == Finished(old(State()), key)
    {
      if key !in active || !active[key].active {
        return None;
      }
      done := Some(active[key]);
      active := active - {key};
    }
  }

  // ------------------------------------------------------------------- workers

  datatype Pool = Pool(busy: seq<bool>, idle: int)

  /** An invocation as it was sent to a worker. */
  datatype Dispatch = Dispatch(worker: nat, key: Key, fname: string, parts: seq<Payload>)

  function FirstIdle(busy: seq<bool>): (w: nat)
    ensures w <= |busy| && forall i :: 0 <= i < w ==> busy[i]
    ensures w < |busy| ==> !busy[w]
  {
    if busy == [] || !busy[0] then 0 else 1 + FirstIdle(busy[1..])
  }

  function CountIdle(busy: seq<bool>): (n: nat)
    ensures n <= |busy|
  {
    if busy == [] then 0 else (if busy[0] then 0 else 1) + CountIdle(busy[1..])
  }

  lemma {:induction false} CountIdleUpdate(busy: seq<bool>, w: nat, b: bool)
    requires w < |busy|
    ensures CountIdle(busy[w := b]) == CountIdle(busy) + (if busy[w] then 1 else 0) - (if b then 1 else 0)
  {
    if w == 0 {
      assert busy[w := b][1..] == busy[1..];
    } else {
      assert busy[w := b][1..] == busy[1..][w - 1 := b];
      CountIdleUpdate(busy[1..], w - 1, b);
    }
  }

  lemma {:induction false} SomeIdle(busy: seq<bool>)
    ensures CountIdle(busy) > 0 <==> FirstIdle(busy) < |busy|
  {
    if busy != [] && busy[0] {
      SomeIdle(busy[1..]);
    }
  }

  class Workers {
    var busy: seq<bool>
    var idle: int

    ghost function State(): Pool
      reads this
    {
      Pool(busy, idle)
    }

    constructor (count: nat)
      ensures State() == Pool(seq(count, _ => false), count)
    {
      busy, idle := seq(count, _ => false), count;
    }

    /** `_get_idle_worker`: no worker when the counter is 0, else the first that is not busy. */
    method GetIdleWorker() returns (w: Option<nat>)
      ensures w == if idle == 0 || FirstIdle(busy) == |busy| then None else Some(FirstIdle(busy))
    {
      if idle == 0 {
        return None;
      }
      var i := 0;
      while i < |busy|
        invariant 0 <= i <= |busy| && FirstIdle(busy) == i + FirstIdle(busy[i..])
      {
        if !busy[i] {
          return Some(i);
        }
        assert busy[i..][1..] == busy[i + 1..];
        i := i + 1;
      }
      return None;
    }

    /**
     * `submit`: describes the payload in the header, sends it to an idle worker and marks both
     * as busy. That a worker is found whenever the counter is positive is assumed by the code
     * and shown below for every state the controller reaches.
     */
    method Submit(queue: WorkQueue, key: Key) returns (r: Result<Dispatch>)
      requires key in queue.active && (idle > 0 ==> FirstIdle(busy) < |busy|)
      modifies this, queue
      ensures queue.pending == old(queue.pending)
      ensures r.Failure? ==> State() == old(State()) && queue.active == old(queue.active)
      ensures r.Success? <==> old(idle) > 0 && Messages.TableOutcome(|old(queue.active)[key].payload|).Success?
      ensures r.Success? ==> (
        var w, i := FirstIdle(old(busy)), old(queue.active)[key];
        && r.value == Dispatch(w, key, i.fname, i.payload)
        && State() == Pool(old(busy)[w := true], old(idle) - 1)
        && queue.active == old(queue.active)[key := i.(active := true)])
    {
      if idle <= 0 {
        return Failure(PraaSException);
      }
      var worker := GetIdleWorker();
      var i := queue.active[key];
      var described := Messages.TableOutcome(|i.payload|);
      if described.Failure? {
        return Failure(described.error);
      }
      r := Success(Dispatch(worker.value, key, i.fname, i.payload));
      busy := busy[worker.value := true];
      queue.active := queue.active[key := i.(active := true)];
      idle := idle - 1;
    }

    method Finish(w: nat)
      requires w < |busy|
      modifies this
      ensures State() == Pool(old(busy)[w := false], old(idle) + 1)
    {
      busy := busy[w := false];
      idle := idle + 1;
    }
  }

  // --------------------------------------------------------- the whole scheduler

  /**
   * Queue and pool, with history: what each busy worker was given (`job`), the invocations in
   * order of arrival, and the dispatches made. `crashed` is set when an invocation has more
   * payload buffers than its header can describe: the exception or overrun ends the controller.
   */
  datatype Sched = Sched(
    queue: Queue, pool: Pool, job: seq<Option<Key>>, arrived: seq<Key>, dispatched: seq<Dispatch>, crashed: bool)

  function Initial(workers: nat): Sched {
    Sched(Queue(map[], []), Pool(seq(workers, _ => false), workers), seq(workers, _ => None), [], [], false)
  }

  function Add(s: Sched, functions: set<string>, fname: string, key: Key, buf: Payload, source: Source): (Sched, Option<Refusal>) {
    var (q, refused) := Added(s.queue, functions, fname, key, buf, source);
    (s.(queue := q, arrived := if q.pending == s.queue.pending then s.arrived else s.arrived + [key]), refused)
  }

  /** Accepted by `buffers` only up to 16 entries, of which 13 fit the header. */
  predicate TooLong(i: Invocation) {
    Messages.TableOutcome(|i.payload|).Failure?
  }

  /** `next` and `submit`, for the head of the queue and the first idle worker; a dangling
      pointer, a missing worker or a header that does not hold the table is a crash. */
  function DispatchOne(s: Sched): Sched
    requires s.queue.pending != []
  {
    var key, w := s.queue.pending[0], FirstIdle(s.pool.busy);
    var q := s.queue.(pending := s.queue.pending[1..]);
    if key !in q.active || w >= |s.pool.busy| || w >= |s.job| || TooLong(q.active[key]) then s.(queue := q, crashed := true)
    else Submitted(s, w, key, q.active[key])
  }

  function Submitted(s: Sched, w: nat, key: Key, i: Invocation): Sched
    requires s.queue.pending != [] && w < |s.pool.busy| && w < |s.job|
  {
    s.(queue := Queue(s.queue.active[key := i.(active := true)], s.queue.pending[1..]),
       pool := Pool(s.pool.busy[w := true], s.pool.idle - 1),
       job := s.job[w := Some(key)],
       dispatched := s.dispatched + [Dispatch(w, key, i.fname, i.payload)])
  }

  function Complete(s: Sched, w: nat, key: Key): (Sched, Option<Invocation>)
    requires w < |s.pool.busy| == |s.job|
  {
    var (q, done) := Finished(s.queue, key);
    (s.(queue := q, pool := Pool(s.pool.busy[w := false], s.pool.idle + 1), job := s.job[w := None]), done)
  }

  predicate NoDuplicates(s: seq<Key>) {
    forall i, j :: 0 <= i < j < |s| ==> s[i] != s[j]
  }

  function Keys(ds: seq<Dispatch>): seq<Key> {
    if ds == [] then [] else Keys(ds[..|ds| - 1]) + [ds[|ds| - 1].key]
  }

  /** The queue holds exactly the invocations that do not run, once each. */
  ghost predicate QueueAgrees(q: Queue) {
    && NoDuplicates(q.pending)
    && (forall k :: k in q.pending ==> k in q.active && !q.active[k].active)
    && (forall k :: k in q.active && !q.active[k].active ==> k in q.pending)
  }

  /** A worker is busy with an invocation that runs, each with another one. */
  ghost predicate JobsRun(s: Sched) {
    && |s.job| == |s.pool.busy|
    && (forall w :: 0 <= w < |s.job| ==> (s.pool.busy[w] <==> s.job[w].Some?))
    && (forall w :: 0 <= w < |s.job| && s.job[w].Some? ==>
         s.job[w].value in s.queue.active && s.queue.active[s.job[w].value].active)
    && (forall v, w :: 0 <= v < w < |s.job| && s.job[v].Some? ==> s.job[v] != s.job[w])
  }

  ghost predicate AllAssigned(s: Sched) {
    forall k :: k in s.queue.active && s.queue.active[k].active ==> Some(k) in s.job
  }

  /** Workers and running invocations correspond one to one. */
  ghost predicate PoolAgrees(s: Sched) {
    s.pool.idle == CountIdle(s.pool.busy) && JobsRun(s) && AllAssigned(s)
  }

  ghost predicate Inv(s: Sched) {
    QueueAgrees(s.queue) && PoolAgrees(s) && s.arrived == Keys(s.dispatched) + s.queue.pending
  }

  lemma InitialInv(workers: nat)
    ensures Inv(Initial(workers))
  {
    AllIdle(workers);
    NobodyWorks(Initial(workers));
  }

  lemma NobodyWorks(s: Sched)
    requires |s.job| == |s.pool.busy| && s.queue.active == map[]
    requires forall w :: 0 <= w < |s.job| ==> !s.pool.busy[w] && s.job[w].None?
    ensures JobsRun(s) && AllAssigned(s)
  {
  }

  lemma {:induction false} AllIdle(n: nat)
    ensures CountIdle(seq(n, _ => false)) == n
  {
    if n > 0 {
      assert seq(n, _ => false)[1..] == seq(n - 1, _ => false);
      AllIdle(n - 1);
    }
  }

  lemma AddKeepsInv(s: Sched, functions: set<string>, fname: string, key: Key, buf: Payload, source: Source)
    requires Inv(s)
    ensures Inv(Add(s, functions, fname, key, buf, source).0)
  {
    AddKeepsQueue(s.queue, functions, fname, key, buf, source);
    AddKeepsPool(s, functions, fname, key, buf, source);
    Assoc(Keys(s.dispatched), s.queue.pending, [key]);
  }

  lemma AddKeepsQueue(q: Queue, functions: set<string>, fname: string, key: Key, buf: Payload, source: Source)
    requires QueueAgrees(q)
    ensures QueueAgrees(Added(q, functions, fname, key, buf, source).0)
  {
    var r := Added(q, functions, fname, key, buf, source).0;
    if key !in q.active && fname in functions {
      assert key !in q.pending;
      assert forall k :: k in r.pending <==> k in q.pending || k == key;
    } else {
      assert r.pending == q.pending;
    }
  }

  /** Adding touches no invocation that runs. */
  lemma AddKeepsPool(s: Sched, functions: set<string>, fname: string, key: Key, buf: Payload, source: Source)
    requires PoolAgrees(s)
    ensures PoolAgrees(Add(s, functions, fname, key, buf, source).0)
  {
    var q, r := s.queue, Added(s.queue, functions, fname, key, buf, source).0;
    assert forall k :: k in q.active && q.active[k].active ==> k in r.active && r.active[k] == q.active[k];
    assert forall k :: k in r.active && r.active[k].active ==> k in q.active && q.active[k].active;
  }

  /** A step of the dispatch loop finds a worker and keeps the invariant, if the header can
      describe the payload. */
  lemma DispatchOneKeepsInv(s: Sched)
    requires Inv(s) && s.queue.pending != [] && s.pool.idle > 0
    ensures FirstIdle(s.pool.busy) < |s.pool.busy| && s.queue.pending[0] in s.queue.active
    ensures !TooLong(s.queue.active[s.queue.pending[0]]) ==> Inv(DispatchOne(s))
  {
    SomeIdle(s.pool.busy);
    if !TooLong(s.queue.active[s.queue.pending[0]]) {
      DispatchKeepsQueue(s);
      DispatchKeepsPool(s);
      DispatchKeepsOrder(s);
    }
  }

  lemma DispatchKeepsOrder(s: Sched)
    requires Inv(s) && s.queue.pending != [] && FirstIdle(s.pool.busy) < |s.pool.busy|
    requires !TooLong(s.queue.active[s.queue.pending[0]])
    ensures var t := DispatchOne(s); t.arrived == Keys(t.dispatched) + t.queue.pending
  {
    var t, p := DispatchOne(s), s.queue.pending;
    assert t.dispatched[..|t.dispatched| - 1] == s.dispatched;
    assert p == [p[0]] + p[1..];
    Assoc(Keys(s.dispatched), [p[0]], p[1..]);
  }

  lemma DispatchKeepsQueue(s: Sched)
    requires Inv(s) && s.queue.pending != [] && FirstIdle(s.pool.busy) < |s.pool.busy|
    requires !TooLong(s.queue.active[s.queue.pending[0]])
    ensures QueueAgrees(DispatchOne(s).queue)
  {
    var p := s.queue.pending;
    assert forall k :: k in p <==> k == p[0] || k in p[1..];
  }

  lemma DispatchKeepsPool(s: Sched)
    requires Inv(s) && s.queue.pending != [] && FirstIdle(s.pool.busy) < |s.pool.busy|
    requires !TooLong(s.queue.active[s.queue.pending[0]])
    ensures PoolAgrees(DispatchOne(s))
  {
    var w, key := FirstIdle(s.pool.busy), s.queue.pending[0];
    CountIdleUpdate(s.pool.busy, w, true);
    AssigningKeepsJobs(s, w, key, s.queue.active[key]);
    AssigningKeepsAll(s, w, key, s.queue.active[key]);
  }

  lemma AssigningKeepsJobs(s: Sched, w: nat, key: Key, i: Invocation)
    requires JobsRun(s) && s.queue.pending != [] && w < |s.job| && !s.pool.busy[w]
    requires key in s.queue.active && !s.queue.active[key].active
    ensures JobsRun(Submitted(s, w, key, i))
  {
    var t := Submitted(s, w, key, i);
    assert forall v :: 0 <= v < |s.job| && v != w ==> t.job[v] == s.job[v] && s.job[v] != Some(key);
  }

  lemma AssigningKeepsAll(s: Sched, w: nat, key: Key, i: Invocation)
    requires JobsRun(s) && AllAssigned(s) && s.queue.pending != [] && w < |s.job| && s.job[w].None?
    ensures AllAssigned(Submitted(s, w, key, i))
  {
    var t := Submitted(s, w, key, i);
    forall k | k in t.queue.active && t.queue.active[k].active ensures Some(k) in t.job {
      if k == key {
        assert t.job[w] == Some(k);
      } else {
        var v :| 0 <= v < |s.job| && s.job[v] == Some(k);
        assert t.job[v] == Some(k);
      }
    }
  }

  /** A worker answers for what it was given. */
  lemma CompleteKeepsInv(s: Sched, w: nat, key: Key)
    requires Inv(s) && w < |s.job| && s.job[w] == Some(key)
    ensures Inv(Complete(s, w, key).0)
    ensures Complete(s, w, key).1 == Some(s.queue.active[key])
  {
    CompleteKeepsPool(s, w, key);
  }

  lemma CompleteKeepsPool(s: Sched, w: nat, key: Key)
    requires Inv(s) && w < |s.job| && s.job[w] == Some(key)
    ensures PoolAgrees(Complete(s, w, key).0)
  {
    CountIdleUpdate(s.pool.busy, w, false);
    var t := Complete(s, w, key).0;
    forall k | k in t.queue.active && t.queue.active[k].active ensures Some(k) in t.job {
      var v :| 0 <= v < |s.job| && s.job[v] == Some(k);
      assert t.job[v] == Some(k);
    }
  }

  // ----------------------------------------------- counting running invocations

  function Running(q: Queue): set<Key> {
    set k | k in q.active && q.active[k].active
  }

  function JobSet(job: seq<Option<Key>>): set<Key> {
    if job == [] then {}
    else JobSet(job[1..]) + if job[0].Some? then {job[0].value} else {}
  }

  lemma {:induction false} JobSetSize(job: seq<Option<Key>>, busy: seq<bool>)
    requires |job| == |busy| && forall w :: 0 <= w < |job| ==> (busy[w] <==> job[w].Some?)
    requires forall v, w :: 0 <= v < w < |job| && job[v].Some? ==> job[v] != job[w]
    ensures |JobSet(job)| == |busy| - CountIdle(busy)
    ensures forall k :: k in JobSet(job) <==> Some(k) in job
  {
    if job != [] {
      JobSetSize(job[1..], busy[1..]);
      assert forall k :: Some(k) in job <==> job[0] == Some(k) || Some(k) in job[1..];
      if job[0].Some? {
        assert job[0] !in job[1..];
      }
    }
  }

  /** Running invocations = busy workers = workers - idle counter. */
  lemma RunningAreBusy(s: Sched)
    requires Inv(s)
    ensures |Running(s.queue)| == |s.pool.busy| - s.pool.idle
    ensures 0 <= s.pool.idle <= |s.pool.busy|
  {
    JobSetSize(s.job, s.pool.busy);
    assert Running(s.queue) == JobSet(s.job);
  }

  // ------------------------------------------------------------- dispatch loop

  /** The loop of `Controller::poll`: while a worker is idle, submit the next invocation. */
  function DispatchLoop(s: Sched): (t: Sched)
    decreases |s.queue.pending|
  {
    if s.crashed || s.pool.idle <= 0 || s.queue.pending == [] then s else DispatchLoop(DispatchOne(s))
  }

  /** The first `n` pending invocations have payloads their header can describe. */
  predicate Describable(q: Queue, n: nat)
    requires n <= |q.pending|
  {
    forall i :: 0 <= i < n ==> q.pending[i] in q.active && !TooLong(q.active[q.pending[i]])
  }

  /** The workers that are not busy, by index. */
  function IdleWorkers(busy: seq<bool>, from: nat): (ws: seq<nat>)
    requires from <= |busy|
    ensures forall i :: 0 <= i < |ws| ==> from <= ws[i] < |busy| && !busy[ws[i]]
    ensures forall i, j :: 0 <= i < j < |ws| ==> ws[i] < ws[j]
    ensures |ws| == CountIdle(busy[from..])
    decreases |busy| - from
  {
    if from == |busy| then []
    else
      assert busy[from..][1..] == busy[from + 1..];
      (if busy[from] then [] else [from]) + IdleWorkers(busy, from + 1)
  }

  lemma OneWorker(busy: seq<bool>, from: nat)
    requires from < |busy|
    ensures IdleWorkers(busy, from) == (if busy[from] then [] else [from]) + IdleWorkers(busy, from + 1)
    ensures busy[from] ==> IdleWorkers(busy, from) == IdleWorkers(busy, from + 1)
  {
  }

  lemma {:induction false} TakingTheFirst(busy: seq<bool>, from: nat)
    requires from <= FirstIdle(busy) < |busy|
    ensures var ws := IdleWorkers(busy, from);
      && |ws| > 0 && ws[0] == FirstIdle(busy)
      && IdleWorkers(busy[FirstIdle(busy) := true], from) == ws[1..]
    decreases |busy| - from
  {
    if from < FirstIdle(busy) {
      OneWorker(busy, from);
      OneWorker(busy[FirstIdle(busy) := true], from);
      TakingTheFirst(busy, from + 1);
    } else {
      TakingHere(busy, from);
    }
  }

  lemma TakingHere(busy: seq<bool>, w: nat)
    requires w < |busy| && !busy[w]
    ensures IdleWorkers(busy, w) == [w] + IdleWorkers(busy[w := true], w)
  {
    OneWorker(busy, w);
    OneWorker(busy[w := true], w);
    SameBeyond(busy, w, w + 1);
  }

  lemma {:induction false} SameBeyond(busy: seq<bool>, w: nat, from: nat)
    requires w < from <= |busy|
    ensures IdleWorkers(busy[w := true], from) == IdleWorkers(busy, from)
    decreases |busy| - from
  {
    if from < |busy| {
      SameBeyond(busy, w, from + 1);
    }
  }

  /** What one run of the loop adds to the dispatches: the i-th pending invocation goes, with
      its payload, to the i-th idle worker. */
  ghost predicate Pairs(added: seq<Dispatch>, q: Queue, workers: seq<nat>) {
    && |added| <= |q.pending| && |added| <= |workers|
    && forall i :: 0 <= i < |added| ==>
         && q.pending[i] in q.active
         && added[i] == Dispatch(workers[i], q.pending[i], q.active[q.pending[i]].fname, q.active[q.pending[i]].payload)
  }

  /** The state that a run of the loop ends in: the first min(idle, pending) invocations have
      left the queue, and no worker is idle or nothing is pending. */
  ghost predicate QueueDrained(s: Sched, t: Sched) {
    var n := Min(s.pool.idle, |s.queue.pending|);
    && 0 <= n && Inv(t) && !t.crashed
    && t.queue.pending == s.queue.pending[n..]
    && t.pool.idle == s.pool.idle - n
    && (t.pool.idle == 0 || t.queue.pending == [])
  }

  /** The dispatches that a run of the loop makes. */
  ghost predicate PrefixDispatched(s: Sched, t: Sched) {
    && |t.dispatched| == |s.dispatched| + Min(s.pool.idle, |s.queue.pending|)
    && |s.dispatched| <= |t.dispatched| && t.dispatched[..|s.dispatched|] == s.dispatched
    && Pairs(t.dispatched[|s.dispatched|..], s.queue, IdleWorkers(s.pool.busy, 0))
  }

  /**
   * The dispatch loop terminates and submits exactly the first min(idle, pending) invocations
   * in queue order, each to a different worker that was idle, lowest index first; afterwards
   * no worker is idle or nothing is pending.
   */
  lemma {:induction false} LoopDispatchesThePrefix(s: Sched)
    requires Inv(s) && !s.crashed && 0 <= Min(s.pool.idle, |s.queue.pending|)
    requires Describable(s.queue, Min(s.pool.idle, |s.queue.pending|))
    ensures QueueDrained(s, DispatchLoop(s)) && PrefixDispatched(s, DispatchLoop(s))
    decreases |s.queue.pending|
  {
    var n := Min(s.pool.idle, |s.queue.pending|);
    if n > 0 {
      var u := FirstRound(s, n);
      LoopDispatchesThePrefix(u);
      DrainedAfterFirst(s, u, DispatchLoop(u));
      DispatchedAfterFirst(s, u, DispatchLoop(u));
    } else {
      assert s.queue.pending[0..] == s.queue.pending;
    }
  }

  lemma FirstRound(s: Sched, n: nat) returns (u: Sched)
    requires Inv(s) && !s.crashed && 0 < n == Min(s.pool.idle, |s.queue.pending|) && Describable(s.queue, n)
    ensures u == DispatchOne(s) && DispatchLoop(s) == DispatchLoop(u)
    ensures FirstIdle(s.pool.busy) < |s.pool.busy| && s.queue.pending[0] in s.queue.active && Describable(s.queue, 1)
    ensures u.queue.pending == s.queue.pending[1..] && u.pool.idle == s.pool.idle - 1
    ensures Inv(u) && !u.crashed && n - 1 == Min(u.pool.idle, |u.queue.pending|) && Describable(u.queue, n - 1)
  {
    DispatchOneKeepsInv(s);
    u := LoopTurns(s);
    NextStaysDescribable(s, n);
  }

  /** How a run of the loop from `s` ends, if `n` invocations are to be dispatched. */
  ghost predicate EndsWell(s: Sched, t: Sched, n: nat)
    requires n <= |s.queue.pending|
  {
    (t.crashed <==> !Describable(s.queue, n)) && (!t.crashed ==> Inv(t))
  }

  /** The loop crashes exactly when it comes to a payload that no header can describe; what it
      leaves otherwise satisfies the invariant again. */
  lemma {:induction false} LoopCrashesExactlyWhen(s: Sched, n: nat)
    requires Inv(s) && !s.crashed && n == Min(s.pool.idle, |s.queue.pending|)
    ensures EndsWell(s, DispatchLoop(s), n)
    decreases n
  {
    if n > 0 {
      var u := LoopTurns(s);
      FirstDecides(s, u, n);
      if !u.crashed {
        LoopCrashesExactlyWhen(u, n - 1);
      } else {
        assert DispatchLoop(u) == u;
      }
    }
  }

  lemma LoopTurns(s: Sched) returns (u: Sched)
    requires !s.crashed && s.pool.idle > 0 && s.queue.pending != []
    ensures u == DispatchOne(s) && DispatchLoop(s) == DispatchLoop(u)
  {
    u := DispatchOne(s);
  }

  lemma FirstDecides(s: Sched, u: Sched, n: nat)
    requires Inv(s) && !s.crashed && 0 < n == Min(s.pool.idle, |s.queue.pending|) && u == DispatchOne(s)
    ensures u.crashed ==> !Describable(s.queue, n)
    ensures !u.crashed ==> (
      && Inv(u) && n - 1 == Min(u.pool.idle, |u.queue.pending|)
      && (Describable(s.queue, n) <==> Describable(u.queue, n - 1)))
  {
    DispatchOneKeepsInv(s);
    if !u.crashed {
      DescribableFromFirst(s, n);
    }
  }

  lemma DrainedAfterFirst(s: Sched, u: Sched, t: Sched)
    requires s.queue.pending != [] && s.pool.idle > 0
    requires u.queue.pending == s.queue.pending[1..] && u.pool.idle == s.pool.idle - 1
    requires QueueDrained(u, t)
    ensures QueueDrained(s, t)
  {
    DropTwice(s.queue.pending, Min(u.pool.idle, |u.queue.pending|));
  }

  lemma DropTwice(p: seq<Key>, n: nat)
    requires n < |p|
    ensures p[1..][n..] == p[n + 1..]
  {
  }

  lemma DispatchedAfterFirst(s: Sched, u: Sched, t: Sched)
    requires Inv(s) && s.queue.pending != [] && s.pool.idle > 0 && Describable(s.queue, 1)
    requires FirstIdle(s.pool.busy) < |s.pool.busy| && s.queue.pending[0] in s.queue.active
    requires u == DispatchOne(s) && PrefixDispatched(u, t)
    ensures PrefixDispatched(s, t)
  {
    TakingTheFirst(s.pool.busy, 0);
    PairsAfterFirst(s, t.dispatched[|u.dispatched|..]);
    OneMoreDispatch(s.dispatched, u.dispatched[|s.dispatched|], t.dispatched);
  }

  lemma OneMoreDispatch(before: seq<Dispatch>, d: Dispatch, after: seq<Dispatch>)
    requires |after| > |before| && after[..|before| + 1] == before + [d]
    ensures after[|before|..] == [d] + after[|before| + 1..] && after[..|before|] == before
  {
    assert after[|before|] == after[..|before| + 1][|before|] == d;
    assert after[..|before|] == after[..|before| + 1][..|before|];
  }

  /** What is dispatched first does not change what comes after it. */
  lemma NextStaysDescribable(s: Sched, n: nat)
    requires Inv(s) && s.queue.pending != [] && s.pool.idle > 0 && 0 < n <= |s.queue.pending| && Describable(s.queue, n)
    requires FirstIdle(s.pool.busy) < |s.pool.busy| && s.queue.pending[0] in s.queue.active
    ensures Describable(DispatchOne(s).queue, n - 1)
    ensures SameBehindFirst(s.queue, DispatchOne(s).queue)
  {
    assert forall i :: 0 <= i < |s.queue.pending| ==> s.queue.pending[i] in s.queue.pending;
  }

  ghost predicate SameBehindFirst(q: Queue, r: Queue) {
    && |r.pending| == |q.pending| - 1
    && forall i :: 0 <= i < |r.pending| ==>
         && r.pending[i] == q.pending[i + 1] && r.pending[i] in q.active && r.pending[i] in r.active
         && r.active[r.pending[i]] == q.active[r.pending[i]]
  }

  lemma DescribableFromFirst(s: Sched, n: nat)
    requires Inv(s) && s.queue.pending != [] && s.pool.idle > 0 && 0 < n <= |s.queue.pending|
    requires FirstIdle(s.pool.busy) < |s.pool.busy| && !TooLong(s.queue.active[s.queue.pending[0]])
    ensures Describable(s.queue, n) <==> Describable(DispatchOne(s).queue, n - 1)
  {
    NextStaysDescribable(s, 1);
    var q, r := s.queue, DispatchOne(s).queue;
    if Describable(r, n - 1) {
      forall i | 0 <= i < n ensures q.pending[i] in q.active && !TooLong(q.active[q.pending[i]]) {
        if i > 0 {
          assert r.pending[i - 1] == q.pending[i];
        }
      }
    }
    if Describable(q, n) {
      NextStaysDescribable(s, n);
    }
  }

  lemma PairsAfterFirst(s: Sched, later: seq<Dispatch>)
    requires Inv(s) && s.queue.pending != [] && s.pool.idle > 0 && Describable(s.queue, 1)
    requires FirstIdle(s.pool.busy) < |s.pool.busy| && s.queue.pending[0] in s.queue.active
    requires var ws := IdleWorkers(s.pool.busy, 0);
      |ws| > 0 && ws[0] == FirstIdle(s.pool.busy) && IdleWorkers(DispatchOne(s).pool.busy, 0) == ws[1..]
    requires Pairs(later, DispatchOne(s).queue, IdleWorkers(DispatchOne(s).pool.busy, 0))
    ensures Pairs([DispatchOne(s).dispatched[|s.dispatched|]] + later, s.queue, IdleWorkers(s.pool.busy, 0))
  {
    NextStaysDescribable(s, 1);
  }
}
