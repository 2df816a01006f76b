/**
 * The process controller: requests and messages come in from workers and from the network, and
 * are routed through the work queue, the pending requests and the mailbox. Every handler is one
 * step; the theorems are about all runs, in any order of steps.
 */
module ProcessController {
  import opened Wrappers
  import opened Bytes
  import opened Scheduler
  import opened Mailbox

  const SELF: string := "SELF"

  /** What a result carries: bytes, or the reason why the invocation was refused. */
  datatype Body = Data(bytes: Payload) | Diagnosis(reason: Refusal)

  /** Everything the controller sends, and the messages it drops with an entry in the log. */
  datatype Output =
    | Answer(worker: nat, id: Key, code: int, body: Body)
    | Deliver(worker: nat, key: Key, sender: string, data: Payload)
    | StateValue(worker: nat, key: Key, value: Option<Payload>)
    | StateKeys(worker: nat, index: seq<Stamped>)
    | Reply(source: Source, id: Key, code: int, body: Body)
    | Request(process: string, fname: string, id: Key, data: Payload)
    | Forward(process: string, key: Key, data: Payload)
    | Dropped(key: Key, data: Payload)

  datatype Config = Config(self: string, functions: set<string>, workers: nat)

  datatype Ctl = Ctl(sched: Sched, waiters: seq<Waiter>, store: Store, sent: seq<Output>)

  type Remote = s: Source | s.IsRemote() witness DataPlane

  /** What a worker asks for over its queue; `at` is where the multimap puts the waiter. */
  datatype Call =
    | Finish(id: Key, code: int, data: Payload)
    | Invoke(process: string, fname: string, id: Key, data: Payload, at: nat)
    | Put(process: string, key: Key, data: Payload)
    | PutState(key: Key, data: Payload, now: Time)
    | Get(process: string, key: Key, at: nat)
    | GetState(key: Key)
    | ListState

  datatype Event =
    | RemoteInvoke(fname: string, id: Key, data: Payload, source: Remote)
    | RemoteResult(id: Key, code: int, data: Payload)
    | RemotePut(key: Key, sender: string, data: Payload)
    | FromWorker(worker: nat, call: Call)
    | DispatchAll

  // ------------------------------------------------------------------ the handlers

  function Answers(ws: seq<nat>, id: Key, code: int, body: Body): seq<Output> {
    if ws == [] then [] else Answers(ws[..|ws| - 1], id, code, body) + [Answer(ws[|ws| - 1], id, code, body)]
  }

  /** A result for the workers here that wait for it. */
  function ToWaiters(c: Ctl, id: Key, code: int, body: Body): Ctl {
    c.(waiters := NotUnder(c.waiters, id), sent := c.sent + Answers(WorkersOf(Under(c.waiters, id)), id, code, body))
  }

  function Resolved(c: Ctl, source: Source, id: Key, code: int, body: Body): Ctl {
    if source.IsRemote() then c.(sent := c.sent + [Reply(source, id, code, body)]) else ToWaiters(c, id, code, body)
  }

  function Requested(cfg: Config, c: Ctl, fname: string, id: Key, data: Payload, source: Source): Ctl {
    var (s, refused) := Add(c.sched, cfg.functions, fname, id, data, source);
    if refused.None? then c.(sched := s) else Resolved(c.(sched := s), source, id, -1, Diagnosis(refused.value))
  }

  /** A message for this process: to the first worker that waits for it, or into the mailbox. */
  function Accepted(c: Ctl, key: Key, sender: string, data: Payload): Ctl {
    var n := FirstTaking(c.waiters, key, sender);
    if n < |c.waiters| then
      c.(waiters := Without(c.waiters, n), sent := c.sent + [Deliver(c.waiters[n].worker, key, sender, data)])
    else
      var (store, success) := PutInto(c.store, key, sender, data);
      if success then c.(store := store) else c.(sent := c.sent + [Dropped(key, data)])
  }

  function Ended(c: Ctl, w: nat, id: Key, code: int, data: Payload): Ctl
    requires w < |c.sched.pool.busy| == |c.sched.job|
  {
    var (s, done) := Complete(c.sched, w, id);
    if done.None? then c.(sched := s) else Resolved(c.(sched := s), done.value.source, id, code, Data(data))
  }

  predicate IsSelf(cfg: Config, process: string) {
    process == SELF || process == cfg.self
  }

  /** The caller waits for the result, whoever is to produce it. */
  function Awaiting(cfg: Config, c: Ctl, w: nat, process: string, id: Key, at: nat): Ctl {
    c.(waiters := Placed(c.waiters, Waiter(id, ForResult(IsSelf(cfg, process)), "", w), at))
  }

  function Invoked(cfg: Config, c: Ctl, w: nat, process: string, fname: string, id: Key, data: Payload, at: nat): Ctl {
    var d := Awaiting(cfg, c, w, process, id, at);
    if IsSelf(cfg, process) then Requested(cfg, d, fname, id, data, Local)
    else d.(sent := d.sent + [Request(process, fname, id, data)])
  }

  function StateWritten(c: Ctl, key: Key, data: Payload, now: Time): Ctl {
    match WriteState(c.store, key, data, now)
    case Some(store) => c.(store := store)
    case None => c.(store := c.store.(msgs := c.store.msgs[key := Message("", data)]), sched := c.sched.(crashed := true))
  }

  function Got(cfg: Config, c: Ctl, w: nat, process: string, key: Key, at: nat): Ctl {
    var sender := if process == SELF then cfg.self else process;
    var (store, data) := TakeFrom(c.store, key, sender);
    if data.Some? then c.(store := store, sent := c.sent + [Deliver(w, key, process, data.value)])
    else c.(waiters := Placed(c.waiters, Waiter(key, ForMessage, sender, w), at))
  }

  function Called(cfg: Config, c: Ctl, w: nat, call: Call): Ctl
    requires w < |c.sched.pool.busy| == |c.sched.job|
  {
    match call
    case Finish(id, code, data) => Ended(c, w, id, code, data)
    case Invoke(process, fname, id, data, at) => Invoked(cfg, c, w, process, fname, id, data, at)
    case Put(process, key, data) =>
      if IsSelf(cfg, process) then Accepted(c, key, cfg.self, data)
      else c.(sent := c.sent + [Forward(process, key, data)])
    case PutState(key, data, now) => StateWritten(c, key, data, now)
    case Get(process, key, at) => Got(cfg, c, w, process, key, at)
    case GetState(key) => c.(sent := c.sent + [StateValue(w, key, ReadState(c.store, key))])
    case ListState => c.(sent := c.sent + [StateKeys(w, c.store.index)])
  }

  /** One step; a controller that crashed, and a worker that does not exist, do nothing. */
  function Step(cfg: Config, c: Ctl, e: Event): Ctl {
    if c.sched.crashed then c
    else match e
      case RemoteInvoke(fname, id, data, source) => Requested(cfg, c, fname, id, data, source)
      case RemoteResult(id, code, data) => ToWaiters(c, id, code, Data(data))
      case RemotePut(key, sender, data) => Accepted(c, key, sender, data)
      case FromWorker(w, call) => if w < |c.sched.pool.busy| == |c.sched.job| then Called(cfg, c, w, call) else c
      case DispatchAll => c.(sched := DispatchLoop(c.sched))
  }

  function Start(cfg: Config): Ctl {
    Ctl(Initial(cfg.workers), [], Store(map[], []), [])
  }

  function Run(cfg: Config, es: seq<Event>): Ctl {
    if es == [] then Start(cfg) else Step(cfg, Run(cfg, es[..|es| - 1]), es[|es| - 1])
  }

  // --------------------------------------------------------- assumptions on a run

  /** A message comes from a worker that runs an invocation, and a result names that one. */
  predicate Obeys(c: Ctl, e: Event) {
    e.FromWorker? ==> (
      && e.worker < |c.sched.job| && c.sched.job[e.worker].Some?
      && (e.call.Finish? ==> c.sched.job[e.worker] == Some(e.call.id)))
  }

  predicate Obedient(cfg: Config, es: seq<Event>) {
    es != [] ==> Obedient(cfg, es[..|es| - 1]) && Obeys(Run(cfg, es[..|es| - 1]), es[|es| - 1])
  }

  /** No invocation arrives under the id of one that still waits in the queue. */
  predicate Fresh(cfg: Config, c: Ctl, e: Event) {
    var active := c.sched.queue.active;
    match e
    case RemoteInvoke(_, id, _, _) => id in active ==> active[id].active
    case FromWorker(_, Invoke(process, _, id, _, _)) => IsSelf(cfg, process) && id in active ==> active[id].active
    case _ => true
  }

  predicate Unmerged(cfg: Config, es: seq<Event>) {
    es != [] ==> Unmerged(cfg, es[..|es| - 1]) && Fresh(cfg, Run(cfg, es[..|es| - 1]), es[|es| - 1])
  }

  datatype Kind = MailboxKey | StateKey | InvocationId

  /** Invocation ids, mailbox keys and state keys are different names. */
  predicate KindsOf(kind: Key -> Kind, e: Event) {
    match e
    case RemoteInvoke(_, id, _, _) => kind(id) == InvocationId
    case RemoteResult(id, _, _) => kind(id) == InvocationId
    case RemotePut(key, _, _) => kind(key) == MailboxKey
    case FromWorker(_, Finish(id, _, _)) => kind(id) == InvocationId
    case FromWorker(_, Invoke(_, _, id, _, _)) => kind(id) == InvocationId
    case FromWorker(_, Put(_, key, _)) => kind(key) == MailboxKey
    case FromWorker(_, PutState(key, _, _)) => kind(key) == StateKey
    case FromWorker(_, Get(_, key, _)) => kind(key) == MailboxKey
    case FromWorker(_, GetState(key)) => kind(key) == StateKey
    case _ => true
  }

  predicate Kinded(kind: Key -> Kind, es: seq<Event>) {
    es != [] ==> Kinded(kind, es[..|es| - 1]) && KindsOf(kind, es[|es| - 1])
  }

  // ---------------------------------------------------------- the scheduler's part

  /** What a handler does to the schedule. */
  lemma StepOnSched(cfg: Config, c: Ctl, e: Event)
    requires !c.sched.crashed
    ensures var s, t := c.sched, Step(cfg, c, e).sched;
      match e
      case RemoteInvoke(fname, id, data, source) => t == Add(s, cfg.functions, fname, id, data, source).0
      case FromWorker(w, Finish(id, _, _)) =>
        t == if w < |s.pool.busy| == |s.job| then Complete(s, w, id).0 else s
      case FromWorker(w, Invoke(process, fname, id, data, _)) =>
        t == if w < |s.pool.busy| == |s.job| && IsSelf(cfg, process) then Add(s, cfg.functions, fname, id, data, Local).0 else s
      case FromWorker(_, PutState(_, _, _)) => t == s || t == s.(crashed := true)
      case DispatchAll => t == DispatchLoop(s)
      case _ => t == s
  {
  }

  /** On every run of obedient workers the queue, the pool and the history agree, until a payload
      that no header can describe or a state write onto a mailbox message ends the controller. */
  lemma {:induction false} SchedulerStaysSound(cfg: Config, es: seq<Event>)
    requires Obedient(cfg, es)
    ensures !Run(cfg, es).sched.crashed ==> Inv(Run(cfg, es).sched)
  {
    if es == [] {
      InitialInv(cfg.workers);
    } else {
      SchedulerStaysSound(cfg, es[..|es| - 1]);
      var c, e := Run(cfg, es[..|es| - 1]), es[|es| - 1];
      if !c.sched.crashed {
        StepKeepsInv(cfg, c, e);
      }
    }
  }

  lemma StepKeepsInv(cfg: Config, c: Ctl, e: Event)
    requires Inv(c.sched) && Obeys(c, e) && !c.sched.crashed
    ensures !Step(cfg, c, e).sched.crashed ==> Inv(Step(cfg, c, e).sched)
  {
    StepOnSched(cfg, c, e);
    match e
    case RemoteInvoke(fname, id, data, source) => AddKeepsInv(c.sched, cfg.functions, fname, id, data, source);
    case FromWorker(w, Finish(id, _, _)) => CompleteKeepsInv(c.sched, w, id);
    case FromWorker(w, Invoke(process, fname, id, data, _)) => AddKeepsInv(c.sched, cfg.functions, fname, id, data, Local);
    case DispatchAll =>
      RunningAreBusy(c.sched);
      LoopCrashesExactlyWhen(c.sched, Min(c.sched.pool.idle, |c.sched.queue.pending|));
    case _ =>
  }

  // ------------------------------------------------------------ kinds of names

  predicate WaiterKind(kind: Key -> Kind, x: Waiter) {
    kind(x.key) == if x.wait.ForMessage? then MailboxKey else InvocationId
  }

  ghost predicate Typed(kind: Key -> Kind, c: Ctl) {
    && (forall x :: x in c.waiters ==> WaiterKind(kind, x))
    && (forall k :: k in c.store.msgs ==> kind(k) != InvocationId)
  }

  lemma RequestedOnLists(cfg: Config, c: Ctl, fname: string, id: Key, data: Payload, source: Source)
    ensures var d := Requested(cfg, c, fname, id, data, source);
      d.store == c.store && forall x :: x in d.waiters ==> x in c.waiters
  {
  }

  lemma StepKeepsTyped(kind: Key -> Kind, cfg: Config, c: Ctl, e: Event)
    requires Typed(kind, c) && KindsOf(kind, e)
    ensures Typed(kind, Step(cfg, c, e))
  {
    if e.FromWorker? && e.call.Invoke? {
      var d := Awaiting(cfg, c, e.worker, e.call.process, e.call.id, e.call.at);
      RequestedOnLists(cfg, d, e.call.fname, e.call.id, e.call.data, Local);
    }
  }

  lemma {:induction false} KindsStayApart(kind: Key -> Kind, cfg: Config, es: seq<Event>)
    requires Kinded(kind, es)
    ensures Typed(kind, Run(cfg, es))
  {
    if es != [] {
      KindsStayApart(kind, cfg, es[..|es| - 1]);
      StepKeepsTyped(kind, cfg, Run(cfg, es[..|es| - 1]), es[|es| - 1]);
    }
  }

  // ---------------------------------------------------------------- rendezvous

  /** No message is stored that a worker waits for. */
  ghost predicate NothingMissed(c: Ctl) {
    forall x :: x in c.waiters && x.key in c.store.msgs ==> !x.Takes(x.key, c.store.msgs[x.key].source)
  }

  /** A state write is the one step that can store a message past a waiting worker, and it does
      so exactly when the worker waits under that key for any source or for the empty one. */
  lemma StateWriteMissesExactlyWhen(c: Ctl, key: Key, data: Payload, now: Time)
    requires NothingMissed(c)
    ensures NothingMissed(StateWritten(c, key, data, now)) <==> FirstTaking(c.waiters, key, "") == |c.waiters|
  {
    var n, d := FirstTaking(c.waiters, key, ""), StateWritten(c, key, data, now);
    if n < |c.waiters| {
      assert c.waiters[n] in d.waiters && d.store.msgs[key].source == "";
    }
  }

  lemma AcceptedMissesNothing(c: Ctl, key: Key, sender: string, data: Payload)
    requires NothingMissed(c)
    ensures NothingMissed(Accepted(c, key, sender, data))
  {
    var n := FirstTaking(c.waiters, key, sender);
    if n < |c.waiters| {
      assert forall x :: x in Without(c.waiters, n) ==> x in c.waiters;
    } else {
      assert forall x :: x in c.waiters ==> !x.Takes(key, sender);
    }
  }

  lemma StepMissesNothing(kind: Key -> Kind, cfg: Config, c: Ctl, e: Event)
    requires Typed(kind, c) && KindsOf(kind, e) && NothingMissed(c)
    ensures NothingMissed(Step(cfg, c, e))
  {
    match e
    case RemotePut(key, sender, data) => AcceptedMissesNothing(c, key, sender, data);
    case FromWorker(_, Put(process, key, data)) => AcceptedMissesNothing(c, key, cfg.self, data);
    case FromWorker(_, PutState(key, data, now)) => StateWriteMissesExactlyWhen(c, key, data, now);
    case FromWorker(w, Invoke(process, fname, id, data, at)) =>
      RequestedOnLists(cfg, Awaiting(cfg, c, w, process, id, at), fname, id, data, Local);
    case _ =>
  }

  /** GET and PUT meet: on every run that keeps the kinds of names apart, a message is never in
      the mailbox while a worker waits for it. */
  lemma {:induction false} GetsMeetPuts(kind: Key -> Kind, cfg: Config, es: seq<Event>)
    requires Kinded(kind, es)
    ensures NothingMissed(Run(cfg, es))
  {
    if es != [] {
      GetsMeetPuts(kind, cfg, es[..|es| - 1]);
      KindsStayApart(kind, cfg, es[..|es| - 1]);
      StepMissesNothing(kind, cfg, Run(cfg, es[..|es| - 1]), es[|es| - 1]);
    }
  }

  // ----------------------------------------------------------------- state keys

  /** The state writes of a run. */
  function Writes(es: seq<Event>): seq<Write> {
    if es == [] then []
    else Writes(es[..|es| - 1]) + WritesOf(es[|es| - 1])
  }

  function WritesOf(e: Event): seq<Write> {
    match e
    case FromWorker(_, PutState(key, data, now)) => [Write(key, data, now)]
    case _ => []
  }

  /** The index and the stored state are those of the log, and state keys hold nothing else. */
  ghost predicate StateSound(kind: Key -> Kind, store: Store, log: seq<Write>) {
    && IndexAgrees(store, log)
    && (forall k :: k in WrittenKeys(log) ==> kind(k) == StateKey)
    && (forall k :: k in store.msgs && kind(k) == StateKey ==> k in WrittenKeys(log))
  }

  lemma AcceptedKeepsState(kind: Key -> Kind, c: Ctl, key: Key, sender: string, data: Payload, log: seq<Write>)
    requires StateSound(kind, c.store, log) && kind(key) == MailboxKey
    ensures StateSound(kind, Accepted(c, key, sender, data).store, log)
  {
    PutKeepsIndex(c.store, log, key, sender, data);
  }

  lemma GotKeepsState(kind: Key -> Kind, cfg: Config, c: Ctl, w: nat, process: string, key: Key, at: nat, log: seq<Write>)
    requires StateSound(kind, c.store, log) && kind(key) == MailboxKey
    ensures StateSound(kind, Got(cfg, c, w, process, key, at).store, log)
  {
    GetKeepsIndexIff(c.store, log, key, if process == SELF then cfg.self else process);
  }

  lemma WriteKeepsState(kind: Key -> Kind, store: Store, key: Key, data: Payload, now: Time, log: seq<Write>)
    requires StateSound(kind, store, log) && kind(key) == StateKey
    ensures WriteState(store, key, data, now).Some?
    ensures StateSound(kind, WriteState(store, key, data, now).value, log + [Write(key, data, now)])
  {
    StateWriteKeepsIndexIff(store, log, key, data, now);
    var after := log + [Write(key, data, now)];
    assert after[..|log|] == log;
  }

  lemma StepKeepsState(kind: Key -> Kind, cfg: Config, c: Ctl, e: Event, log: seq<Write>)
    requires !c.sched.crashed && |c.sched.job| == |c.sched.pool.busy| && Obeys(c, e)
    requires StateSound(kind, c.store, log) && KindsOf(kind, e)
    ensures StateSound(kind, Step(cfg, c, e).store, log + WritesOf(e))
    ensures e.FromWorker? && e.call.PutState? ==> !Step(cfg, c, e).sched.crashed
  {
    assert log + [] == log;
    match e
    case RemotePut(key, sender, data) => AcceptedKeepsState(kind, c, key, sender, data, log);
    case FromWorker(_, Put(process, key, data)) => AcceptedKeepsState(kind, c, key, cfg.self, data, log);
    case FromWorker(w, Get(process, key, at)) => GotKeepsState(kind, cfg, c, w, process, key, at, log);
    case FromWorker(_, PutState(key, data, now)) => WriteKeepsState(kind, c.store, key, data, now, log);
    case FromWorker(w, Invoke(process, fname, id, data, at)) =>
      RequestedOnLists(cfg, Awaiting(cfg, c, w, process, id, at), fname, id, data, Local);
    case _ =>
  }

  /**
   * On every run that keeps the kinds of names apart, the state index lists exactly the state
   * keys written so far, once each, in first-write order with the time of the latest write,
   * and the store holds the latest value of each.
   */
  lemma {:induction false} IndexFollowsTheWrites(kind: Key -> Kind, cfg: Config, es: seq<Event>)
    requires Obedient(cfg, es) && Kinded(kind, es) && !Run(cfg, es).sched.crashed
    ensures StateSound(kind, Run(cfg, es).store, Writes(es))
  {
    if es != [] {
      IndexFollowsTheWrites(kind, cfg, es[..|es| - 1]);
      SchedulerStaysSound(cfg, es[..|es| - 1]);
      StepKeepsState(kind, cfg, Run(cfg, es[..|es| - 1]), es[|es| - 1], Writes(es[..|es| - 1]));
    }
  }

  /** Reading state answers with the latest value written, if there is one, and leaves it. */
  lemma StateReadsBack(kind: Key -> Kind, cfg: Config, es: seq<Event>, w: nat, key: Key)
    requires Obedient(cfg, es) && Kinded(kind, es) && kind(key) == StateKey
    ensures var c, log, read := Run(cfg, es), Writes(es), FromWorker(w, GetState(key));
      !c.sched.crashed && Obeys(c, read) ==>
        Step(cfg, c, read) ==
          c.(sent := c.sent + [StateValue(w, key, if key in WrittenKeys(log) then Some(Latest(log, key).data) else None)])
  {
    var c := Run(cfg, es);
    if !c.sched.crashed && Obeys(c, FromWorker(w, GetState(key))) {
      IndexFollowsTheWrites(kind, cfg, es);
      SchedulerStaysSound(cfg, es);
      ReadingState(kind, cfg, c, Writes(es), w, key);
    }
  }

  lemma ReadingState(kind: Key -> Kind, cfg: Config, c: Ctl, log: seq<Write>, w: nat, key: Key)
    requires StateSound(kind, c.store, log) && kind(key) == StateKey
    requires !c.sched.crashed && w < |c.sched.pool.busy| == |c.sched.job|
    ensures Step(cfg, c, FromWorker(w, GetState(key))) ==
        c.(sent := c.sent + [StateValue(w, key, if key in WrittenKeys(log) then Some(Latest(log, key).data) else None)])
  {
  }

  /** The state after more steps. */
  function Replay(cfg: Config, c: Ctl, es: seq<Event>): Ctl {
    if es == [] then c else Step(cfg, Replay(cfg, c, es[..|es| - 1]), es[|es| - 1])
  }

  lemma {:induction false} RunsContinue(cfg: Config, es: seq<Event>, more: seq<Event>)
    ensures Run(cfg, es + more) == Replay(cfg, Run(cfg, es), more)
  {
    if more == [] {
      assert es + more == es;
    } else {
      assert (es + more)[..|es + more| - 1] == es + more[..|more| - 1];
      RunsContinue(cfg, es, more[..|more| - 1]);
    }
  }

  predicate FromNetwork(e: Event) {
    e.RemoteInvoke? || e.RemoteResult? || e.RemotePut?
  }

  // ------------------------------------------------------- the controller object

  lemma OneMoreAnswer(sent: seq<Output>, ws: seq<nat>, i: nat, id: Key, code: int, body: Body)
    requires i < |ws|
    ensures sent + Answers(ws[..i + 1], id, code, body) == sent + Answers(ws[..i], id, code, body) + [Answer(ws[i], id, code, body)]
  {
    assert ws[..i + 1][..i] == ws[..i];
  }

  class Controller {
    const cfg: Config
    const queue: WorkQueue
    const workers: Workers
    const pending: PendingMessages
    const mailbox: MessageStore
    var sent: seq<Output>
    var dispatched: seq<Dispatch>
    var crashed: bool
    /** History: what each worker was given, and the invocations in order of arrival. */
    ghost var job: seq<Option<Key>>
    ghost var arrived: seq<Key>

    ghost function State(): Ctl
      reads this, queue, workers, pending, mailbox
    {
      Ctl(Sched(queue.State(), workers.State(), job, arrived, dispatched, crashed), pending.waiters, mailbox.State(), sent)
    }

    ghost predicate Valid()
      reads this, queue, workers
    {
      queue.functions == cfg.functions && |job| == |workers.busy|
    }

    constructor (cfg: Config)
      ensures Valid() && this.cfg == cfg && State() == Start(cfg)
      ensures fresh(queue) && fresh(workers) && fresh(pending) && fresh(mailbox)
    {
      this.cfg := cfg;
      queue := new WorkQueue(cfg.functions);
      workers := new Workers(cfg.workers);
      pending := new PendingMessages();
      mailbox := new MessageStore();
      sent, dispatched, crashed := [], [], false;
      job, arrived := seq(cfg.workers, _ => None), [];
    }

    /** The reply loop over the workers that wait for a result. */
    method SendToWaiters(id: Key, code: int, body: Body)
      requires Valid()
      modifies this`sent, pending
      ensures Valid() && State() == ToWaiters(old(State()), id, code, body)
    {
      var found := pending.FindInvocation(id);
      var i := 0;
      while i < |found|
        invariant 0 <= i <= |found|
        invariant sent == old(sent) + Answers(found[..i], id, code, body)
        invariant pending.waiters == NotUnder(old(pending.waiters), id)
      {
        OneMoreAnswer(old(sent), found, i, id, code, body);
        sent := sent + [Answer(found[i], id, code, body)];
        i := i + 1;
      }
      assert found[..i] == found;
    }

    /** `_process_invocation_result` for a source. */
    method Resolve(source: Source, id: Key, code: int, body: Body)
      requires Valid()
      modifies this`sent, pending
      ensures Valid() && State() == Resolved(old(State()), source, id, code, body)
    {
      if source.IsRemote() {
        sent := sent + [Reply(source, id, code, body)];
      } else {
        SendToWaiters(id, code, body);
      }
    }

    method AddRequest(fname: string, id: Key, data: Payload, source: Source)
      requires Valid()
      modifies this`sent, this`arrived, pending, queue
      ensures Valid() && State() == Requested(cfg, old(State()), fname, id, data, source)
    {
      ghost var before := queue.pending;
      var refused := queue.AddPayload(fname, id, data, source);
      arrived := if queue.pending == before then arrived else arrived + [id];
      if refused.Some? {
        Resolve(source, id, -1, Diagnosis(refused.value));
      }
    }

    method AcceptMessage(key: Key, sender: string, data: Payload)
      requires Valid()
      modifies this`sent, pending, mailbox
      ensures Valid() && State() == Accepted(old(State()), key, sender, data)
    {
      var worker := pending.FindGet(key, sender);
      if worker.Some? {
        sent := sent + [Deliver(worker.value, key, sender, data)];
      } else {
        var success := mailbox.Put(key, sender, data);
        if !success {
          sent := sent + [Dropped(key, data)];
        }
      }
    }

    /** `_process_external_message`. */
    method ProcessExternal(e: Event)
      requires Valid() && !crashed && FromNetwork(e)
      modifies this`sent, this`arrived, queue, pending, mailbox
      ensures Valid() && State() == Step(cfg, old(State()), e)
    {
      match e
      case RemoteInvoke(fname, id, data, source) => AddRequest(fname, id, data, source);
      case RemoteResult(id, code, data) => SendToWaiters(id, code, Data(data));
      case RemotePut(key, sender, data) => AcceptMessage(key, sender, data);
    }

    /** `_process_invocation_result` for the worker that ran the invocation. */
    method FinishInvocation(w: nat, id: Key, code: int, data: Payload)
      requires Valid() && w < |workers.busy|
      modifies this`sent, this`job, queue, workers, pending
      ensures Valid() && State() == Ended(old(State()), w, id, code, data)
    {
      var done := queue.Finish(id);
      workers.Finish(w);
      job := job[w := None];
      if done.Some? {
        Resolve(done.value.source, id, code, Data(data));
      }
    }

    /** `_process_invocation`: the caller is registered before the request goes anywhere. */
    method ProcessInvocation(w: nat, process: string, fname: string, id: Key, data: Payload, at: nat)
      requires Valid()
      modifies this`sent, this`arrived, queue, pending
      ensures Valid() && State() == Invoked(cfg, old(State()), w, process, fname, id, data, at)
    {
      pending.InsertInvocation(id, w, IsSelf(cfg, process), at);
      if process == SELF || process == cfg.self {
        AddRequest(fname, id, data, Local);
      } else {
        sent := sent + [Request(process, fname, id, data)];
      }
    }

    method ProcessGet(w: nat, process: string, key: Key, at: nat)
      requires Valid()
      modifies this`sent, pending, mailbox
      ensures Valid() && State() == Got(cfg, old(State()), w, process, key, at)
    {
      var sender := if process == SELF then cfg.self else process;
      var data := mailbox.TryGet(key, sender);
      if data.Some? {
        sent := sent + [Deliver(w, key, process, data.value)];
      } else {
        pending.InsertGet(key, sender, w, at);
      }
    }

    /** `_process_put`, for a message and for state. */
    method ProcessPut(process: string, key: Key, data: Payload)
      requires Valid()
      modifies this`sent, pending, mailbox
      ensures Valid() && State() ==
        if IsSelf(cfg, process) then Accepted(old(State()), key, cfg.self, data)
        else old(State()).(sent := old(sent) + [Forward(process, key, data)])
    {
      if process == SELF || process == cfg.self {
        AcceptMessage(key, cfg.self, data);
      } else {
        sent := sent + [Forward(process, key, data)];
      }
    }

    method ProcessState(key: Key, data: Payload, now: Time)
      requires Valid() && !crashed
      modifies this`crashed, mailbox
      ensures Valid() && State() == StateWritten(old(State()), key, data, now)
    {
      var stored := mailbox.WriteStateKey(key, data, now);
      crashed := stored.Failure?;
    }

    /** The cases of `_process_internal_message` that touch only messages and state. */
    method ProcessMessage(w: nat, call: Call)
      requires Valid() && !crashed && w < |workers.busy| && !call.Finish? && !call.Invoke?
      modifies this`sent, this`crashed, pending, mailbox
      ensures Valid() && State() == Called(cfg, old(State()), w, call)
    {
      match call
      case Put(process, key, data) => ProcessPut(process, key, data);
      case PutState(key, data, now) => ProcessState(key, data, now);
      case Get(process, key, at) => ProcessGet(w, process, key, at);
      case GetState(key) =>
        var value := mailbox.TryState(key);
        sent := sent + [StateValue(w, key, value)];
      case ListState => sent := sent + [StateKeys(w, mailbox.index)];
    }

    /** `_process_internal_message`. */
    method ProcessInternal(w: nat, call: Call)
      requires Valid() && !crashed && w < |workers.busy|
      modifies this`sent, this`crashed, this`job, this`arrived, queue, workers, pending, mailbox
      ensures Valid() && State() == Step(cfg, old(State()), FromWorker(w, call))
    {
      ghost var c := State();
      assert Step(cfg, c, FromWorker(w, call)) == Called(cfg, c, w, call);
      if call.Finish? {
        FinishInvocation(w, call.id, call.code, call.data);
      } else if call.Invoke? {
        ProcessInvocation(w, call.process, call.fname, call.id, call.data, call.at);
      } else {
        ProcessMessage(w, call);
      }
    }

    /** One round of the loop below: the next invocation, if there is one, to an idle worker. */
    method SubmitNext() returns (more: bool)
      requires Valid() && !crashed && Inv(State().sched) && workers.idle > 0
      modifies this`crashed, this`job, this`dispatched, queue, workers
      ensures Valid() && more == (old(queue.pending) != [])
      ensures State().sched == if more then DispatchOne(old(State()).sched) else old(State()).sched
    {
      ghost var s := State().sched;
      var next := queue.Next();
      if next.None? {
        return false;
      }
      more := true;
      DispatchOneKeepsInv(s);
      var r := workers.Submit(queue, next.value);
      if r.Failure? {
        crashed := true;
      } else {
        job := job[r.value.worker := Some(r.value.key)];
        dispatched := dispatched + [r.value];
      }
    }

    /** The loop at the end of `poll`; the invariant is what finds it a worker every time. */
    method DispatchPending()
      requires Valid() && !crashed && Inv(State().sched)
      modifies this`crashed, this`job, this`dispatched, queue, workers
      ensures Valid() && State() == Step(cfg, old(State()), DispatchAll)
    {
      var more := true;
      while more && workers.idle > 0 && !crashed
        invariant Valid() && (!crashed ==> Inv(State().sched))
        invariant more || queue.pending == []
        invariant DispatchLoop(State().sched) == DispatchLoop(old(State()).sched)
        decreases |queue.pending|, more
      {
        if queue.pending != [] {
          DispatchOneKeepsInv(State().sched);
        }
        more := SubmitNext();
      }
    }

    /** A wake-up of `poll`: the messages queued by the network threads, in order, and then
        whatever can be dispatched. */
    method WakeUp(batch: seq<Event>)
      requires Valid() && !crashed && Inv(State().sched) && forall e :: e in batch ==> FromNetwork(e)
      modifies this, queue, workers, pending, mailbox
      ensures Valid() && State() == Replay(cfg, old(State()), batch + [DispatchAll])
    {
      var i := 0;
      while i < |batch|
        invariant 0 <= i <= |batch| && Valid() && !crashed && Inv(State().sched)
        invariant State() == Replay(cfg, old(State()), batch[..i])
      {
        assert batch[..i + 1][..i] == batch[..i];
        assert batch[i] in batch;
        StepOnSched(cfg, State(), batch[i]);
        StepKeepsInv(cfg, State(), batch[i]);
        ProcessExternal(batch[i]);
        i := i + 1;
      }
      assert batch[..i] == batch && (batch + [DispatchAll])[..|batch|] == batch;
      DispatchPending();
    }
  }
}
