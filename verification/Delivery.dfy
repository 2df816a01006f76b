/**
 * What the process controller must do with each request: results reach the workers that wait,
 * what is for other processes is passed on, payloads are dispatched in the order they came, and
 * a request is refused for exactly two reasons.
 */
module Delivery {
  import opened Wrappers
  import opened Bytes
  import opened Scheduler
  import opened Mailbox
  import opened ProcessController
  import Conservation

  // ------------------------------------------------------- results reach the workers

  /** How often a worker waits under a key. */
  function Waits(ws: seq<Waiter>, key: Key, w: nat): nat {
    if ws == [] then 0 else Waits(ws[..|ws| - 1], key, w) + One(ws[|ws| - 1].key == key && ws[|ws| - 1].worker == w)
  }

  function Times(sent: seq<Output>, o: Output): nat {
    if sent == [] then 0 else Times(sent[..|sent| - 1], o) + One(sent[|sent| - 1] == o)
  }

  lemma TimesOne(sent: seq<Output>, more: Output, o: Output)
    ensures Times(sent + [more], o) == Times(sent, o) + One(more == o)
  {
    assert (sent + [more])[..|sent|] == sent;
  }

  lemma {:induction false} TimesMore(sent: seq<Output>, more: seq<Output>, o: Output)
    ensures Times(sent + more, o) == Times(sent, o) + Times(more, o)
  {
    if more == [] {
      assert sent + more == sent;
    } else {
      var init := more[..|more| - 1];
      TimesMore(sent, init, o);
      Assoc(sent, init, [more[|more| - 1]]);
      assert more == init + [more[|more| - 1]];
      TimesOne(sent + init, more[|more| - 1], o);
    }
  }

  lemma WaitsOne(ws: seq<Waiter>, x: Waiter, key: Key, w: nat)
    ensures Waits(ws + [x], key, w) == Waits(ws, key, w) + One(x.key == key && x.worker == w)
  {
    assert (ws + [x])[..|ws|] == ws;
  }

  lemma {:induction false} OnlyOthersWait(ws: seq<Waiter>, id: Key, key: Key, w: nat)
    ensures Waits(NotUnder(ws, id), key, w) == if key == id then 0 else Waits(ws, key, w)
  {
    if ws != [] {
      var init, x := ws[..|ws| - 1], ws[|ws| - 1];
      OnlyOthersWait(init, id, key, w);
      if x.key != id {
        assert NotUnder(ws, id) == NotUnder(init, id) + [x];
        WaitsOne(NotUnder(init, id), x, key, w);
      } else {
        assert NotUnder(ws, id) == NotUnder(init, id);
      }
    }
  }

  /** One answer for each entry of a list of waiters. */
  lemma {:induction false} OneAnswerEach(ws: seq<Waiter>, id: Key, code: int, body: Body, w: nat)
    requires forall x :: x in ws ==> x.key == id
    ensures Times(Answers(WorkersOf(ws), id, code, body), Answer(w, id, code, body)) == Waits(ws, id, w)
    ensures |Answers(WorkersOf(ws), id, code, body)| == |ws|
  {
    if ws != [] {
      var init, x := ws[..|ws| - 1], ws[|ws| - 1];
      OneAnswerEach(init, id, code, body, w);
      OneMoreWorker(init, x, id, code, body);
      assert ws == init + [x] && x in ws;
      TimesOne(Answers(WorkersOf(init), id, code, body), Answer(x.worker, id, code, body), Answer(w, id, code, body));
    }
  }

  lemma {:induction false} UnderWaits(ws: seq<Waiter>, id: Key, w: nat)
    ensures Waits(Under(ws, id), id, w) == Waits(ws, id, w) && |Under(ws, id)| == |ws| - |NotUnder(ws, id)|
  {
    if ws != [] {
      var init, x := ws[..|ws| - 1], ws[|ws| - 1];
      UnderWaits(init, id, w);
      if x.key == id {
        assert Under(ws, id) == Under(init, id) + [x] && NotUnder(ws, id) == NotUnder(init, id);
        WaitsOne(Under(init, id), x, id, w);
      } else {
        assert Under(ws, id) == Under(init, id) && NotUnder(ws, id) == NotUnder(init, id) + [x];
      }
    }
  }

  lemma OneMoreWorker(ws: seq<Waiter>, x: Waiter, id: Key, code: int, body: Body)
    ensures Answers(WorkersOf(ws + [x]), id, code, body) ==
      Answers(WorkersOf(ws), id, code, body) + [Answer(x.worker, id, code, body)]
  {
    assert (ws + [x])[..|ws|] == ws;
    assert WorkersOf(ws + [x])[..|ws|] == WorkersOf(ws);
  }

  /** One reply over the network, and nothing else. */
  ghost predicate Replies(c: Ctl, d: Ctl, source: Source, id: Key, code: int, body: Body) {
    d.sent == c.sent + [Reply(source, id, code, body)] && d.waiters == c.waiters && d.store == c.store
  }

  /** A result went to everybody who waited under its id, once for each time they did, and to nobody
      else; they wait no more, the others still do, and nothing else was sent. */
  ghost predicate Delivers(c: Ctl, d: Ctl, id: Key, code: int, body: Body) {
    && (forall w :: Times(d.sent, Answer(w, id, code, body)) == Times(c.sent, Answer(w, id, code, body)) + Waits(c.waiters, id, w))
    && (forall key, w :: Waits(d.waiters, key, w) == if key == id then 0 else Waits(c.waiters, key, w))
    && c.sent <= d.sent && |d.sent| - |c.sent| == |c.waiters| - |d.waiters|
    && d.store == c.store
  }

  lemma ToWaitersDelivers(c: Ctl, id: Key, code: int, body: Body)
    ensures Delivers(c, ToWaiters(c, id, code, body), id, code, body)
  {
    var answers := Answers(WorkersOf(Under(c.waiters, id)), id, code, body);
    forall w ensures
      Times(c.sent + answers, Answer(w, id, code, body)) == Times(c.sent, Answer(w, id, code, body)) + Waits(c.waiters, id, w)
    {
      TimesMore(c.sent, answers, Answer(w, id, code, body));
      OneAnswerEach(Under(c.waiters, id), id, code, body, w);
      UnderWaits(c.waiters, id, w);
    }
    forall key, w ensures Waits(NotUnder(c.waiters, id), key, w) == if key == id then 0 else Waits(c.waiters, key, w) {
      OnlyOthersWait(c.waiters, id, key, w);
    }
    OneAnswerEach(Under(c.waiters, id), id, code, body, 0);
    UnderWaits(c.waiters, id, 0);
  }

  /** A result of another process is handed to every worker that waits for it. */
  lemma RemoteResultIsDelivered(cfg: Config, es: seq<Event>, id: Key, code: int, bytes: Payload)
    ensures var c, d := Run(cfg, es), Run(cfg, es + [RemoteResult(id, code, bytes)]);
      !c.sched.crashed ==> d.sched == c.sched && Delivers(c, d, id, code, Data(bytes))
  {
    var c := Run(cfg, es);
    assert (es + [RemoteResult(id, code, bytes)])[..|es|] == es;
    ToWaitersDelivers(c, id, code, Data(bytes));
  }

  /** A worker's result goes to the source its invocation was recorded with: to the workers that wait
      here, or over the network; and the worker is free again. */
  lemma WorkerResultIsDelivered(cfg: Config, es: seq<Event>, w: nat, id: Key, code: int, bytes: Payload)
    requires Obedient(cfg, es) && !Run(cfg, es).sched.crashed
    ensures var c, finish := Run(cfg, es), FromWorker(w, Finish(id, code, bytes));
      Obeys(c, finish) ==>
        var d := Run(cfg, es + [finish]);
        && id in c.sched.queue.active && id !in d.sched.queue.active && d.sched.job == c.sched.job[w := None]
        && var source := c.sched.queue.active[id].source;
           if source.IsRemote() then Replies(c, d, source, id, code, Data(bytes))
           else Delivers(c, d, id, code, Data(bytes))
  {
    var c, finish := Run(cfg, es), FromWorker(w, Finish(id, code, bytes));
    if Obeys(c, finish) {
      SchedulerStaysSound(cfg, es);
      assert (es + [finish])[..|es|] == es;
      FinishDelivers(c, w, id, code, bytes);
    }
  }

  lemma FinishDelivers(c: Ctl, w: nat, id: Key, code: int, bytes: Payload)
    requires Inv(c.sched) && w < |c.sched.job| && c.sched.job[w] == Some(id)
    ensures |c.sched.pool.busy| == |c.sched.job| && id in c.sched.queue.active
    ensures var d, source := Ended(c, w, id, code, bytes), c.sched.queue.active[id].source;
      && id !in d.sched.queue.active && d.sched.job == c.sched.job[w := None]
      && if source.IsRemote() then Replies(c, d, source, id, code, Data(bytes))
         else Delivers(c, d, id, code, Data(bytes))
  {
    var (s, done) := Complete(c.sched, w, id);
    ToWaitersDelivers(c.(sched := s), id, code, Data(bytes));
  }

  // --------------------------------------------------- what is for other processes

  predicate GoesOut(o: Output) {
    o.Request? || o.Forward?
  }

  /** What was handed to the server for other processes, in order. */
  function Outgoing(sent: seq<Output>): seq<Output> {
    if sent == [] then [] else Outgoing(sent[..|sent| - 1]) + if GoesOut(sent[|sent| - 1]) then [sent[|sent| - 1]] else []
  }

  /** What a worker asks another process for. */
  function AskedBy(cfg: Config, e: Event): seq<Output> {
    match e
    case FromWorker(_, Put(process, key, data)) =>
      if process == SELF || process == cfg.self then [] else [Forward(process, key, data)]
    case FromWorker(_, Invoke(process, fname, id, data, _)) =>
      if process == SELF || process == cfg.self then [] else [Request(process, fname, id, data)]
    case _ => []
  }

  /** A message of a worker that there is, to a controller that works. */
  predicate Handled(c: Ctl, e: Event) {
    !c.sched.crashed && (e.FromWorker? ==> e.worker < |c.sched.pool.busy| == |c.sched.job|)
  }

  /** The messages and invocations that workers gave for other processes on a run. */
  function AskedFor(cfg: Config, es: seq<Event>): seq<Output> {
    if es == [] then []
    else
      var before, e := es[..|es| - 1], es[|es| - 1];
      AskedFor(cfg, before) + if Handled(Run(cfg, before), e) then AskedBy(cfg, e) else []
  }

  lemma OutgoingOne(sent: seq<Output>, o: Output)
    ensures Outgoing(sent + [o]) == Outgoing(sent) + if GoesOut(o) then [o] else []
  {
    assert (sent + [o])[..|sent|] == sent;
  }

  lemma {:induction false} AnswersStayHere(sent: seq<Output>, ws: seq<nat>, id: Key, code: int, body: Body)
    ensures Outgoing(sent + Answers(ws, id, code, body)) == Outgoing(sent)
  {
    if ws == [] {
      assert sent + [] == sent;
    } else {
      var init, o := Answers(ws[..|ws| - 1], id, code, body), Answer(ws[|ws| - 1], id, code, body);
      AnswersStayHere(sent, ws[..|ws| - 1], id, code, body);
      OutgoingOne(sent + init, o);
      Assoc(sent, init, [o]);
    }
  }

  lemma ResolvedStays(c: Ctl, source: Source, id: Key, code: int, body: Body)
    ensures Outgoing(Resolved(c, source, id, code, body).sent) == Outgoing(c.sent)
  {
    if source.IsRemote() {
      OutgoingOne(c.sent, Reply(source, id, code, body));
    } else {
      AnswersStayHere(c.sent, WorkersOf(Under(c.waiters, id)), id, code, body);
    }
  }

  lemma RequestedStays(cfg: Config, c: Ctl, fname: string, id: Key, data: Payload, source: Source)
    ensures Outgoing(Requested(cfg, c, fname, id, data, source).sent) == Outgoing(c.sent)
  {
    var (s, refused) := Add(c.sched, cfg.functions, fname, id, data, source);
    if refused.Some? {
      ResolvedStays(c.(sched := s), source, id, -1, Diagnosis(refused.value));
    }
  }

  lemma AcceptedStays(c: Ctl, key: Key, sender: string, data: Payload)
    ensures Outgoing(Accepted(c, key, sender, data).sent) == Outgoing(c.sent)
  {
    var n := FirstTaking(c.waiters, key, sender);
    if n < |c.waiters| {
      OutgoingOne(c.sent, Deliver(c.waiters[n].worker, key, sender, data));
    } else {
      OutgoingOne(c.sent, Dropped(key, data));
    }
  }

  lemma InvokedSends(cfg: Config, c: Ctl, w: nat, process: string, fname: string, id: Key, data: Payload, at: nat)
    ensures Outgoing(Invoked(cfg, c, w, process, fname, id, data, at).sent) ==
      Outgoing(c.sent) + AskedBy(cfg, FromWorker(w, Invoke(process, fname, id, data, at)))
  {
    var d := Awaiting(cfg, c, w, process, id, at);
    if process == SELF || process == cfg.self {
      RequestedStays(cfg, d, fname, id, data, Local);
    } else {
      OutgoingOne(d.sent, Request(process, fname, id, data));
    }
  }

  lemma PutSends(cfg: Config, c: Ctl, w: nat, process: string, key: Key, data: Payload)
    requires w < |c.sched.pool.busy| == |c.sched.job|
    ensures Outgoing(Called(cfg, c, w, Put(process, key, data)).sent) ==
      Outgoing(c.sent) + AskedBy(cfg, FromWorker(w, Put(process, key, data)))
  {
    if process == SELF || process == cfg.self {
      AcceptedStays(c, key, cfg.self, data);
    } else {
      OutgoingOne(c.sent, Forward(process, key, data));
    }
  }

  lemma GotStays(cfg: Config, c: Ctl, w: nat, process: string, key: Key, at: nat)
    ensures Outgoing(Got(cfg, c, w, process, key, at).sent) == Outgoing(c.sent)
  {
    var data := TakeFrom(c.store, key, if process == SELF then cfg.self else process).1;
    if data.Some? {
      OutgoingOne(c.sent, Deliver(w, key, process, data.value));
    }
  }

  lemma CallSends(cfg: Config, c: Ctl, w: nat, call: Call)
    requires w < |c.sched.pool.busy| == |c.sched.job|
    ensures Outgoing(Called(cfg, c, w, call).sent) == Outgoing(c.sent) + AskedBy(cfg, FromWorker(w, call))
  {
    match call
    case Finish(id, code, data) =>
      var (s, done) := Complete(c.sched, w, id);
      if done.Some? {
        ResolvedStays(c.(sched := s), done.value.source, id, code, Data(data));
      }
    case Invoke(process, fname, id, data, at) => InvokedSends(cfg, c, w, process, fname, id, data, at);
    case Put(process, key, data) => PutSends(cfg, c, w, process, key, data);
    case PutState(_, _, _) =>
    case Get(process, key, at) => GotStays(cfg, c, w, process, key, at);
    case GetState(key) => OutgoingOne(c.sent, StateValue(w, key, ReadState(c.store, key)));
    case ListState => OutgoingOne(c.sent, StateKeys(w, c.store.index));
  }

  lemma StepSends(cfg: Config, c: Ctl, e: Event)
    requires Handled(c, e)
    ensures Outgoing(Step(cfg, c, e).sent) == Outgoing(c.sent) + AskedBy(cfg, e)
  {
    match e
    case RemoteInvoke(fname, id, data, source) => RequestedStays(cfg, c, fname, id, data, source);
    case RemoteResult(id, code, data) => AnswersStayHere(c.sent, WorkersOf(Under(c.waiters, id)), id, code, Data(data));
    case RemotePut(key, sender, data) => AcceptedStays(c, key, sender, data);
    case FromWorker(w, call) => CallSends(cfg, c, w, call);
    case DispatchAll =>
  }

  /** On every run, exactly the messages and invocations that workers gave for other processes are
      handed to the server, each once, in their order and with their contents. */
  lemma {:induction false} EverythingIsPassedOn(cfg: Config, es: seq<Event>)
    ensures Outgoing(Run(cfg, es).sent) == AskedFor(cfg, es)
  {
    if es != [] {
      var before, e := es[..|es| - 1], es[|es| - 1];
      EverythingIsPassedOn(cfg, before);
      if Handled(Run(cfg, before), e) {
        StepSends(cfg, Run(cfg, before), e);
      } else {
        assert AskedFor(cfg, before) + [] == AskedFor(cfg, before);
      }
    }
  }

  // ---------------------------------------------------------------- messages put here

  ghost predicate TakenBy(c: Ctl, d: Ctl, x: Waiter, key: Key, sender: string, data: Payload) {
    && x in c.waiters && x.Takes(key, sender) && multiset(c.waiters) == multiset(d.waiters) + multiset{x}
    && d.sent == c.sent + [Deliver(x.worker, key, sender, data)]
  }

  /** A message put here goes to a worker that waits for it; if nobody does it is kept under its key,
      for the next get that accepts its sender; and it is dropped exactly if the key is taken. */
  lemma PutIsDelivered(c: Ctl, key: Key, sender: string, data: Payload)
    ensures var d := Accepted(c, key, sender, data);
      var waited := exists x :: x in c.waiters && x.Takes(key, sender);
      && d.sched == c.sched
      && (waited ==> d.store == c.store && (exists x :: TakenBy(c, d, x, key, sender, data)))
      && (!waited ==> d.waiters == c.waiters)
      && (!waited && key in c.store.msgs ==> d.store == c.store && d.sent == c.sent + [Dropped(key, data)])
      && (!waited && key !in c.store.msgs ==>
            d.sent == c.sent && d.store == c.store.(msgs := c.store.msgs[key := Message(sender, data)]))
  {
    var n := FirstTaking(c.waiters, key, sender);
    if n < |c.waiters| {
      assert c.waiters[n] in c.waiters;
      TakenOut(c.waiters, n);
      assert TakenBy(c, Accepted(c, key, sender, data), c.waiters[n], key, sender, data);
    }
  }

  lemma TakenOut(ws: seq<Waiter>, n: nat)
    requires n < |ws|
    ensures multiset(ws) == multiset(Without(ws, n)) + multiset{ws[n]}
  {
    assert ws == ws[..n] + [ws[n]] + ws[n + 1..];
  }

  /** What was put while nobody waited is given to the next get of its key, exactly if that accepts its
      sender; any other get waits, under the process it resolves to. */
  lemma PutThenGetIff(cfg: Config, c: Ctl, key: Key, sender: string, data: Payload, w: nat, process: string, at: nat)
    requires key !in c.store.msgs && (forall x :: x in c.waiters ==> !x.Takes(key, sender))
    ensures var d := Got(cfg, Accepted(c, key, sender, data), w, process, key, at);
      var asked := if process == SELF then cfg.self else process;
      if asked == ANY || asked == sender then
        d.sent == c.sent + [Deliver(w, key, process, data)] && key !in d.store.msgs && d.waiters == c.waiters
      else
        d.sent == c.sent && key in d.store.msgs && d.store.msgs[key] == Message(sender, data)
        && multiset(d.waiters) == multiset(c.waiters) + multiset{Waiter(key, ForMessage, asked, w)}
  {
    NobodyTakes(c.waiters, key, sender);
    PlacedIn(c.waiters, Waiter(key, ForMessage, if process == SELF then cfg.self else process, w), at);
  }

  lemma NobodyTakes(ws: seq<Waiter>, key: Key, sender: string)
    requires forall x :: x in ws ==> !x.Takes(key, sender)
    ensures FirstTaking(ws, key, sender) == |ws|
  {
    forall i | 0 <= i < |ws| ensures !ws[i].Takes(key, sender) {
      assert ws[i] in ws;
    }
  }

  lemma PlacedIn(ws: seq<Waiter>, x: Waiter, at: nat)
    ensures multiset(Placed(ws, x, at)) == multiset(ws) + multiset{x}
  {
    if at < |ws| {
      assert ws == ws[..at] + ws[at..];
    }
  }

  // --------------------------------------------------------------------- the state's keys

  /** Listing the state answers with the keys written so far, once each in first-write order, with the
      time of the latest write. */
  lemma StateListsTheWrites(kind: Key -> Kind, cfg: Config, es: seq<Event>, w: nat)
    requires Obedient(cfg, es) && Kinded(kind, es)
    ensures var c, ask := Run(cfg, es), FromWorker(w, ListState);
      !c.sched.crashed && Obeys(c, ask) ==> Lists(c, Run(cfg, es + [ask]), w, Writes(es))
  {
    var c, ask := Run(cfg, es), FromWorker(w, ListState);
    if !c.sched.crashed && Obeys(c, ask) {
      IndexFollowsTheWrites(kind, cfg, es);
      SchedulerStaysSound(cfg, es);
      assert (es + [ask])[..|es|] == es;
      ListingState(cfg, c, w, Writes(es));
    }
  }

  lemma ListingState(cfg: Config, c: Ctl, w: nat, log: seq<Write>)
    requires IndexAgrees(c.store, log) && !c.sched.crashed && w < |c.sched.pool.busy| == |c.sched.job|
    ensures Lists(c, Step(cfg, c, FromWorker(w, ListState)), w, log)
  {
    assert Step(cfg, c, FromWorker(w, ListState)).sent[|c.sent|] == StateKeys(w, c.store.index);
  }

  /** One answer to the worker was sent, which lists a log of writes. */
  ghost predicate Lists(c: Ctl, d: Ctl, w: nat, log: seq<Write>) {
    && |d.sent| == |c.sent| + 1 && d.sent[..|c.sent|] == c.sent && d == c.(sent := d.sent)
    && d.sent[|c.sent|].StateKeys? && d.sent[|c.sent|].worker == w
    && var ks, index := WrittenKeys(log), d.sent[|c.sent|].index;
       |index| == |ks| && forall i :: 0 <= i < |ks| ==> index[i] == Stamped(ks[i], Latest(log, ks[i]).at)
  }

  // ------------------------------------------------------- requests and their payloads

  /** Why a request is refused, by what the queue and the workers hold: nothing is refused that joins
      an invocation still waiting. */
  function RefusalOf(cfg: Config, c: Ctl, fname: string, id: Key): Option<Refusal> {
    if id in c.sched.queue.pending then None
    else if fname !in cfg.functions then Some(UnknownFunction)
    else if Some(id) in c.sched.job then Some(AlreadyRunning)
    else None
  }

  lemma WaitsOrRuns(s: Sched, id: Key)
    requires Inv(s)
    ensures id in s.queue.pending <==> id in s.queue.active && !s.queue.active[id].active
    ensures Some(id) in s.job <==> id in s.queue.active && s.queue.active[id].active
  {
    if Some(id) in s.job {
      var w :| 0 <= w < |s.job| && s.job[w] == Some(id);
    }
  }

  /** What `add_payload` decides, by what waits and what runs. */
  lemma AddDecides(cfg: Config, c: Ctl, fname: string, id: Key, data: Payload, source: Source)
    requires Inv(c.sched)
    ensures var (s, refused) := Add(c.sched, cfg.functions, fname, id, data, source);
      && refused == RefusalOf(cfg, c, fname, id) && s.job == c.sched.job && s.crashed == c.sched.crashed
      && s.queue.pending == c.sched.queue.pending + (if refused.Some? || id in c.sched.queue.pending then [] else [id])
      && (refused.Some? ==> s.queue == c.sched.queue)
  {
    WaitsOrRuns(c.sched, id);
    assert c.sched.queue.pending + [] == c.sched.queue.pending;
  }

  /** A request was refused at once, with the reason and nothing else, or is in the queue: as the last,
      unless it joined the one of its id. */
  ghost predicate Decided(cfg: Config, c: Ctl, d: Ctl, fname: string, id: Key, source: Source) {
    var refusal := RefusalOf(cfg, c, fname, id);
    && d.sent == c.sent + (if refusal.Some? then [Reply(source, id, -1, Diagnosis(refusal.value))] else [])
    && d.sched.queue.pending == c.sched.queue.pending + (if refusal.Some? || id in c.sched.queue.pending then [] else [id])
    && d.waiters == c.waiters && d.store == c.store && d.sched.job == c.sched.job
  }

  lemma RequestDecides(cfg: Config, c: Ctl, fname: string, id: Key, data: Payload, source: Remote)
    requires Inv(c.sched)
    ensures Decided(cfg, c, Requested(cfg, c, fname, id, data, source), fname, id, source)
  {
    AddDecides(cfg, c, fname, id, data, source);
    assert c.sent + [] == c.sent;
  }

  /**
   * On every run of obedient workers a network request is refused exactly if its id does not wait and
   * its function is unknown or a worker runs the id.
   */
  lemma RefusedExactlyWhen(cfg: Config, es: seq<Event>, fname: string, id: Key, data: Payload, source: Remote)
    requires Obedient(cfg, es) && !Run(cfg, es).sched.crashed
    ensures Decided(cfg, Run(cfg, es), Run(cfg, es + [RemoteInvoke(fname, id, data, source)]), fname, id, source)
  {
    SchedulerStaysSound(cfg, es);
    RequestDecides(cfg, Run(cfg, es), fname, id, data, source);
    assert (es + [RemoteInvoke(fname, id, data, source)])[..|es|] == es;
  }

  /**
   * A worker's request for this process is refused for the same reasons: then it and everybody else
   * who waits under the id is told the reason. Otherwise the worker waits, and nothing is sent.
   */
  lemma CallerIsToldWhy(cfg: Config, c: Ctl, w: nat, process: string, fname: string, id: Key, data: Payload, at: nat)
    requires Inv(c.sched) && (process == SELF || process == cfg.self)
    ensures var d, refusal := Invoked(cfg, c, w, process, fname, id, data, at), RefusalOf(cfg, c, fname, id);
      var asked := c.(waiters := Placed(c.waiters, Waiter(id, ForResult(true), "", w), at));
      && multiset(asked.waiters) == multiset(c.waiters) + multiset{Waiter(id, ForResult(true), "", w)}
      && (refusal.Some? ==> Delivers(asked, d, id, -1, Diagnosis(refusal.value)) && d.sched.queue == c.sched.queue)
      && (refusal.None? ==> d.sent == c.sent && d.waiters == asked.waiters && id in d.sched.queue.pending)
  {
    var asked := Awaiting(cfg, c, w, process, id, at);
    var refusal := RefusalOf(cfg, c, fname, id);
    AddDecides(cfg, asked, fname, id, data, Local);
    PlacedIn(c.waiters, Waiter(id, ForResult(true), "", w), at);
    if refusal.Some? {
      var s := Add(c.sched, cfg.functions, fname, id, data, Local).0;
      ToWaitersDelivers(asked.(sched := s), id, -1, Diagnosis(refusal.value));
    }
  }

  /** The payload that a request to run `id` here brings, if it is not refused. */
  function Brought(cfg: Config, c: Ctl, e: Event, id: Key): seq<Payload> {
    match e
    case RemoteInvoke(fname, k, data, _) => if k == id && RefusalOf(cfg, c, fname, k).None? then [data] else []
    case FromWorker(_, Invoke(process, fname, k, data, _)) =>
      if k == id && IsSelf(cfg, process) && RefusalOf(cfg, c, fname, k).None? then [data] else []
    case _ => []
  }

  /** All payloads brought for an id on a run, in order. */
  function AllBrought(cfg: Config, es: seq<Event>, id: Key): seq<Payload> {
    if es == [] then []
    else AllBrought(cfg, es[..|es| - 1], id) + Brought(cfg, Run(cfg, es[..|es| - 1]), es[|es| - 1], id)
  }

  /** The payloads given to workers for an id, and those that wait. */
  function Given(ds: seq<Dispatch>, id: Key): seq<Payload> {
    if ds == [] then [] else Given(ds[..|ds| - 1], id) + if ds[|ds| - 1].key == id then ds[|ds| - 1].parts else []
  }

  function Held(q: Queue, id: Key): seq<Payload> {
    if id in q.active && !q.active[id].active then q.active[id].payload else []
  }

  lemma GivenOne(ds: seq<Dispatch>, x: Dispatch, id: Key)
    ensures Given(ds + [x], id) == Given(ds, id) + if x.key == id then x.parts else []
  {
    assert (ds + [x])[..|ds|] == ds;
  }

  lemma SubmittedHolds(s: Sched, w: nat, key: Key, i: Invocation, id: Key)
    requires s.queue.pending != [] && w < |s.pool.busy| && w < |s.job|
    ensures Held(Submitted(s, w, key, i).queue, id) == if key == id then [] else Held(s.queue, id)
    ensures Given(Submitted(s, w, key, i).dispatched, id) == Given(s.dispatched, id) + if key == id then i.payload else []
  {
    GivenOne(s.dispatched, Dispatch(w, key, i.fname, i.payload), id);
  }

  lemma DispatchIsSubmitted(s: Sched) returns (w: nat, key: Key)
    requires Inv(s) && s.queue.pending != [] && s.pool.idle > 0 && !DispatchOne(s).crashed
    ensures w < |s.pool.busy| && w < |s.job| && key in s.queue.active && !s.queue.active[key].active
    ensures DispatchOne(s) == Submitted(s, w, key, s.queue.active[key])
  {
    DispatchOneKeepsInv(s);
    w, key := FirstIdle(s.pool.busy), s.queue.pending[0];
    assert key in s.queue.pending;
  }

  lemma DispatchMoves(s: Sched, id: Key)
    requires Inv(s) && s.queue.pending != [] && s.pool.idle > 0 && !DispatchOne(s).crashed
    ensures var t := DispatchOne(s); Given(t.dispatched, id) + Held(t.queue, id) == Given(s.dispatched, id) + Held(s.queue, id)
  {
    var w, key := DispatchIsSubmitted(s);
    SubmittedHolds(s, w, key, s.queue.active[key], id);
    var moved, left := if key == id then s.queue.active[key].payload else [], if key == id then [] else Held(s.queue, id);
    Assoc(Given(s.dispatched, id), moved, left);
  }

  lemma {:induction false} LoopMoves(s: Sched, id: Key)
    requires Inv(s) && !DispatchLoop(s).crashed
    ensures var t := DispatchLoop(s); Given(t.dispatched, id) + Held(t.queue, id) == Given(s.dispatched, id) + Held(s.queue, id)
    decreases |s.queue.pending|
  {
    if !s.crashed && s.pool.idle > 0 && s.queue.pending != [] {
      DispatchOneKeepsInv(s);
      StaysCrashed(DispatchOne(s));
      DispatchMoves(s, id);
      LoopMoves(DispatchOne(s), id);
    }
  }

  lemma StaysCrashed(s: Sched)
    ensures s.crashed ==> DispatchLoop(s).crashed
  {
  }

  lemma AddBrings(cfg: Config, c: Ctl, fname: string, k: Key, data: Payload, source: Source, id: Key)
    requires Inv(c.sched)
    ensures Held(Add(c.sched, cfg.functions, fname, k, data, source).0.queue, id) ==
      Held(c.sched.queue, id) + if k == id && RefusalOf(cfg, c, fname, k).None? then [data] else []
  {
    WaitsOrRuns(c.sched, k);
    assert Held(c.sched.queue, id) + [] == Held(c.sched.queue, id);
  }

  lemma CompleteHolds(s: Sched, w: nat, k: Key, id: Key)
    requires w < |s.pool.busy| == |s.job|
    ensures Held(Complete(s, w, k).0.queue, id) == Held(s.queue, id)
  {
  }

  lemma StepMoves(cfg: Config, c: Ctl, e: Event, id: Key)
    requires Inv(c.sched) && Obeys(c, e) && !c.sched.crashed && !Step(cfg, c, e).sched.crashed
    ensures var d := Step(cfg, c, e);
      Given(d.sched.dispatched, id) + Held(d.sched.queue, id) ==
        Given(c.sched.dispatched, id) + Held(c.sched.queue, id) + Brought(cfg, c, e, id)
  {
    var given, held := Given(c.sched.dispatched, id), Held(c.sched.queue, id);
    StepOnSched(cfg, c, e);
    assert given + held + [] == given + held;
    Assoc(given, held, Brought(cfg, c, e, id));
    match e
    case RemoteInvoke(fname, k, data, source) => AddBrings(cfg, c, fname, k, data, source, id);
    case FromWorker(w, Finish(k, _, _)) => CompleteHolds(c.sched, w, k, id);
    case FromWorker(w, Invoke(process, fname, k, data, _)) =>
      if IsSelf(cfg, process) {
        AddBrings(cfg, c, fname, k, data, Local, id);
      }
    case DispatchAll => LoopMoves(c.sched, id);
    case _ =>
  }

  /**
   * Every payload of a request that is not refused is given to a worker once, in the order in which
   * they came under an id, or still waits: on every run, whatever is merged.
   */
  lemma {:induction false} PayloadsAreGivenInOrder(cfg: Config, es: seq<Event>, id: Key)
    requires Obedient(cfg, es) && !Run(cfg, es).sched.crashed
    ensures var c := Run(cfg, es);
      Given(c.sched.dispatched, id) + Held(c.sched.queue, id) == AllBrought(cfg, es, id)
  {
    if es != [] {
      var before := es[..|es| - 1];
      PayloadsAreGivenInOrder(cfg, before, id);
      SchedulerStaysSound(cfg, before);
      StepMoves(cfg, Run(cfg, before), es[|es| - 1], id);
    }
  }
}
