/** The states of a process in the control plane. */
module ProcessStatus {
  datatype Status = Allocating | Allocated | SwappedOut | SwappingOut | SwappingIn | Closed | Failed
}

/**
 * A process as the control plane keeps it: the ledger of invocations that clients wait for, and
 * the callback that reports the outcome of its creation.
 */
module PlaneProcess {
  import opened Wrappers
  import opened Bytes
  import opened ProcessStatus
  import Frames

  /** What a client asked for; its ticket is its place in the order of requests. */
  datatype Given = Given(id: seq<byte>, fname: seq<byte>, body: seq<byte>)

  datatype Invocation = Invocation(ticket: nat, given: Given, submitted: bool)

  datatype Sent = Sent(ticket: nat, frame: Frames.Frame)

  datatype Answer = Answer(ticket: nat, id: seq<byte>, code: int, result: seq<byte>)

  datatype Outcome = Ready | Refused

  /**
   * `handle` is the instance the backend returned, with the outcome its `connect` reports.
   * The rest is history: the requests, what was sent and answered, whether the process ever
   * registered, and the calls of the creation callback.
   */
  datatype Proc = Proc(
    status: Status, connected: bool, invocations: seq<Invocation>, active: int,
    handle: Option<Outcome>, callback: bool, wait: bool,
    given: seq<Given>, sent: seq<Sent>, answered: seq<Answer>, registered: bool, fired: seq<Outcome>)

  function Created(wait: bool): Proc {
    Proc(Allocating, false, [], 0, None, true, wait, [], [], [], false, [])
  }

  datatype Event =
    | Add(given: Given)
    | Connect
    | Result(id: seq<byte>, code: int, result: seq<byte>)
    | BackendReady(outcome: Outcome)
    | BackendFailed
    | Become(status: Status)   // set by the application: swapping, swapped out, failed
    | Close

  // ----------------------------------------------------------------- the handlers

  /** The first 16 characters of the id's text. */
  function Prefix(id: seq<byte>): (r: seq<byte>)
    ensures |r| <= 16
  {
    if |id| <= 16 then id else id[..16]
  }

  function RequestFor(g: Given): Frames.Frame {
    Frames.Invoke(Prefix(g.id), g.fname, g.body)
  }

  /** The one setter that can refuse what a client gives. */
  predicate NameFits(g: Given) {
    |g.fname| <= 32
  }

  /** `_send_invocation`; nothing is sent or marked when the name throws. */
  function SendOne(p: Proc, i: nat): (Proc, bool)
    requires i < |p.invocations|
  {
    var v := p.invocations[i];
    if !NameFits(v.given) then (p, false)
    else (p.(invocations := p.invocations[i := v.(submitted := true)], sent := p.sent + [Sent(v.ticket, RequestFor(v.given))]), true)
  }

  function SendFrom(p: Proc, i: nat): (Proc, bool)
    requires i <= |p.invocations|
    decreases |p.invocations| - i
  {
    if i == |p.invocations| then (p, true)
    else if p.invocations[i].submitted then SendFrom(p, i + 1)
    else
      var (q, ok) := SendOne(p, i);
      if ok then SendFrom(q, i + 1) else (p, false)
  }

  /** `created_callback`. */
  function Report(p: Proc, failed: bool): Proc {
    if !p.callback then p
    else if failed then p.(fired := p.fired + [Refused], callback := false)
    else if p.handle.None? || (p.wait && p.status != Allocated) then p
    else p.(fired := p.fired + [p.handle.value], callback := false)
  }

  function Appended(p: Proc, g: Given): Proc {
    p.(invocations := p.invocations + [Invocation(|p.given|, g, false)], given := p.given + [g], active := p.active + 1)
  }

  function Added(p: Proc, g: Given): Proc {
    var q := Appended(p, g);
    if p.status == Allocated then SendOne(q, |p.invocations|).0 else q
  }

  function Connected(p: Proc): Proc {
    if p.status != Allocating then p
    else
      var (q, ok) := SendFrom(p.(connected := true, status := Allocated, registered := true), 0);
      if ok then Report(q, false) else q
  }

  function FirstWith(vs: seq<Invocation>, id: seq<byte>): (n: nat)
    ensures n <= |vs| && forall i :: 0 <= i < n ==> Prefix(vs[i].given.id) != id
    ensures n < |vs| ==> Prefix(vs[n].given.id) == id
  {
    if vs == [] || Prefix(vs[0].given.id) == id then 0 else 1 + FirstWith(vs[1..], id)
  }

  function Finished(p: Proc, id: seq<byte>, code: int, result: seq<byte>): Proc {
    var n := FirstWith(p.invocations, id);
    if n == |p.invocations| then p else Taken(p, n, id, code, result)
  }

  function Taken(p: Proc, n: nat, id: seq<byte>, code: int, result: seq<byte>): Proc
    requires n < |p.invocations|
  {
    p.(invocations := p.invocations[..n] + p.invocations[n + 1..], active := p.active - 1,
       answered := p.answered + [Answer(p.invocations[n].ticket, id, code, result)])
  }

  function Step(p: Proc, e: Event): Proc {
    match e
    case Add(g) => Added(p, g)
    case Connect => Connected(p)
    case Result(id, code, result) => Finished(p, id, code, result)
    case BackendReady(outcome) => Report(p.(handle := Some(outcome)), false)
    case BackendFailed => Report(p, true)
    case Become(status) => if status in {SwappingOut, SwappedOut, Failed} then p.(status := status) else p
    case Close => p.(status := Closed, connected := false)
  }

  function Run(wait: bool, es: seq<Event>): Proc {
    if es == [] then Created(wait) else Step(Run(wait, es[..|es| - 1]), es[|es| - 1])
  }

  // ---------------------------------------------------------------- the ledger

  function Open(vs: seq<Invocation>, t: nat): nat {
    if vs == [] then 0 else Open(vs[..|vs| - 1], t) + One(vs[|vs| - 1].ticket == t)
  }

  function Answers(ans: seq<Answer>, t: nat): nat {
    if ans == [] then 0 else Answers(ans[..|ans| - 1], t) + One(ans[|ans| - 1].ticket == t)
  }

  ghost predicate FromGiven(vs: seq<Invocation>, given: seq<Given>) {
    && (forall i :: 0 <= i < |vs| ==> vs[i].ticket < |given| && vs[i].given == given[vs[i].ticket])
    && (forall i, j :: 0 <= i < j < |vs| ==> vs[i].ticket < vs[j].ticket)
  }

  ghost predicate AnswersGiven(ans: seq<Answer>, given: seq<Given>) {
    forall i :: 0 <= i < |ans| ==> ans[i].ticket < |given| && ans[i].id == Prefix(given[ans[i].ticket].id)
  }

  /** The counter is right, and nobody waits or was answered without having asked. */
  ghost predicate LedgerSound(p: Proc) {
    && p.active == |p.invocations|
    && |p.given| == |p.answered| + |p.invocations|
    && FromGiven(p.invocations, p.given)
    && AnswersGiven(p.answered, p.given)
  }

  /** Each ticket is open once or answered once. */
  ghost predicate TicketOnce(p: Proc, t: nat) {
    Open(p.invocations, t) + Answers(p.answered, t) == One(t < |p.given|)
  }

  /** Each request is sent at most once, in the order of the tickets, as its client gave it. */
  ghost predicate SentInOrder(sent: seq<Sent>, given: seq<Given>) {
    && (forall i :: 0 <= i < |sent| ==> sent[i].ticket < |given| && sent[i].frame == RequestFor(given[sent[i].ticket]))
    && (forall i, j :: 0 <= i < j < |sent| ==> sent[i].ticket < sent[j].ticket)
  }

  lemma {:induction false} OpenMore(a: seq<Invocation>, b: seq<Invocation>, t: nat)
    ensures Open(a + b, t) == Open(a, t) + Open(b, t)
  {
    if b == [] {
      assert a + b == a;
    } else {
      assert (a + b)[..|a + b| - 1] == a + b[..|b| - 1];
      OpenMore(a, b[..|b| - 1], t);
    }
  }

  lemma OpenWithout(vs: seq<Invocation>, n: nat, t: nat)
    requires n < |vs|
    ensures Open(vs, t) == Open(vs[..n] + vs[n + 1..], t) + One(vs[n].ticket == t)
  {
    assert vs == (vs[..n] + [vs[n]]) + vs[n + 1..];
    OpenMore(vs[..n] + [vs[n]], vs[n + 1..], t);
    OpenMore(vs[..n], [vs[n]], t);
    OpenMore(vs[..n], vs[n + 1..], t);
  }

  /** Marking invocations as submitted changes nothing the ledger counts. */
  ghost predicate SameLedger(p: Proc, q: Proc) {
    && |p.invocations| == |q.invocations| && p.active == q.active && p.given == q.given && p.answered == q.answered
    && forall i :: 0 <= i < |p.invocations| ==>
         p.invocations[i].ticket == q.invocations[i].ticket && p.invocations[i].given == q.invocations[i].given
  }

  lemma {:induction false} SameOpen(vs: seq<Invocation>, ws: seq<Invocation>, t: nat)
    requires |vs| == |ws| && forall i :: 0 <= i < |vs| ==> vs[i].ticket == ws[i].ticket
    ensures Open(vs, t) == Open(ws, t)
  {
    if vs != [] {
      SameOpen(vs[..|vs| - 1], ws[..|ws| - 1], t);
    }
  }

  lemma {:induction false} SendingKeepsLedger(p: Proc, i: nat)
    requires i <= |p.invocations|
    ensures SameLedger(p, SendFrom(p, i).0)
    decreases |p.invocations| - i
  {
    if i < |p.invocations| {
      if p.invocations[i].submitted {
        SendingKeepsLedger(p, i + 1);
      } else if SendOne(p, i).1 {
        SendingKeepsLedger(SendOne(p, i).0, i + 1);
      }
    }
  }

  lemma SameIsSound(p: Proc, q: Proc, t: nat)
    requires SameLedger(p, q) && LedgerSound(p) && TicketOnce(p, t)
    ensures LedgerSound(q) && TicketOnce(q, t)
  {
    SameOpen(p.invocations, q.invocations, t);
  }

  lemma AppendKeepsLedger(p: Proc, g: Given, t: nat)
    requires LedgerSound(p)
    ensures LedgerSound(Appended(p, g)) && (TicketOnce(p, t) ==> TicketOnce(Appended(p, g), t))
  {
    assert Appended(p, g).invocations[..|p.invocations|] == p.invocations;
    GivenMore(p.answered, p.given, g);
  }

  lemma AddKeepsLedger(p: Proc, g: Given, t: nat)
    requires LedgerSound(p) && TicketOnce(p, t)
    ensures LedgerSound(Added(p, g)) && TicketOnce(Added(p, g), t)
  {
    AppendKeepsLedger(p, g, t);
    if p.status == Allocated {
      MarkingKeepsLedger(Appended(p, g), |p.invocations|);
      SameIsSound(Appended(p, g), Added(p, g), t);
    }
  }

  lemma MarkingKeepsLedger(p: Proc, i: nat)
    requires i < |p.invocations|
    ensures SameLedger(p, SendOne(p, i).0)
  {
  }

  lemma GivenMore(ans: seq<Answer>, given: seq<Given>, g: Given)
    requires AnswersGiven(ans, given)
    ensures AnswersGiven(ans, given + [g])
  {
  }

  lemma DroppedFromGiven(vs: seq<Invocation>, given: seq<Given>, n: nat)
    requires n < |vs| && FromGiven(vs, given)
    ensures FromGiven(vs[..n] + vs[n + 1..], given)
  {
    var rest := vs[..n] + vs[n + 1..];
    assert forall i :: 0 <= i < |rest| ==> rest[i] == if i < n then vs[i] else vs[i + 1];
  }

  lemma FinishKeepsLedger(p: Proc, id: seq<byte>, code: int, result: seq<byte>, t: nat)
    requires LedgerSound(p) && TicketOnce(p, t)
    ensures LedgerSound(Finished(p, id, code, result)) && TicketOnce(Finished(p, id, code, result), t)
  {
    var n := FirstWith(p.invocations, id);
    if n < |p.invocations| {
      TakingIsSound(p, n, id, code, result);
      TakingKeepsTicket(p, n, id, code, result, t);
    }
  }

  lemma TakingKeepsTicket(p: Proc, n: nat, id: seq<byte>, code: int, result: seq<byte>, t: nat)
    requires n < |p.invocations| && TicketOnce(p, t)
    ensures TicketOnce(Taken(p, n, id, code, result), t)
  {
    OpenWithout(p.invocations, n, t);
    AnswerOneMore(p.answered, Answer(p.invocations[n].ticket, id, code, result), t);
  }

  lemma AnswerOneMore(ans: seq<Answer>, a: Answer, t: nat)
    ensures Answers(ans + [a], t) == Answers(ans, t) + One(a.ticket == t)
  {
    assert (ans + [a])[..|ans|] == ans;
  }

  lemma TakingIsSound(p: Proc, n: nat, id: seq<byte>, code: int, result: seq<byte>)
    requires LedgerSound(p) && n < |p.invocations| && id == Prefix(p.invocations[n].given.id)
    ensures LedgerSound(Taken(p, n, id, code, result))
  {
    DroppedFromGiven(p.invocations, p.given, n);
    AnswersMore(p.answered, Answer(p.invocations[n].ticket, id, code, result), p.given);
  }

  lemma AnswersMore(ans: seq<Answer>, a: Answer, given: seq<Given>)
    requires AnswersGiven(ans, given) && a.ticket < |given| && a.id == Prefix(given[a.ticket].id)
    ensures AnswersGiven(ans + [a], given)
  {
  }

  lemma StepKeepsLedger(p: Proc, e: Event, t: nat)
    requires LedgerSound(p) && TicketOnce(p, t)
    ensures LedgerSound(Step(p, e)) && TicketOnce(Step(p, e), t)
  {
    match e
    case Add(g) => AddKeepsLedger(p, g, t);
    case Connect => ConnectKeepsLedger(p, t);
    case Result(id, code, result) => FinishKeepsLedger(p, id, code, result, t);
    case _ => OthersKeepLedger(p, e, t);
  }

  lemma OthersKeepLedger(p: Proc, e: Event, t: nat)
    requires LedgerSound(p) && TicketOnce(p, t) && !e.Add? && !e.Connect? && !e.Result?
    ensures LedgerSound(Step(p, e)) && TicketOnce(Step(p, e), t)
  {
    SameIsSound(p, Step(p, e), t);
  }

  lemma ConnectKeepsLedger(p: Proc, t: nat)
    requires LedgerSound(p) && TicketOnce(p, t)
    ensures LedgerSound(Connected(p)) && TicketOnce(Connected(p), t)
  {
    if p.status == Allocating {
      var q := p.(connected := true, status := Allocated, registered := true);
      SendingKeepsLedger(q, 0);
      SameIsSound(q, SendFrom(q, 0).0, t);
    }
  }

  /**
   * The ledger, on every run: `_active_invocations` counts the invocations in the list, and
   * every request is in the list or was answered, exactly once, by a result that names it.
   */
  lemma {:induction false} EveryRequestIsOpenOrAnswered(wait: bool, es: seq<Event>, t: nat)
    ensures LedgerSound(Run(wait, es)) && TicketOnce(Run(wait, es), t)
  {
    if es != [] {
      EveryRequestIsOpenOrAnswered(wait, es[..|es| - 1], t);
      StepKeepsLedger(Run(wait, es[..|es| - 1]), es[|es| - 1], t);
    }
  }

  // ------------------------------------------------------------------- sending

  /** Everything sent belongs to tickets before those from `i` on. */
  ghost predicate SentBefore(p: Proc, i: nat) {
    forall k, j :: 0 <= k < |p.sent| && i <= j < |p.invocations| ==> p.sent[k].ticket < p.invocations[j].ticket
  }

  lemma SentOneMore(sent: seq<Sent>, given: seq<Given>, x: Sent)
    requires SentInOrder(sent, given) && x.ticket < |given| && x.frame == RequestFor(given[x.ticket])
    requires forall k :: 0 <= k < |sent| ==> sent[k].ticket < x.ticket
    ensures SentInOrder(sent + [x], given)
  {
  }

  lemma MarkingKeepsGiven(vs: seq<Invocation>, given: seq<Given>, i: nat)
    requires i < |vs| && FromGiven(vs, given)
    ensures FromGiven(vs[i := vs[i].(submitted := true)], given)
  {
  }

  lemma NextIsLater(p: Proc, i: nat)
    requires i < |p.invocations| && FromGiven(p.invocations, p.given) && SentBefore(p, i)
    ensures SentBefore(SendOne(p, i).0, i + 1)
    ensures forall k :: 0 <= k < |p.sent| ==> p.sent[k].ticket < p.invocations[i].ticket
  {
  }

  lemma SendOneIsSound(p: Proc, i: nat)
    requires i < |p.invocations| && FromGiven(p.invocations, p.given)
    requires SentInOrder(p.sent, p.given) && SentBefore(p, i)
    ensures var q := SendOne(p, i).0;
      SentInOrder(q.sent, p.given) && FromGiven(q.invocations, p.given) && SentBefore(q, i + 1)
  {
    var v := p.invocations[i];
    NextIsLater(p, i);
    SentOneMore(p.sent, p.given, Sent(v.ticket, RequestFor(v.given)));
    MarkingKeepsGiven(p.invocations, p.given, i);
  }

  /** The loop of `send_invocations`: every invocation in its turn, once. */
  lemma {:induction false} SendFromIsSound(p: Proc, i: nat)
    requires i <= |p.invocations| && FromGiven(p.invocations, p.given) && SentInOrder(p.sent, p.given)
    requires SentBefore(p, i)
    ensures var q := SendFrom(p, i).0;
      SentInOrder(q.sent, p.given) && q.status == p.status && q.connected == p.connected && q.registered == p.registered
    decreases |p.invocations| - i
  {
    if i < |p.invocations| {
      if p.invocations[i].submitted {
        SendFromIsSound(p, i + 1);
      } else if SendOne(p, i).1 {
        SendOneIsSound(p, i);
        SendFromIsSound(SendOne(p, i).0, i + 1);
      }
    }
  }

  predicate Sendable(vs: seq<Invocation>, i: nat) {
    forall j :: i <= j < |vs| ==> vs[j].submitted || NameFits(vs[j].given)
  }

  predicate Marked(vs: seq<Invocation>, i: nat) {
    forall j :: i <= j < |vs| ==> vs[j].submitted
  }

  /** The loop gets to the end exactly when no name behind `i` throws, and then all are sent. */
  lemma {:induction false} SendFromMarks(p: Proc, i: nat)
    requires i <= |p.invocations|
    ensures SendFrom(p, i).1 <==> Sendable(p.invocations, i)
    ensures SendFrom(p, i).1 ==> Marked(SendFrom(p, i).0.invocations, i)
    decreases |p.invocations| - i
  {
    if i < |p.invocations| {
      if p.invocations[i].submitted {
        SendFromMarks(p, i + 1);
        MarkedBefore(p, i + 1, i);
      } else if SendOne(p, i).1 {
        var q := SendOne(p, i).0;
        SendFromMarks(q, i + 1);
        MarkedBefore(q, i + 1, i);
        assert forall j :: i < j < |p.invocations| ==> q.invocations[j] == p.invocations[j];
      }
    }
  }

  /** The loop does not touch what is behind it. */
  lemma {:induction false} MarkedBefore(p: Proc, i: nat, j: nat)
    requires j < i <= |p.invocations|
    ensures j < |SendFrom(p, i).0.invocations| && SendFrom(p, i).0.invocations[j] == p.invocations[j]
    decreases |p.invocations| - i
  {
    if i < |p.invocations| {
      if p.invocations[i].submitted {
        MarkedBefore(p, i + 1, j);
      } else if SendOne(p, i).1 {
        MarkedBefore(SendOne(p, i).0, i + 1, j);
      }
    }
  }

  /** What holds about sending in every state. */
  ghost predicate SendsSound(p: Proc) {
    && SentInOrder(p.sent, p.given)
    && (p.status == Allocating ==> p.sent == [])
    && (p.status == Allocated ==> p.connected)
  }

  lemma SentMore(sent: seq<Sent>, given: seq<Given>, g: Given)
    requires SentInOrder(sent, given)
    ensures SentInOrder(sent, given + [g])
  {
  }

  lemma AddSends(p: Proc, g: Given)
    requires LedgerSound(p) && SendsSound(p)
    ensures SendsSound(Added(p, g))
  {
    AppendKeepsLedger(p, g, 0);
    SentMore(p.sent, p.given, g);
    if p.status == Allocated {
      SendOneIsSound(Appended(p, g), |p.invocations|);
    }
  }

  lemma ConnectSends(p: Proc)
    requires LedgerSound(p) && SendsSound(p)
    ensures SendsSound(Connected(p))
  {
    if p.status == Allocating {
      var q := p.(connected := true, status := Allocated, registered := true);
      SendingKeepsLedger(q, 0);
      SendFromIsSound(q, 0);
    }
  }

  lemma StepSends(p: Proc, e: Event)
    requires LedgerSound(p) && SendsSound(p)
    ensures SendsSound(Step(p, e))
  {
    match e
    case Add(g) => AddSends(p, g);
    case Connect => ConnectSends(p);
    case _ =>
  }

  /** On every run each request is sent at most once, in the order in which the clients came,
      with what its client gave; nothing is sent before the process registers; and the
      connection is there whenever something can be sent. */
  lemma {:induction false} RequestsAreSentInOrder(wait: bool, es: seq<Event>)
    ensures SendsSound(Run(wait, es))
  {
    if es != [] {
      RequestsAreSentInOrder(wait, es[..|es| - 1]);
      EveryRequestIsOpenOrAnswered(wait, es[..|es| - 1], 0);
      StepSends(Run(wait, es[..|es| - 1]), es[|es| - 1]);
    }
  }

  predicate NamesFit(es: seq<Event>) {
    forall e :: e in es && e.Add? ==> NameFits(e.given)
  }

  predicate GivenFit(vs: seq<Invocation>) {
    forall i :: 0 <= i < |vs| ==> NameFits(vs[i].given)
  }

  /** While a process is allocated, a request that arrives stays unsent exactly when its
      function name is too long. */
  lemma UnsentExactlyWhen(p: Proc, g: Given)
    requires p.status == Allocated && Marked(p.invocations, 0)
    ensures Marked(Added(p, g).invocations, 0) <==> NameFits(g)
  {
    var q := Added(p, g);
    assert !NameFits(g) ==> !q.invocations[|p.invocations|].submitted;
  }

  /** Registration sends everything that waited, exactly when all names fit. */
  lemma ConnectSendsAllIff(p: Proc)
    requires p.status == Allocating && !Marked(p.invocations, 0)
    ensures Marked(Connected(p).invocations, 0) <==> Sendable(p.invocations, 0)
  {
    var q := p.(connected := true, status := Allocated, registered := true);
    SendFromMarks(q, 0);
    if !SendFrom(q, 0).1 {
      UnsentStays(q, 0);
    }
  }

  lemma {:induction false} UnsentStays(p: Proc, i: nat)
    requires i <= |p.invocations| && !SendFrom(p, i).1
    ensures !Marked(SendFrom(p, i).0.invocations, 0)
    decreases |p.invocations| - i
  {
    if p.invocations[i].submitted {
      UnsentStays(p, i + 1);
    } else if SendOne(p, i).1 {
      UnsentStays(SendOne(p, i).0, i + 1);
    } else {
      assert !p.invocations[i].submitted;
    }
  }

  ghost predicate NothingUnsent(p: Proc) {
    && GivenFit(p.invocations)
    && (p.status == Allocated ==> Marked(p.invocations, 0))
  }

  lemma {:induction false} SendingKeepsFit(p: Proc, i: nat)
    requires i <= |p.invocations| && GivenFit(p.invocations)
    ensures GivenFit(SendFrom(p, i).0.invocations) && SendFrom(p, i).1
  {
    SendingKeepsLedger(p, i);
    SendFromMarks(p, i);
    var q := SendFrom(p, i).0;
    assert forall j :: 0 <= j < |q.invocations| ==> q.invocations[j].given == p.invocations[j].given;
  }

  lemma StepLeavesNothingUnsent(p: Proc, e: Event)
    requires NothingUnsent(p) && (e.Add? ==> NameFits(e.given))
    ensures NothingUnsent(Step(p, e))
  {
    match e
    case Add(g) => AddLeavesNothingUnsent(p, g);
    case Connect =>
      if p.status == Allocating {
        var q := p.(connected := true, status := Allocated, registered := true);
        SendingKeepsFit(q, 0);
        SendFromMarks(q, 0);
      }
    case Result(id, code, result) => FinishLeavesNothingUnsent(p, id, code, result);
    case _ =>
  }

  lemma AddLeavesNothingUnsent(p: Proc, g: Given)
    requires NothingUnsent(p) && NameFits(g)
    ensures NothingUnsent(Added(p, g))
  {
  }

  lemma FinishLeavesNothingUnsent(p: Proc, id: seq<byte>, code: int, result: seq<byte>)
    requires NothingUnsent(p)
    ensures NothingUnsent(Finished(p, id, code, result))
  {
  }

  /** If all function names fit their field, an allocated process has no invocation that was not
      sent to it. */
  lemma {:induction false} AllocatedMeansSubmitted(wait: bool, es: seq<Event>)
    requires NamesFit(es)
    ensures NothingUnsent(Run(wait, es))
  {
    if es != [] {
      assert es[|es| - 1] in es;
      AllocatedMeansSubmitted(wait, es[..|es| - 1]);
      StepLeavesNothingUnsent(Run(wait, es[..|es| - 1]), es[|es| - 1]);
    }
  }

  function SentTickets(sent: seq<Sent>): set<nat> {
    if sent == [] then {} else SentTickets(sent[..|sent| - 1]) + {sent[|sent| - 1].ticket}
  }

  lemma {:induction false} SentTicketIsSent(sent: seq<Sent>, t: nat) returns (k: nat)
    requires t in SentTickets(sent)
    ensures k < |sent| && sent[k].ticket == t
  {
    k := |sent| - 1;
    if sent[k].ticket != t {
      k := SentTicketIsSent(sent[..k], t);
    }
  }

  lemma SentTicketsMore(sent: seq<Sent>, x: Sent)
    ensures SentTickets(sent + [x]) == SentTickets(sent) + {x.ticket}
  {
    assert (sent + [x])[..|sent|] == sent;
  }

  /** The marks tell the truth: exactly the invocations marked are among the tickets. */
  ghost predicate MarksTrue(vs: seq<Invocation>, tickets: set<nat>) {
    forall i :: 0 <= i < |vs| ==> (vs[i].submitted <==> vs[i].ticket in tickets)
  }

  lemma MarkOne(vs: seq<Invocation>, given: seq<Given>, tickets: set<nat>, i: nat)
    requires i < |vs| && FromGiven(vs, given) && MarksTrue(vs, tickets)
    ensures MarksTrue(vs[i := vs[i].(submitted := true)], tickets + {vs[i].ticket})
  {
    assert forall j :: 0 <= j < |vs| && j != i ==> vs[j].ticket != vs[i].ticket;
  }

  lemma SendOneMarksTrue(p: Proc, i: nat)
    requires i < |p.invocations| && FromGiven(p.invocations, p.given) && MarksTrue(p.invocations, SentTickets(p.sent))
    ensures var q := SendOne(p, i).0;
      FromGiven(q.invocations, q.given) && MarksTrue(q.invocations, SentTickets(q.sent))
  {
    var v := p.invocations[i];
    MarkingKeepsGiven(p.invocations, p.given, i);
    MarkOne(p.invocations, p.given, SentTickets(p.sent), i);
    SentTicketsMore(p.sent, Sent(v.ticket, RequestFor(v.given)));
  }

  lemma {:induction false} SendFromMarksTrue(p: Proc, i: nat)
    requires i <= |p.invocations| && FromGiven(p.invocations, p.given) && MarksTrue(p.invocations, SentTickets(p.sent))
    ensures MarksTrue(SendFrom(p, i).0.invocations, SentTickets(SendFrom(p, i).0.sent))
    decreases |p.invocations| - i
  {
    if i < |p.invocations| {
      if p.invocations[i].submitted {
        SendFromMarksTrue(p, i + 1);
      } else if SendOne(p, i).1 {
        SendOneMarksTrue(p, i);
        SendFromMarksTrue(SendOne(p, i).0, i + 1);
      }
    }
  }

  lemma SentAreGiven(sent: seq<Sent>, given: seq<Given>)
    requires SentInOrder(sent, given)
    ensures forall t :: t in SentTickets(sent) ==> t < |given|
  {
    forall t | t in SentTickets(sent) ensures t < |given| {
      var k := SentTicketIsSent(sent, t);
    }
  }

  lemma AddMarksTrue(p: Proc, g: Given)
    requires LedgerSound(p) && SendsSound(p) && MarksTrue(p.invocations, SentTickets(p.sent))
    ensures MarksTrue(Added(p, g).invocations, SentTickets(Added(p, g).sent))
  {
    AppendKeepsLedger(p, g, 0);
    SentAreGiven(p.sent, p.given);
    if p.status == Allocated {
      SendOneMarksTrue(Appended(p, g), |p.invocations|);
    }
  }

  lemma StepMarksTrue(p: Proc, e: Event)
    requires LedgerSound(p) && SendsSound(p) && MarksTrue(p.invocations, SentTickets(p.sent))
    ensures MarksTrue(Step(p, e).invocations, SentTickets(Step(p, e).sent))
  {
    match e
    case Add(g) => AddMarksTrue(p, g);
    case Connect =>
      if p.status == Allocating {
        SendFromMarksTrue(p.(connected := true, status := Allocated, registered := true), 0);
      }
    case Result(id, code, result) => FinishMarksTrue(p, id, code, result);
    case _ =>
  }

  lemma FinishMarksTrue(p: Proc, id: seq<byte>, code: int, result: seq<byte>)
    requires MarksTrue(p.invocations, SentTickets(p.sent))
    ensures MarksTrue(Finished(p, id, code, result).invocations, SentTickets(p.sent))
  {
  }

  /** On every run an open invocation is marked as submitted exactly when it was sent. */
  lemma {:induction false} MarksAreTrue(wait: bool, es: seq<Event>)
    ensures MarksTrue(Run(wait, es).invocations, SentTickets(Run(wait, es).sent))
  {
    if es != [] {
      var before := es[..|es| - 1];
      MarksAreTrue(wait, before);
      EveryRequestIsOpenOrAnswered(wait, before, 0);
      RequestsAreSentInOrder(wait, before);
      StepMarksTrue(Run(wait, before), es[|es| - 1]);
    }
  }

  /** With different 16-character prefixes a result answers the request it names. */
  lemma ResultsFindTheirRequest(p: Proc, i: nat, code: int, result: seq<byte>)
    requires LedgerSound(p) && i < |p.invocations|
    requires forall j :: 0 <= j < i ==> Prefix(p.invocations[j].given.id) != Prefix(p.invocations[i].given.id)
    ensures var id := Prefix(p.invocations[i].given.id);
      Finished(p, id, code, result).answered == p.answered + [Answer(p.invocations[i].ticket, id, code, result)]
  {
    assert FirstWith(p.invocations, Prefix(p.invocations[i].given.id)) == i;
  }

  // --------------------------------------------------------- the creation callback

  /** The callback is there until it is called, and is called with success only when the backend
      has answered and, if so wished, the process has registered. */
  ghost predicate CallbackSound(p: Proc) {
    && (p.callback <==> p.fired == []) && |p.fired| <= 1
    && (Ready in p.fired ==> p.handle.Some? && (p.wait ==> p.registered))
    && (p.status == Allocated ==> p.registered)
    && (p.status == Allocating ==> !p.registered)
  }

  lemma {:induction false} SendingKeepsCallback(p: Proc, i: nat)
    requires i <= |p.invocations|
    ensures var q := SendFrom(p, i).0;
      && q.fired == p.fired && q.callback == p.callback && q.wait == p.wait && q.handle == p.handle
      && q.registered == p.registered && q.status == p.status
    decreases |p.invocations| - i
  {
    if i < |p.invocations| {
      if p.invocations[i].submitted {
        SendingKeepsCallback(p, i + 1);
      } else if SendOne(p, i).1 {
        SendingKeepsCallback(SendOne(p, i).0, i + 1);
      }
    }
  }

  lemma StepKeepsCallback(p: Proc, e: Event)
    requires CallbackSound(p)
    ensures CallbackSound(Step(p, e)) && Step(p, e).wait == p.wait
  {
    if e.Connect? && p.status == Allocating {
      SendingKeepsCallback(p.(connected := true, status := Allocated, registered := true), 0);
    }
  }

  /** In every order of events the creation callback is called at most once, and with success
      only if the backend has answered and, where waiting was asked for, the process registered. */
  lemma {:induction false} CreationReportedAtMostOnce(wait: bool, es: seq<Event>)
    ensures CallbackSound(Run(wait, es)) && Run(wait, es).wait == wait
  {
    if es != [] {
      CreationReportedAtMostOnce(wait, es[..|es| - 1]);
      StepKeepsCallback(Run(wait, es[..|es| - 1]), es[|es| - 1]);
    }
  }

  /** The application leaves a process alone between its registration and the backend's answer. */
  predicate Undisturbed(p: Proc, e: Event) {
    e.Become? || e.Close? ==> !p.registered || p.handle.Some? || !p.wait
  }

  predicate AllUndisturbed(wait: bool, es: seq<Event>) {
    es != [] ==> AllUndisturbed(wait, es[..|es| - 1]) && Undisturbed(Run(wait, es[..|es| - 1]), es[|es| - 1])
  }

  /** A process that registered and got its instance has reported; one that only registered is
      still allocated if the report waits for it. */
  ghost predicate Reported(p: Proc) {
    && (p.registered && p.handle.Some? ==> !p.callback)
    && (p.registered && p.handle.None? && p.wait ==> p.status == Allocated)
  }

  lemma StepReports(p: Proc, e: Event)
    requires CallbackSound(p) && NothingUnsent(p) && Reported(p) && Undisturbed(p, e)
    ensures Reported(Step(p, e))
  {
    if e.Connect? && p.status == Allocating {
      var q := p.(connected := true, status := Allocated, registered := true);
      SendingKeepsCallback(q, 0);
      SendingKeepsFit(q, 0);
    }
  }

  /** Once the backend has answered and the process has registered, in either order, the
      creation callback has been called exactly once. */
  lemma {:induction false} CreationReportedOnce(wait: bool, es: seq<Event>)
    requires NamesFit(es) && AllUndisturbed(wait, es)
    ensures Reported(Run(wait, es))
    ensures Run(wait, es).registered && Run(wait, es).handle.Some? ==> |Run(wait, es).fired| == 1
  {
    if es != [] {
      var before := es[..|es| - 1];
      assert forall e :: e in before ==> e in es;
      CreationReportedOnce(wait, before);
      CreationReportedAtMostOnce(wait, before);
      AllocatedMeansSubmitted(wait, before);
      StepReports(Run(wait, before), es[|es| - 1]);
    }
    CreationReportedAtMostOnce(wait, es);
  }

  /** The events at which the outcome of the creation is known: the backend has failed, or it has
      answered and, where waiting was asked for, the process is allocated; or a process registers that
      the backend has answered for, and what waits can be sent. */
  predicate Decides(p: Proc, e: Event) {
    p.callback && (
      || e.BackendFailed?
      || (e.BackendReady? && (p.wait ==> p.status == Allocated))
      || (e.Connect? && p.status == Allocating && p.handle.Some? && Sendable(p.invocations, 0)))
  }

  function Decision(p: Proc, e: Event): Outcome
    requires Decides(p, e)
  {
    if e.BackendFailed? then Refused else if e.BackendReady? then e.outcome else p.handle.value
  }

  lemma ReportsExactlyThen(p: Proc, e: Event)
    ensures Step(p, e).fired == if Decides(p, e) then p.fired + [Decision(p, e)] else p.fired
  {
    if e.Connect? && p.status == Allocating {
      var q := p.(connected := true, status := Allocated, registered := true);
      SendingKeepsCallback(q, 0);
      SendFromMarks(q, 0);
    }
  }

  /** The instance is the one the backend returned last. */
  function Returned(es: seq<Event>): Option<Outcome> {
    if es == [] then None
    else if es[|es| - 1].BackendReady? then Some(es[|es| - 1].outcome)
    else Returned(es[..|es| - 1])
  }

  lemma StepHandles(p: Proc, e: Event)
    ensures Step(p, e).handle == if e.BackendReady? then Some(e.outcome) else p.handle
  {
    if e.Connect? && p.status == Allocating {
      SendingKeepsCallback(p.(connected := true, status := Allocated, registered := true), 0);
    }
  }

  lemma {:induction false} HandleIsReturned(wait: bool, es: seq<Event>)
    ensures Run(wait, es).handle == Returned(es)
  {
    if es != [] {
      HandleIsReturned(wait, es[..|es| - 1]);
      StepHandles(Run(wait, es[..|es| - 1]), es[|es| - 1]);
    }
  }

  /**
   * On every run the creation is reported at the first event that decides it, and with its outcome:
   * the refusal of a backend that failed, else what the instance said that the backend returned.
   */
  lemma {:induction false} ReportedAtTheDecision(wait: bool, es: seq<Event>, n: nat)
    requires n < |es|
    ensures var p := Run(wait, es[..n]);
      Decides(p, es[n]) ==>
        && Run(wait, es).fired == [Decision(p, es[n])]
        && (es[n].Connect? ==> Some(Decision(p, es[n])) == Returned(es[..n]))
    decreases |es|
  {
    var before := es[..|es| - 1];
    CreationReportedAtMostOnce(wait, before);
    ReportsExactlyThen(Run(wait, before), es[|es| - 1]);
    HandleIsReturned(wait, es[..n]);
    if n < |es| - 1 {
      assert before[..n] == es[..n] && before[n] == es[n];
      ReportedAtTheDecision(wait, before, n);
    }
  }

  /** Nothing is reported before. */
  lemma {:induction false} NothingReportedBefore(wait: bool, es: seq<Event>)
    requires forall n :: 0 <= n < |es| ==> !Decides(Run(wait, es[..n]), es[n])
    ensures Run(wait, es).fired == [] && Run(wait, es).callback
  {
    if es != [] {
      var before := es[..|es| - 1];
      forall n | 0 <= n < |before| ensures !Decides(Run(wait, before[..n]), before[n]) {
        assert before[..n] == es[..n];
      }
      NothingReportedBefore(wait, before);
      ReportsExactlyThen(Run(wait, before), es[|es| - 1]);
      CreationReportedAtMostOnce(wait, es);
    }
  }

  lemma {:induction false} ReportStays(wait: bool, es: seq<Event>, n: nat)
    requires n <= |es| && Run(wait, es[..n]).fired != []
    ensures Run(wait, es).fired == Run(wait, es[..n]).fired
    decreases |es|
  {
    if n == |es| {
      assert es[..n] == es;
    } else {
      var before := es[..|es| - 1];
      assert before[..n] == es[..n];
      ReportStays(wait, before, n);
      CreationReportedAtMostOnce(wait, before);
      ReportsExactlyThen(Run(wait, before), es[|es| - 1]);
    }
  }

  /** A failed allocation is always reported: on every run with one the callback has been called
      exactly once, and with the refusal unless it had been called before. */
  lemma FailureIsReported(wait: bool, es: seq<Event>, n: nat)
    requires n < |es| && es[n] == BackendFailed
    ensures |Run(wait, es).fired| == 1
    ensures Run(wait, es[..n]).fired == [] ==> Run(wait, es).fired == [Refused]
  {
    CreationReportedAtMostOnce(wait, es[..n]);
    if Run(wait, es[..n]).fired == [] {
      ReportedAtTheDecision(wait, es, n);
    } else {
      ReportStays(wait, es, n);
    }
  }

  /** When the backend's answer comes second, it is reported exactly if the process is still
      allocated, or nobody asked to wait for that: a swap in between loses the report. */
  lemma ReportLostExactlyWhen(p: Proc, outcome: Outcome)
    requires CallbackSound(p) && p.callback && p.registered
    ensures |Step(p, BackendReady(outcome)).fired| == 1 <==> p.status == Allocated || !p.wait
  {
  }

  // ---------------------------------------------------------------- the object

  class Process {
    var status: Status
    var connected: bool
    var invocations: seq<Invocation>
    var active: int
    var handle: Option<Outcome>
    var callback: bool
    const wait: bool
    var sent: seq<Sent>
    var answered: seq<Answer>
    var fired: seq<Outcome>
    ghost var given: seq<Given>
    ghost var registered: bool
    /** The ticket of the next request. */
    var next: nat

    ghost predicate Valid()
      reads this
    {
      next == |given| && (status == Allocated ==> connected)
    }

    ghost function State(): Proc
      reads this
    {
      Proc(status, connected, invocations, active, handle, callback, wait, given, sent, answered, registered, fired)
    }

    constructor (wait: bool)
      ensures Valid() && State() == Created(wait)
    {
      this.wait := wait;
      status, connected, invocations, active := Allocating, false, [], 0;
      handle, callback := None, true;
      given, sent, answered, registered, fired := [], [], [], false, [];
      next := 0;
    }

    /** `_send_invocation`: builds the header, writes it and the body, and marks the entry. */
    method SendInvocation(i: nat) returns (ok: bool)
      requires Valid() && connected && i < |invocations|
      modifies this`invocations, this`sent
      ensures Valid() && (State(), ok) == SendOne(old(State()), i)
    {
      var v := invocations[i];
      if |v.given.fname| > 32 {
        return false;
      }
      var id := if |v.given.id| <= 16 then v.given.id else v.given.id[..16];
      sent := sent + [Sent(v.ticket, Frames.Invoke(id, v.given.fname, v.given.body))];
      invocations := invocations[i := v.(submitted := true)];
      return true;
    }

    /** `add_invocation`. */
    method AddInvocation(g: Given) returns (ok: bool)
      requires Valid()
      modifies this`invocations, this`active, this`sent, this`given, this`next
      ensures Valid() && State() == Step(old(State()), Add(g))
      ensures ok <==> status != Allocated || NameFits(g)
    {
      invocations := invocations + [Invocation(next, g, false)];
      given, next := given + [g], next + 1;
      active := active + 1;
      ok := true;
      if status == Allocated {
        ok := SendInvocation(|invocations| - 1);
      }
    }

    /** `send_invocations`: an exception leaves the rest unsent. */
    method SendInvocations() returns (ok: bool)
      requires Valid() && connected
      modifies this`invocations, this`sent
      ensures Valid() && (State(), ok) == SendFrom(old(State()), 0)
    {
      var i := 0;
      ok := true;
      while i < |invocations|
        invariant 0 <= i <= |invocations| && ok && Valid()
        invariant SendFrom(State(), i) == SendFrom(old(State()), 0)
      {
        if !invocations[i].submitted {
          ok := SendInvocation(i);
          if !ok {
            return;
          }
        }
        i := i + 1;
      }
    }

    /** `connect`: only for a process that is being allocated. */
    method Register() returns (r: Result<()>)
      requires Valid()
      modifies this
      ensures Valid() && State() == Step(old(State()), Connect)
      ensures r.Success? <==> old(status) == Allocating && Sendable(old(invocations), 0)
      ensures r.Failure? ==> r.error == if old(status) == Allocating then InvalidArgument else InvalidProcessState
    {
      if status != Allocating {
        return Wrappers.Failure(InvalidProcessState);
      }
      connected, status, registered := true, Allocated, true;
      SendFromMarks(State(), 0);
      var ok := SendInvocations();
      if !ok {
        return Wrappers.Failure(InvalidArgument);
      }
      CreatedCallback(false);
      return Wrappers.Success(());
    }

    /** `created_callback`, with an instance whose `connect` calls back at once. */
    method CreatedCallback(failed: bool)
      requires Valid()
      modifies this`fired, this`callback
      ensures Valid() && State() == Report(old(State()), failed)
    {
      if !callback {
        return;
      }
      if failed {
        fired, callback := fired + [Refused], false;
        return;
      }
      if handle.None? || (wait && status != Allocated) {
        return;
      }
      fired, callback := fired + [handle.value], false;
    }

    /** The search of `finish_invocation`. */
    method Find(id: seq<byte>) returns (i: nat)
      ensures i == FirstWith(invocations, id)
    {
      i := 0;
      while i < |invocations| && Prefix(invocations[i].given.id) != id
        invariant 0 <= i <= |invocations|
        invariant FirstWith(invocations, id) == i + FirstWith(invocations[i..], id)
      {
        assert invocations[i..][1..] == invocations[i + 1..];
        i := i + 1;
      }
    }

    /** `finish_invocation`: searches, answers the client and erases the entry. */
    method FinishInvocation(id: seq<byte>, code: int, result: seq<byte>)
      requires Valid()
      modifies this`invocations, this`active, this`answered
      ensures Valid() && State() == Step(old(State()), Result(id, code, result))
    {
      var i := Find(id);
      if i < |invocations| {
        active := active - 1;
        answered := answered + [Answer(invocations[i].ticket, id, code, result)];
        invocations := invocations[..i] + invocations[i + 1..];
        assert State() == Taken(old(State()), i, id, code, result);
      }
    }

    method BackendAnswered(outcome: Option<Outcome>)
      requires Valid()
      modifies this`handle, this`fired, this`callback
      ensures Valid() && State() == Step(old(State()), if outcome.Some? then BackendReady(outcome.value) else Event.BackendFailed)
    {
      if outcome.Some? {
        handle := outcome;
      }
      CreatedCallback(outcome.None?);
    }

    method CloseConnection()
      requires Valid()
      modifies this`status, this`connected
      ensures Valid() && State() == Step(old(State()), Close)
    {
      status, connected := Closed, false;
    }
  }
}
