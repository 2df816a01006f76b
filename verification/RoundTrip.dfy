/**
 * A client's request all the way: from the control plane's ledger over the wire into the process
 * controller, through any run of it, and back to the client as the answer to its own request.
 */
module RoundTrip {
  import opened Wrappers
  import opened Bytes
  import opened ProcessStatus
  import opened Strings
  import Framing
  import Frames
  import S = Scheduler
  import C = ProcessController
  import Conservation
  import Provenance
  import Plane = PlaneProcess
  import opened RequestCycle

  // ------------------------------------------------------ into the controller

  function CallOf(f: Frame): seq<C.Event> {
    match f
    case Invoke(id, fname, payload) => [C.RemoteInvoke(Text(fname), Text(id), payload, S.ControlPlane)]
    case _ => []
  }

  /** What `controlplane_message` is called with for the frames decoded. */
  function Calls(fs: seq<Frame>): seq<C.Event> {
    if fs == [] then [] else Calls(fs[..|fs| - 1]) + CallOf(fs[|fs| - 1])
  }

  predicate FromControlPlane(e: C.Event) {
    e.RemoteInvoke? && e.source == S.ControlPlane
  }

  /** The events of a run that come from the control plane. */
  function PlaneCalls(es: seq<C.Event>): seq<C.Event> {
    if es == [] then [] else PlaneCalls(es[..|es| - 1]) + if FromControlPlane(es[|es| - 1]) then [es[|es| - 1]] else []
  }

  /** How many requests of the control plane there are under an id. */
  function Asked(es: seq<C.Event>, id: S.Key): nat {
    if es == [] then 0 else Asked(es[..|es| - 1], id) + One(FromControlPlane(es[|es| - 1]) && es[|es| - 1].id == id)
  }

  lemma AskedOnce(es: seq<C.Event>, e: C.Event, id: S.Key)
    ensures Asked(es + [e], id) == Asked(es, id) + One(FromControlPlane(e) && e.id == id)
  {
    assert (es + [e])[..|es|] == es;
  }

  lemma {:induction false} AskedOfCalls(es: seq<C.Event>, id: S.Key)
    ensures Asked(PlaneCalls(es), id) == Asked(es, id)
  {
    if es != [] {
      AskedOfCalls(es[..|es| - 1], id);
      AskedOnce(PlaneCalls(es[..|es| - 1]), es[|es| - 1], id);
      assert PlaneCalls(es[..|es| - 1]) + [] == PlaneCalls(es[..|es| - 1]);
    }
  }

  lemma OneOwed(cfg: C.Config, e: C.Event, id: S.Key)
    ensures Conservation.Owes(cfg, e)[Conservation.RemoteResultFor(S.ControlPlane, id)] == One(FromControlPlane(e) && e.id == id)
  {
  }

  lemma {:induction false} OwedIsAsked(cfg: C.Config, es: seq<C.Event>, id: S.Key)
    ensures Conservation.Owed(cfg, es, Conservation.RemoteResultFor(S.ControlPlane, id)) == Asked(es, id)
  {
    if es != [] {
      OwedIsAsked(cfg, es[..|es| - 1], id);
      OneOwed(cfg, es[|es| - 1], id);
    }
  }

  lemma {:induction false} AskedPrefix(es: seq<C.Event>, n: nat, id: S.Key)
    requires n <= |es|
    ensures Asked(es[..n], id) <= Asked(es, id)
    decreases |es|
  {
    if n < |es| {
      assert es[..|es| - 1][..n] == es[..n];
      AskedPrefix(es[..|es| - 1], n, id);
    } else {
      assert es[..n] == es;
    }
  }

  /** The id under which the controller knows a ticket. */
  function IdOf(g: Plane.Given): S.Key {
    Text(Plane.Prefix(g.id))
  }

  lemma SameIdSameTicket(given: seq<Plane.Given>, t: nat, u: nat)
    requires DifferentIds(given) && t < |given| && u < |given| && IdOf(given[t]) == IdOf(given[u])
    ensures t == u
  {
    RawOfText(Plane.Prefix(given[t].id));
    RawOfText(Plane.Prefix(given[u].id));
  }

  lemma SameTicketIff(given: seq<Plane.Given>, t: nat, u: nat)
    requires DifferentIds(given) && t < |given| && u < |given|
    ensures IdOf(given[t]) == IdOf(given[u]) <==> t == u
  {
    if IdOf(given[t]) == IdOf(given[u]) {
      SameIdSameTicket(given, t, u);
    }
  }

  function CallFor(g: Plane.Given): C.Event {
    C.RemoteInvoke(Text(g.fname), IdOf(g), g.body, S.ControlPlane)
  }

  lemma OneCall(g: Plane.Given)
    ensures CallOf(Plane.RequestFor(g)) == [CallFor(g)]
  {
  }

  lemma CallsAre(sent: seq<Plane.Sent>)
    requires sent != []
    ensures Calls(FramesOf(sent)) == Calls(FramesOf(sent[..|sent| - 1])) + CallOf(sent[|sent| - 1].frame)
  {
    assert FramesOf(sent)[..|sent| - 1] == FramesOf(sent[..|sent| - 1]);
  }

  lemma SentPrefix(sent: seq<Plane.Sent>, given: seq<Plane.Given>)
    requires Plane.SentInOrder(sent, given) && sent != []
    ensures Plane.SentInOrder(sent[..|sent| - 1], given)
  {
  }

  lemma AskedMore(sent: seq<Plane.Sent>, g: Plane.Given, id: S.Key)
    requires sent != [] && sent[|sent| - 1].frame == Plane.RequestFor(g)
    ensures Asked(Calls(FramesOf(sent)), id) == Asked(Calls(FramesOf(sent[..|sent| - 1])), id) + One(IdOf(g) == id)
  {
    CallsAre(sent);
    OneCall(g);
    AskedOnce(Calls(FramesOf(sent[..|sent| - 1])), CallFor(g), id);
  }

  lemma LastIsGiven(sent: seq<Plane.Sent>, given: seq<Plane.Given>)
    requires Plane.SentInOrder(sent, given) && sent != []
    ensures var x := sent[|sent| - 1]; x.ticket < |given| && x.frame == Plane.RequestFor(given[x.ticket])
  {
  }

  /** The last request on the wire is asked for once more. */
  lemma AskedLast(sent: seq<Plane.Sent>, given: seq<Plane.Given>, id: S.Key)
    requires Plane.SentInOrder(sent, given) && sent != []
    ensures sent[|sent| - 1].ticket < |given|
    ensures Asked(Calls(FramesOf(sent)), id) ==
      Asked(Calls(FramesOf(sent[..|sent| - 1])), id) + One(IdOf(given[sent[|sent| - 1].ticket]) == id)
  {
    LastIsGiven(sent, given);
    AskedMore(sent, given[sent[|sent| - 1].ticket], id);
  }

  /** Each ticket is asked for as often as it was sent: at most once. */
  lemma {:induction false} AskedIsSent(sent: seq<Plane.Sent>, given: seq<Plane.Given>, t: nat)
    requires Plane.SentInOrder(sent, given) && DifferentIds(given) && t < |given|
    ensures Asked(Calls(FramesOf(sent)), IdOf(given[t])) == One(t in Plane.SentTickets(sent))
  {
    if sent != [] {
      AskedLast(sent, given, IdOf(given[t]));
      SentPrefix(sent, given);
      AskedIsSent(sent[..|sent| - 1], given, t);
      NotSentBefore(sent, given);
      SameTicketIff(given, sent[|sent| - 1].ticket, t);
    }
  }

  lemma NotSentBefore(sent: seq<Plane.Sent>, given: seq<Plane.Given>)
    requires Plane.SentInOrder(sent, given) && sent != []
    ensures sent[|sent| - 1].ticket !in Plane.SentTickets(sent[..|sent| - 1])
  {
    var init, u := sent[..|sent| - 1], sent[|sent| - 1].ticket;
    forall v | v in Plane.SentTickets(init) ensures v < u {
      var k := Plane.SentTicketIsSent(init, v);
    }
  }

  lemma {:induction false} WhoAsked(sent: seq<Plane.Sent>, given: seq<Plane.Given>, id: S.Key) returns (t: nat)
    requires Plane.SentInOrder(sent, given) && Asked(Calls(FramesOf(sent)), id) > 0
    ensures t < |given| && IdOf(given[t]) == id
  {
    AskedLast(sent, given, id);
    t := sent[|sent| - 1].ticket;
    if IdOf(given[t]) != id {
      SentPrefix(sent, given);
      t := WhoAsked(sent[..|sent| - 1], given, id);
    }
  }

  // ---------------------------------------------------- out of the controller

  /** The text of an error reply. */
  type Explain = S.Refusal -> seq<byte>

  function Carried(explain: Explain, body: C.Body): seq<byte> {
    match body
    case Data(bytes) => bytes
    case Diagnosis(reason) => explain(reason)
  }

  predicate ToControlPlane(o: C.Output) {
    o.Reply? && o.source == S.ControlPlane
  }

  /** The frames that `invocation_result` writes to the control plane. */
  function ResultsUp(explain: Explain, sent: seq<C.Output>): seq<Frame> {
    if sent == [] then []
    else
      var o := sent[|sent| - 1];
      ResultsUp(explain, sent[..|sent| - 1])
        + if ToControlPlane(o) then [Frames.Result(Raw(o.id), Wrap32(o.code), Carried(explain, o.body))] else []
  }

  function TicketFor(given: seq<Plane.Given>, id: S.Key): (t: nat)
    ensures t <= |given| && (t < |given| ==> IdOf(given[t]) == id)
    ensures forall u :: 0 <= u < t ==> IdOf(given[u]) != id
  {
    if given == [] || IdOf(given[0]) == id then 0 else 1 + TicketFor(given[1..], id)
  }

  function ReplyFor(explain: Explain, given: seq<Plane.Given>, o: C.Output): Reply
    requires ToControlPlane(o)
  {
    Reply(TicketFor(given, o.id), Wrap32(o.code), Carried(explain, o.body))
  }

  /** The same as results for tickets. */
  function RepliesOf(explain: Explain, given: seq<Plane.Given>, sent: seq<C.Output>): seq<Reply> {
    if sent == [] then []
    else
      var o := sent[|sent| - 1];
      RepliesOf(explain, given, sent[..|sent| - 1])
        + if ToControlPlane(o) then [ReplyFor(explain, given, o)] else []
  }

  predicate Known(given: seq<Plane.Given>, o: C.Output) {
    ToControlPlane(o) ==> TicketFor(given, o.id) < |given|
  }

  ghost predicate AllKnown(given: seq<Plane.Given>, sent: seq<C.Output>) {
    forall o :: o in sent ==> Known(given, o)
  }

  /** The replies fit an `int32_t` length. */
  ghost predicate Short(explain: Explain, sent: seq<C.Output>) {
    forall o :: o in sent && ToControlPlane(o) ==> |Carried(explain, o.body)| < 0x8000_0000
  }

  lemma OneReplyFrame(explain: Explain, given: seq<Plane.Given>, o: C.Output)
    requires ToControlPlane(o) && Known(given, o)
    ensures ReplyFrame(given, ReplyFor(explain, given, o))
      == Frames.Result(Raw(o.id), Wrap32(o.code), Carried(explain, o.body))
  {
    RawOfText(Plane.Prefix(given[TicketFor(given, o.id)].id));
  }

  lemma {:induction false} FramesAreReplies(explain: Explain, given: seq<Plane.Given>, sent: seq<C.Output>)
    requires AllKnown(given, sent) && Short(explain, sent)
    ensures ForTickets(RepliesOf(explain, given, sent), given)
    ensures ResultsUp(explain, sent) == ReplyFrames(given, RepliesOf(explain, given, sent))
  {
    if sent != [] {
      var init, o := sent[..|sent| - 1], sent[|sent| - 1];
      FramesAreReplies(explain, given, init);
      assert o in sent && Known(given, o);
      if ToControlPlane(o) {
        OneReplyFrame(explain, given, o);
        ReplyFramesMore(given, RepliesOf(explain, given, init), ReplyFor(explain, given, o));
      }
    }
  }

  lemma ReplyFramesMore(given: seq<Plane.Given>, rs: seq<Reply>, r: Reply)
    requires ForTickets(rs, given) && r.ticket < |given| && |r.bytes| < 0x8000_0000
    ensures ForTickets(rs + [r], given)
    ensures ReplyFrames(given, rs + [r]) == ReplyFrames(given, rs) + [ReplyFrame(given, r)]
  {
    assert ForTickets(rs + [r], given);
  }

  // --------------------------------------------------------- counting answers

  function For(rs: seq<Reply>, t: nat): nat {
    if rs == [] then 0 else For(rs[..|rs| - 1], t) + One(rs[|rs| - 1].ticket == t)
  }

  lemma ForMore(rs: seq<Reply>, r: Reply, t: nat)
    ensures For(rs + [r], t) == For(rs, t) + One(r.ticket == t)
  {
    assert (rs + [r])[..|rs|] == rs;
  }

  function DebtFor(g: Plane.Given): Conservation.Debt {
    Conservation.RemoteResultFor(S.ControlPlane, IdOf(g))
  }

  /** A ticket's replies are what the controller has settled of its debt. */
  lemma {:induction false} RepliesSettle(explain: Explain, given: seq<Plane.Given>, sent: seq<C.Output>, t: nat)
    requires AllKnown(given, sent) && DifferentIds(given) && t < |given|
    ensures For(RepliesOf(explain, given, sent), t) == Conservation.Settled(sent, DebtFor(given[t]))
  {
    if sent != [] {
      var init, o := sent[..|sent| - 1], sent[|sent| - 1];
      RepliesSettle(explain, given, init, t);
      assert o in sent && Known(given, o);
      if ToControlPlane(o) {
        ForMore(RepliesOf(explain, given, init), ReplyFor(explain, given, o), t);
        SettlesItsTicket(given, o, t);
      } else {
        OthersSettleOthers(o, IdOf(given[t]));
        assert RepliesOf(explain, given, init) + [] == RepliesOf(explain, given, init);
      }
    }
  }

  lemma OthersSettleOthers(o: C.Output, id: S.Key)
    requires !ToControlPlane(o)
    ensures Conservation.Settles(o)[Conservation.RemoteResultFor(S.ControlPlane, id)] == 0
  {
  }

  lemma SettlesItsTicket(given: seq<Plane.Given>, o: C.Output, t: nat)
    requires ToControlPlane(o) && Known(given, o) && DifferentIds(given) && t < |given|
    ensures Conservation.Settles(o)[DebtFor(given[t])] == One(TicketFor(given, o.id) == t)
  {
    if IdOf(given[t]) == o.id {
      SameIdSameTicket(given, TicketFor(given, o.id), t);
    }
  }

  lemma {:induction false} SettledIfSent(sent: seq<C.Output>, o: C.Output)
    requires o in sent && ToControlPlane(o)
    ensures Conservation.Settled(sent, Conservation.RemoteResultFor(S.ControlPlane, o.id)) > 0
  {
    if o in sent[..|sent| - 1] {
      SettledIfSent(sent[..|sent| - 1], o);
    }
  }

  lemma {:induction false} TwoCount(rs: seq<Reply>, k: nat, l: nat)
    requires k < l < |rs| && rs[k].ticket == rs[l].ticket
    ensures For(rs, rs[k].ticket) >= 2
  {
    if l < |rs| - 1 {
      TwoCount(rs[..|rs| - 1], k, l);
    } else {
      OneCounts(rs[..l], k);
    }
  }

  lemma {:induction false} OneCounts(rs: seq<Reply>, k: nat)
    requires k < |rs|
    ensures For(rs, rs[k].ticket) >= 1
  {
    if k < |rs| - 1 {
      OneCounts(rs[..|rs| - 1], k);
    }
  }

  lemma {:induction false} AnswersAreReplies(ans: seq<Plane.Answer>, rs: seq<Reply>, t: nat)
    requires |ans| == |rs| && forall i :: 0 <= i < |ans| ==> ans[i].ticket == rs[i].ticket
    ensures Plane.Answers(ans, t) == For(rs, t)
  {
    if ans != [] {
      AnswersAreReplies(ans[..|ans| - 1], rs[..|rs| - 1], t);
    }
  }

  lemma {:induction false} OpenIsThere(vs: seq<Plane.Invocation>, t: nat)
    requires Plane.Open(vs, t) > 0
    ensures IsOpen(vs, t)
  {
    if vs[|vs| - 1].ticket != t {
      OpenIsThere(vs[..|vs| - 1], t);
    }
  }

  // --------------------------------------------------------------- the round

  /** A run of the controller that keeps to the assumptions of Conservation. */
  ghost predicate Regular(cfg: C.Config, kind: S.Key -> C.Kind, ces: seq<C.Event>) {
    C.Obedient(cfg, ces) && C.Kinded(kind, ces) && C.Unmerged(cfg, ces)
  }

  /** The requests of the control plane that the controller has handled are the first ones it
      decoded; everything else may come in between. */
  ghost predicate HandledSome(ces: seq<C.Event>, decoded: seq<Frame>) {
    PlaneCalls(ces) <= Calls(decoded)
  }

  lemma AskedAtMostOnce(p: Plane.Proc, ces: seq<C.Event>, id: S.Key)
    requires HandledSome(ces, FramesOf(p.sent))
    ensures Asked(ces, id) <= Asked(Calls(FramesOf(p.sent)), id)
  {
    var all, n := Calls(FramesOf(p.sent)), |PlaneCalls(ces)|;
    assert PlaneCalls(ces) == all[..n];
    AskedOfCalls(ces, id);
    AskedPrefix(all, n, id);
  }

  /** The controller pays what it owes the control plane at most once. */
  lemma PaidAtMost(cfg: C.Config, kind: S.Key -> C.Kind, ces: seq<C.Event>, id: S.Key)
    requires Regular(cfg, kind, ces)
    ensures Conservation.Settled(C.Run(cfg, ces).sent, Conservation.RemoteResultFor(S.ControlPlane, id)) <= Asked(ces, id)
  {
    Conservation.EveryRequestOnce(kind, cfg, ces, Conservation.RemoteResultFor(S.ControlPlane, id));
    OwedIsAsked(cfg, ces, id);
  }

  lemma RepliesAreKnown(p: Plane.Proc, cfg: C.Config, kind: S.Key -> C.Kind, ces: seq<C.Event>)
    requires Plane.SentInOrder(p.sent, p.given) && Regular(cfg, kind, ces) && HandledSome(ces, FramesOf(p.sent))
    ensures AllKnown(p.given, C.Run(cfg, ces).sent)
  {
    var sent := C.Run(cfg, ces).sent;
    forall o | o in sent ensures Known(p.given, o) {
      if ToControlPlane(o) {
        SettledIfSent(sent, o);
        PaidAtMost(cfg, kind, ces, o.id);
        AskedAtMostOnce(p, ces, o.id);
        var t := WhoAsked(p.sent, p.given, o.id);
      }
    }
  }

  /** Each reply is for another ticket, and all of them are open. */
  lemma RepliesAnswerOpen(p: Plane.Proc, cfg: C.Config, kind: S.Key -> C.Kind, ces: seq<C.Event>, explain: Explain)
    requires Plane.SentInOrder(p.sent, p.given) && Regular(cfg, kind, ces) && HandledSome(ces, FramesOf(p.sent))
    requires DifferentIds(p.given) && forall t :: 0 <= t < |p.given| ==> IsOpen(p.invocations, t)
    ensures AnswersOpen(RepliesOf(explain, p.given, C.Run(cfg, ces).sent), p.invocations)
  {
    var sent := C.Run(cfg, ces).sent;
    var rs := RepliesOf(explain, p.given, sent);
    RepliesAreKnown(p, cfg, kind, ces);
    forall k | 0 <= k < |rs| ensures rs[k].ticket < |p.given| {
      TicketsInRange(explain, p.given, sent, k);
    }
    forall k, l | 0 <= k < l < |rs| ensures rs[k].ticket != rs[l].ticket {
      if rs[k].ticket == rs[l].ticket {
        TwoCount(rs, k, l);
        AtMostOneReply(p, cfg, kind, ces, explain, rs[k].ticket);
      }
    }
  }

  lemma {:induction false} TicketsInRange(explain: Explain, given: seq<Plane.Given>, sent: seq<C.Output>, k: nat)
    requires AllKnown(given, sent) && k < |RepliesOf(explain, given, sent)|
    ensures RepliesOf(explain, given, sent)[k].ticket < |given|
  {
    var init, o := sent[..|sent| - 1], sent[|sent| - 1];
    assert o in sent && Known(given, o);
    if k < |RepliesOf(explain, given, init)| {
      TicketsInRange(explain, given, init, k);
    }
  }

  lemma AtMostOneReply(p: Plane.Proc, cfg: C.Config, kind: S.Key -> C.Kind, ces: seq<C.Event>, explain: Explain, t: nat)
    requires Plane.SentInOrder(p.sent, p.given) && Regular(cfg, kind, ces) && HandledSome(ces, FramesOf(p.sent))
    requires DifferentIds(p.given) && t < |p.given|
    ensures For(RepliesOf(explain, p.given, C.Run(cfg, ces).sent), t) <= 1
  {
    RepliesAreKnown(p, cfg, kind, ces);
    RepliesSettle(explain, p.given, C.Run(cfg, ces).sent, t);
    PaidAtMost(cfg, kind, ces, IdOf(p.given[t]));
    AskedAtMostOnce(p, ces, IdOf(p.given[t]));
    AskedIsSent(p.sent, p.given, t);
  }

  /** Before any result has come in, every request is open. */
  lemma NoneAnsweredAllOpen(wait: bool, es: seq<Plane.Event>)
    requires Plane.Run(wait, es).answered == []
    ensures var p := Plane.Run(wait, es); forall t :: 0 <= t < |p.given| ==> IsOpen(p.invocations, t)
  {
    var p := Plane.Run(wait, es);
    forall t | 0 <= t < |p.given| ensures IsOpen(p.invocations, t) {
      Plane.EveryRequestIsOpenOrAnswered(wait, es, t);
      OpenIsThere(p.invocations, t);
    }
  }

  /** What the two sides exchange: the control plane's requests down, the controller's results up. */
  ghost predicate Exchanged(
      p: Plane.Proc, down: seq<seq<byte>>, cfg: C.Config, kind: S.Key -> C.Kind, ces: seq<C.Event>,
      explain: Explain, up: seq<seq<byte>>)
  {
    var sent := C.Run(cfg, ces).sent;
    && WellGiven(p.given) && p.answered == []
    && Downstream(p, down) && HandledSome(ces, Understood(Received(down)))
    && Regular(cfg, kind, ces) && Short(explain, sent)
    && Flatten(up) == Frames.EncodeAll(ResultsUp(explain, sent))
  }

  /** The ledger after the results have come in. */
  function Answered(p: Plane.Proc, c: Framing.Conn, up: seq<seq<byte>>): Plane.Proc
    requires c.Valid()
  {
    Replay(p, ActedAll(Framing.FeedAll(c, [], up).events))
  }

  /**
   * A client's request and its answer, through the whole process: over any run of the control
   * plane and any run of the process controller, with requests, workers, other sources and results
   * interleaved in any way and both streams cut anywhere, the answers the clients get are exactly
   * the controller's results for their requests, each under its own ticket, and a ticket is
   * answered as often as the controller has settled it.
   */
  lemma ClientsGetTheResults(
      wait: bool, es: seq<Plane.Event>, down: seq<seq<byte>>, cfg: C.Config, kind: S.Key -> C.Kind, ces: seq<C.Event>,
      explain: Explain, c: Framing.Conn, up: seq<seq<byte>>, t: nat)
    requires Frames.Listening(c) && c.side.AtControlPlane?
    ensures var p, sent := Plane.Run(wait, es), C.Run(cfg, ces).sent;
      Exchanged(p, down, cfg, kind, ces, explain, up) ==>
        var q, rs := Answered(p, c, up), RepliesOf(explain, p.given, sent);
        && ForTickets(rs, p.given) && q.answered == ReplyAnswers(p.given, rs)
        && (t < |p.given| ==> Plane.Answers(q.answered, t) == Conservation.Settled(sent, DebtFor(p.given[t])) <= 1)
  {
    var p, sent := Plane.Run(wait, es), C.Run(cfg, ces).sent;
    if Exchanged(p, down, cfg, kind, ces, explain, up) {
      RequestsReachTheProcess(wait, es, down);
      Plane.RequestsAreSentInOrder(wait, es);
      Plane.EveryRequestIsOpenOrAnswered(wait, es, t);
      NoneAnsweredAllOpen(wait, es);
      LedgerGetsTheResults(p, cfg, kind, ces, explain, c, up);
      if t < |p.given| {
        TicketSettled(p, cfg, kind, ces, explain, t);
      }
    }
  }

  lemma LedgerGetsTheResults(
      p: Plane.Proc, cfg: C.Config, kind: S.Key -> C.Kind, ces: seq<C.Event>,
      explain: Explain, c: Framing.Conn, up: seq<seq<byte>>)
    requires Frames.Listening(c) && c.side.AtControlPlane?
    requires Plane.LedgerSound(p) && Plane.SentInOrder(p.sent, p.given) && WellGiven(p.given) && p.answered == []
    requires Regular(cfg, kind, ces) && HandledSome(ces, FramesOf(p.sent)) && Short(explain, C.Run(cfg, ces).sent)
    requires forall t :: 0 <= t < |p.given| ==> IsOpen(p.invocations, t)
    requires Flatten(up) == Frames.EncodeAll(ResultsUp(explain, C.Run(cfg, ces).sent))
    ensures var rs := RepliesOf(explain, p.given, C.Run(cfg, ces).sent);
      ForTickets(rs, p.given) && Answered(p, c, up).answered == ReplyAnswers(p.given, rs)
  {
    var sent := C.Run(cfg, ces).sent;
    RepliesAreKnown(p, cfg, kind, ces);
    FramesAreReplies(explain, p.given, sent);
    RepliesAnswerOpen(p, cfg, kind, ces, explain);
    ResultsComeBack(p, c, RepliesOf(explain, p.given, sent), up);
  }

  lemma TicketSettled(p: Plane.Proc, cfg: C.Config, kind: S.Key -> C.Kind, ces: seq<C.Event>, explain: Explain, t: nat)
    requires Plane.SentInOrder(p.sent, p.given) && Regular(cfg, kind, ces) && HandledSome(ces, FramesOf(p.sent))
    requires DifferentIds(p.given) && t < |p.given|
    requires ForTickets(RepliesOf(explain, p.given, C.Run(cfg, ces).sent), p.given)
    ensures var sent := C.Run(cfg, ces).sent; var answers := ReplyAnswers(p.given, RepliesOf(explain, p.given, sent));
      Plane.Answers(answers, t) == Conservation.Settled(sent, DebtFor(p.given[t])) <= 1
  {
    var sent := C.Run(cfg, ces).sent;
    var rs := RepliesOf(explain, p.given, sent);
    RepliesAreKnown(p, cfg, kind, ces);
    AnswersAreReplies(ReplyAnswers(p.given, rs), rs, t);
    RepliesSettle(explain, p.given, sent, t);
    AtMostOneReply(p, cfg, kind, ces, explain, t);
  }

  /** All requests that the control plane wrote have been handled, and the controller is at rest. */
  ghost predicate Quiet(cfg: C.Config, ces: seq<C.Event>, down: seq<seq<byte>>) {
    PlaneCalls(ces) == Calls(Understood(Received(down))) && Conservation.AtRest(C.Run(cfg, ces))
  }

  /**
   * Nobody waits in vain: once the controller has handled what was sent to it and come to rest, and
   * its results have come in, a client has its one answer exactly if its request was sent; from a
   * process that is allocated, with function names that fit, every client has.
   */
  lemma AtRestEveryClientIsAnswered(
      wait: bool, es: seq<Plane.Event>, down: seq<seq<byte>>, cfg: C.Config, kind: S.Key -> C.Kind, ces: seq<C.Event>,
      explain: Explain, c: Framing.Conn, up: seq<seq<byte>>, t: nat)
    requires Frames.Listening(c) && c.side.AtControlPlane?
    ensures var p := Plane.Run(wait, es);
      Exchanged(p, down, cfg, kind, ces, explain, up) && Quiet(cfg, ces, down) && t < |p.given| ==>
        && Plane.Answers(Answered(p, c, up).answered, t) == One(t in Plane.SentTickets(p.sent))
        && (Plane.NamesFit(es) && p.status == Allocated ==> t in Plane.SentTickets(p.sent))
  {
    var p := Plane.Run(wait, es);
    if Exchanged(p, down, cfg, kind, ces, explain, up) && Quiet(cfg, ces, down) && t < |p.given| {
      ClientsGetTheResults(wait, es, down, cfg, kind, ces, explain, c, up, t);
      RequestsReachTheProcess(wait, es, down);
      Plane.RequestsAreSentInOrder(wait, es);
      AskedIsSent(p.sent, p.given, t);
      AskedOfCalls(ces, IdOf(p.given[t]));
      OwedIsAsked(cfg, ces, IdOf(p.given[t]));
      Conservation.AtRestAllIsAnswered(kind, cfg, ces, DebtFor(p.given[t]));
      AllWereSent(wait, es, t);
    }
  }

  /** Before any answer, an allocated process was sent every request, if the names fit. */
  lemma AllWereSent(wait: bool, es: seq<Plane.Event>, t: nat)
    ensures var p := Plane.Run(wait, es);
      Plane.NamesFit(es) && p.status == Allocated && p.answered == [] && t < |p.given| ==> t in Plane.SentTickets(p.sent)
  {
    var p := Plane.Run(wait, es);
    if Plane.NamesFit(es) && p.status == Allocated && p.answered == [] && t < |p.given| {
      Plane.AllocatedMeansSubmitted(wait, es);
      Plane.MarksAreTrue(wait, es);
      NoneAnsweredAllOpen(wait, es);
      assert IsOpen(p.invocations, t);
      var i :| 0 <= i < |p.invocations| && p.invocations[i].ticket == t;
    }
  }

  /** What a client is told goes back to a worker's result for its request, or to its refusal. */
  lemma AnswersHaveCauses(
      wait: bool, es: seq<Plane.Event>, down: seq<seq<byte>>, cfg: C.Config, kind: S.Key -> C.Kind, ces: seq<C.Event>,
      explain: Explain, c: Framing.Conn, up: seq<seq<byte>>, i: nat)
    requires Frames.Listening(c) && c.side.AtControlPlane?
    ensures var p := Plane.Run(wait, es); var ans := Answered(p, c, up).answered;
      Exchanged(p, down, cfg, kind, ces, explain, up) && i < |ans| ==>
        ans[i].ticket < |p.given| && FromRun(explain, ces, IdOf(p.given[ans[i].ticket]), ans[i])
  {
    var p, sent := Plane.Run(wait, es), C.Run(cfg, ces).sent;
    var ans := Answered(p, c, up).answered;
    if Exchanged(p, down, cfg, kind, ces, explain, up) && i < |ans| {
      ClientsGetTheResults(wait, es, down, cfg, kind, ces, explain, c, up, 0);
      RequestsReachTheProcess(wait, es, down);
      Plane.RequestsAreSentInOrder(wait, es);
      RepliesAreKnown(p, cfg, kind, ces);
      OneHasCause(cfg, ces, explain, p.given, ans, i);
    }
  }

  lemma OneHasCause(
      cfg: C.Config, ces: seq<C.Event>, explain: Explain, given: seq<Plane.Given>, ans: seq<Plane.Answer>, i: nat)
    requires var rs := RepliesOf(explain, given, C.Run(cfg, ces).sent);
      AllKnown(given, C.Run(cfg, ces).sent) && ForTickets(rs, given) && ans == ReplyAnswers(given, rs) && i < |ans|
    ensures ans[i].ticket < |given| && FromRun(explain, ces, IdOf(given[ans[i].ticket]), ans[i])
  {
    var sent := C.Run(cfg, ces).sent;
    var rs := RepliesOf(explain, given, sent);
    var o := ReplyBehind(explain, given, sent, i);
    assert ans[i] == ReplyAnswer(given, rs[i]);
    ReplyCaused(cfg, ces, o);
  }

  lemma ReplyCaused(cfg: C.Config, ces: seq<C.Event>, o: C.Output)
    requires o in C.Run(cfg, ces).sent && ToControlPlane(o)
    ensures Provenance.BodyCaused(ces, o.id, o.code, o.body)
  {
    Provenance.NothingIsMadeUp(cfg, ces);
    assert Provenance.Caused(cfg, ces, o);
  }

  /** A result that came in for the id, with this code and these bytes, or a refusal to run it. */
  ghost predicate FromRun(explain: Explain, ces: seq<C.Event>, id: S.Key, a: Plane.Answer) {
    exists code, body ::
      a.code == Wrap32(code) && a.result == Carried(explain, body) && Provenance.BodyCaused(ces, id, code, body)
  }

  lemma {:induction false} ReplyBehind(explain: Explain, given: seq<Plane.Given>, sent: seq<C.Output>, i: nat)
      returns (o: C.Output)
    requires AllKnown(given, sent) && i < |RepliesOf(explain, given, sent)|
    ensures o in sent && ToControlPlane(o)
    ensures var r := RepliesOf(explain, given, sent)[i];
      r.ticket < |given| && IdOf(given[r.ticket]) == o.id && r.code == Wrap32(o.code) && r.bytes == Carried(explain, o.body)
  {
    var init := sent[..|sent| - 1];
    o := sent[|sent| - 1];
    assert o in sent && Known(given, o);
    if i < |RepliesOf(explain, given, init)| {
      o := ReplyBehind(explain, given, init, i);
    }
  }
}
