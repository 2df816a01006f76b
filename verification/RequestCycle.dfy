/**
 * The parts of the control plane put together: a client's request goes out on the wire, through
 * the process's decoder and back through the control plane's, and its result answers it; and
 * the two views of a process's status are one.
 */
module RequestCycle {
  import opened Wrappers
  import opened Bytes
  import opened ProcessStatus
  import Messages
  import Framing
  import Frames
  import Plane = PlaneProcess
  import App = PlaneApplication

  type Frame = Frames.Frame

  // ---------------------------------------------------------- requests go out

  function FramesOf(sent: seq<Plane.Sent>): (fs: seq<Frame>)
    ensures |fs| == |sent| && forall i :: 0 <= i < |fs| ==> fs[i] == sent[i].frame
  {
    if sent == [] then [] else [sent[0].frame] + FramesOf(sent[1..])
  }

  /** The frame an event hands on, read from its header and payload. */
  function ReadEvent(e: Framing.Event): seq<Frame> {
    if e.Message? && |e.header| == Messages.TCP_SIZE && Frames.Read(e.header, e.payload).Some? then
      [Frames.Read(e.header, e.payload).value]
    else []
  }

  function Understood(events: seq<Framing.Event>): seq<Frame> {
    if events == [] then [] else ReadEvent(events[0]) + Understood(events[1..])
  }

  lemma ArrivalIsUnderstood(c: Framing.Conn, f: Frame)
    requires c.peer.Some? && Frames.Writable(f)
    ensures ReadEvent(Frames.Arrival(c, f)) == [f]
  {
    Frames.ReadInvertsWrite(f);
  }

  lemma {:induction false} ArrivalsAreUnderstood(c: Framing.Conn, fs: seq<Frame>)
    requires Frames.Listening(c) && Frames.AllHeard(c, fs)
    ensures Understood(Frames.Arrivals(c, fs)) == fs
    decreases |fs|
  {
    if fs != [] {
      ArrivalIsUnderstood(c, fs[0]);
      ArrivalsAreUnderstood(c, fs[1..]);
      var events := Frames.Arrivals(c, fs);
      assert events[0] == Frames.Arrival(c, fs[0]) && events[1..] == Frames.Arrivals(c, fs[1..]);
    }
  }

  /** A request the message fields carry unchanged, with a body below 2 GiB. */
  ghost predicate Carriable(g: Plane.Given) {
    0 !in g.id && Frames.Plain(g.fname, 32) && |g.body| < 0x8000_0000
  }

  ghost predicate AllCarriable(given: seq<Plane.Given>) {
    forall t :: 0 <= t < |given| ==> Carriable(given[t])
  }

  lemma RequestsAreWritable(g: Plane.Given)
    requires Carriable(g)
    ensures Frames.Writable(Plane.RequestFor(g))
  {
  }

  /** The process's connection to the control plane, made at the start with an entry of its own. */
  function FromPlane(): Framing.Conn {
    Framing.Fresh0(Framing.AtProcess(map[]), {}).(peer := Some(Framing.ControlPlane))
  }

  /** What a process that got the chunks has handed on or still holds unread. */
  function Received(chunks: seq<seq<byte>>): seq<Framing.Event> {
    var d := Framing.HandleAll(FromPlane(), [], chunks);
    d.events + Framing.Decode(d.conn, d.rest).events
  }

  lemma SentIsHeard(p: Plane.Proc, i: nat, c: Framing.Conn)
    requires Plane.SentInOrder(p.sent, p.given) && AllCarriable(p.given) && i < |p.sent|
    requires c.side.AtProcess? && c.peer.Some?
    ensures Frames.Writable(p.sent[i].frame) && Frames.Hears(c, p.sent[i].frame)
  {
    RequestsAreWritable(p.given[p.sent[i].ticket]);
  }

  /** The chunks carry what was sent to the process. */
  ghost predicate Downstream(p: Plane.Proc, down: seq<seq<byte>>) {
    AllCarriable(p.given) && Flatten(down) == Frames.EncodeAll(FramesOf(p.sent))
  }

  /** Everything sent to a process is decoded there to the clients' requests, in their order. */
  lemma RequestsReachTheProcess(wait: bool, es: seq<Plane.Event>, chunks: seq<seq<byte>>)
    ensures var p := Plane.Run(wait, es);
      Downstream(p, chunks) ==> Understood(Received(chunks)) == FramesOf(p.sent)
  {
    var p, c := Plane.Run(wait, es), FromPlane();
    if Downstream(p, chunks) {
      var fs := FramesOf(p.sent);
      Plane.RequestsAreSentInOrder(wait, es);
      forall i | 0 <= i < |fs| ensures Frames.Writable(fs[i]) && Frames.Hears(c, fs[i]) {
        SentIsHeard(p, i, c);
      }
      Frames.FramesReachTheProcess(c, fs, chunks);
      ArrivalsAreUnderstood(c, fs);
    }
  }

  // ----------------------------------------------------------- results come back

  /** A result for one of the tickets. */
  datatype Reply = Reply(ticket: nat, code: int32, bytes: seq<byte>)

  /** What the control plane makes of a decoded frame. */
  function Acted(e: Framing.Event): seq<Plane.Event> {
    if e.Message? && e.handler == Framing.Finish && |e.header| == Messages.TCP_SIZE then
      [Plane.Result(Messages.Get(e.header, Frames.RESULT_ID).text, Messages.Get(e.header, Frames.RETURN_CODE).num, e.payload)]
    else []
  }

  function ActedAll(events: seq<Framing.Event>): seq<Plane.Event> {
    if events == [] then [] else Acted(events[0]) + ActedAll(events[1..])
  }

  function Replay(p: Plane.Proc, es: seq<Plane.Event>): Plane.Proc
    decreases |es|
  {
    if es == [] then p else Replay(Plane.Step(p, es[0]), es[1..])
  }

  ghost predicate ForTickets(rs: seq<Reply>, given: seq<Plane.Given>) {
    forall i :: 0 <= i < |rs| ==> rs[i].ticket < |given| && |rs[i].bytes| < 0x8000_0000
  }

  function ReplyFrame(given: seq<Plane.Given>, r: Reply): Frame
    requires r.ticket < |given|
  {
    Frames.Result(Plane.Prefix(given[r.ticket].id), r.code, r.bytes)
  }

  function ReplyFrames(given: seq<Plane.Given>, rs: seq<Reply>): (fs: seq<Frame>)
    requires ForTickets(rs, given)
    ensures |fs| == |rs| && forall i :: 0 <= i < |fs| ==> fs[i] == ReplyFrame(given, rs[i])
  {
    if rs == [] then [] else [ReplyFrame(given, rs[0])] + ReplyFrames(given, rs[1..])
  }

  function ReplyAnswer(given: seq<Plane.Given>, r: Reply): Plane.Answer
    requires r.ticket < |given|
  {
    Plane.Answer(r.ticket, Plane.Prefix(given[r.ticket].id), r.code, r.bytes)
  }

  /** The answers the clients are to get, each by its own callback. */
  function ReplyAnswers(given: seq<Plane.Given>, rs: seq<Reply>): (ans: seq<Plane.Answer>)
    requires ForTickets(rs, given)
    ensures |ans| == |rs| && forall i :: 0 <= i < |ans| ==> ans[i] == ReplyAnswer(given, rs[i])
  {
    if rs == [] then [] else [ReplyAnswer(given, rs[0])] + ReplyAnswers(given, rs[1..])
  }

  function ReplyEvent(given: seq<Plane.Given>, r: Reply): Plane.Event
    requires r.ticket < |given|
  {
    Plane.Result(Plane.Prefix(given[r.ticket].id), r.code, r.bytes)
  }

  function ReplyEvents(given: seq<Plane.Given>, rs: seq<Reply>): seq<Plane.Event>
    requires ForTickets(rs, given)
  {
    if rs == [] then [] else [ReplyEvent(given, rs[0])] + ReplyEvents(given, rs[1..])
  }

  /** A result frame acts as the result it was written for. */
  lemma ResultActs(c: Framing.Conn, given: seq<Plane.Given>, r: Reply)
    requires Frames.Listening(c) && c.side.AtControlPlane? && r.ticket < |given|
    requires 0 !in given[r.ticket].id && |r.bytes| < 0x8000_0000
    ensures Frames.Writable(ReplyFrame(given, r)) && Frames.Hears(c, ReplyFrame(given, r))
    ensures Acted(Frames.Arrival(c, ReplyFrame(given, r))) == [ReplyEvent(given, r)]
  {
    var f := ReplyFrame(given, r);
    Frames.ReadInvertsWrite(f);
    Frames.ResultFieldsRead(f.id, f.code, |f.payload|);
  }

  lemma {:induction false} ResultsAct(c: Framing.Conn, given: seq<Plane.Given>, rs: seq<Reply>)
    requires Frames.Listening(c) && c.side.AtControlPlane? && ForTickets(rs, given) && AllCarriable(given)
    ensures Frames.AllHeard(c, ReplyFrames(given, rs))
    ensures ActedAll(Frames.Arrivals(c, ReplyFrames(given, rs))) == ReplyEvents(given, rs)
    decreases |rs|
  {
    if rs != [] {
      ResultActs(c, given, rs[0]);
      ResultsAct(c, given, rs[1..]);
      OneMoreResult(c, given, rs, ReplyFrames(given, rs[1..]));
    }
  }

  lemma OneMoreResult(c: Framing.Conn, given: seq<Plane.Given>, rs: seq<Reply>, more: seq<Frame>)
    requires rs != [] && ForTickets(rs, given) && c.peer.Some? && more == ReplyFrames(given, rs[1..])
    requires Frames.AllHeard(c, more) && ActedAll(Frames.Arrivals(c, more)) == ReplyEvents(given, rs[1..])
    requires var f := ReplyFrame(given, rs[0]);
      Frames.Writable(f) && Frames.Hears(c, f) && Acted(Frames.Arrival(c, f)) == [ReplyEvent(given, rs[0])]
    ensures Frames.AllHeard(c, ReplyFrames(given, rs))
    ensures ActedAll(Frames.Arrivals(c, ReplyFrames(given, rs))) == ReplyEvents(given, rs)
  {
    var f := ReplyFrame(given, rs[0]);
    assert ReplyFrames(given, rs) == [f] + more;
    HearsMore(c, f, more);
    ActsMore(c, f, more);
  }

  lemma HearsMore(c: Framing.Conn, f: Frame, more: seq<Frame>)
    requires Frames.AllHeard(c, more) && Frames.Writable(f) && Frames.Hears(c, f)
    ensures Frames.AllHeard(c, [f] + more)
  {
  }

  lemma ActsMore(c: Framing.Conn, f: Frame, more: seq<Frame>)
    requires c.peer.Some?
    ensures ActedAll(Frames.Arrivals(c, [f] + more)) == Acted(Frames.Arrival(c, f)) + ActedAll(Frames.Arrivals(c, more))
  {
    var events := Frames.Arrivals(c, [f] + more);
    assert ([f] + more)[1..] == more;
    assert events[0] == Frames.Arrival(c, f) && events[1..] == Frames.Arrivals(c, more);
  }

  ghost predicate DifferentIds(given: seq<Plane.Given>) {
    forall i, j :: 0 <= i < j < |given| ==> Plane.Prefix(given[i].id) != Plane.Prefix(given[j].id)
  }

  predicate IsOpen(vs: seq<Plane.Invocation>, t: nat) {
    exists i :: 0 <= i < |vs| && vs[i].ticket == t
  }

  ghost predicate AnswersOpen(rs: seq<Reply>, vs: seq<Plane.Invocation>) {
    && (forall k :: 0 <= k < |rs| ==> IsOpen(vs, rs[k].ticket))
    && (forall k, l :: 0 <= k < l < |rs| ==> rs[k].ticket != rs[l].ticket)
  }

  /** A result finds the invocation of its ticket and nothing else. */
  lemma ResultFinds(p: Plane.Proc, t: nat) returns (i: nat)
    requires Plane.LedgerSound(p) && DifferentIds(p.given) && IsOpen(p.invocations, t)
    ensures i < |p.invocations| && p.invocations[i].ticket == t && t < |p.given|
    ensures Plane.FirstWith(p.invocations, Plane.Prefix(p.given[t].id)) == i
  {
    i :| 0 <= i < |p.invocations| && p.invocations[i].ticket == t;
    var n := Plane.FirstWith(p.invocations, Plane.Prefix(p.given[t].id));
    assert p.invocations[n].given == p.given[p.invocations[n].ticket];
  }

  lemma OthersStayOpen(vs: seq<Plane.Invocation>, i: nat, t: nat)
    requires i < |vs| && t != vs[i].ticket && IsOpen(vs, t)
    ensures IsOpen(vs[..i] + vs[i + 1..], t)
  {
    var j :| 0 <= j < |vs| && vs[j].ticket == t;
    var rest := vs[..i] + vs[i + 1..];
    assert rest[if j < i then j else j - 1].ticket == t;
  }

  lemma OneAnswered(p: Plane.Proc, r: Reply) returns (i: nat)
    requires Plane.LedgerSound(p) && DifferentIds(p.given) && IsOpen(p.invocations, r.ticket)
    ensures r.ticket < |p.given| && i < |p.invocations| && p.invocations[i].ticket == r.ticket
    ensures var q := Plane.Step(p, ReplyEvent(p.given, r));
      && Plane.LedgerSound(q) && q.given == p.given && q.answered == p.answered + [ReplyAnswer(p.given, r)]
      && q.invocations == p.invocations[..i] + p.invocations[i + 1..]
  {
    i := ResultFinds(p, r.ticket);
    Plane.TakingIsSound(p, i, Plane.Prefix(p.given[r.ticket].id), r.code, r.bytes);
  }

  lemma RestStayOpen(vs: seq<Plane.Invocation>, i: nat, rs: seq<Reply>)
    requires rs != [] && AnswersOpen(rs, vs) && i < |vs| && vs[i].ticket == rs[0].ticket
    ensures AnswersOpen(rs[1..], vs[..i] + vs[i + 1..])
  {
    forall k | 0 <= k < |rs[1..]| ensures IsOpen(vs[..i] + vs[i + 1..], rs[1..][k].ticket) {
      assert rs[1..][k] == rs[k + 1];
      OthersStayOpen(vs, i, rs[k + 1].ticket);
    }
  }

  /** Results for open tickets, in any order, answer exactly those tickets. */
  lemma {:induction false} ResultsAnswerTheirTickets(p: Plane.Proc, rs: seq<Reply>)
    requires Plane.LedgerSound(p) && DifferentIds(p.given)
    requires ForTickets(rs, p.given) && AnswersOpen(rs, p.invocations)
    ensures var q := Replay(p, ReplyEvents(p.given, rs));
      && Plane.LedgerSound(q) && q.given == p.given
      && q.answered == p.answered + ReplyAnswers(p.given, rs)
    decreases |rs|
  {
    if rs == [] {
      assert p.answered + [] == p.answered;
    } else {
      var i := OneAnswered(p, rs[0]);
      RestStayOpen(p.invocations, i, rs);
      var events := ReplyEvents(p.given, rs);
      assert events[0] == ReplyEvent(p.given, rs[0]) && events[1..] == ReplyEvents(p.given, rs[1..]);
      Assoc(p.answered, [ReplyAnswer(p.given, rs[0])], ReplyAnswers(p.given, rs[1..]));
      ResultsAnswerTheirTickets(Plane.Step(p, ReplyEvent(p.given, rs[0])), rs[1..]);
    }
  }

  /** The control plane, fed the results in any chunks, answers the clients with them. */
  lemma ResultsComeBack(p: Plane.Proc, c: Framing.Conn, rs: seq<Reply>, chunks: seq<seq<byte>>)
    requires Plane.LedgerSound(p) && DifferentIds(p.given) && AllCarriable(p.given)
    requires ForTickets(rs, p.given) && AnswersOpen(rs, p.invocations)
    requires Frames.Listening(c) && c.side.AtControlPlane?
    requires Flatten(chunks) == Frames.EncodeAll(ReplyFrames(p.given, rs))
    ensures var q := Replay(p, ActedAll(Framing.FeedAll(c, [], chunks).events));
      && q.answered == p.answered + ReplyAnswers(p.given, rs)
      && |q.invocations| == |p.invocations| - |rs|
  {
    ResultsAct(c, p.given, rs);
    Frames.DecodesWhatWasWritten(c, ReplyFrames(p.given, rs));
    Framing.FeedingIsDecoding(c, [], chunks);
    assert [] + Flatten(chunks) == Flatten(chunks);
    ResultsAnswerTheirTickets(p, rs);
  }

  // ------------------------------------------------------------- the whole round

  /** What a process makes of a request. */
  type Service = Frame -> (int32, seq<byte>)

  ghost predicate Small(serve: Service) {
    forall f :: |serve(f).1| < 0x8000_0000
  }

  /** Each open request of an allocated process is on the wire to it. */
  lemma OpenIsSent(wait: bool, es: seq<Plane.Event>, t: nat)
    requires Plane.NamesFit(es)
    ensures var p := Plane.Run(wait, es);
      p.status == Allocated && IsOpen(p.invocations, t) ==> t < |p.given| && Plane.RequestFor(p.given[t]) in FramesOf(p.sent)
  {
    var p := Plane.Run(wait, es);
    if p.status == Allocated && IsOpen(p.invocations, t) {
      Plane.AllocatedMeansSubmitted(wait, es);
      Plane.MarksAreTrue(wait, es);
      Plane.RequestsAreSentInOrder(wait, es);
      Plane.EveryRequestIsOpenOrAnswered(wait, es, t);
      var i :| 0 <= i < |p.invocations| && p.invocations[i].ticket == t;
      var k := Plane.SentTicketIsSent(p.sent, t);
      assert FramesOf(p.sent)[k] == Plane.RequestFor(p.given[t]);
    }
  }

  /** Requests the fields carry, from clients whose ids differ. */
  ghost predicate WellGiven(given: seq<Plane.Given>) {
    AllCarriable(given) && DifferentIds(given)
  }

  /** Every open request of an allocated process is among those it decodes. */
  lemma OpenRequestsArrive(wait: bool, es: seq<Plane.Event>, down: seq<seq<byte>>, t: nat)
    requires Plane.NamesFit(es)
    ensures var p := Plane.Run(wait, es);
      p.status == Allocated && Downstream(p, down) && IsOpen(p.invocations, t) ==>
        t < |p.given| && Plane.RequestFor(p.given[t]) in Understood(Received(down))
  {
    var p := Plane.Run(wait, es);
    if p.status == Allocated && Downstream(p, down) && IsOpen(p.invocations, t) {
      RequestsReachTheProcess(wait, es, down);
      OpenIsSent(wait, es, t);
    }
  }

  /** The result frame of a request that was decoded. */
  function ServedFrame(serve: Service, f: Frame): Frame
    requires f.Invoke?
  {
    Frames.Result(f.id, serve(f).0, serve(f).1)
  }

  /** The result frames of some of the requests decoded, in the order in which they are ready. */
  function ServedFrames(serve: Service, decoded: seq<Frame>, order: seq<nat>): (fs: seq<Frame>)
    requires forall k :: 0 <= k < |order| ==> order[k] < |decoded| && decoded[order[k]].Invoke?
    ensures |fs| == |order| && forall k :: 0 <= k < |fs| ==> fs[k] == ServedFrame(serve, decoded[order[k]])
  {
    if order == [] then [] else [ServedFrame(serve, decoded[order[0]])] + ServedFrames(serve, decoded, order[1..])
  }

  /** Requests sent to the process that are still open, each once, by their places on the wire. */
  ghost predicate Schedule(order: seq<nat>, p: Plane.Proc) {
    && (forall k :: 0 <= k < |order| ==> order[k] < |p.sent| && IsOpen(p.invocations, p.sent[order[k]].ticket))
    && (forall k, l :: 0 <= k < l < |order| ==> order[k] != order[l])
  }

  /** What the clients concerned are to get: each the outcome of what it gave. */
  function Outcomes(serve: Service, p: Plane.Proc, order: seq<nat>): (rs: seq<Reply>)
    requires forall k :: 0 <= k < |order| ==> order[k] < |p.sent|
    ensures |rs| == |order| && forall k :: 0 <= k < |rs| ==> rs[k] == OutcomeOf(serve, p.sent[order[k]])
  {
    if order == [] then [] else [OutcomeOf(serve, p.sent[order[0]])] + Outcomes(serve, p, order[1..])
  }

  function OutcomeOf(serve: Service, x: Plane.Sent): Reply {
    Reply(x.ticket, serve(x.frame).0, serve(x.frame).1)
  }

  lemma OutcomesAreOpen(serve: Service, p: Plane.Proc, order: seq<nat>)
    requires Plane.SentInOrder(p.sent, p.given) && Schedule(order, p) && Small(serve)
    ensures ForTickets(Outcomes(serve, p, order), p.given) && AnswersOpen(Outcomes(serve, p, order), p.invocations)
  {
    var rs := Outcomes(serve, p, order);
    forall k | 0 <= k < |rs|
      ensures rs[k].ticket < |p.given| && |rs[k].bytes| < 0x8000_0000 && IsOpen(p.invocations, rs[k].ticket)
    {
      assert rs[k] == OutcomeOf(serve, p.sent[order[k]]);
    }
    forall k, l | 0 <= k < l < |rs| ensures rs[k].ticket != rs[l].ticket {
      DifferentTickets(p, order[k], order[l]);
    }
  }

  lemma DifferentTickets(p: Plane.Proc, i: nat, j: nat)
    requires Plane.SentInOrder(p.sent, p.given) && i < |p.sent| && j < |p.sent| && i != j
    ensures p.sent[i].ticket != p.sent[j].ticket
  {
    if i < j {
      assert p.sent[i].ticket < p.sent[j].ticket;
    } else {
      assert p.sent[j].ticket < p.sent[i].ticket;
    }
  }

  /** What was sent is an invocation, under the 16 characters of its id. */
  lemma SentIsInvoke(p: Plane.Proc, i: nat)
    requires Plane.SentInOrder(p.sent, p.given) && i < |p.sent|
    ensures p.sent[i].ticket < |p.given| && FramesOf(p.sent)[i] == Plane.RequestFor(p.given[p.sent[i].ticket])
  {
    assert p.sent[i].frame == Plane.RequestFor(p.given[p.sent[i].ticket]);
  }

  /** The frames made of what was decoded are the results for the tickets they stand for. */
  lemma ServedAreReplies(serve: Service, p: Plane.Proc, order: seq<nat>)
    requires Plane.SentInOrder(p.sent, p.given) && Schedule(order, p) && Small(serve)
    ensures forall k :: 0 <= k < |order| ==> order[k] < |p.sent| && FramesOf(p.sent)[order[k]].Invoke?
    ensures ForTickets(Outcomes(serve, p, order), p.given)
    ensures ServedFrames(serve, FramesOf(p.sent), order) == ReplyFrames(p.given, Outcomes(serve, p, order))
  {
    OutcomesAreOpen(serve, p, order);
    forall k | 0 <= k < |order| ensures FramesOf(p.sent)[order[k]].Invoke? {
      SentIsInvoke(p, order[k]);
    }
    var rs, fs := Outcomes(serve, p, order), ServedFrames(serve, FramesOf(p.sent), order);
    forall k | 0 <= k < |order| ensures fs[k] == ReplyFrame(p.given, rs[k]) {
      SentIsInvoke(p, order[k]);
    }
  }

  /** The chunks carry the results of some of the requests decoded, in the order of the schedule. */
  ghost predicate Upstream(p: Plane.Proc, serve: Service, decoded: seq<Frame>, order: seq<nat>, up: seq<seq<byte>>) {
    && DifferentIds(p.given) && Small(serve) && Schedule(order, p) && |decoded| == |p.sent|
    && (forall k :: 0 <= k < |order| ==> decoded[order[k]].Invoke?)
    && Flatten(up) == Frames.EncodeAll(ServedFrames(serve, decoded, order))
  }

  /**
   * A request's round. Take any run of the control plane with clients whose requests the fields
   * carry and whose ids differ. However the network cuts the streams and in whatever order the
   * process gets ready: what it decodes is what was sent, one invocation each, and once the control
   * plane has decoded the results of any of them, each client concerned has the outcome of its own
   * request, and nobody has another one.
   */
  lemma RepliesMakeTheRound(
      wait: bool, es: seq<Plane.Event>, down: seq<seq<byte>>, serve: Service, order: seq<nat>,
      c: Framing.Conn, up: seq<seq<byte>>)
    requires Frames.Listening(c) && c.side.AtControlPlane?
    ensures var p, decoded := Plane.Run(wait, es), Understood(Received(down));
      Downstream(p, down) ==>
        && |decoded| == |p.sent|
        && (Upstream(p, serve, decoded, order, up) ==>
             var q := Replay(p, ActedAll(Framing.FeedAll(c, [], up).events));
             && ForTickets(Outcomes(serve, p, order), p.given)
             && q.answered == p.answered + ReplyAnswers(p.given, Outcomes(serve, p, order))
             && |q.invocations| == |p.invocations| - |order|)
  {
    var p := Plane.Run(wait, es);
    if Downstream(p, down) {
      RequestsReachTheProcess(wait, es, down);
      if Upstream(p, serve, FramesOf(p.sent), order, up) {
        Plane.RequestsAreSentInOrder(wait, es);
        Plane.EveryRequestIsOpenOrAnswered(wait, es, 0);
        OutcomesAreOpen(serve, p, order);
        ServedAreReplies(serve, p, order);
        ResultsComeBack(p, c, Outcomes(serve, p, order), up);
      }
    }
  }

  // ---------------------------------------------------------- one status, two views

  /** The events of a process that change its status or its connection. */
  predicate Living(e: Plane.Event) {
    e.Connect? || e.Become? || e.Close?
  }

  function Life(es: seq<Plane.Event>): seq<Plane.Event> {
    if es == [] then []
    else Life(es[..|es| - 1]) + if Living(es[|es| - 1]) then [es[|es| - 1]] else []
  }

  datatype State = State(status: Status, connected: bool)

  function StateStep(s: State, e: Plane.Event): State {
    match e
    case Connect => if s.status == Allocating then State(Allocated, true) else s
    case Become(status) => if status in {SwappingOut, SwappedOut, Failed} then s.(status := status) else s
    case Close => State(Closed, false)
    case _ => s
  }

  function StateRun(es: seq<Plane.Event>): State {
    if es == [] then State(Allocating, false) else StateStep(StateRun(es[..|es| - 1]), es[|es| - 1])
  }

  lemma ProcessSteps(p: Plane.Proc, e: Plane.Event)
    ensures var q := Plane.Step(p, e);
      State(q.status, q.connected) == StateStep(State(p.status, p.connected), e)
  {
    if e.Connect? && p.status == Allocating {
      var q := p.(connected := true, status := Allocated, registered := true);
      SendingKeepsState(q, 0);
    }
  }

  lemma {:induction false} SendingKeepsState(p: Plane.Proc, i: nat)
    requires i <= |p.invocations|
    ensures Plane.SendFrom(p, i).0.status == p.status && Plane.SendFrom(p, i).0.connected == p.connected
    decreases |p.invocations| - i
  {
    if i < |p.invocations| {
      if p.invocations[i].submitted {
        SendingKeepsState(p, i + 1);
      } else if Plane.SendOne(p, i).1 {
        SendingKeepsState(Plane.SendOne(p, i).0, i + 1);
      }
    }
  }

  lemma {:induction false} ProcessLives(wait: bool, es: seq<Plane.Event>)
    ensures var p := Plane.Run(wait, es);
      State(p.status, p.connected) == StateRun(Life(es))
  {
    if es != [] {
      var before, e := es[..|es| - 1], es[|es| - 1];
      ProcessLives(wait, before);
      ProcessSteps(Plane.Run(wait, before), e);
      assert (Life(before) + [e])[..|Life(before)|] == Life(before);
      assert Life(before) + [] == Life(before);
    }
  }

  /** What an event of the application does to one of its processes. */
  function Caused(a: App.App, e: App.Event, pid: nat): seq<Plane.Event> {
    if pid >= |a.table| then []
    else match e
      case Register(name, _) => if name in a.pending && a.pending[name] == pid then [Plane.Connect] else []
      case Swap(name, _) =>
        if name != [] && name in a.active && a.active[name] == pid && a.table[pid].status == Allocated
        then [Plane.Become(SwappingOut)] else []
      case Swapped(name) =>
        if name in a.active && a.active[name] == pid && a.table[pid].status == SwappingOut
        then [Plane.Become(SwappedOut)] else []
      case Closure(p) =>
        if p != pid then [] else if a.table[pid].status == SwappedOut then [Plane.Close] else [Plane.Become(Failed)]
      case _ => []
  }

  function Projected(limits: App.Limits, es: seq<App.Event>, pid: nat): seq<Plane.Event> {
    if es == [] then []
    else Projected(limits, es[..|es| - 1], pid) + Caused(App.Run(limits, es[..|es| - 1]), es[|es| - 1], pid)
  }

  function StateOf(a: App.App, pid: nat): State
    requires pid < |a.table|
  {
    State(a.table[pid].status, a.table[pid].connected)
  }

  lemma RegistrationMoves(a: App.App, name: App.Name, sendable: bool, pid: nat)
    requires App.LifeSound(a) && pid < |a.table|
    ensures var b := App.Registered(a, name, sendable);
      pid < |b.table| && StateOf(b, pid) ==
        if name in a.pending && a.pending[name] == pid then StateStep(StateOf(a, pid), Plane.Connect) else StateOf(a, pid)
  {
  }

  lemma ClosureMoves(a: App.App, closing: nat, pid: nat)
    requires closing < |a.table| && pid < |a.table|
    ensures var b := App.Ended(a, closing);
      pid < |b.table| && StateOf(b, pid) ==
        if closing != pid then StateOf(a, pid)
        else StateStep(StateOf(a, pid), if a.table[pid].status == SwappedOut then Plane.Close else Plane.Become(Failed))
  {
  }

  lemma SwapMoves(a: App.App, name: App.Name, path: string, pid: nat)
    requires pid < |a.table|
    ensures var b := App.SwapStarted(a, name, path).0;
      pid < |b.table| && StateOf(b, pid) ==
        if name != [] && name in a.active && a.active[name] == pid && a.table[pid].status == Allocated
        then StateStep(StateOf(a, pid), Plane.Become(SwappingOut)) else StateOf(a, pid)
  {
  }

  lemma ConfirmationMoves(a: App.App, name: App.Name, pid: nat)
    requires pid < |a.table|
    ensures var b := App.SwapConfirmed(a, name);
      pid < |b.table| && StateOf(b, pid) ==
        if name in a.active && a.active[name] == pid && a.table[pid].status == SwappingOut
        then StateStep(StateOf(a, pid), Plane.Become(SwappedOut)) else StateOf(a, pid)
  {
  }

  lemma OneMoves(limits: App.Limits, a: App.App, e: App.Event, pid: nat)
    requires App.LifeSound(a) && pid < |a.table|
    ensures var b, more := App.Step(limits, a, e), Caused(a, e, pid);
      && |more| <= 1 && pid < |b.table|
      && StateOf(b, pid) == if more == [] then StateOf(a, pid) else StateStep(StateOf(a, pid), more[0])
  {
    match e
    case Register(name, sendable) => RegistrationMoves(a, name, sendable, pid);
    case Swap(name, path) => SwapMoves(a, name, path, pid);
    case Swapped(name) => ConfirmationMoves(a, name, pid);
    case Closure(closing) =>
      if closing < |a.table| {
        ClosureMoves(a, closing, pid);
      }
    case _ =>
  }

  lemma OneCaused(limits: App.Limits, a: App.App, e: App.Event, pid: nat, before: seq<Plane.Event>)
    requires App.LifeSound(a) && pid < |a.table| && StateOf(a, pid) == StateRun(before)
    ensures var b := App.Step(limits, a, e);
      pid < |b.table| && StateOf(b, pid) == StateRun(before + Caused(a, e, pid))
  {
    var more := Caused(a, e, pid);
    OneMoves(limits, a, e, pid);
    if more == [] {
      assert before + more == before;
    } else {
      assert (before + more)[..|before|] == before && more == [more[0]];
    }
  }

  lemma NewIsAllocating(limits: App.Limits, a: App.App, e: App.Event, pid: nat)
    requires |a.table| <= pid < |App.Step(limits, a, e).table|
    ensures var b := App.Step(limits, a, e).table[pid];
      b.status == Allocating && !b.connected
  {
  }

  lemma {:induction false} NotThereYet(limits: App.Limits, es: seq<App.Event>, pid: nat)
    requires pid >= |App.Run(limits, es).table|
    ensures Projected(limits, es, pid) == []
  {
    if es != [] {
      TablesGrow(limits, App.Run(limits, es[..|es| - 1]), es[|es| - 1]);
      NotThereYet(limits, es[..|es| - 1], pid);
    }
  }

  lemma TablesGrow(limits: App.Limits, a: App.App, e: App.Event)
    ensures |App.Step(limits, a, e).table| >= |a.table|
  {
  }

  lemma {:induction false} ApplicationLives(limits: App.Limits, es: seq<App.Event>, pid: nat)
    requires App.AllExpected(limits, es) && pid < |App.Run(limits, es).table|
    ensures StateOf(App.Run(limits, es), pid) == StateRun(Projected(limits, es, pid))
  {
    if es != [] {
      var before, e := es[..|es| - 1], es[|es| - 1];
      var a := App.Run(limits, before);
      if pid < |a.table| {
        ApplicationLives(limits, before, pid);
        App.LifecycleIsSafe(limits, before);
        OneCaused(limits, a, e, pid, Projected(limits, before, pid));
      } else {
        NotThereYet(limits, before, pid);
        NewIsAllocating(limits, a, e, pid);
      }
    }
  }

  /** The application's table and the process agree on status and connection on all runs: whatever
      requests, results and backend reports the process sees between the events the application
      causes for it. */
  lemma TwoViewsOneStatus(limits: App.Limits, es: seq<App.Event>, pid: nat, wait: bool, ps: seq<Plane.Event>)
    requires App.AllExpected(limits, es) && pid < |App.Run(limits, es).table|
    requires Life(ps) == Projected(limits, es, pid)
    ensures var e, p := App.Run(limits, es).table[pid], Plane.Run(wait, ps);
      e.status == p.status && e.connected == p.connected
  {
    ApplicationLives(limits, es, pid);
    ProcessLives(wait, ps);
  }

  /** A registration throws on the event loop exactly if it leaves something unsent: with what the
      application is told about the invocations being what the process's ledger says. */
  lemma RegistrationBreaksIff(limits: App.Limits, es: seq<App.Event>, name: App.Name, wait: bool, ps: seq<Plane.Event>)
    requires App.AllExpected(limits, es) && name in App.Run(limits, es).pending
    requires Life(ps) == Projected(limits, es, App.Run(limits, es).pending[name])
    ensures var a, p := App.Run(limits, es), Plane.Run(wait, ps);
      App.Registered(a, name, Plane.Sendable(p.invocations, 0)).broken <==> !Plane.Marked(Plane.Connected(p).invocations, 0)
  {
    var a, p := App.Run(limits, es), Plane.Run(wait, ps);
    App.LifecycleIsSafe(limits, es);
    TwoViewsOneStatus(limits, es, a.pending[name], wait, ps);
    ConnectingMarks(p);
  }

  lemma ConnectingMarks(p: Plane.Proc)
    requires p.status == Allocating
    ensures Plane.Marked(Plane.Connected(p).invocations, 0) <==> Plane.Sendable(p.invocations, 0)
  {
    if Plane.Marked(p.invocations, 0) {
      Plane.SendFromMarks(p.(connected := true, status := Allocated, registered := true), 0);
    } else {
      Plane.ConnectSendsAllIff(p);
    }
  }
}
