/**
 * What a process sends to one peer: `put_message`, `invocation_request` and `invocation_result`
 * of the process's TCP server, the connection made on demand, and the messages kept until it
 * is there.
 */
module PeerLink {
  import opened Wrappers
  import opened Messages
  import opened Frames
  import Bytes
  import Framing

  type byte = Bytes.byte

  datatype Status = Disconnected | Connecting | Connected

  /** The pointer `conn`: null, or the client's or the server's connection object, which stays
      where it is when the connection behind it ends. */
  datatype Link = NoLink | Outbound(open: bool) | Inbound(open: bool) {
    predicate Open() {
      !NoLink? && open
    }
  }

  /**
   * The server's entry for one peer; without one (`known` is false) the peer's frames are
   * logged and dropped. `wire` is what open connections were given, `lost` what ended ones
   * were. `confirmed` is set once our own connection has got its confirmation, `crashed` when
   * a result is sent through a null pointer.
   */
  datatype Peer = Peer(
    known: bool, status: Status, link: Link, waiting: seq<Frame>,
    wire: seq<Frame>, lost: seq<Frame>, dropped: seq<Frame>, connects: nat, confirmed: bool, crashed: bool)

  const Unused := Peer(false, Disconnected, NoLink, [], [], [], [], 0, false, false)

  datatype Event =
    | Submit(frame: Frame)     // a put or an invocation
    | Answer(frame: Frame)     // a result
    | Announced                // an application update names the peer and its address
    | Opened                   // the client's callback, connected
    | Closed                   // the client's callback, not connected
    | Registered(reply: seq<byte>)  // the peer connected by itself; the reply is named CORRECT
    | Confirmed(reply: seq<byte>)   // the peer's confirmation, taken for a registration and confirmed
    | InboundClosed

  /** The setters' limits: a longer name throws before anything is stored or sent. */
  predicate Acceptable(f: Frame) {
    match f
    case Hello(name) => |name| <= 32
    case Put(name, sender, _) => |name| <= 32 && |sender| <= 32
    case Invoke(id, fname, _) => |id| <= 16 && |fname| <= 32
    case Result(id, _, _) => |id| <= 16
    case Announce(name, address, _, _) => |name| <= 32 && |address| <= 16
    case _ => true
  }

  function Send(p: Peer, fs: seq<Frame>): Peer
    requires !p.link.NoLink?
  {
    if p.link.open then p.(wire := p.wire + fs) else p.(lost := p.lost + fs)
  }

  function Submitted(p: Peer, f: Frame): Peer {
    if !p.known then p.(dropped := p.dropped + [f])
    else if !Acceptable(f) then p
    else if p.link.NoLink? then
      p.(waiting := p.waiting + [f],
         status := if p.status.Disconnected? then Connecting else p.status,
         connects := p.connects + if p.status.Disconnected? then 1 else 0)
    else Send(p, [f])
  }

  function Answered(p: Peer, f: Frame): Peer {
    if !p.known then p.(dropped := p.dropped + [f])
    else if !Acceptable(f) then p
    else if p.link.NoLink? then p.(crashed := true)
    else Send(p, [f])
  }

  function Step(self: seq<byte>, p: Peer, e: Event): Peer {
    if p.crashed then p
    else match e
      case Submit(f) => Submitted(p, f)
      case Answer(f) => Answered(p, f)
      case Announced => p.(known := true)
      case Opened =>
        p.(status := Connected, link := Outbound(true), confirmed := false,
           wire := p.wire + [Hello(self)] + p.waiting, waiting := [])
      case Closed => p.(status := Disconnected, link := if p.link.Outbound? then Outbound(false) else p.link)
      case Registered(reply) =>
        p.(known := true, status := Connected, link := Inbound(true), wire := p.wire + [Hello(reply)])
      case Confirmed(reply) =>
        if p.confirmed || p.link.NoLink? then p else p.(wire := p.wire + [Hello(reply)], confirmed := true)
      case InboundClosed => p.(link := if p.link.Inbound? then Inbound(false) else p.link)
  }

  function Run(self: seq<byte>, es: seq<Event>): Peer {
    if es == [] then Unused else Step(self, Run(self, es[..|es| - 1]), es[|es| - 1])
  }

  /** The frames given for the peer that the setters accept, in order. */
  function Given(es: seq<Event>): seq<Frame> {
    if es == [] then [] else Given(es[..|es| - 1]) + GivenBy(es[|es| - 1])
  }

  function GivenBy(e: Event): seq<Frame> {
    if (e.Submit? || e.Answer?) && Acceptable(e.frame) then [e.frame] else []
  }

  /** The server has an entry for the peer once it was announced or registered. */
  predicate Introduced(es: seq<Event>) {
    es != [] && (es[|es| - 1].Announced? || es[|es| - 1].Registered? || Introduced(es[..|es| - 1]))
  }

  /** The frames among them that came after the peer was introduced. */
  function Taken(es: seq<Event>): seq<Frame> {
    if es == [] then []
    else Taken(es[..|es| - 1]) + if Introduced(es[..|es| - 1]) then GivenBy(es[|es| - 1]) else []
  }

  function Count(fs: seq<Frame>, f: Frame): nat {
    if fs == [] then 0 else Count(fs[..|fs| - 1], f) + if fs[|fs| - 1] == f then 1 else 0
  }

  lemma {:induction false} CountAll(a: seq<Frame>, b: seq<Frame>, f: Frame)
    ensures Count(a + b, f) == Count(a, f) + Count(b, f)
  {
    if b == [] {
      assert a + b == a;
    } else {
      assert (a + b)[..|a + b| - 1] == a + b[..|b| - 1];
      CountAll(a, b[..|b| - 1], f);
    }
  }

  // ---------------------------------------------------------------- conservation

  function Accounted(p: Peer, f: Frame): nat {
    Count(p.wire, f) + Count(p.waiting, f) + Count(p.lost, f) + Count(p.dropped, f)
  }

  lemma SendAccounts(p: Peer, g: Frame, f: Frame)
    requires !p.link.NoLink?
    ensures Accounted(Send(p, [g]), f) == Accounted(p, f) + Count([g], f)
  {
    if p.link.open {
      CountAll(p.wire, [g], f);
    } else {
      CountAll(p.lost, [g], f);
    }
  }

  lemma OpenedAccounts(self: seq<byte>, p: Peer, f: Frame)
    requires !p.crashed
    ensures Accounted(Step(self, p, Opened), f) == Accounted(p, f) + Count([Hello(self)], f)
  {
    CountAll(p.wire + [Hello(self)], p.waiting, f);
    CountAll(p.wire, [Hello(self)], f);
  }

  lemma DropAccounts(p: Peer, g: Frame, f: Frame)
    ensures Accounted(p.(dropped := p.dropped + [g]), f) == Accounted(p, f) + Count([g], f)
  {
    CountAll(p.dropped, [g], f);
  }

  lemma WaitAccounts(p: Peer, g: Frame, f: Frame)
    requires p.known && p.link.NoLink? && Acceptable(g)
    ensures Accounted(Submitted(p, g), f) == Accounted(p, f) + Count([g], f)
  {
    CountAll(p.waiting, [g], f);
  }

  lemma SubmitAccounts(p: Peer, g: Frame, f: Frame)
    requires Acceptable(f)
    ensures Accounted(Submitted(p, g), f) == Accounted(p, f) + Count(GivenBy(Submit(g)), f)
  {
    if !p.known {
      DropAccounts(p, g, f);
    } else if Acceptable(g) {
      if p.link.NoLink? {
        WaitAccounts(p, g, f);
      } else {
        SendAccounts(p, g, f);
      }
    }
  }

  lemma AnswerAccounts(p: Peer, g: Frame, f: Frame)
    requires Acceptable(f) && !Answered(p, g).crashed
    ensures Accounted(Answered(p, g), f) == Accounted(p, f) + Count(GivenBy(Answer(g)), f)
  {
    if !p.known {
      DropAccounts(p, g, f);
    } else if !p.link.NoLink? {
      SendAccounts(p, g, f);
    }
  }

  /** A connection with the peer was made, by either side. */
  predicate Linked(es: seq<Event>) {
    es != [] && (es[|es| - 1].Opened? || es[|es| - 1].Registered? || Linked(es[..|es| - 1]))
  }

  /** The peer has confirmed our registration since we last connected. */
  predicate Acknowledged(es: seq<Event>) {
    es != [] && !es[|es| - 1].Opened? &&
      ((es[|es| - 1].Confirmed? && Linked(es[..|es| - 1])) || Acknowledged(es[..|es| - 1]))
  }

  /** The headers we owe for an event: our registration when we connect, and a confirmation when the
      peer registers or, once for each connection of ours, when it confirms. */
  function Greeting(self: seq<byte>, before: seq<Event>, e: Event): seq<Frame> {
    match e
    case Opened => [Hello(self)]
    case Registered(reply) => [Hello(reply)]
    case Confirmed(reply) => if Linked(before) && !Acknowledged(before) then [Hello(reply)] else []
    case _ => []
  }

  function Greetings(self: seq<byte>, es: seq<Event>): seq<Frame> {
    if es == [] then [] else Greetings(self, es[..|es| - 1]) + Greeting(self, es[..|es| - 1], es[|es| - 1])
  }

  lemma StepLinks(self: seq<byte>, p: Peer, e: Event)
    requires !Step(self, p, e).crashed
    ensures !p.crashed
    ensures Step(self, p, e).link.NoLink? <==> p.link.NoLink? && !e.Opened? && !e.Registered?
    ensures Step(self, p, e).confirmed <==> !e.Opened? && (p.confirmed || (e.Confirmed? && !p.link.NoLink?))
  {
  }

  lemma {:induction false} LinkedIff(self: seq<byte>, es: seq<Event>)
    requires !Run(self, es).crashed
    ensures Run(self, es).link.NoLink? <==> !Linked(es)
    ensures Run(self, es).confirmed <==> Acknowledged(es)
  {
    if es != [] {
      StepLinks(self, Run(self, es[..|es| - 1]), es[|es| - 1]);
      LinkedIff(self, es[..|es| - 1]);
    }
  }

  lemma StepAccounts(self: seq<byte>, p: Peer, before: seq<Event>, e: Event, f: Frame)
    requires Acceptable(f) && !Step(self, p, e).crashed
    requires (p.link.NoLink? <==> !Linked(before)) && (p.confirmed <==> Acknowledged(before))
    ensures Accounted(Step(self, p, e), f) == Accounted(p, f) + Count(GivenBy(e), f) + Count(Greeting(self, before, e), f)
  {
    match e
    case Submit(g) => SubmitAccounts(p, g, f);
    case Answer(g) => AnswerAccounts(p, g, f);
    case Opened => OpenedAccounts(self, p, f);
    case Registered(reply) => CountAll(p.wire, [Hello(reply)], f);
    case Confirmed(reply) => CountAll(p.wire, [Hello(reply)], f);
    case _ =>
  }

  /** Each frame given for the peer, and each registration and confirmation we owe it, was written
      once, waits once, went into a connection that had ended, or was dropped for want of an entry:
      whatever is announced, connects, registers and closes, in any order. */
  lemma {:induction false} EveryFrameOnce(self: seq<byte>, es: seq<Event>, f: Frame)
    requires Acceptable(f) && !Run(self, es).crashed
    ensures Count(Given(es), f) + Count(Greetings(self, es), f) == Accounted(Run(self, es), f)
  {
    if es != [] {
      var before := es[..|es| - 1];
      EveryFrameOnce(self, before, f);
      LinkedIff(self, before);
      StepAccounts(self, Run(self, before), before, es[|es| - 1], f);
      CountAll(Given(before), GivenBy(es[|es| - 1]), f);
      CountAll(Greetings(self, before), Greeting(self, before, es[|es| - 1]), f);
    }
  }

  /** The server knows a peer exactly from its introduction on. */
  lemma {:induction false} KnownIffIntroduced(self: seq<byte>, es: seq<Event>)
    requires !Run(self, es).crashed
    ensures Run(self, es).known <==> Introduced(es)
  {
    if es != [] {
      KnownIffIntroduced(self, es[..|es| - 1]);
    }
  }

  /** A request is passed on, to a connection or to the messages that wait for one, exactly when
      the peer was introduced before; otherwise nobody will answer it. */
  lemma PassedOnIff(self: seq<byte>, es: seq<Event>, f: Frame)
    requires !Run(self, es).crashed && Acceptable(f)
    ensures var p := Run(self, es); var q := Step(self, p, Submit(f));
      (|q.wire| + |q.waiting| + |q.lost| == |p.wire| + |p.waiting| + |p.lost| + 1) <==> Introduced(es)
  {
    KnownIffIntroduced(self, es);
  }

  predicate NeverCloses(es: seq<Event>) {
    es != [] ==> NeverCloses(es[..|es| - 1]) && !es[|es| - 1].Closed? && !es[|es| - 1].InboundClosed?
  }

  /** Until something disconnects, nothing is lost. */
  lemma {:induction false} NothingLostWhileOpen(self: seq<byte>, es: seq<Event>)
    requires NeverCloses(es)
    ensures Run(self, es).lost == [] && (Run(self, es).link.NoLink? || Run(self, es).link.open)
  {
    if es != [] {
      NothingLostWhileOpen(self, es[..|es| - 1]);
    }
  }

  /** A step loses a frame exactly when the pointer still names a connection that ended: the
      disconnection does not reset it. */
  lemma LosesExactlyWhen(self: seq<byte>, p: Peer, f: Frame)
    requires !p.crashed && Acceptable(f)
    ensures Step(self, p, Submit(f)).lost != p.lost <==> p.known && !p.link.NoLink? && !p.link.Open()
  {
    assert (p.lost + [f])[|p.lost|] == f;
  }

  // ------------------------------------------------- connections and null pointers

  /** The client's callbacks come for a connection that was started, `Closed` after `Opened`. */
  predicate Orderly(p: Peer, e: Event) {
    && (e.Opened? ==> p.status.Connecting? || p.connects > 0)
    && (e.Closed? ==> !p.link.NoLink?)
  }

  predicate AllOrderly(self: seq<byte>, es: seq<Event>) {
    es != [] ==> AllOrderly(self, es[..|es| - 1]) && Orderly(Run(self, es[..|es| - 1]), es[|es| - 1])
  }

  /** A connection is under way or was made at most once, and never for an unknown peer. */
  predicate ConnectSound(p: Peer) {
    && p.connects <= 1
    && (p.link.NoLink? ==> (p.status.Connecting? <==> p.connects == 1))
    && (p.link.NoLink? ==> !p.status.Connected? && p.wire == [] && p.lost == [])
    && (!p.known ==> p.link.NoLink? && p.connects == 0)
    && (p.waiting != [] ==> p.connects == 1)
  }

  lemma StepConnects(self: seq<byte>, p: Peer, e: Event)
    requires ConnectSound(p) && Orderly(p, e)
    ensures ConnectSound(Step(self, p, e))
  {
  }

  /** A peer is connected to at most once: messages wait only while the connection is on its
      way, and once there has been one its pointer is never reset. */
  lemma {:induction false} ConnectsOnce(self: seq<byte>, es: seq<Event>)
    requires AllOrderly(self, es)
    ensures ConnectSound(Run(self, es))
  {
    if es != [] {
      ConnectsOnce(self, es[..|es| - 1]);
      StepConnects(self, Run(self, es[..|es| - 1]), es[|es| - 1]);
    }
  }

  /** A result goes through a null pointer exactly if the peer was introduced and no connection
      with it was ever made. */
  lemma NullPointerIff(self: seq<byte>, es: seq<Event>, f: Frame)
    requires !Run(self, es).crashed && Acceptable(f)
    ensures Step(self, Run(self, es), Answer(f)).crashed <==> Introduced(es) && !Linked(es)
  {
    LinkedIff(self, es);
    KnownIffIntroduced(self, es);
  }

  /** Results are given for requests recorded under the peer's name, which come over connections
      that registered with it. What comes over our own connection is recorded under the name in
      the confirmation and answered through that entry. */
  predicate AnswersOnly(es: seq<Event>) {
    es != [] ==> (
      && AnswersOnly(es[..|es| - 1])
      && (es[|es| - 1].Answer? ==> Linked(es[..|es| - 1])))
  }

  lemma StepDoesNotCrash(self: seq<byte>, p: Peer, e: Event)
    requires !p.crashed && (e.Answer? ==> !p.link.NoLink?)
    ensures !Step(self, p, e).crashed
  {
  }

  lemma {:induction false} LinksStay(self: seq<byte>, es: seq<Event>)
    requires AnswersOnly(es)
    ensures !Run(self, es).crashed
  {
    if es != [] {
      LinksStay(self, es[..|es| - 1]);
      LinkedIff(self, es[..|es| - 1]);
      StepDoesNotCrash(self, Run(self, es[..|es| - 1]), es[|es| - 1]);
    }
  }

  // ------------------------------------------------------------------ ended connections

  /** The last connection that was made is ours. */
  predicate Outward(es: seq<Event>) {
    es != [] && (es[|es| - 1].Opened? || (!es[|es| - 1].Registered? && Outward(es[..|es| - 1])))
  }

  /** The last connection that was made has ended. */
  predicate Ended(es: seq<Event>) {
    es != [] && match es[|es| - 1]
      case Opened => false
      case Registered(_) => false
      case Closed => Outward(es[..|es| - 1]) || Ended(es[..|es| - 1])
      case InboundClosed => (Linked(es[..|es| - 1]) && !Outward(es[..|es| - 1])) || Ended(es[..|es| - 1])
      case _ => Ended(es[..|es| - 1])
  }

  function LinkAfter(es: seq<Event>): Link {
    if !Linked(es) then NoLink else if Outward(es) then Outbound(!Ended(es)) else Inbound(!Ended(es))
  }

  lemma StepLink(self: seq<byte>, p: Peer, e: Event)
    requires !Step(self, p, e).crashed
    ensures !p.crashed
    ensures Step(self, p, e).link ==
      match e
      case Opened => Outbound(true)
      case Registered(_) => Inbound(true)
      case Closed => if p.link.Outbound? then Outbound(false) else p.link
      case InboundClosed => if p.link.Inbound? then Inbound(false) else p.link
      case _ => p.link
  {
  }

  lemma {:induction false} LinkIsTheLast(self: seq<byte>, es: seq<Event>)
    requires !Run(self, es).crashed
    ensures Run(self, es).link == LinkAfter(es)
  {
    if es != [] {
      StepLink(self, Run(self, es[..|es| - 1]), es[|es| - 1]);
      LinkIsTheLast(self, es[..|es| - 1]);
    }
  }

  /** The status, from what happened last: the first frame for a known peer starts the client. */
  function StatusAfter(es: seq<Event>): Status {
    if es == [] then Disconnected
    else
      var before := StatusAfter(es[..|es| - 1]);
      match es[|es| - 1]
      case Opened => Connected
      case Registered(_) => Connected
      case Closed => Disconnected
      case Submit(f) =>
        if before.Disconnected? && Acceptable(f) && Introduced(es[..|es| - 1]) && !Linked(es[..|es| - 1]) then Connecting
        else before
      case _ => before
  }

  /** On every run the status is that of the last connection, whoever made it. */
  lemma {:induction false} StatusIsTheLast(self: seq<byte>, es: seq<Event>)
    requires !Run(self, es).crashed
    ensures Run(self, es).status == StatusAfter(es)
  {
    if es != [] {
      var before := es[..|es| - 1];
      StepLinks(self, Run(self, before), es[|es| - 1]);
      StatusIsTheLast(self, before);
      LinkedIff(self, before);
      KnownIffIntroduced(self, before);
    }
  }

  /** On every run a frame for a peer that was introduced is lost exactly if the last connection with
      it has ended; before there was one it waits, and while it is there it is written. */
  lemma LostIffEnded(self: seq<byte>, es: seq<Event>, f: Frame)
    requires !Run(self, es).crashed && Acceptable(f) && Introduced(es)
    ensures var p := Run(self, es); var q := Step(self, p, Submit(f));
      && q.lost == p.lost + (if Linked(es) && Ended(es) then [f] else [])
      && q.wire == p.wire + (if Linked(es) && !Ended(es) then [f] else [])
      && q.waiting == p.waiting + (if !Linked(es) then [f] else [])
  {
    LinkIsTheLast(self, es);
    KnownIffIntroduced(self, es);
    var p := Run(self, es);
    assert p.lost + [] == p.lost && p.wire + [] == p.wire && p.waiting + [] == p.waiting;
  }

  // -------------------------------------------------------------------- order

  predicate NoRegistration(es: seq<Event>) {
    forall e :: e in es ==> !e.Registered?
  }

  /** The first confirmation on our connection: after how many frames it came, and what the header
      sent back for it says. */
  function FirstConfirmed(es: seq<Event>): (r: Option<(nat, seq<byte>)>)
    ensures r.Some? ==> r.value.0 <= |Taken(es)|
  {
    if es == [] then None
    else
      var before, e := es[..|es| - 1], es[|es| - 1];
      if FirstConfirmed(before).Some? then FirstConfirmed(before)
      else if e.Confirmed? && Opened in before then Some((|Taken(before)|, e.reply))
      else None
  }

  /** The frames taken, with one more header in the place where our registration was confirmed. */
  function Written(es: seq<Event>): seq<Frame> {
    match FirstConfirmed(es)
    case None => Taken(es)
    case Some((i, reply)) => Taken(es)[..i] + [Hello(reply)] + Taken(es)[i..]
  }

  /** Nothing is closed, so the client's callback reports one connection. */
  predicate OpensOnce(es: seq<Event>) {
    es != [] ==> OpensOnce(es[..|es| - 1]) && (es[|es| - 1].Opened? ==> Opened !in es[..|es| - 1])
  }

  ghost predicate InOrder(self: seq<byte>, p: Peer, written: seq<Frame>) {
    if p.link.NoLink? then p.wire == [] && p.waiting == written
    else p.link.open && p.waiting == [] && p.wire == [Hello(self)] + written
  }

  /** Without a connection from the peer's side, the wire carries the registration and then
      the frames in the order they were given since the peer was introduced, with one confirmation
      among them where the peer's came; until the connection is there they wait in that order. */
  lemma {:induction false} WireKeepsOrder(self: seq<byte>, es: seq<Event>)
    requires NeverCloses(es) && NoRegistration(es) && !Run(self, es).crashed && OpensOnce(es)
    ensures var p := Run(self, es);
      && (p.link.NoLink? <==> Opened !in es) && (p.confirmed <==> FirstConfirmed(es).Some?)
      && if p.link.NoLink? then p.wire == [] && p.waiting == Taken(es)
         else p.waiting == [] && p.wire == [Hello(self)] + Written(es)
  {
    if es != [] {
      var before, e := es[..|es| - 1], es[|es| - 1];
      assert es == before + [e];
      WireKeepsOrder(self, before);
      NothingLostWhileOpen(self, before);
      NotConfirmedBefore(before);
      WrittenMore(before, e);
      if e.Opened? {
        OpensInOrder(self, Run(self, before), Written(before));
      } else {
        KnownIffIntroduced(self, before);
        NextInOrder(self, Run(self, before), e, Written(before));
      }
    }
  }

  lemma OpensInOrder(self: seq<byte>, p: Peer, written: seq<Frame>)
    requires !p.crashed && p.link.NoLink? && p.wire == [] && p.waiting == written
    ensures InOrder(self, Step(self, p, Opened), written)
    ensures !Step(self, p, Opened).link.NoLink? && !Step(self, p, Opened).confirmed
  {
    assert [] + [Hello(self)] == [Hello(self)];
  }

  lemma {:induction false} NotConfirmedBefore(es: seq<Event>)
    ensures Opened !in es ==> FirstConfirmed(es) == None && Written(es) == Taken(es)
  {
    if es != [] {
      NotConfirmedBefore(es[..|es| - 1]);
    }
  }

  /** What an event adds to the frames written. */
  function More(before: seq<Event>, e: Event): seq<Frame> {
    if e.Confirmed? then
      if FirstConfirmed(before).None? && Opened in before then [Hello(e.reply)] else []
    else if Introduced(before) then GivenBy(e) else []
  }

  lemma WrittenMore(before: seq<Event>, e: Event)
    ensures Written(before + [e]) == Written(before) + More(before, e)
  {
    var es := before + [e];
    assert es[..|es| - 1] == before;
    match FirstConfirmed(before)
    case Some((i, reply)) => TakenBehind(Taken(before), i, Taken(es)[|Taken(before)|..], Hello(reply));
    case None =>
  }

  lemma TakenBehind(taken: seq<Frame>, i: nat, more: seq<Frame>, hello: Frame)
    requires i <= |taken|
    ensures (taken + more)[..i] + [hello] + (taken + more)[i..] == taken[..i] + [hello] + taken[i..] + more
  {
  }

  lemma NextInOrder(self: seq<byte>, p: Peer, e: Event, written: seq<Frame>)
    requires !Step(self, p, e).crashed && !p.crashed && !e.Opened? && !e.Closed? && !e.InboundClosed? && !e.Registered?
    requires InOrder(self, p, written)
    ensures var q := Step(self, p, e);
      var more := if e.Confirmed? then if p.confirmed || p.link.NoLink? then [] else [Hello(e.reply)]
        else if p.known then GivenBy(e) else [];
      q.link == p.link && InOrder(self, q, written + more)
  {
    var more := if e.Confirmed? then if p.confirmed || p.link.NoLink? then [] else [Hello(e.reply)]
      else if p.known then GivenBy(e) else [];
    assert written + [] == written;
    Bytes.Assoc([Hello(self)], written, more);
  }

  // ------------------------------------------------------- what the peer receives

  /** The peer has no entry of our name, or one between frames. */
  predicate Ready(known: map<seq<byte>, Framing.Entry>, self: seq<byte>) {
    var e := Framing.EntryNamed(known, self);
    e.peer == Framing.Process(self) && e.waiting == 0
  }

  /** Our connection at the peer, once it has registered. */
  function AtPeer(known: map<seq<byte>, Framing.Entry>, self: seq<byte>): Framing.Conn {
    Framing.Register(Framing.Fresh0(Framing.AtProcess(known), {}), self).1
  }

  ghost predicate AllWritable(fs: seq<Frame>) {
    forall i :: 0 <= i < |fs| ==> Writable(fs[i])
  }

  lemma AtPeerHears(known: map<seq<byte>, Framing.Entry>, self: seq<byte>, fs: seq<Frame>)
    requires Framing.KnownSound(Framing.AtProcess(known)) && Ready(known, self) && AllWritable(fs)
    ensures Listening(AtPeer(known, self)) && AllHeard(AtPeer(known, self), fs)
  {
    assert AtPeer(known, self).peer == Some(Framing.Process(self)) && AtPeer(known, self).side == Framing.AtProcess(known);
    forall i | 0 <= i < |fs| ensures Hears(AtPeer(known, self), fs[i]) {
    }
  }

  lemma GreetingDecodes(known: map<seq<byte>, Framing.Entry>, self: seq<byte>, fs: seq<Frame>)
    requires Plain(self, 32) && Framing.KnownSound(Framing.AtProcess(known)) && Ready(known, self) && AllWritable(fs)
    ensures Framing.Decode(Framing.Fresh0(Framing.AtProcess(known), {}), EncodeAll([Hello(self)] + fs)).events ==
      [Framing.Registered(Framing.Process(self))] + Arrivals(AtPeer(known, self), fs)
  {
    var c := Framing.Fresh0(Framing.AtProcess(known), {});
    var header := GreetingFirst(self, fs);
    GreetingStep(c, header, self, EncodeAll(fs));
    AtPeerHears(known, self, fs);
    DecodesWhatWasWritten(AtPeer(known, self), fs);
  }

  lemma GreetingFirst(self: seq<byte>, fs: seq<Frame>) returns (header: seq<byte>)
    requires Plain(self, 32)
    ensures EncodeAll([Hello(self)] + fs) == header + EncodeAll(fs)
    ensures |header| == TCP_SIZE && Parse(Tcp, header) == Success(PROCESS_CONNECTION)
    ensures Get(header, Framing.NAME) == Str(self)
  {
    var hello := Hello(self);
    header := Header(hello);
    ReadInvertsWrite(hello);
    assert ([hello] + fs)[1..] == fs && Encode(hello) == header;
  }

  lemma GreetingStep(c: Framing.Conn, header: seq<byte>, self: seq<byte>, rest: seq<byte>)
    requires c.Valid() && c.side.AtProcess? && c.peer.None? && !c.failed && c.waiting == 0 && Ready(c.side.known, self)
    requires |header| == TCP_SIZE && Parse(Tcp, header) == Success(PROCESS_CONNECTION)
    requires Get(header, Framing.NAME) == Str(self)
    ensures Framing.Register(c, self).1.Valid()
    ensures Framing.Decode(c, header + rest) == Framing.After(
      [Framing.Registered(Framing.Process(self))], Framing.Decode(Framing.Register(c, self).1, rest))
  {
    var bytes := header + rest;
    assert bytes[..TCP_SIZE] == header && bytes[TCP_SIZE..] == rest;
  }

  /** The names and payloads on the wire fit their fields. */
  ghost predicate Fitting(es: seq<Event>) {
    AllWritable(Taken(es)) && (FirstConfirmed(es).Some? ==> Plain(FirstConfirmed(es).value.1, 32))
  }

  lemma WrittenIsWritable(es: seq<Event>)
    requires Fitting(es)
    ensures AllWritable(Written(es))
  {
    match FirstConfirmed(es)
    case None =>
    case Some((i, reply)) => OneMoreWritable(Taken(es), i, Hello(reply));
  }

  lemma OneMoreWritable(fs: seq<Frame>, i: nat, f: Frame)
    requires AllWritable(fs) && i <= |fs| && Writable(f)
    ensures AllWritable(fs[..i] + [f] + fs[i..])
  {
    var all := fs[..i] + [f] + fs[i..];
    forall j | 0 <= j < |all| ensures Writable(all[j]) {
      assert all[j] == if j < i then fs[j] else if j == i then f else fs[j - 1];
    }
  }

  /**
   * End to end between two processes: a peer whose entry of our name is between frames, and not
   * disturbed by other connections of that name, has handed on or still holds unread, in whatever
   * chunks the wire's bytes come, our registration and then exactly the frames given for it since
   * it was introduced, in order, with the confirmation of its own confirmation among them.
   */
  lemma GivenFramesArrive(self: seq<byte>, es: seq<Event>, known: map<seq<byte>, Framing.Entry>, chunks: seq<seq<byte>>)
    requires NeverCloses(es) && NoRegistration(es) && OpensOnce(es) && !Run(self, es).crashed && Opened in es
    requires Plain(self, 32) && Framing.KnownSound(Framing.AtProcess(known)) && Ready(known, self) && Fitting(es)
    requires Bytes.Flatten(chunks) == EncodeAll(Run(self, es).wire)
    ensures var d := Framing.HandleAll(Framing.Fresh0(Framing.AtProcess(known), {}), [], chunks);
      d.events + Framing.Decode(d.conn, d.rest).events ==
        [Framing.Registered(Framing.Process(self))] + Arrivals(AtPeer(known, self), Written(es))
  {
    WireKeepsOrder(self, es);
    WrittenIsWritable(es);
    GreetingDecodes(known, self, Written(es));
    Framing.NothingLostInChunks(Framing.Fresh0(Framing.AtProcess(known), {}), [], chunks);
    assert [] + Bytes.Flatten(chunks) == Bytes.Flatten(chunks);
  }

  // --------------------------------------------------------- the connection object

  function Encoded(fs: seq<Frame>): seq<seq<byte>> {
    if fs == [] then [] else [Encode(fs[0])] + Encoded(fs[1..])
  }

  lemma {:induction false} EncodedMore(a: seq<Frame>, b: seq<Frame>)
    ensures Encoded(a + b) == Encoded(a) + Encoded(b)
  {
    if a == [] {
      assert a + b == b;
    } else {
      assert (a + b)[1..] == a[1..] + b;
      EncodedMore(a[1..], b);
      Bytes.Assoc([Encode(a[0])], Encoded(a[1..]), Encoded(b));
    }
  }

  lemma {:induction false} EncodeIsFlat(fs: seq<Frame>)
    ensures EncodeAll(fs) == Bytes.Flatten(Encoded(fs))
  {
    if fs != [] {
      EncodeIsFlat(fs[1..]);
      assert Encoded(fs)[1..] == Encoded(fs[1..]);
    }
  }

  lemma EncodeMore(a: seq<Frame>, b: seq<Frame>)
    ensures EncodeAll(a + b) == EncodeAll(a) + EncodeAll(b)
  {
    EncodeIsFlat(a);
    EncodeIsFlat(b);
    EncodeIsFlat(a + b);
    EncodedMore(a, b);
    Bytes.FlattenConcat(Encoded(a), Encoded(b));
  }

  lemma EncodeOne(fs: seq<Frame>, f: Frame)
    ensures EncodeAll(fs + [f]) == EncodeAll(fs) + Header(f) + Payload(f)
  {
    EncodeMore(fs, [f]);
    assert EncodeAll([f]) == Encode(f) + [];
    Bytes.Assoc(EncodeAll(fs), Header(f), Payload(f));
  }

  /** Frames as `pendings_msgs` keeps them. */
  function Stored(fs: seq<Frame>): (r: seq<(seq<byte>, seq<byte>)>)
    ensures |r| == |fs|
  {
    if fs == [] then [] else Stored(fs[..|fs| - 1]) + [(Header(fs[|fs| - 1]), Payload(fs[|fs| - 1]))]
  }

  lemma {:induction false} StoredAt(fs: seq<Frame>, i: nat)
    requires i < |fs|
    ensures Stored(fs)[i].0 == Header(fs[i]) && Stored(fs)[i].1 == Payload(fs[i])
  {
    if i < |fs| - 1 {
      StoredAt(fs[..|fs| - 1], i);
    }
  }

  lemma OneMoreFrame(before: seq<Frame>, fs: seq<Frame>, i: nat)
    requires i < |fs|
    ensures before + fs[..i] + [fs[i]] == before + fs[..i + 1]
  {
  }

  /** `Connection`, with the messages kept as their header and payload bytes; the frames they
      stand for are ghost. */
  class Connection {
    const self: seq<byte>
    var known: bool
    var status: Status
    var link: Link
    var pendings: seq<(seq<byte>, seq<byte>)>
    var sent: seq<byte>
    var confirmed: bool
    ghost var peer: Peer

    ghost predicate Valid()
      reads this
    {
      && peer.known == known && peer.status == status && peer.link == link && peer.confirmed == confirmed && !peer.crashed
      && sent == EncodeAll(peer.wire)
      && pendings == Stored(peer.waiting)
    }

    constructor (self: seq<byte>)
      ensures Valid() && peer == Unused && this.self == self
    {
      this.self := self;
      known, status, link, pendings, sent, confirmed, peer := false, Disconnected, NoLink, [], [], false, Unused;
    }

    /** The registration, or its confirmation, on a connection just made. */
    method WriteHello(name: seq<byte>)
      requires sent == EncodeAll(peer.wire)
      modifies this`sent, this`peer
      ensures sent == EncodeAll(peer.wire) && peer == old(peer).(wire := old(peer).wire + [Hello(name)])
    {
      var header := Header(Hello(name));
      EncodeOne(peer.wire, Hello(name));
      assert sent + header + [] == sent + header;
      sent := sent + header;
      peer := peer.(wire := peer.wire + [Hello(name)]);
    }

    /** `conn->send`, of the header and then of the payload. */
    method Write(ghost f: Frame, header: seq<byte>, payload: seq<byte>)
      requires Valid() && !link.NoLink? && header == Header(f) && payload == Payload(f)
      modifies this`sent, this`peer
      ensures Valid() && peer == Send(old(peer), [f])
    {
      if link.open {
        EncodeOne(peer.wire, f);
        sent := sent + header;
        sent := sent + payload;
      }
      peer := Send(peer, [f]);
    }

    /** A message without a connection: it is kept, and the first one starts the client. */
    method KeepPending(f: Frame)
      requires Valid() && known && link.NoLink? && Acceptable(f)
      modifies this`status, this`pendings, this`peer
      ensures Valid() && peer == Submitted(old(peer), f)
    {
      assert (peer.waiting + [f])[..|peer.waiting|] == peer.waiting;
      pendings := pendings + [(Header(f), Payload(f))];
      if status.Disconnected? {
        status := Connecting;
      }
      peer := Submitted(peer, f);
    }

    /** `put_message` and `invocation_request`: they differ in the header they build. */
    method SubmitFrame(f: Frame) returns (r: Result<()>)
      requires Valid()
      modifies this
      ensures Valid() && peer == Step(self, old(peer), Submit(f))
      ensures r.Failure? <==> known && !Acceptable(f)
    {
      if !known {
        peer := peer.(dropped := peer.dropped + [f]);
        return Success(());
      }
      if !Acceptable(f) {
        return Failure(InvalidArgument);
      }
      if link.NoLink? {
        KeepPending(f);
      } else {
        Write(f, Header(f), Payload(f));
      }
      return Success(());
    }

    /** `invocation_result`: an unknown recipient is ignored. */
    method SendResult(f: Frame) returns (r: Result<()>)
      requires Valid() && (known && Acceptable(f) ==> !link.NoLink?)
      modifies this
      ensures Valid() && peer == Step(self, old(peer), Answer(f))
      ensures r.Failure? <==> known && !Acceptable(f)
    {
      if !known {
        peer := peer.(dropped := peer.dropped + [f]);
        return Success(());
      }
      if !Acceptable(f) {
        return Failure(InvalidArgument);
      }
      Write(f, Header(f), Payload(f));
      return Success(());
    }

    /** The bytes of one pending message; an empty payload is not sent. */
    method WriteBytes(header: seq<byte>, payload: seq<byte>, ghost f: Frame, ghost before: seq<Frame>)
      requires sent == EncodeAll(before) && header == Header(f) && payload == Payload(f)
      modifies this`sent
      ensures sent == EncodeAll(before + [f])
    {
      EncodeOne(before, f);
      assert payload == [] ==> sent + header + payload == sent + header;
      sent := sent + header;
      if |payload| > 0 {
        sent := sent + payload;
      }
    }

    /** The connection object that is used from now on. */
    method Attach(l: Link)
      modifies this`status, this`link, this`peer
      ensures status == Connected && link == l
      ensures peer == old(peer).(status := Connected, link := l)
    {
      status, link := Connected, l;
      peer := peer.(status := Connected, link := l);
    }

    /** The loop over `pendings_msgs`. */
    method Flush()
      requires Valid()
      modifies this`sent, this`pendings, this`peer
      ensures Valid() && peer == old(peer).(wire := old(peer).wire + old(peer).waiting, waiting := [])
    {
      var i := 0;
      ghost var before, waiting := peer.wire, peer.waiting;
      assert before + waiting[..0] == before;
      while i < |pendings|
        invariant 0 <= i <= |waiting| && pendings == Stored(waiting)
        invariant sent == EncodeAll(before + waiting[..i]) && peer == old(peer)
      {
        StoredAt(waiting, i);
        OneMoreFrame(before, waiting, i);
        WriteBytes(pendings[i].0, pendings[i].1, waiting[i], before + waiting[..i]);
        i := i + 1;
      }
      assert waiting[..i] == waiting;
      pendings := [];
      peer := peer.(wire := before + waiting, waiting := []);
    }

    /** The client's callback once it is connected: registers, then flushes what waits. */
    method OnOpened()
      requires Valid()
      modifies this
      ensures Valid() && peer == Step(self, old(peer), Opened)
    {
      WriteHello(self);
      Flush();
      Attach(Outbound(true));
      confirmed, peer := false, peer.(confirmed := false);
    }

    /** The peer's confirmation: our connection has no context, so `_handle_connection` takes it for
        a registration and confirms it. With the context there is then, the next one is only logged. */
    method OnConfirmed(reply: seq<byte>)
      requires Valid()
      modifies this
      ensures Valid() && peer == Step(self, old(peer), Confirmed(reply))
    {
      if confirmed || link.NoLink? {
        return;
      }
      WriteHello(reply);
      confirmed, peer := true, peer.(confirmed := true);
    }

    method OnClosed()
      requires Valid()
      modifies this
      ensures Valid() && peer == Step(self, old(peer), Closed)
    {
      status := Disconnected;
      if link.Outbound? {
        link := Outbound(false);
      }
      peer := Step(self, peer, Closed);
    }

    /** `_handle_app_update`; the address is not modelled. */
    method OnAnnounced()
      requires Valid()
      modifies this`known, this`peer
      ensures Valid() && peer == Step(self, old(peer), Announced)
    {
      known := true;
      peer := peer.(known := true);
    }

    /** `_handle_connection`, for a peer that has an entry or gets one now. */
    method OnRegistered(reply: seq<byte>)
      requires Valid()
      modifies this
      ensures Valid() && peer == Step(self, old(peer), Registered(reply))
    {
      OnAnnounced();  // the entry, if there is none
      WriteHello(reply);
      Attach(Inbound(true));
    }
  }
}
