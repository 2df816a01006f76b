/**
 * The TCP stream decoders of the control plane (`control_plane::tcpserver::TCPServer`) and of
 * the process (`process::remote::TCPServer`). Bytes arrive in arbitrary chunks; a frame is a
 * 70-byte header, followed for some message types by a payload.
 */
module Framing {
  import opened Wrappers
  import opened Bytes
  import opened Messages

  type Name = seq<byte>

  /** "DATA_PLANE", "CONTROL_PLANE". */
  const DATAPLANE_ID: Name := [68, 65, 84, 65, 95, 80, 76, 65, 78, 69]
  const CONTROLPLANE_ID: Name := [67, 79, 78, 84, 82, 79, 76, 95, 80, 76, 65, 78, 69]

  datatype Peer = DataPlane | ControlPlane | Process(name: Name)

  /**
   * What a process keeps under a peer's name: who it is, `bytes_to_read`, `cur_msg` and which
   * TCP connection the pointer `conn` names. All connections registered under the name share it.
   */
  datatype Entry = Entry(peer: Peer, waiting: nat, msg: seq<byte>, conn: Option<nat>)

  /** Whose decoder it is, at a process with the entries there when a connection registers. */
  datatype Side = AtControlPlane | AtProcess(known: map<Name, Entry>)

  /** What a decoded frame is passed to. */
  datatype Handler = Finish | Metrics | Swapped | Closing | ToController | UpdateView | Confirmation | Unsupported

  datatype Event =
    | Registered(peer: Peer)
    | UnknownProcess(name: Name)
    | Dropped(header: seq<byte>)
    | Message(peer: Peer, handler: Handler, header: seq<byte>, payload: seq<byte>)

  /** A payload is waited for only behind a header that announces one. */
  predicate MidFrame(side: Side, waiting: nat, msg: seq<byte>) {
    |msg| == TCP_SIZE && (waiting > 0 ==> Parse(Tcp, msg).Success? && Announced(side, Parse(Tcp, msg).value, msg).Some?)
  }

  ghost predicate KnownSound(side: Side) {
    side.AtProcess? ==> forall n :: n in side.known ==> MidFrame(AtProcess(map[]), side.known[n].waiting, side.known[n].msg)
  }

  /** A connection: who registered on it and under which name, the processes waited for,
      `bytes_to_read` and `cur_msg`. An exception ends the event loop, so nothing is decoded
      after one. */
  datatype Conn = Conn(
    side: Side, peer: Option<Peer>, name: Name, pending: set<Name>, waiting: nat, msg: seq<byte>, failed: bool)
  {
    ghost predicate Valid() {
      MidFrame(side, waiting, msg) && (waiting > 0 ==> peer.Some?) && KnownSound(side)
    }
  }

  function Fresh0(side: Side, pending: set<Name>): Conn {
    Conn(side, None, [], pending, 0, Zeros(TCP_SIZE), false)
  }

  // ----------------------------------------------------------------- headers

  const PAYLOAD_SIZE := Num(6, I32, true)
  const NAME := Text(6, 32, 32)

  /** The payload a header announces, as `size_t`; types without payload give `None`. */
  function Announced(side: Side, t: int, header: seq<byte>): Option<nat>
    requires |header| == TCP_SIZE
  {
    var total := ToSize(Wrap32(Get(header, TOTAL).num));
    if t == INVOCATION_RESULT || (t == PUT_MESSAGE && side.AtProcess?) then Some(total)
    else if t == INVOCATION_REQUEST && side.AtProcess? then Some(ToSize(Wrap32(Get(header, PAYLOAD_SIZE).num)))
    else None
  }

  function HandlerOf(side: Side, t: int): Handler {
    if side.AtControlPlane? then
      if t == INVOCATION_RESULT then Finish
      else if t == DATAPLANE_METRICS then Metrics
      else if t == SWAP_CONFIRMATION then Swapped
      else if t == PROCESS_CLOSURE then Closing
      else Unsupported
    else
      if t == INVOCATION_REQUEST || t == INVOCATION_RESULT || t == PUT_MESSAGE then ToController
      else if t == APPLICATION_UPDATE then UpdateView
      else if t == PROCESS_CONNECTION then Confirmation
      else Unsupported
  }

  /** Results and messages can only come from a process: elsewhere there is no id to read. */
  predicate NeedsProcess(side: Side, t: int) {
    side.AtProcess? && (t == INVOCATION_RESULT || t == PUT_MESSAGE)
  }

  function PeerNamed(name: Name): Peer {
    if name == DATAPLANE_ID then DataPlane
    else if name == CONTROLPLANE_ID then ControlPlane
    else Process(name)
  }

  function EntryNamed(known: map<Name, Entry>, name: Name): Entry {
    if name in known then known[name] else Entry(PeerNamed(name), 0, Zeros(TCP_SIZE), None)
  }

  /** `handle_connection` and `_handle_connection`: at a process the connection takes over the
      entry of its name, in whatever frame another connection has left it. */
  function Register(c: Conn, name: Name): (Event, Conn) {
    match c.side
    case AtControlPlane =>
      if name in c.pending then
        (Registered(Process(name)),
         c.(peer := Some(Process(name)), name := name, pending := c.pending - {name}, waiting := 0, msg := Zeros(TCP_SIZE)))
      else (UnknownProcess(name), c)
    case AtProcess(known) =>
      var e := EntryNamed(known, name);
      (Registered(e.peer), c.(peer := Some(e.peer), name := name, waiting := e.waiting, msg := e.msg))
  }

  // ------------------------------------------------------- reference decoder

  /** One step: nothing can be done with the bytes there are, or `used` bytes are consumed. */
  datatype Step = Stuck | Took(events: seq<Event>, next: Conn, used: nat)

  /** A complete frame of type `t`. */
  function Deliver(c: Conn, peer: Peer, t: int, header: seq<byte>, payload: seq<byte>, used: nat): Step {
    if NeedsProcess(c.side, t) && !peer.Process? then Took([], c.(failed := true), used)
    else Took([Message(peer, HandlerOf(c.side, t), header, payload)], c.(waiting := 0), used)
  }

  function Next(c: Conn, buf: seq<byte>): (s: Step)
    requires c.Valid()
    ensures s.Took? ==> s.next.Valid() && s.used <= |buf| && !c.failed && (s.next.failed || s.used > 0)
  {
    if c.failed then Stuck
    else if c.waiting > 0 then
      if |buf| < c.waiting then Stuck
      else Deliver(c, c.peer.value, Parse(Tcp, c.msg).value, c.msg, buf[..c.waiting], c.waiting)
    else if |buf| < TCP_SIZE then Stuck
    else
      var header := buf[..TCP_SIZE];
      match Parse(Tcp, header)
      case Failure(_) => Took([], c.(failed := true), 0)
      case Success(t) =>
        if c.peer.None? && t != PROCESS_CONNECTION then Took([Dropped(header)], c, TCP_SIZE)
        else if t == PROCESS_CONNECTION && (c.peer.None? || c.side.AtControlPlane?) then
          var (event, c') := Register(c, Get(header, NAME).text);
          Took([event], c', TCP_SIZE)
        else match Announced(c.side, t, header)
          case None => Took([Message(c.peer.value, HandlerOf(c.side, t), header, [])], c, TCP_SIZE)
          case Some(n) =>
            if n == 0 then Deliver(c.(msg := header), c.peer.value, t, header, [], TCP_SIZE)
            else Took([], c.(waiting := n, msg := header), TCP_SIZE)
  }

  datatype Decoded = Decoded(events: seq<Event>, conn: Conn, rest: seq<byte>)

  /** Everything that can be decoded from the bytes there are. */
  function Decode(c: Conn, buf: seq<byte>): (d: Decoded)
    requires c.Valid()
    ensures d.conn.Valid()
    decreases !c.failed, |buf|
  {
    match Next(c, buf)
    case Stuck => Decoded([], c, buf)
    case Took(events, c', used) => After(events, Decode(c', buf[used..]))
  }

  function After(events: seq<Event>, d: Decoded): Decoded {
    d.(events := events + d.events)
  }

  /** A step taken on the bytes there are is the step taken when more have arrived. */
  lemma MoreBytesSameStep(c: Conn, a: seq<byte>, b: seq<byte>)
    requires c.Valid() && Next(c, a).Took?
    ensures Next(c, a + b) == Next(c, a) && (a + b)[Next(c, a).used..] == a[Next(c, a).used..] + b
  {
    if c.waiting > 0 {
      assert (a + b)[..c.waiting] == a[..c.waiting];
    } else {
      assert (a + b)[..TCP_SIZE] == a[..TCP_SIZE];
    }
  }

  /**
   * Decoding does not depend on where the stream is cut: feeding `a` and then `b` gives the
   * same events, registration, `bytes_to_read`, `cur_msg` and unread bytes as feeding both
   * at once.
   */
  lemma {:induction false} ChunkingDoesNotMatter(c: Conn, a: seq<byte>, b: seq<byte>)
    requires c.Valid()
    ensures var first := Decode(c, a);
      var second := Decode(first.conn, first.rest + b);
      Decode(c, a + b) == After(first.events, second)
    decreases !c.failed, |a|
  {
    match Next(c, a)
    case Stuck =>
    case Took(events, c', used) =>
      MoreBytesSameStep(c, a, b);
      ChunkingDoesNotMatter(c', a[used..], b);
      var first := Decode(c', a[used..]);
      Assoc(events, first.events, Decode(first.conn, first.rest + b).events);
  }

  /** The control-plane decoder fed chunk by chunk. */
  function FeedAll(c: Conn, buf: seq<byte>, chunks: seq<seq<byte>>): (d: Decoded)
    requires c.Valid()
    ensures d.conn.Valid()
    decreases |chunks|
  {
    if chunks == [] then Decoded([], c, buf)
    else
      var d := Decode(c, buf + chunks[0]);
      After(d.events, FeedAll(d.conn, d.rest, chunks[1..]))
  }

  /** Any division of a stream into chunks decodes like the stream in one piece. */
  lemma {:induction false} FeedingIsDecoding(c: Conn, buf: seq<byte>, chunks: seq<seq<byte>>)
    requires c.Valid() && Next(c, buf).Stuck?
    ensures FeedAll(c, buf, chunks) == Decode(c, buf + Flatten(chunks))
    decreases |chunks|
  {
    if chunks == [] {
      assert buf + Flatten(chunks) == buf;
    } else {
      var d := Decode(c, buf + chunks[0]);
      DecodeEndsStuck(c, buf + chunks[0]);
      FeedingIsDecoding(d.conn, d.rest, chunks[1..]);
      Assoc(buf, chunks[0], Flatten(chunks[1..]));
      ChunkingDoesNotMatter(c, buf + chunks[0], Flatten(chunks[1..]));
    }
  }

  lemma {:induction false} DecodeEndsStuck(c: Conn, buf: seq<byte>)
    requires c.Valid()
    ensures Next(Decode(c, buf).conn, Decode(c, buf).rest).Stuck?
    decreases !c.failed, |buf|
  {
    match Next(c, buf)
    case Stuck =>
    case Took(_, c', used) => DecodeEndsStuck(c', buf[used..]);
  }

  /** A header that does not parse is left in the buffer. */
  lemma BadHeaderEnds(c: Conn, buf: seq<byte>)
    requires c.Valid() && !c.failed && c.waiting == 0 && |buf| >= TCP_SIZE && Parse(Tcp, buf[..TCP_SIZE]).Failure?
    ensures Decode(c, buf) == Decoded([], c.(failed := true), buf)
  {
    assert buf[0..] == buf;
    assert Decode(c.(failed := true), buf) == Decoded([], c.(failed := true), buf);
  }

  /** Reading a header and then its payload, whether or not the payload is there already. */
  lemma StartsFrame(c: Conn, buf: seq<byte>, t: int, n: nat)
    requires c.Valid() && !c.failed && c.waiting == 0 && c.peer.Some? && |buf| >= TCP_SIZE
    requires var header := buf[..TCP_SIZE];
      Parse(Tcp, header) == Success(t) && t != PROCESS_CONNECTION && Announced(c.side, t, header) == Some(n)
    ensures var header := buf[..TCP_SIZE];
      if n > 0 then Decode(c, buf) == Decode(c.(waiting := n, msg := header), buf[TCP_SIZE..])
      else Next(c, buf) == Deliver(c.(msg := header), c.peer.value, t, header, [], TCP_SIZE)
  {
    if n > 0 {
      var d := Decode(c.(waiting := n, msg := buf[..TCP_SIZE]), buf[TCP_SIZE..]);
      assert [] + d.events == d.events;
    }
  }

  // ----------------------------------------------------------- who may register

  /** Who is registered on the connection, and who is waited for. */
  datatype Guest = Guest(peer: Option<Peer>, pending: set<Name>)

  /** An event is in place: a registration at the control plane is of a name that is waited for, and
      any other name is reported as unknown; at a process anybody may register, once; a message is
      from whoever registered last; and only before a registration messages are dropped. */
  predicate InPlace(plane: bool, g: Guest, e: Event) {
    match e
    case Registered(peer) => if plane then peer.Process? && peer.name in g.pending else g.peer.None?
    case UnknownProcess(name) => plane && name !in g.pending
    case Dropped(_) => g.peer.None?
    case Message(peer, _, _, _) => g.peer == Some(peer)
  }

  function Admit(plane: bool, g: Guest, e: Event): Guest {
    if !e.Registered? then g
    else Guest(Some(e.peer), if plane && e.peer.Process? then g.pending - {e.peer.name} else g.pending)
  }

  predicate AllInPlace(plane: bool, g: Guest, events: seq<Event>)
    decreases |events|
  {
    events == [] || (InPlace(plane, g, events[0]) && AllInPlace(plane, Admit(plane, g, events[0]), events[1..]))
  }

  function AdmitAll(plane: bool, g: Guest, events: seq<Event>): Guest
    decreases |events|
  {
    if events == [] then g else AdmitAll(plane, Admit(plane, g, events[0]), events[1..])
  }

  lemma RegisterInPlace(c: Conn, name: Name)
    requires c.side.AtControlPlane? || c.peer.None?
    ensures var (e, d) := Register(c, name); var g := Guest(c.peer, c.pending); var plane := c.side.AtControlPlane?;
      d.side == c.side && InPlace(plane, g, e) && Guest(d.peer, d.pending) == Admit(plane, g, e)
  {
  }

  lemma StepInPlace(c: Conn, buf: seq<byte>)
    requires c.Valid() && Next(c, buf).Took?
    ensures var s, g := Next(c, buf), Guest(c.peer, c.pending); var plane := c.side.AtControlPlane?;
      && |s.events| <= 1 && s.next.side == c.side
      && (s.events == [] ==> Guest(s.next.peer, s.next.pending) == g)
      && (s.events != [] ==> InPlace(plane, g, s.events[0]) && Guest(s.next.peer, s.next.pending) == Admit(plane, g, s.events[0]))
  {
    if c.waiting > 0 {
      SpokenInPlace(c, buf);
    } else if Parse(Tcp, buf[..TCP_SIZE]) == Success(PROCESS_CONNECTION) && (c.peer.None? || c.side.AtControlPlane?) {
      RegisterInPlace(c, Get(buf[..TCP_SIZE], NAME).text);
      RegistersNext(c, buf);
    } else if c.peer.None? {
      DropsNext(c, buf);
    } else {
      SpokenInPlace(c, buf);
    }
  }

  lemma RegistersNext(c: Conn, buf: seq<byte>)
    requires c.Valid() && !c.failed && c.waiting == 0 && |buf| >= TCP_SIZE && (c.peer.None? || c.side.AtControlPlane?)
    requires Parse(Tcp, buf[..TCP_SIZE]) == Success(PROCESS_CONNECTION)
    ensures var (e, d) := Register(c, Get(buf[..TCP_SIZE], NAME).text); Next(c, buf) == Took([e], d, TCP_SIZE)
  {
  }

  lemma DropsNext(c: Conn, buf: seq<byte>)
    requires c.Valid() && !c.failed && c.waiting == 0 && |buf| >= TCP_SIZE && c.peer.None?
    requires Parse(Tcp, buf[..TCP_SIZE]) != Success(PROCESS_CONNECTION)
    ensures Next(c, buf) == if Parse(Tcp, buf[..TCP_SIZE]).Failure? then Took([], c.(failed := true), 0)
      else Took([Dropped(buf[..TCP_SIZE])], c, TCP_SIZE)
  {
  }

  /** What a registered connection sends changes only what it waits for. */
  lemma SpokenInPlace(c: Conn, buf: seq<byte>)
    requires c.Valid() && Next(c, buf).Took? && c.peer.Some?
    requires c.waiting > 0 || c.side.AtProcess? || Parse(Tcp, buf[..TCP_SIZE]) != Success(PROCESS_CONNECTION)
    ensures var s := Next(c, buf);
      && |s.events| <= 1 && s.next == c.(waiting := s.next.waiting, msg := s.next.msg, failed := s.next.failed)
      && (s.events != [] ==> s.events[0].Message? && Some(s.events[0].peer) == c.peer)
  {
  }

  /** Whatever bytes come, everything decoded is in place, and who is registered and waited for
      afterwards is what the registrations say: nobody registers who is not waited for, and nobody
      twice; and nothing is taken for a message of anybody else. */
  lemma {:induction false} EverythingIsInPlace(c: Conn, buf: seq<byte>)
    requires c.Valid()
    ensures var d, g := Decode(c, buf), Guest(c.peer, c.pending); var plane := c.side.AtControlPlane?;
      AllInPlace(plane, g, d.events) && Guest(d.conn.peer, d.conn.pending) == AdmitAll(plane, g, d.events)
    decreases !c.failed, |buf|
  {
    match Next(c, buf)
    case Stuck =>
    case Took(events, c', used) =>
      StepInPlace(c, buf);
      EverythingIsInPlace(c', buf[used..]);
      var later := Decode(c', buf[used..]).events;
      if events == [] {
        assert [] + later == later;
      } else {
        assert (events + later)[0] == events[0] && (events + later)[1..] == later;
      }
  }

  /** Of a peer that has not registered, one header after the other is dropped: each whole one, whatever
      payload it announces, so that a payload is read as further headers. */
  lemma StrangersAreDropped(c: Conn, header: seq<byte>, more: seq<byte>, t: int)
    requires c.Valid() && !c.failed && c.peer.None? && |header| == TCP_SIZE
    requires Parse(Tcp, header) == Success(t) && t != PROCESS_CONNECTION
    ensures Decode(c, header + more) == After([Dropped(header)], Decode(c, more))
  {
    var bytes := header + more;
    assert bytes[..TCP_SIZE] == header && bytes[TCP_SIZE..] == more;
  }

  // ---------------------------------------------- the control plane's decoder

  class PlaneConnection {
    var conn: Conn
    var buffer: seq<byte>
    var handled: seq<Event>

    ghost predicate Valid()
      reads this
    {
      conn.Valid() && conn.side.AtControlPlane?
    }

    constructor (pending: set<Name>)
      ensures Valid() && conn == Fresh0(AtControlPlane, pending) && buffer == [] && handled == []
    {
      conn, buffer, handled := Fresh0(AtControlPlane, pending), [], [];
    }

    /** `handle_invocation_result`: the start of a result frame, or its continuation. */
    method HandleInvocationResult(header: seq<byte>) returns (consumed: bool, ghost passed: seq<Event>)
      requires Valid() && !conn.failed && conn.peer.Some? && |header| == TCP_SIZE
      requires Parse(Tcp, header) == Success(INVOCATION_RESULT)
      requires if conn.waiting > 0 then conn.msg == header else |buffer| >= TCP_SIZE && buffer[..TCP_SIZE] == header
      modifies this
      ensures Valid() && handled == old(handled) + passed
      ensures Decode(old(conn), old(buffer)) == After(passed, Decode(conn, buffer))
      ensures if consumed then conn.waiting == 0 && |buffer| < |old(buffer)| else Next(conn, buffer).Stuck?
    {
      if conn.waiting == 0 {
        StartsFrame(conn, buffer, INVOCATION_RESULT, ToSize(Wrap32(Get(header, TOTAL).num)));
        conn := conn.(waiting := ToSize(Wrap32(Get(header, TOTAL).num)), msg := header);
        buffer := buffer[TCP_SIZE..];
      }
      if |buffer| >= conn.waiting {
        var event := Message(conn.peer.value, Finish, header, buffer[..conn.waiting]);
        handled := handled + [event];
        buffer := buffer[conn.waiting..];
        conn := conn.(waiting := 0);
        return true, [event];
      }
      return false, [];
    }

    /** Frames without payload: one event per header. */
    method HandleHeader(header: seq<byte>, kind: int) returns (ghost event: Event)
      requires Valid() && !conn.failed && conn.waiting == 0 && |buffer| >= TCP_SIZE && header == buffer[..TCP_SIZE]
      requires Parse(Tcp, header) == Success(kind) && (conn.peer.None? || kind != INVOCATION_RESULT)
      modifies this
      ensures Valid() && handled == old(handled) + [event]
      ensures Next(old(conn), old(buffer)) == Took([event], conn, TCP_SIZE) && buffer == old(buffer)[TCP_SIZE..]
    {
      var outcome;
      if kind == PROCESS_CONNECTION {
        var (e, c) := Register(conn, Get(header, NAME).text);
        outcome, conn := e, c;
      } else if conn.peer.None? {
        outcome := Dropped(header);
      } else {
        outcome := Message(conn.peer.value, HandlerOf(conn.side, kind), header, []);
      }
      handled := handled + [outcome];
      buffer := buffer[TCP_SIZE..];
      event := outcome;
    }

    /** `handle_message`, called for every chunk received and again while frames are complete. */
    method HandleMessage()
      requires Valid()
      modifies this
      ensures Valid()
      ensures var d := Decode(old(conn), old(buffer));
        handled == old(handled) + d.events && conn == d.conn && buffer == d.rest
      decreases |buffer|
    {
      if conn.failed || (conn.waiting == 0 && |buffer| < TCP_SIZE) {
        return;
      }
      var header := if conn.waiting > 0 then conn.msg else buffer[..TCP_SIZE];
      var parsed := Parse(Tcp, header);
      if parsed.Failure? {
        BadHeaderEnds(conn, buffer);
        conn := conn.(failed := true);
        return;
      }
      ghost var passed: seq<Event>;
      var consumed := true;
      if conn.peer.Some? && parsed.value == INVOCATION_RESULT {
        consumed, passed := HandleInvocationResult(header);
      } else {
        ghost var event := HandleHeader(header, parsed.value);
        passed := [event];
      }
      Assoc(old(handled), passed, Decode(conn, buffer).events);
      if consumed && |buffer| > 0 {
        HandleMessage();
      }
    }

    method Receive(chunk: seq<byte>)
      requires Valid()
      modifies this
      ensures Valid()
      ensures var d := Decode(old(conn), old(buffer) + chunk);
        handled == old(handled) + d.events && conn == d.conn && buffer == d.rest
    {
      buffer := buffer + chunk;
      HandleMessage();
    }
  }

  // ----------------------------------------------------- the process's decoder

  /** `_handle_message` drops the result of the visitor after a resumed payload, so it stops
      there even when more frames are complete; a registration goes on with the entry's frame. */
  function Handle(c: Conn, buf: seq<byte>): (d: Decoded)
    requires c.Valid()
    ensures d.conn.Valid()
    decreases !c.failed, |buf|
  {
    if c.waiting == 0 && c.peer.Some? then Decode(c, buf)
    else match Next(c, buf)
      case Stuck => Decoded([], c, buf)
      case Took(events, c', used) =>
        if c.waiting > 0 then Decoded(events, c', buf[used..]) else After(events, Handle(c', buf[used..]))
  }

  lemma BadHeaderStops(c: Conn, buf: seq<byte>)
    requires c.Valid() && !c.failed && c.waiting == 0 && |buf| >= TCP_SIZE && Parse(Tcp, buf[..TCP_SIZE]).Failure?
    ensures Handle(c, buf) == Decoded([], c.(failed := true), buf)
  {
    BadHeaderEnds(c, buf);
    assert buf[0..] == buf;
    assert Handle(c.(failed := true), buf) == Decoded([], c.(failed := true), buf);
  }

  lemma AfterAgain(a: seq<Event>, b: seq<Event>, d: Decoded)
    ensures After(a, After(b, d)) == After(a + b, d)
  {
    Assoc(a, b, d.events);
  }

  lemma AfterNothing(d: Decoded)
    ensures After([], d) == d
  {
    assert [] + d.events == d.events;
  }

  /** What the process passes on, plus what its unread bytes decode to, is what all bytes
      received decode to: nothing is lost, and frames are delayed at most. */
  lemma {:induction false} HandledSoFarAndUnread(c: Conn, buf: seq<byte>)
    requires c.Valid()
    ensures var d := Handle(c, buf);
      After(d.events, Decode(d.conn, d.rest)) == Decode(c, buf)
    decreases !c.failed, |buf|
  {
    if c.waiting == 0 && c.peer.Some? {
      var d := Decode(c, buf);
      DecodeEndsStuck(c, buf);
      assert d.events + [] == d.events;
    } else {
      match Next(c, buf)
      case Stuck => AfterNothing(Decode(c, buf));
      case Took(events, c', used) =>
        if c.waiting == 0 {
          HandledSoFarAndUnread(c', buf[used..]);
          var d := Handle(c', buf[used..]);
          AfterAgain(events, d.events, Decode(d.conn, d.rest));
        }
    }
  }

  function HandleAll(c: Conn, buf: seq<byte>, chunks: seq<seq<byte>>): (d: Decoded)
    requires c.Valid()
    ensures d.conn.Valid()
    decreases |chunks|
  {
    if chunks == [] then Decoded([], c, buf)
    else
      var d := Handle(c, buf + chunks[0]);
      After(d.events, HandleAll(d.conn, d.rest, chunks[1..]))
  }

  /** The same over any number of chunks, however the stream is cut. */
  lemma {:induction false} NothingLostInChunks(c: Conn, buf: seq<byte>, chunks: seq<seq<byte>>)
    requires c.Valid()
    ensures var d := HandleAll(c, buf, chunks);
      After(d.events, Decode(d.conn, d.rest)) == Decode(c, buf + Flatten(chunks))
    decreases |chunks|
  {
    if chunks == [] {
      assert buf + Flatten(chunks) == buf;
      assert [] + Decode(c, buf).events == Decode(c, buf).events;
    } else {
      var bytes, tail := buf + chunks[0], Flatten(chunks[1..]);
      var d := Handle(c, bytes);
      NothingLostInChunks(d.conn, d.rest, chunks[1..]);
      HandledSoFarAndUnread(c, bytes);
      Assoc(buf, chunks[0], tail);
      MoreAfterHandle(c, bytes, tail);
      var later := HandleAll(d.conn, d.rest, chunks[1..]);
      Assoc(d.events, later.events, Decode(later.conn, later.rest).events);
    }
  }

  lemma {:induction false} MoreAfterHandle(c: Conn, a: seq<byte>, b: seq<byte>)
    requires c.Valid()
    ensures var d := Handle(c, a);
      Decode(c, a + b) == After(d.events, Decode(d.conn, d.rest + b))
    decreases !c.failed, |a|
  {
    if c.waiting == 0 && c.peer.Some? {
      ChunkingDoesNotMatter(c, a, b);
    } else {
      match Next(c, a)
      case Stuck => AfterNothing(Decode(c, a + b));
      case Took(events, c', used) =>
        MoreBytesSameStep(c, a, b);
        if c.waiting == 0 {
          MoreAfterHandle(c', a[used..], b);
          var d := Handle(c', a[used..]);
          AfterAgain(events, d.events, Decode(d.conn, d.rest + b));
        }
    }
  }

  /** A payload is resumed, its own or the one it finds on registration, and a header follows. */
  predicate ResumesBefore(c: Conn, buf: seq<byte>)
    requires c.Valid()
    decreases !c.failed, |buf|
  {
    if c.waiting > 0 then |buf| >= c.waiting + TCP_SIZE
    else match Next(c, buf)
      case Took(_, c', used) => c.peer.None? && !c'.failed && ResumesBefore(c', buf[used..])
      case Stuck => false
  }

  /** Frames are left waiting for the next chunk exactly when a payload was resumed and a whole
      header follows it. */
  lemma {:induction false} LagsBehindIff(c: Conn, buf: seq<byte>)
    requires c.Valid() && !c.failed && !Handle(c, buf).conn.failed
    ensures Next(Handle(c, buf).conn, Handle(c, buf).rest).Took? <==> ResumesBefore(c, buf)
    decreases !c.failed, |buf|
  {
    if c.waiting == 0 {
      if c.peer.Some? {
        DecodeEndsStuck(c, buf);
      } else if Next(c, buf).Took? && !Next(c, buf).next.failed {
        LagsBehindIff(Next(c, buf).next, buf[Next(c, buf).used..]);
      }
    }
  }

  class ProcessConnection {
    var conn: Conn
    var buffer: seq<byte>
    var handled: seq<Event>

    ghost predicate Valid()
      reads this
    {
      conn.Valid() && conn.side.AtProcess?
    }

    constructor (known: map<Name, Entry>)
      requires KnownSound(AtProcess(known))
      ensures Valid() && conn == Fresh0(AtProcess(known), {}) && buffer == [] && handled == []
    {
      conn, buffer, handled := Fresh0(AtProcess(known), {}), [], [];
    }

    /** The decoder of a connection with what its entry keeps and the bytes it has not read. */
    constructor Resume(conn: Conn, buffer: seq<byte>)
      requires conn.Valid() && conn.side.AtProcess?
      ensures Valid() && this.conn == conn && this.buffer == buffer && handled == []
    {
      this.conn, this.buffer, handled := conn, buffer, [];
    }

    /** The payload handlers: wait for the payload, then hand the frame to the controller. */
    method HandlePayload(kind: int, header: seq<byte>, length: nat) returns (consumed: bool, ghost passed: seq<Event>)
      requires Valid() && !conn.failed && conn.peer.Some? && |header| == TCP_SIZE && kind != PROCESS_CONNECTION
      requires Parse(Tcp, header) == Success(kind) && Announced(conn.side, kind, header) == Some(length)
      requires if conn.waiting > 0 then conn.msg == header else |buffer| >= TCP_SIZE && buffer[..TCP_SIZE] == header
      modifies this
      ensures Valid() && handled == old(handled) + passed
      ensures old(conn).peer == conn.peer
      ensures if old(conn).waiting > 0 then Handle(old(conn), old(buffer)) == Decoded(passed, conn, buffer)
              else Decode(old(conn), old(buffer)) == After(passed, Decode(conn, buffer))
      ensures if consumed then conn.waiting == 0 && |buffer| < |old(buffer)| else Next(conn, buffer).Stuck?
    {
      if conn.waiting == 0 {
        StartsFrame(conn, buffer, kind, length);
        conn := conn.(waiting := length, msg := header);
        buffer := buffer[TCP_SIZE..];
      }
      if |buffer| < conn.waiting {
        return false, [];
      }
      var payload := buffer[..conn.waiting];
      buffer := buffer[conn.waiting..];
      if NeedsProcess(conn.side, kind) && !conn.peer.value.Process? {
        conn := conn.(failed := true);
        return false, [];
      }
      var event := Message(conn.peer.value, ToController, header, payload);
      handled := handled + [event];
      conn := conn.(waiting := 0);
      return true, [event];
    }

    /** Frames without payload: one event per header. */
    method HandleHeader(header: seq<byte>, kind: int) returns (ghost event: Event)
      requires Valid() && !conn.failed && conn.waiting == 0 && |buffer| >= TCP_SIZE && header == buffer[..TCP_SIZE]
      requires Parse(Tcp, header) == Success(kind) && (conn.peer.None? || Announced(conn.side, kind, header).None?)
      modifies this
      ensures Valid() && handled == old(handled) + [event]
      ensures Next(old(conn), old(buffer)) == Took([event], conn, TCP_SIZE) && buffer == old(buffer)[TCP_SIZE..]
    {
      var outcome;
      if conn.peer.Some? {
        outcome := Message(conn.peer.value, HandlerOf(conn.side, kind), header, []);
      } else if kind == PROCESS_CONNECTION {
        var (e, c) := Register(conn, Get(header, NAME).text);
        outcome, conn := e, c;
      } else {
        outcome := Dropped(header);
      }
      handled := handled + [outcome];
      buffer := buffer[TCP_SIZE..];
      event := outcome;
    }

    /** The part of `_handle_message` for a new header. */
    method HandleFrame() returns (consumed: bool, ghost passed: seq<Event>)
      requires Valid() && !conn.failed && conn.waiting == 0 && |buffer| >= TCP_SIZE
      modifies this
      ensures Valid() && handled == old(handled) + passed && (consumed ==> |buffer| < |old(buffer)|)
      ensures Handle(old(conn), old(buffer)) == After(passed, Handle(conn, buffer))
      ensures !consumed ==> Handle(conn, buffer) == Decoded([], conn, buffer)
    {
      var header := buffer[..TCP_SIZE];
      var parsed := Parse(Tcp, header);
      if parsed.Failure? {
        BadHeaderStops(conn, buffer);
        conn := conn.(failed := true);
        return false, [];
      }
      var length := if conn.peer.Some? then Announced(conn.side, parsed.value, header) else None;
      if length.Some? {
        consumed, passed := HandlePayload(parsed.value, header, length.value);
      } else {
        ghost var event := HandleHeader(header, parsed.value);
        consumed, passed := true, [event];
      }
    }

    /** `_handle_message`: a resumed payload ends the call, whatever follows it. The state is what
        the connection finds in its entry. */
    method HandleMessage()
      requires Valid()
      modifies this
      ensures Valid()
      ensures var d := Handle(old(conn), old(buffer));
        handled == old(handled) + d.events && conn == d.conn && buffer == d.rest
      decreases |buffer|
    {
      if conn.failed || (if conn.waiting > 0 then |buffer| < conn.waiting else |buffer| < TCP_SIZE) {
        return;
      }
      if conn.waiting > 0 {
        var kind := Parse(Tcp, conn.msg).value;
        var _, resumed := HandlePayload(kind, conn.msg, Announced(conn.side, kind, conn.msg).value);
        return;
      }
      var consumed, passed := HandleFrame();
      Assoc(old(handled), passed, Handle(conn, buffer).events);
      if consumed && |buffer| > 0 {
        HandleMessage();
      }
    }

    method Receive(chunk: seq<byte>)
      requires Valid()
      modifies this
      ensures Valid()
      ensures var d := Handle(old(conn), old(buffer) + chunk);
        handled == old(handled) + d.events && conn == d.conn && buffer == d.rest
    {
      buffer := buffer + chunk;
      HandleMessage();
    }
  }
}
