/**
 * The frames one side writes and the other decodes: `put_message`, `invocation_request` and
 * `invocation_result` of the process, the registration a process sends first, and the messages
 * that are a header only.
 */
module Frames {
  import opened Wrappers
  import opened Bytes
  import opened Messages
  import opened Framing

  datatype Frame =
    | Hello(name: seq<byte>)
    | Put(name: seq<byte>, sender: seq<byte>, payload: seq<byte>)
    | Invoke(id: seq<byte>, fname: seq<byte>, payload: seq<byte>)
    | Result(id: seq<byte>, code: int32, payload: seq<byte>)
    | SwapConfirmed(size: int32)
    | Goodbye
    | Report(count: int32, time: int32, last: uint64)
    | Announce(name: seq<byte>, address: seq<byte>, status: int32, port: int32)

  const SENDER := Text(38, 32, 32)
  const CALL_ID := Text(42, 16, 16)
  const CALL_NAME := Text(10, 32, 32)
  const RESULT_ID := Text(10, 16, 16)
  const RETURN_CODE := Num(6, I32, false)
  const SWAP_SIZE := Num(6, I32, false)
  const COUNT := Num(6, I32, true)
  const TIME := Num(10, I32, true)
  const LAST := Num(14, U64, false)
  const ADDRESS := Text(38, 16, 16)
  const STATUS := Num(54, I32, false)
  const PORT := Num(58, I32, false)

  /** Frames that are a header only. */
  predicate Bare(f: Frame) {
    !f.Put? && !f.Invoke? && !f.Result?
  }

  function Payload(f: Frame): seq<byte> {
    if Bare(f) then [] else f.payload
  }

  function TypeNo(f: Frame): (t: int)
    ensures KnownType(Tcp, t) && t < 10
  {
    match f
    case Hello(_) => PROCESS_CONNECTION
    case Put(_, _, _) => PUT_MESSAGE
    case Invoke(_, _, _) => INVOCATION_REQUEST
    case Result(_, _, _) => INVOCATION_RESULT
    case SwapConfirmed(_) => SWAP_CONFIRMATION
    case Goodbye => PROCESS_CLOSURE
    case Report(_, _, _) => DATAPLANE_METRICS
    case Announce(_, _, _, _) => APPLICATION_UPDATE
  }

  /** Values the setters accept and carry unchanged, and a payload an `int32_t` can count. */
  ghost predicate Writable(f: Frame) {
    && |Payload(f)| < 0x8000_0000
    && match f
       case Hello(name) => Plain(name, 32)
       case Put(name, sender, _) => Plain(name, 32) && Plain(sender, 32)
       case Invoke(id, fname, _) => Plain(id, 16) && Plain(fname, 32)
       case Result(id, _, _) => Plain(id, 16)
       case Report(count, time, _) => count >= 0 && time >= 0
       case Announce(name, address, _, _) => Plain(name, 32) && Plain(address, 16)
       case _ => true
  }

  ghost predicate Plain(s: seq<byte>, n: nat) {
    |s| <= n && 0 !in s
  }

  lemma PlainCut(s: seq<byte>, n: nat)
    requires Plain(s, n)
    ensures CString(s) == s
  {
    CStringStops(s, []);
    assert s + [] == s;
  }

  /** The fields in the order the writers set them, the total length last. */
  function Header(f: Frame): (h: seq<byte>)
    ensures |h| == TCP_SIZE
  {
    var blank := Fresh(TCP_SIZE, TypeNo(f));
    match f
    case Hello(name) => Messages.Put(blank, NAME, Str(name))
    case Put(name, sender, payload) => WithTotal(Messages.Put(Messages.Put(blank, NAME, Str(name)), SENDER, Str(sender)), |payload|)
    case Invoke(id, fname, payload) =>
      WithTotal(Messages.Put(Messages.Put(Messages.Put(blank, CALL_ID, Str(id)), CALL_NAME, Str(fname)), PAYLOAD_SIZE, Int(Wrap32(|payload|))), |payload|)
    case Result(id, code, payload) => WithTotal(Messages.Put(Messages.Put(blank, RESULT_ID, Str(id)), RETURN_CODE, Int(code)), |payload|)
    case SwapConfirmed(size) => Messages.Put(blank, SWAP_SIZE, Int(size))
    case Goodbye => blank
    case Report(count, time, last) => ReportHeader(count, time, last)
    case Announce(name, address, status, port) => AnnounceHeader(name, address, status, port)
  }

  function ReportHeader(count: int32, time: int32, last: uint64): (r: seq<byte>)
    ensures |r| == TCP_SIZE
  {
    Messages.Put(TwoPut(Fresh(TCP_SIZE, DATAPLANE_METRICS), COUNT, Int(count), TIME, Int(time)), LAST, Int(last))
  }

  function AnnounceHeader(name: seq<byte>, address: seq<byte>, status: int32, port: int32): (r: seq<byte>)
    ensures |r| == TCP_SIZE
  {
    var named := TwoPut(Fresh(TCP_SIZE, APPLICATION_UPDATE), NAME, Str(name), ADDRESS, Str(address));
    TwoPut(named, STATUS, Int(status), PORT, Int(port))
  }

  function TwoPut(h: seq<byte>, f: Field, v: Value, g: Field, w: Value): (r: seq<byte>)
    requires |h| == TCP_SIZE && f.Within(0, TCP_SIZE) && g.Within(0, TCP_SIZE) && f.Fits(v) && g.Fits(w)
    ensures |r| == TCP_SIZE
  {
    Messages.Put(Messages.Put(h, f, v), g, w)
  }

  function WithTotal(h: seq<byte>, n: nat): (r: seq<byte>)
    requires |h| == TCP_SIZE
    ensures |r| == TCP_SIZE
  {
    Messages.Put(h, TOTAL, Int(Wrap32(n)))
  }

  function Encode(f: Frame): seq<byte> {
    Header(f) + Payload(f)
  }

  function EncodeAll(fs: seq<Frame>): seq<byte> {
    if fs == [] then [] else Encode(fs[0]) + EncodeAll(fs[1..])
  }

  /** The frame a reader makes of a header and its payload. */
  function Read(header: seq<byte>, payload: seq<byte>): Option<Frame>
    requires |header| == TCP_SIZE
  {
    match Parse(Tcp, header)
    case Failure(_) => None
    case Success(t) =>
      if t == PROCESS_CONNECTION then Some(Hello(Get(header, NAME).text))
      else if t == PUT_MESSAGE then Some(Put(Get(header, NAME).text, Get(header, SENDER).text, payload))
      else if t == INVOCATION_REQUEST then Some(Invoke(Get(header, CALL_ID).text, Get(header, CALL_NAME).text, payload))
      else if t == INVOCATION_RESULT then Some(Result(Get(header, RESULT_ID).text, Wrap32(Get(header, RETURN_CODE).num), payload))
      else if t == SWAP_CONFIRMATION then Some(SwapConfirmed(Wrap32(Get(header, SWAP_SIZE).num)))
      else if t == PROCESS_CLOSURE then Some(Goodbye)
      else if t == DATAPLANE_METRICS then Some(ReadReport(header))
      else if t == APPLICATION_UPDATE then Some(ReadAnnounce(header))
      else None
  }

  function ReadReport(header: seq<byte>): (f: Frame)
    requires |header| == TCP_SIZE
    ensures f.Report?
  {
    Report(Wrap32(Get(header, COUNT).num), Wrap32(Get(header, TIME).num), Get(header, LAST).num % TWO_64)
  }

  function ReadAnnounce(header: seq<byte>): (f: Frame)
    requires |header| == TCP_SIZE
    ensures f.Announce?
  {
    Announce(
      Get(header, NAME).text, Get(header, ADDRESS).text, Wrap32(Get(header, STATUS).num), Wrap32(Get(header, PORT).num))
  }

  // ------------------------------------------------------- reading headers back

  /** Two fields of a header set one after the other both read back. */
  lemma TwoFields(h: seq<byte>, f: Field, v: Value, g: Field, w: Value)
    requires |h| == TCP_SIZE && f.Within(6, TCP_SIZE) && g.Within(6, TCP_SIZE) && f.Disjoint(g) && g.Disjoint(f)
    requires f.Fits(v) && g.Fits(w) && f.Accepts(v) && g.Accepts(w)
    requires (f.Text? ==> f.limit == f.width) && (g.Text? ==> g.limit == g.width)
    ensures var r := Messages.Put(Messages.Put(h, f, v), g, w);
      Get(r, f) == Cut(v) && Get(r, g) == Cut(w) && r[..2] == h[..2]
  {
    PutReadsBack(h, f, v);
    PutLeavesOthers(h, f, v, g);
    PutReadsBack(Messages.Put(h, f, v), g, w);
    PutLeavesOthers(Messages.Put(h, f, v), g, w, f);
  }

  lemma TotalOnTop(h: seq<byte>, n: nat, g: Field)
    requires |h| == TCP_SIZE && n < 0x8000_0000 && g.Within(6, TCP_SIZE)
    ensures var r := WithTotal(h, n);
      Get(r, TOTAL) == Int(n) && Get(r, g) == Get(h, g) && r[..2] == h[..2]
  {
    PutReadsBack(h, TOTAL, Int(Wrap32(n)));
    PutLeavesOthers(h, TOTAL, Int(Wrap32(n)), g);
  }

  /** The two lengths an invocation request carries. */
  lemma SizesOnTop(h: seq<byte>, n: nat)
    requires |h| == TCP_SIZE && n < 0x8000_0000
    ensures var r := WithTotal(Messages.Put(h, PAYLOAD_SIZE, Int(Wrap32(n))), n);
      && Get(r, TOTAL) == Int(n) && Get(r, PAYLOAD_SIZE) == Int(n)
      && Get(r, CALL_ID) == Get(h, CALL_ID) && Get(r, CALL_NAME) == Get(h, CALL_NAME) && r[..2] == h[..2]
  {
    PutReadsBack(h, PAYLOAD_SIZE, Int(n));
    PutLeavesOthers(h, PAYLOAD_SIZE, Int(n), CALL_ID);
    PutLeavesOthers(h, PAYLOAD_SIZE, Int(n), CALL_NAME);
    var sized := Messages.Put(h, PAYLOAD_SIZE, Int(n));
    TotalOnTop(sized, n, CALL_ID);
    TotalOnTop(sized, n, CALL_NAME);
    TotalOnTop(sized, n, PAYLOAD_SIZE);
  }

  lemma ParsesAs(h: seq<byte>, t: int)
    requires |h| == TCP_SIZE && h[..2] == [t, 0] && KnownType(Tcp, t)
    ensures Parse(Tcp, h) == Success(t)
  {
    assert h[0] == h[..2][0] && h[1] == h[..2][1];
  }

  lemma BlankType(t: int)
    requires 0 <= t < 10
    ensures Fresh(TCP_SIZE, t)[..2] == [t, 0]
  {
  }

  /** A header announces exactly the payload behind it, to both decoders. */
  ghost predicate Announces(f: Frame) {
    && Parse(Tcp, Header(f)) == Success(TypeNo(f))
    && (Bare(f) || Get(Header(f), TOTAL) == Int(|Payload(f)|))
    && (f.Invoke? ==> Get(Header(f), PAYLOAD_SIZE) == Int(|Payload(f)|))
  }

  lemma HelloReadsBack(f: Frame)
    requires f.Hello? && Writable(f)
    ensures Announces(f) && Read(Header(f), Payload(f)) == Some(f)
  {
    var blank := Fresh(TCP_SIZE, PROCESS_CONNECTION);
    BlankType(PROCESS_CONNECTION);
    PlainCut(f.name, 32);
    PutReadsBack(blank, NAME, Str(f.name));
    PutLeavesOthers(blank, NAME, Str(f.name), TOTAL);
    ParsesAs(Header(f), PROCESS_CONNECTION);
  }

  lemma PutFrameReadsBack(f: Frame)
    requires f.Put? && Writable(f)
    ensures Announces(f) && Read(Header(f), Payload(f)) == Some(f)
  {
    var blank := Fresh(TCP_SIZE, PUT_MESSAGE);
    BlankType(PUT_MESSAGE);
    PlainCut(f.name, 32);
    PlainCut(f.sender, 32);
    TwoFields(blank, NAME, Str(f.name), SENDER, Str(f.sender));
    var named := Messages.Put(Messages.Put(blank, NAME, Str(f.name)), SENDER, Str(f.sender));
    TotalOnTop(named, |f.payload|, NAME);
    TotalOnTop(named, |f.payload|, SENDER);
    ParsesAs(Header(f), PUT_MESSAGE);
  }

  lemma InvokeFieldsRead(id: seq<byte>, fname: seq<byte>, n: nat)
    requires Plain(id, 16) && Plain(fname, 32) && n < 0x8000_0000
    ensures var named := Messages.Put(Messages.Put(Fresh(TCP_SIZE, INVOCATION_REQUEST), CALL_ID, Str(id)), CALL_NAME, Str(fname));
      var r := WithTotal(Messages.Put(named, PAYLOAD_SIZE, Int(Wrap32(n))), n);
      && Get(r, TOTAL) == Int(n) && Get(r, PAYLOAD_SIZE) == Int(n)
      && Get(r, CALL_ID) == Str(id) && Get(r, CALL_NAME) == Str(fname) && r[..2] == [INVOCATION_REQUEST, 0]
  {
    var blank := Fresh(TCP_SIZE, INVOCATION_REQUEST);
    BlankType(INVOCATION_REQUEST);
    PlainCut(id, 16);
    PlainCut(fname, 32);
    TwoFields(blank, CALL_ID, Str(id), CALL_NAME, Str(fname));
    SizesOnTop(Messages.Put(Messages.Put(blank, CALL_ID, Str(id)), CALL_NAME, Str(fname)), n);
  }

  lemma InvokeReadsBack(f: Frame)
    requires f.Invoke? && Writable(f)
    ensures Announces(f) && Read(Header(f), Payload(f)) == Some(f)
  {
    InvokeFieldsRead(f.id, f.fname, |f.payload|);
    ParsesAs(Header(f), INVOCATION_REQUEST);
  }

  lemma ResultFieldsRead(id: seq<byte>, code: int32, n: nat)
    requires Plain(id, 16) && n < 0x8000_0000
    ensures var r := WithTotal(Messages.Put(Messages.Put(Fresh(TCP_SIZE, INVOCATION_RESULT), RESULT_ID, Str(id)), RETURN_CODE, Int(code)), n);
      && Get(r, TOTAL) == Int(n) && Get(r, RESULT_ID) == Str(id) && Get(r, RETURN_CODE) == Int(code)
      && r[..2] == [INVOCATION_RESULT, 0]
  {
    var blank := Fresh(TCP_SIZE, INVOCATION_RESULT);
    BlankType(INVOCATION_RESULT);
    PlainCut(id, 16);
    TwoFields(blank, RESULT_ID, Str(id), RETURN_CODE, Int(code));
    var named := Messages.Put(Messages.Put(blank, RESULT_ID, Str(id)), RETURN_CODE, Int(code));
    TotalOnTop(named, n, RESULT_ID);
    TotalOnTop(named, n, RETURN_CODE);
  }

  lemma ResultReadsBack(f: Frame)
    requires f.Result? && Writable(f)
    ensures Announces(f) && Read(Header(f), Payload(f)) == Some(f)
  {
    ResultFieldsRead(f.id, f.code, |f.payload|);
    ParsesAs(Header(f), INVOCATION_RESULT);
  }

  lemma SwapReadsBack(f: Frame)
    requires f.SwapConfirmed?
    ensures Announces(f) && Read(Header(f), Payload(f)) == Some(f)
  {
    BlankType(SWAP_CONFIRMATION);
    PutReadsBack(Fresh(TCP_SIZE, SWAP_CONFIRMATION), SWAP_SIZE, Int(f.size));
    PutLeavesOthers(Fresh(TCP_SIZE, SWAP_CONFIRMATION), SWAP_SIZE, Int(f.size), TOTAL);
    ParsesAs(Header(f), SWAP_CONFIRMATION);
  }

  lemma GoodbyeReadsBack(f: Frame)
    requires f.Goodbye?
    ensures Announces(f) && Read(Header(f), Payload(f)) == Some(f)
  {
    BlankType(PROCESS_CLOSURE);
    ParsesAs(Header(f), PROCESS_CLOSURE);
  }

  lemma ReportFieldsRead(count: int32, time: int32, last: uint64)
    requires count >= 0 && time >= 0
    ensures var r := ReportHeader(count, time, last);
      ReadReport(r) == Report(count, time, last) && r[..2] == [DATAPLANE_METRICS, 0]
  {
    var blank := Fresh(TCP_SIZE, DATAPLANE_METRICS);
    BlankType(DATAPLANE_METRICS);
    TwoFields(blank, COUNT, Int(count), TIME, Int(time));
    OneMoreField(TwoPut(blank, COUNT, Int(count), TIME, Int(time)), LAST, Int(last), COUNT, TIME);
  }

  lemma ReadsReport(h: seq<byte>)
    requires |h| == TCP_SIZE && Parse(Tcp, h) == Success(DATAPLANE_METRICS)
    ensures Read(h, []) == Some(ReadReport(h))
  {
  }

  lemma ReadsAnnounce(h: seq<byte>)
    requires |h| == TCP_SIZE && Parse(Tcp, h) == Success(APPLICATION_UPDATE)
    ensures Read(h, []) == Some(ReadAnnounce(h))
  {
  }

  lemma BareAnnounces(f: Frame, h: seq<byte>)
    requires Bare(f) && h == Header(f) && Parse(Tcp, h) == Success(TypeNo(f)) && Read(h, []) == Some(f)
    ensures Announces(f) && Read(Header(f), Payload(f)) == Some(f)
  {
  }

  lemma ReportReadsBack(f: Frame)
    requires f.Report? && Writable(f)
    ensures Announces(f) && Read(Header(f), Payload(f)) == Some(f)
  {
    var h := ReportHeader(f.count, f.time, f.last);
    ReportFieldsRead(f.count, f.time, f.last);
    ParsesAs(h, DATAPLANE_METRICS);
    ReadsReport(h);
    BareAnnounces(f, h);
  }

  /** A third field leaves two others alone. */
  lemma OneMoreField(h: seq<byte>, f: Field, v: Value, g: Field, k: Field)
    requires |h| == TCP_SIZE && f.Within(6, TCP_SIZE) && g.Within(6, TCP_SIZE) && k.Within(6, TCP_SIZE)
    requires f.Disjoint(g) && g.Disjoint(f) && f.Disjoint(k) && k.Disjoint(f)
    requires f.Fits(v) && f.Accepts(v) && (f.Text? ==> f.limit == f.width)
    ensures var r := Messages.Put(h, f, v);
      Get(r, f) == Cut(v) && Get(r, g) == Get(h, g) && Get(r, k) == Get(h, k) && r[..2] == h[..2]
  {
    PutReadsBack(h, f, v);
    PutLeavesOthers(h, f, v, g);
    PutLeavesOthers(h, f, v, k);
  }

  lemma AnnounceFieldsRead(name: seq<byte>, address: seq<byte>, status: int32, port: int32)
    requires Plain(name, 32) && Plain(address, 16)
    ensures var r := AnnounceHeader(name, address, status, port);
      ReadAnnounce(r) == Announce(name, address, status, port) && r[..2] == [APPLICATION_UPDATE, 0]
  {
    var blank := Fresh(TCP_SIZE, APPLICATION_UPDATE);
    BlankType(APPLICATION_UPDATE);
    PlainCut(name, 32);
    PlainCut(address, 16);
    TwoFields(blank, NAME, Str(name), ADDRESS, Str(address));
    StatusAndPort(TwoPut(blank, NAME, Str(name), ADDRESS, Str(address)), status, port);
  }

  lemma StatusAndPort(h: seq<byte>, status: int32, port: int32)
    requires |h| == TCP_SIZE
    ensures var r := TwoPut(h, STATUS, Int(status), PORT, Int(port));
      && Get(r, NAME) == Get(h, NAME) && Get(r, ADDRESS) == Get(h, ADDRESS)
      && Get(r, STATUS) == Int(status) && Get(r, PORT) == Int(port) && r[..2] == h[..2]
  {
    TwoFields(h, STATUS, Int(status), PORT, Int(port));
    OneMoreField(h, STATUS, Int(status), NAME, ADDRESS);
    OneMoreField(Messages.Put(h, STATUS, Int(status)), PORT, Int(port), NAME, ADDRESS);
  }

  lemma AnnounceReadsBack(f: Frame)
    requires f.Announce? && Writable(f)
    ensures Announces(f) && Read(Header(f), Payload(f)) == Some(f)
  {
    var h := AnnounceHeader(f.name, f.address, f.status, f.port);
    AnnounceFieldsRead(f.name, f.address, f.status, f.port);
    ParsesAs(h, APPLICATION_UPDATE);
    ReadsAnnounce(h);
    BareAnnounces(f, h);
  }

  /** Every frame written is read back with all its fields. */
  lemma ReadInvertsWrite(f: Frame)
    requires Writable(f)
    ensures Announces(f) && Read(Header(f), Payload(f)) == Some(f)
  {
    match f
    case Hello(_) => HelloReadsBack(f);
    case Put(_, _, _) => PutFrameReadsBack(f);
    case Invoke(_, _, _) => InvokeReadsBack(f);
    case Result(_, _, _) => ResultReadsBack(f);
    case SwapConfirmed(_) => SwapReadsBack(f);
    case Goodbye => GoodbyeReadsBack(f);
    case Report(_, _, _) => ReportReadsBack(f);
    case Announce(_, _, _, _) => AnnounceReadsBack(f);
  }

  // --------------------------------------------------- decoding what was written

  /** Frames a registered connection of the side gets; at a process a further registration is
      the confirmation of its own. */
  predicate Carries(side: Side, f: Frame) {
    side.AtProcess? || f.Result? || f.SwapConfirmed? || f.Goodbye? || f.Report?
  }

  /** Frames a connection can take: results and messages need a peer with a name. */
  predicate Hears(c: Conn, f: Frame) {
    Carries(c.side, f) && c.peer.Some? && (NeedsProcess(c.side, TypeNo(f)) ==> c.peer.value.Process?)
  }

  ghost predicate AllHeard(c: Conn, fs: seq<Frame>) {
    forall i :: 0 <= i < |fs| ==> Writable(fs[i]) && Hears(c, fs[i])
  }

  /** The event a frame from a registered peer causes. */
  function Arrival(c: Conn, f: Frame): Event
    requires c.peer.Some?
  {
    Message(c.peer.value, HandlerOf(c.side, TypeNo(f)), Header(f), Payload(f))
  }

  function Arrivals(c: Conn, fs: seq<Frame>): seq<Event>
    requires c.peer.Some?
  {
    if fs == [] then [] else [Arrival(c, fs[0])] + Arrivals(c, fs[1..])
  }

  ghost predicate Listening(c: Conn) {
    c.Valid() && !c.failed && c.waiting == 0 && c.peer.Some?
  }

  lemma AnnouncesItsPayload(side: Side, f: Frame)
    requires Writable(f) && Carries(side, f) && !Bare(f)
    ensures Parse(Tcp, Header(f)) == Success(TypeNo(f)) && TypeNo(f) != PROCESS_CONNECTION
    ensures Announced(side, TypeNo(f), Header(f)) == Some(|Payload(f)|)
  {
    ReadInvertsWrite(f);
  }

  /** One frame at the front of the stream is decoded to itself. */
  lemma DecodesOne(c: Conn, f: Frame, more: seq<byte>) returns (c': Conn)
    requires Listening(c) && Writable(f) && Hears(c, f)
    ensures Listening(c') && c' == c.(msg := c'.msg)
    ensures Decode(c, Encode(f) + more) == After([Arrival(c, f)], Decode(c', more))
  {
    if Bare(f) {
      c' := c;
      ReadInvertsWrite(f);
      assert Encode(f) == Header(f);
      TakesBare(c, TypeNo(f), Header(f), more);
    } else {
      AnnouncesItsPayload(c.side, f);
      c' := c.(msg := Header(f));
      TakesOne(c, TypeNo(f), Header(f), Payload(f), more);
      Assoc(Header(f), Payload(f), more);
    }
  }

  lemma TakesBare(c: Conn, t: int, header: seq<byte>, more: seq<byte>)
    requires Listening(c) && |header| == TCP_SIZE && Parse(Tcp, header) == Success(t)
    requires (t == PROCESS_CONNECTION ==> c.side.AtProcess?) && Announced(c.side, t, header).None?
    ensures Decode(c, header + more) == After([Message(c.peer.value, HandlerOf(c.side, t), header, [])], Decode(c, more))
  {
    var bytes := header + more;
    assert bytes[..TCP_SIZE] == header && bytes[TCP_SIZE..] == more;
  }

  lemma TakesOne(c: Conn, t: int, header: seq<byte>, payload: seq<byte>, more: seq<byte>)
    requires Listening(c) && |header| == TCP_SIZE && t != PROCESS_CONNECTION
    requires NeedsProcess(c.side, t) ==> c.peer.value.Process?
    requires Parse(Tcp, header) == Success(t) && Announced(c.side, t, header) == Some(|payload|)
    ensures Decode(c, header + (payload + more))
      == After([Message(c.peer.value, HandlerOf(c.side, t), header, payload)], Decode(c.(msg := header), more))
  {
    var bytes, behind := header + (payload + more), payload + more;
    assert bytes[..TCP_SIZE] == header && bytes[TCP_SIZE..] == behind;
    StartsFrame(c, bytes, t, |payload|);
    assert behind[..|payload|] == payload && behind[|payload|..] == more;
  }

  /** The reference decoder inverts the writers. */
  lemma {:induction false} DecodesWhatWasWritten(c: Conn, fs: seq<Frame>)
    requires Listening(c) && AllHeard(c, fs)
    ensures var d := Decode(c, EncodeAll(fs));
      d.events == Arrivals(c, fs) && d.rest == [] && Listening(d.conn) && d.conn.peer == c.peer
    decreases |fs|
  {
    if fs != [] {
      var c' := DecodesOne(c, fs[0], EncodeAll(fs[1..]));
      DecodesWhatWasWritten(c', fs[1..]);
      SamePeerSameArrivals(c, c', fs[1..]);
    }
  }

  lemma {:induction false} SamePeerSameArrivals(c: Conn, c': Conn, fs: seq<Frame>)
    requires c.peer.Some? && c'.peer == c.peer && c'.side == c.side
    ensures Arrivals(c, fs) == Arrivals(c', fs)
  {
    if fs != [] {
      SamePeerSameArrivals(c, c', fs[1..]);
    }
  }

  /**
   * Control plane, end to end: a process that registers and then sends results, swap confirmations,
   * metrics and its closure is decoded to its registration and exactly those frames, however the
   * network cuts the stream.
   */
  lemma ResultsReachTheControlPlane(pending: set<Name>, name: seq<byte>, fs: seq<Frame>, chunks: seq<seq<byte>>)
    requires name in pending && Plain(name, 32)
    requires forall i :: 0 <= i < |fs| ==> Writable(fs[i]) && Carries(AtControlPlane, fs[i])
    requires Flatten(chunks) == Encode(Hello(name)) + EncodeAll(fs)
    ensures var c := Fresh0(AtControlPlane, pending);
      var d := FeedAll(c, [], chunks);
      && d.events == [Registered(Process(name))] + Arrivals(c.(peer := Some(Process(name))), fs)
      && d.rest == [] && d.conn.waiting == 0 && d.conn.pending == pending - {name}
  {
    var c := Fresh0(AtControlPlane, pending);
    var hello := Hello(name);
    ReadInvertsWrite(hello);
    var bytes := Encode(hello) + EncodeAll(fs);
    assert bytes[..TCP_SIZE] == Header(hello);
    assert bytes[TCP_SIZE..] == EncodeAll(fs);
    var c' := Register(c, name).1;
    assert Next(c, bytes) == Took([Registered(Process(name))], c', TCP_SIZE);
    DecodesWhatWasWritten(c', fs);
    PendingKept(c', fs);
    SamePeerSameArrivals(c.(peer := Some(Process(name))), c', fs);
    FeedingIsDecoding(c, [], chunks);
    assert [] + Flatten(chunks) == bytes;
  }

  lemma {:induction false} PendingKept(c: Conn, fs: seq<Frame>)
    requires Listening(c) && AllHeard(c, fs)
    ensures Decode(c, EncodeAll(fs)).conn.pending == c.pending
    decreases |fs|
  {
    if fs != [] {
      var c' := DecodesOne(c, fs[0], EncodeAll(fs[1..]));
      PendingKept(c', fs[1..]);
    }
  }

  /**
   * Process, end to end: whatever chunks the frames of a peer arrive in, the frames handed on
   * so far, followed by what the unread bytes decode to, are exactly the frames written.
   */
  lemma FramesReachTheProcess(c: Conn, fs: seq<Frame>, chunks: seq<seq<byte>>)
    requires Listening(c) && c.side.AtProcess? && AllHeard(c, fs)
    requires Flatten(chunks) == EncodeAll(fs)
    ensures var d := HandleAll(c, [], chunks);
      d.events + Decode(d.conn, d.rest).events == Arrivals(c, fs)
  {
    NothingLostInChunks(c, [], chunks);
    DecodesWhatWasWritten(c, fs);
    assert [] + Flatten(chunks) == EncodeAll(fs);
  }

  lemma HeaderAlone(c: Conn, t: int, header: seq<byte>, n: nat)
    requires Listening(c) && c.side.AtProcess? && |header| == TCP_SIZE && t != PROCESS_CONNECTION && n > 0
    requires Parse(Tcp, header) == Success(t) && Announced(c.side, t, header) == Some(n)
    ensures Handle(c, header) == Decoded([], c.(waiting := n, msg := header), [])
  {
    assert header[..TCP_SIZE] == header && header[TCP_SIZE..] == [];
    StartsFrame(c, header, t, n);
  }

  lemma ResumedStops(c: Conn, t: int, header: seq<byte>, payload: seq<byte>, more: seq<byte>)
    requires Listening(c) && c.side.AtProcess? && |header| == TCP_SIZE && t != PROCESS_CONNECTION && payload != []
    requires Parse(Tcp, header) == Success(t) && Announced(c.side, t, header) == Some(|payload|)
    requires NeedsProcess(c.side, t) ==> c.peer.value.Process?
    ensures Handle(c.(waiting := |payload|, msg := header), payload + more)
      == Decoded([Message(c.peer.value, HandlerOf(c.side, t), header, payload)], c.(msg := header), more)
  {
    var second := payload + more;
    assert second[..|payload|] == payload && second[|payload|..] == more;
  }

  /** The delay is real: a frame that completes together with the next one, after its header
      came alone, leaves the next frame undelivered. */
  lemma SecondFrameWaits(c: Conn, f: Frame, g: Frame)
    requires Listening(c) && c.side.AtProcess? && Writable(f) && Writable(g)
    requires Hears(c, f) && Hears(c, g) && Payload(f) != []
    ensures var first := Handle(c, Header(f));
      && first.events == [] && first.rest == []
      && Handle(first.conn, Payload(f) + Encode(g)) == Decoded([Arrival(c, f)], c.(msg := Header(f)), Encode(g))
  {
    AnnouncesItsPayload(c.side, f);
    HeaderAlone(c, TypeNo(f), Header(f), |Payload(f)|);
    ResumedStops(c, TypeNo(f), Header(f), Payload(f), Encode(g));
  }

  /** A process's connection with a named peer decodes every stream of frames to those frames
      exactly if its entry waits for no payload: not if another connection of the same name has
      left one unfinished. */
  lemma StreamsDecodeIff(c: Conn)
    requires c.Valid() && !c.failed && c.side.AtProcess? && c.peer.Some? && c.peer.value.Process?
    ensures (forall fs | AllHeard(c, fs) :: Decode(c, EncodeAll(fs)).events == Arrivals(c, fs)) <==> c.waiting == 0
  {
    if c.waiting == 0 {
      forall fs | AllHeard(c, fs) ensures Decode(c, EncodeAll(fs)).events == Arrivals(c, fs) {
        DecodesWhatWasWritten(c, fs);
      }
    } else {
      var fs := [Hello([])];
      assert AllHeard(c, fs);
      ReadInvertsWrite(fs[0]);
      assert fs[1..] == [] && Encode(fs[0]) == Header(fs[0]);
      assert EncodeAll(fs) == Header(fs[0]) && Arrivals(c, fs) == [Arrival(c, fs[0])];
      TakenForPayload(c, Header(fs[0]), Arrivals(c, fs));
    }
  }

  lemma TakenForPayload(c: Conn, header: seq<byte>, arrivals: seq<Event>)
    requires c.Valid() && !c.failed && c.side.AtProcess? && c.peer.Some? && c.peer.value.Process? && c.waiting > 0
    requires |header| == TCP_SIZE && arrivals == [Message(c.peer.value, Confirmation, header, [])]
    ensures Decode(c, header).events != arrivals
  {
    if c.waiting <= TCP_SIZE {
      var first := Next(c, header).events;
      assert |first| == 1 && first[0].payload == header[..c.waiting];
      assert Decode(c, header).events[0] == first[0];
    } else {
      assert Decode(c, header).events == [];
    }
  }
}
