/**
 * The POSIX message queue channel between the controller and its workers: messages are cut
 * into datagrams of at most `msgSize` bytes, and the controller's receiver is resumable,
 * so a call may find the queue empty at any point and continue later.
 */
module Ipc {
  import opened Wrappers
  import opened Bytes
  import opened Messages

  type Datagram = seq<byte>

  /** A buffer with `size` allocated bytes, of which the first `|data|` hold data. */
  datatype Buffer = Buffer(data: seq<byte>, size: nat)

  // ------------------------------------------------------------- buffer pool

  /** `BufferQueue::retrieve_buffer`: the test compares the number of buffers left in the
      queue, not the capacity of the buffer taken, with the requested size. */
  function Retrieve(pool: seq<Buffer>, size: nat): (Buffer, seq<Buffer>) {
    if pool == [] then (Buffer([], size), [])
    else if |pool| - 1 < size then (Buffer([], size), pool[1..])
    else (pool[0], pool[1..])
  }

  class BufferQueue {
    var buffers: seq<Buffer>

    constructor (elements: nat, size: nat)
      ensures buffers == seq(elements, _ => Buffer([], size))
    {
      buffers := seq(elements, _ => Buffer([], size));
    }

    method RetrieveBuffer(size: nat) returns (buf: Buffer)
      modifies this
      ensures (buf, buffers) == Retrieve(old(buffers), size)
    {
      if |buffers| == 0 {
        return Buffer([], size);
      }
      buf := buffers[0];
      buffers := buffers[1..];
      if |buffers| < size {
        buf := Buffer([], size);
      }
    }

    method ReturnBuffer(buf: Buffer)
      modifies this
      ensures buffers == old(buffers) + [buf.(data := [])]
    {
      buffers := buffers + [buf.(data := [])];
    }
  }

  /** The buffers handed out by `requests` retrievals in a row. */
  function RetrieveAll(pool: seq<Buffer>, requests: seq<nat>): (bufs: seq<Buffer>)
    ensures |bufs| == |requests|
  {
    if requests == [] then []
    else
      var (buf, rest) := Retrieve(pool, requests[0]);
      [buf] + RetrieveAll(rest, requests[1..])
  }

  /**
   * Over any sequence of retrievals without a return, a request of at least the number of
   * pooled buffers gets an empty buffer that is large enough.
   */
  lemma {:induction false} LargeRequestsGetCapacity(pool: seq<Buffer>, requests: seq<nat>, i: nat)
    requires i < |requests| && requests[i] >= |pool|
    requires forall b :: b in pool ==> b.data == []
    ensures RetrieveAll(pool, requests)[i].size >= requests[i]
    ensures RetrieveAll(pool, requests)[i].data == []
  {
    if i > 0 {
      LargeRequestsGetCapacity(Retrieve(pool, requests[0]).1, requests[1..], i - 1);
    }
  }

  /** Below that, a buffer comes back too small exactly when enough buffers remain pooled to
      hide the front buffer's capacity from the test. */
  lemma TooSmallExactlyWhen(pool: seq<Buffer>, size: nat)
    ensures Retrieve(pool, size).0.size < size <==> (size < |pool| && pool[0].size < size)
  {
  }

  // ------------------------------------------------------------------ sending

  function Total(header: seq<byte>): (t: int)
    requires |header| == IPC_SIZE
    ensures t < TWO_32
  {
    assert Pow256(1) == 256 && Pow256(2) == 0x1_0000 && Pow256(3) == 0x100_0000 && Pow256(4) == TWO_32;
    Get(header, TOTAL).num
  }

  /** A message as `send` transmits it: a header and the payload buffers behind it. */
  datatype RawPacket = RawPacket(header: seq<byte>, parts: seq<seq<byte>>) {
    function Payload(): seq<byte> {
      Flatten(parts)
    }
  }

  predicate StatesItsLength(p: RawPacket) {
    |p.header| == IPC_SIZE && Total(p.header) == |p.Payload()|
  }

  function EmptyPacket(): (p: RawPacket)
    ensures StatesItsLength(p)
  {
    StampIsAPacket(Zeros(IPC_SIZE), []);
    Stamp(Zeros(IPC_SIZE), [])
  }

  /** A message whose header states the length of its payload. */
  type Packet = p: RawPacket | StatesItsLength(p) witness EmptyPacket()

  /** What `send` transmits for a header and payload buffers: it writes the total length. */
  function Stamp(header: seq<byte>, parts: seq<seq<byte>>): (p: RawPacket)
    requires |header| == IPC_SIZE
    ensures |p.header| == IPC_SIZE
  {
    RawPacket(Put(header, TOTAL, Int(Wrap32(|Flatten(parts)|))), parts)
  }

  /** The total length is an `int32_t`: it is right exactly for payloads below 2 GiB. */
  lemma StampIsAPacket(header: seq<byte>, parts: seq<seq<byte>>)
    requires |header| == IPC_SIZE
    ensures StatesItsLength(Stamp(header, parts)) <==> |Flatten(parts)| < 0x8000_0000
  {
    PutReadsBack(header, TOTAL, Int(Wrap32(|Flatten(parts)|)));
  }

  /** The datagrams of one `_send`. */
  function Chunks(data: seq<byte>, m: nat): (ds: seq<Datagram>)
    requires m > 0
    ensures forall d :: d in ds ==> 0 < |d| <= m
  {
    if data == [] then []
    else if |data| <= m then [data]
    else [data[..m]] + Chunks(data[m..], m)
  }

  lemma ChunksStep(data: seq<byte>, pos: nat, size: nat, m: nat)
    requires m > 0 && pos < |data| && size == Min(|data| - pos, m)
    ensures Chunks(data[pos..], m) == [data[pos..pos + size]] + Chunks(data[pos + size..], m)
  {
    assert data[pos..][..size] == data[pos..pos + size];
    assert data[pos..][size..] == data[pos + size..];
    if |data| - pos <= m {
      assert data[pos + size..] == [];
      assert data[pos..] == data[pos..pos + size];
    }
  }

  lemma {:induction false} ChunksFlatten(data: seq<byte>, m: nat)
    requires m > 0
    ensures Flatten(Chunks(data, m)) == data
  {
    if |data| > m {
      ChunksFlatten(data[m..], m);
      assert Chunks(data, m)[1..] == Chunks(data[m..], m);
    } else if data != [] {
      assert Flatten([data]) == data + Flatten([]);
    }
  }

  function PartDatagrams(parts: seq<seq<byte>>, m: nat): (ds: seq<Datagram>)
    requires m > 0
    ensures forall d :: d in ds ==> 0 < |d| <= m
  {
    if parts == [] then [] else Chunks(parts[0], m) + PartDatagrams(parts[1..], m)
  }

  lemma {:induction false} PartsFlatten(parts: seq<seq<byte>>, m: nat)
    requires m > 0
    ensures Flatten(PartDatagrams(parts, m)) == Flatten(parts)
  {
    if parts != [] {
      PartsFlatten(parts[1..], m);
      ChunksFlatten(parts[0], m);
      FlattenConcat(Chunks(parts[0], m), PartDatagrams(parts[1..], m));
    }
  }

  /** Everything `send` puts on the queue for one message. */
  function Datagrams(p: RawPacket, m: nat): seq<Datagram>
    requires m > 0 && |p.header| == IPC_SIZE
  {
    Chunks(p.header, m) + PartDatagrams(p.parts, m)
  }

  /** The stream of a sequence of messages. */
  ghost function Wire(ps: seq<Packet>, m: nat): seq<Datagram>
    requires m > 0
  {
    if ps == [] then [] else Datagrams(ps[0], m) + Wire(ps[1..], m)
  }

  lemma {:induction false} WireConcat(ps: seq<Packet>, p: Packet, m: nat)
    requires m > 0
    ensures Wire(ps + [p], m) == Wire(ps, m) + Datagrams(p, m)
  {
    if ps == [] {
      assert ps + [p] == [p];
      assert Wire([p], m) == Datagrams(p, m) + Wire([], m);
    } else {
      assert (ps + [p])[1..] == ps[1..] + [p];
      Assoc(Datagrams(ps[0], m), Wire(ps[1..], m), Datagrams(p, m));
      WireConcat(ps[1..], p, m);
    }
  }

  // ---------------------------------------------------------------- receiving

  /** The outcome of `_recv`: the bytes read and the queue left, or a datagram that does not
      fit behind the bytes already read. */
  datatype Drained = Drained(data: seq<byte>, rest: seq<Datagram>) | Overrun

  /** `_recv` asked for `want` bytes into memory with room for `room`. */
  function Drain(q: seq<Datagram>, want: nat, room: nat): Drained {
    if want == 0 || q == [] then Drained([], q)
    else if |q[0]| > room then Overrun
    else Prepend(q[0], Drain(q[1..], if |q[0]| >= want then 0 else want - |q[0]|, room - |q[0]|))
  }

  function Prepend(d: seq<byte>, r: Drained): Drained {
    if r.Overrun? then r else Drained(d + r.data, r.rest)
  }

  /** The resumable part of a channel: `_msg_read`, `_msg`, `_msg_payload` and the pool. */
  datatype Receiver = Receiver(msgRead: bool, msg: seq<byte>, payload: Option<Buffer>, pool: seq<Buffer>) {
    predicate Valid() {
      && |msg| == IPC_SIZE
      && (payload.Some? ==> |payload.value.data| <= payload.value.size)
      && (forall b :: b in pool ==> b.data == [])
    }
  }

  datatype Reply = Nothing | Complete(data: seq<byte>) | Threw(error: Error)

  datatype Received = Received(r: Receiver, queue: seq<Datagram>, reply: Reply)

  datatype Filled = Filled(buf: Buffer, rest: seq<Datagram>, done: bool) | Failed

  /** Reading into `buf` what it lacks of `total` bytes. */
  function Fill(buf: Buffer, total: nat, q: seq<Datagram>): Filled
    requires |buf.data| <= buf.size
  {
    var want := (total - |buf.data|) % TWO_64;  // `size_t` subtraction
    match Drain(q, want, buf.size - |buf.data|)
    case Overrun => Failed
    case Drained(data, rest) => Filled(Buffer(buf.data + data, buf.size), rest, |data| == want)
  }

  /** `receive` once the header is there. */
  function ReceiveBody(r: Receiver, total: int, q: seq<Datagram>, m: nat): Received
    requires r.Valid()
  {
    if total <= 0 then Received(r.(msgRead := false), q, Complete([]))
    else
      var (buf, pool) :=
        if r.payload.Some? then (r.payload.value, r.pool) else Retrieve(r.pool, if total > m then total else m);
      match Fill(buf, total, q)
      case Failed => Received(r, q, Threw(OutOfBounds))
      case Filled(buf', rest, done) =>
        if done then Received(r.(msgRead := false, payload := None, pool := pool), rest, Complete(buf'.data))
        else Received(r.(payload := Some(buf'), pool := pool), rest, Nothing)
  }

  /** `POSIXMQChannel::receive`, on a queue that may run empty. */
  function Receive(r: Receiver, q: seq<Datagram>, m: nat): Received
    requires r.Valid()
  {
    if r.msgRead then ReceiveBody(r, Total(r.msg), q, m)
    else match Drain(q, IPC_SIZE, m)
      case Overrun => Received(r, q, Threw(OutOfBounds))
      case Drained(data, rest) =>
        if data == [] then Received(r, rest, Nothing)
        else if |data| < IPC_SIZE then Received(r, rest, Threw(NotImplemented))
        else
          var msg := data[..IPC_SIZE];
          ReceiveBody(r.(msgRead := true, msg := msg), Total(msg), rest, m)
  }

  /** Below the size of a header nothing can be received: a header that is cut ends the call, whether
      or not its rest is there. */
  lemma CutHeadersFail(r: Receiver, p: Packet, more: seq<Datagram>, m: nat)
    requires r.Valid() && !r.msgRead && 0 < m < IPC_SIZE
    ensures Receive(r, Datagrams(p, m) + more, m).reply.Threw?
    ensures Receive(r, [Chunks(p.header, m)[0]], m).reply == Threw(NotImplemented)
  {
    var header := Chunks(p.header, m);
    var later := Chunks(p.header[m..], m);
    assert header == [p.header[..m]] + later && later != [];
    var q := Datagrams(p, m) + more;
    assert q[0] == p.header[..m] && q[1..][0] == later[0] && later[0] in later;
    CutOverruns(q, m);
    assert Drain([header[0]], IPC_SIZE, m) == Drained(header[0] + [], [header[0]][1..]);
  }

  lemma CutOverruns(q: seq<Datagram>, m: nat)
    requires |q| > 1 && 0 < m < IPC_SIZE && |q[0]| == m && |q[1]| > 0
    ensures Drain(q, IPC_SIZE, m).Overrun?
  {
    assert Drain(q[1..], IPC_SIZE - m, 0).Overrun?;
  }

  /** Reading whole datagrams whose sizes add up to the amount wanted. */
  lemma {:induction false} DrainAll(ds: seq<Datagram>, tail: seq<Datagram>, room: nat)
    requires |Flatten(ds)| <= room
    requires forall d :: d in ds ==> |d| > 0
    ensures Drain(ds + tail, |Flatten(ds)|, room) == Drained(Flatten(ds), tail)
  {
    if ds == [] {
      assert ds + tail == tail;
    } else {
      assert (ds + tail)[1..] == ds[1..] + tail;
      DrainAll(ds[1..], tail, room - |ds[0]|);
    }
  }

  /** Running the queue empty before that. */
  lemma {:induction false} DrainSome(q: seq<Datagram>, want: nat, room: nat)
    requires |Flatten(q)| < want <= room
    ensures Drain(q, want, room) == Drained(Flatten(q), [])
  {
    if q != [] {
      DrainSome(q[1..], want - |q[0]|, room - |q[0]|);
    }
  }

  /** A message is completed by the datagrams that hold its missing bytes ... */
  lemma FillCompletes(buf: Buffer, rest: seq<Datagram>, tail: seq<Datagram>, payload: seq<byte>)
    requires buf.data + Flatten(rest) == payload && |payload| <= buf.size && |payload| < TWO_64
    requires forall d :: d in rest ==> |d| > 0
    ensures Fill(buf, |payload|, rest + tail) == Filled(Buffer(payload, buf.size), tail, true)
  {
    DrainAll(rest, tail, buf.size - |buf.data|);
  }

  /** ... and keeps the bytes of a queue that runs empty before. */
  lemma FillContinues(buf: Buffer, q: seq<Datagram>, total: nat)
    requires |buf.data| + |Flatten(q)| < total <= buf.size && total < TWO_64
    ensures Fill(buf, total, q) == Filled(Buffer(buf.data + Flatten(q), buf.size), [], false)
  {
    DrainSome(q, total - |buf.data|, buf.size - |buf.data|);
  }

  // ------------------------------------------------------- refinement of a FIFO

  /**
   * The receiver state `r` and the stream (queued, then still to arrive) are exactly what
   * is left of the stream of the messages `due`.
   */
  ghost predicate Tracks(r: Receiver, stream: seq<Datagram>, due: seq<Packet>, m: nat)
    requires m >= IPC_SIZE
  {
    && r.Valid() && |r.pool| <= m
    && if r.msgRead then due != [] && exists rest :: MidPacket(r, stream, rest, due, m)
       else r.payload.None? && stream == Wire(due, m)
  }

  /** `rest` are the datagrams of the current message that have not been read. */
  ghost predicate MidPacket(r: Receiver, stream: seq<Datagram>, rest: seq<Datagram>, due: seq<Packet>, m: nat)
    requires m >= IPC_SIZE && r.Valid() && due != []
  {
    && r.msgRead && r.msg == due[0].header
    && rest != [] && (forall d :: d in rest ==> |d| > 0)
    && (if r.payload.Some? then r.payload.value.data + Flatten(rest) else Flatten(rest)) == due[0].Payload()
    && (r.payload.Some? ==> r.payload.value.size >= |due[0].Payload()|)
    && stream == rest + Wire(due[1..], m)
  }

  ghost predicate Delivers(p: Packet, out: Received) {
    out.reply == Complete(p.Payload()) && out.r.msg == p.header
  }

  lemma PrefixSplit(q: seq<Datagram>, later: seq<Datagram>, a: seq<Datagram>, b: seq<Datagram>)
    requires q + later == a + b
    ensures |q| >= |a| ==> q == a + q[|a|..] && q[|a|..] + later == b
    ensures |q| < |a| ==> a == q + a[|q|..] && later == a[|q|..] + b
  {
    if |q| >= |a| {
      assert q[..|a|] == (q + later)[..|a|] == (a + b)[..|a|] == a;
      assert q[|a|..] + later == (q + later)[|a|..] == (a + b)[|a|..] == b;
    } else {
      assert a[..|q|] == (a + b)[..|q|] == (q + later)[..|q|] == q;
      assert later == (q + later)[|q|..] == (a + b)[|q|..] == a[|q|..] + b;
    }
  }

  lemma {:induction false} FlattenNonEmpty(ds: seq<Datagram>)
    requires forall d :: d in ds ==> |d| > 0
    ensures |ds| > 0 ==> |Flatten(ds)| > 0
  {
  }

  /** The buffer `receive` reads into, and the pool it leaves. */
  lemma HeldBuffer(r: Receiver, total: nat, m: nat)
    requires r.Valid() && |r.pool| <= m && (r.payload.Some? ==> r.payload.value.size >= total)
    ensures var (buf, pool) :=
      if r.payload.Some? then (r.payload.value, r.pool) else Retrieve(r.pool, if total > m then total else m);
      && total <= buf.size && |pool| <= m && (forall b :: b in pool ==> b.data == [])
      && buf.data == if r.payload.Some? then r.payload.value.data else []
  {
  }

  /** The rest of the message is on the queue. */
  lemma BodyCompletes(r: Receiver, rest: seq<Datagram>, tail: seq<Datagram>, due: seq<Packet>, m: nat)
    requires m >= IPC_SIZE && r.Valid() && |r.pool| <= m && due != []
    requires MidPacket(r, rest + Wire(due[1..], m), rest, due, m)
    ensures var out := ReceiveBody(r, |due[0].Payload()|, rest + tail, m);
      && out.queue == tail && out.r.Valid() && |out.r.pool| <= m
      && !out.r.msgRead && out.r.payload.None? && Delivers(due[0], out)
  {
    var payload := due[0].Payload();
    FlattenNonEmpty(rest);
    HeldBuffer(r, |payload|, m);
    var (buf, pool) :=
      if r.payload.Some? then (r.payload.value, r.pool) else Retrieve(r.pool, if |payload| > m then |payload| else m);
    assert buf.data + Flatten(rest) == payload;
    FillCompletes(buf, rest, tail, payload);
  }

  /** The queue runs empty first. */
  lemma BodyContinues(r: Receiver, q: seq<Datagram>, unread: seq<Datagram>, due: seq<Packet>, m: nat)
    requires m >= IPC_SIZE && r.Valid() && |r.pool| <= m && due != [] && unread != []
    requires MidPacket(r, (q + unread) + Wire(due[1..], m), q + unread, due, m)
    ensures var out := ReceiveBody(r, |due[0].Payload()|, q, m);
      && out.reply == Nothing && out.queue == [] && out.r.Valid() && |out.r.pool| <= m && out.r.msgRead
      && MidPacket(out.r, unread + Wire(due[1..], m), unread, due, m)
  {
    var payload := due[0].Payload();
    FlattenConcat(q, unread);
    FlattenNonEmpty(unread);
    HeldBuffer(r, |payload|, m);
    var (buf, pool) :=
      if r.payload.Some? then (r.payload.value, r.pool) else Retrieve(r.pool, if |payload| > m then |payload| else m);
    Assoc(buf.data, Flatten(q), Flatten(unread));
    assert buf.data + Flatten(q + unread) == payload;
    FillContinues(buf, q, |payload|);
    assert forall d :: d in unread ==> d in q + unread;
  }

  /** The body of `receive` on a message in progress. */
  lemma BodyKeepsTrack(r: Receiver, q: seq<Datagram>, later: seq<Datagram>, rest: seq<Datagram>, due: seq<Packet>, m: nat)
    requires m >= IPC_SIZE && r.Valid() && |r.pool| <= m && due != []
    requires MidPacket(r, q + later, rest, due, m)
    ensures var out := ReceiveBody(r, |due[0].Payload()|, q, m);
      if out.reply.Nothing? then out.queue == [] && Tracks(out.r, later, due, m)
      else Delivers(due[0], out) && Tracks(out.r, out.queue + later, due[1..], m)
  {
    var after := Wire(due[1..], m);
    PrefixSplit(q, later, rest, after);
    if |q| >= |rest| {
      BodyCompletes(r, rest, q[|rest|..], due, m);
    } else {
      BodyContinues(r, q, rest[|q|..], due, m);
    }
  }

  lemma WireFirst(due: seq<Packet>, m: nat)
    requires m >= IPC_SIZE && due != []
    ensures Wire(due, m) == [due[0].header] + (PartDatagrams(due[0].parts, m) + Wire(due[1..], m))
  {
    assert Datagrams(due[0], m) == [due[0].header] + PartDatagrams(due[0].parts, m);
    Assoc([due[0].header], PartDatagrams(due[0].parts, m), Wire(due[1..], m));
  }

  lemma DrainsHeader(h: Datagram, q: seq<Datagram>, m: nat)
    requires |h| == IPC_SIZE <= m
    ensures Drain([h] + q, IPC_SIZE, m) == Drained(h, q)
  {
    assert ([h] + q)[1..] == q && h + [] == h;
  }

  /** Between messages the first datagram is a whole header. */
  lemma HeaderComesFirst(q: seq<Datagram>, later: seq<Datagram>, due: seq<Packet>, m: nat) returns (rest: seq<Datagram>)
    requires m >= IPC_SIZE && q != [] && q + later == Wire(due, m)
    ensures due != [] && (forall d :: d in rest ==> |d| > 0) && Flatten(rest) == due[0].Payload()
    ensures q[1..] + later == rest + Wire(due[1..], m)
    ensures Drain(q, IPC_SIZE, m) == Drained(due[0].header, q[1..])
  {
    assert |q + later| > 0;
    var p := due[0];
    rest := PartDatagrams(p.parts, m);
    PartsFlatten(p.parts, m);
    WireFirst(due, m);
    FirstArrived(q, later, p.header, rest + Wire(due[1..], m));
    DrainsHeader(p.header, q[1..], m);
  }

  lemma FirstArrived(q: seq<Datagram>, later: seq<Datagram>, first: Datagram, behind: seq<Datagram>)
    requires q != [] && q + later == [first] + behind
    ensures q == [first] + q[1..] && q[1..] + later == behind
  {
    assert q[0] == (q + later)[0];
    assert q[1..] + later == (q + later)[1..];
  }

  /**
   * One `receive` never throws and never writes outside its buffer. It returns the next
   * message, header and payload, in the order sent, or it empties the queue; either way
   * nothing is lost, repeated or reordered.
   */
  lemma ReceiveKeepsTrack(r: Receiver, q: seq<Datagram>, later: seq<Datagram>, due: seq<Packet>, m: nat)
    requires m >= IPC_SIZE && Tracks(r, q + later, due, m)
    ensures var out := Receive(r, q, m);
      if out.reply.Nothing? then out.queue == [] && Tracks(out.r, later, due, m)
      else due != [] && Delivers(due[0], out) && Tracks(out.r, out.queue + later, due[1..], m)
  {
    if r.msgRead {
      var rest :| MidPacket(r, q + later, rest, due, m);
      BodyKeepsTrack(r, q, later, rest, due, m);
    } else if q != [] {
      var rest := HeaderComesFirst(q, later, due, m);
      var header := due[0].header;
      assert header[..IPC_SIZE] == header;
      var r' := r.(msgRead := true, msg := header);
      if rest != [] {
        FlattenNonEmpty(rest);
        assert MidPacket(r', q[1..] + later, rest, due, m);
        BodyKeepsTrack(r', q[1..], later, rest, due, m);
      } else {
        assert rest + Wire(due[1..], m) == Wire(due[1..], m);
      }
    } else {
      assert [] + later == later;
    }
  }

  /** Once everything has arrived, a message due is delivered by the next call. */
  lemma NothingStuck(r: Receiver, q: seq<Datagram>, due: seq<Packet>, m: nat)
    requires m >= IPC_SIZE && Tracks(r, q, due, m) && due != []
    ensures Receive(r, q, m).reply == Complete(due[0].Payload())
  {
    assert q + [] == q;
    ReceiveKeepsTrack(r, q, [], due, m);
    var out := Receive(r, q, m);
    if out.reply.Nothing? {
      StreamNotDone(out.r, [], due, m);
    }
  }

  lemma StreamNotDone(r: Receiver, stream: seq<Datagram>, due: seq<Packet>, m: nat)
    requires m >= IPC_SIZE && Tracks(r, stream, due, m) && due != []
    ensures stream != []
  {
    if r.msgRead {
      var rest :| MidPacket(r, stream, rest, due, m);
      assert stream[0] == rest[0];
    }
  }

  // ------------------------------------------------------------- every run

  /** One step of sender, kernel and receiver. */
  datatype Event = Send(p: Packet) | Arrive | ReceiveCall

  datatype System = System(
    r: Receiver, queue: seq<Datagram>, later: seq<Datagram>,
    sent: seq<Packet>, delivered: seq<RawPacket>, failed: bool)

  ghost function Step(s: System, e: Event, m: nat): System
    requires m > 0 && s.r.Valid()
  {
    match e
    case Send(p) => s.(later := s.later + Datagrams(p, m), sent := s.sent + [p])
    case Arrive => if s.later == [] then s else s.(queue := s.queue + [s.later[0]], later := s.later[1..])
    case ReceiveCall => Record(s, Receive(s.r, s.queue, m))
  }

  ghost function Record(s: System, out: Received): System {
    if out.reply.Threw? || !out.r.Valid() then s.(failed := true)
    else if out.reply.Nothing? then s.(r := out.r, queue := out.queue)
    else s.(r := out.r, queue := out.queue, delivered := s.delivered + [RawPacket(out.r.msg, [out.reply.data])])
  }

  ghost function Run(start: Receiver, events: seq<Event>, m: nat): (s: System)
    requires m > 0 && start.Valid()
    ensures s.r.Valid()
  {
    if events == [] then System(start, [], [], [], [], false)
    else Step(Run(start, events[..|events| - 1], m), events[|events| - 1], m)
  }

  /** The delivered messages are the first ones sent, with their payload in one piece. */
  ghost predicate FirstOnes(delivered: seq<RawPacket>, sent: seq<Packet>) {
    && |delivered| <= |sent|
    && forall i :: 0 <= i < |delivered| ==> delivered[i] == RawPacket(sent[i].header, [sent[i].Payload()])
  }

  ghost predicate Fifo(s: System, m: nat)
    requires m >= IPC_SIZE
  {
    && !s.failed
    && FirstOnes(s.delivered, s.sent)
    && Tracks(s.r, s.queue + s.later, s.sent[|s.delivered|..], m)
  }

  /**
   * For every interleaving of sends, arrivals and `receive` calls: no call fails, and the
   * messages delivered are exactly the first messages sent, in order and byte for byte.
   */
  lemma {:induction false} DeliveredInOrder(start: Receiver, events: seq<Event>, m: nat)
    requires m >= IPC_SIZE
    requires start.Valid() && !start.msgRead && start.payload.None? && |start.pool| <= m
    ensures Fifo(Run(start, events, m), m)
  {
    if events != [] {
      var before := Run(start, events[..|events| - 1], m);
      DeliveredInOrder(start, events[..|events| - 1], m);
      match events[|events| - 1]
      case Send(p) => SendKeepsFifo(before, p, m);
      case Arrive => ArriveKeepsFifo(before, m);
      case ReceiveCall => CallKeepsFifo(before, m);
    }
  }

  lemma SendTracked(r: Receiver, stream: seq<Datagram>, due: seq<Packet>, p: Packet, m: nat)
    requires m >= IPC_SIZE && Tracks(r, stream, due, m)
    ensures Tracks(r, stream + Datagrams(p, m), due + [p], m)
  {
    if r.msgRead {
      var rest :| MidPacket(r, stream, rest, due, m);
      SendTrackedMid(r, stream, rest, due, p, m);
    } else {
      WireConcat(due, p, m);
    }
  }

  lemma SendTrackedMid(r: Receiver, stream: seq<Datagram>, rest: seq<Datagram>, due: seq<Packet>, p: Packet, m: nat)
    requires m >= IPC_SIZE && r.Valid() && due != [] && MidPacket(r, stream, rest, due, m)
    ensures MidPacket(r, stream + Datagrams(p, m), rest, due + [p], m)
  {
    var after, added := due[1..], Datagrams(p, m);
    assert (due + [p])[1..] == after + [p] && (due + [p])[0] == due[0];
    assert stream + added == rest + Wire(after + [p], m) by {
      WireConcat(after, p, m);
      Assoc(rest, Wire(after, m), added);
    }
  }

  lemma SendKeepsFifo(s: System, p: Packet, m: nat)
    requires m >= IPC_SIZE && s.r.Valid() && Fifo(s, m)
    ensures Fifo(Step(s, Send(p), m), m)
  {
    SendTracked(s.r, s.queue + s.later, s.sent[|s.delivered|..], p, m);
    Assoc(s.queue, s.later, Datagrams(p, m));
    assert (s.sent + [p])[|s.delivered|..] == s.sent[|s.delivered|..] + [p];
  }

  lemma ArriveKeepsFifo(s: System, m: nat)
    requires m >= IPC_SIZE && s.r.Valid() && Fifo(s, m)
    ensures Fifo(Step(s, Arrive, m), m)
  {
    if s.later != [] {
      Assoc(s.queue, [s.later[0]], s.later[1..]);
      assert [s.later[0]] + s.later[1..] == s.later;
    }
  }

  lemma CallKeepsFifo(s: System, m: nat)
    requires m >= IPC_SIZE && s.r.Valid() && Fifo(s, m)
    ensures Fifo(Step(s, ReceiveCall, m), m)
  {
    ReceiveKeepsTrack(s.r, s.queue, s.later, s.sent[|s.delivered|..], m);
    RecordKeepsFifo(s, Receive(s.r, s.queue, m), m);
  }

  lemma RecordKeepsFifo(s: System, out: Received, m: nat)
    requires m >= IPC_SIZE && Fifo(s, m)
    requires var due := s.sent[|s.delivered|..];
      if out.reply.Nothing? then out.queue == [] && Tracks(out.r, s.later, due, m)
      else due != [] && Delivers(due[0], out) && Tracks(out.r, out.queue + s.later, due[1..], m)
    ensures Fifo(Record(s, out), m)
  {
    if out.reply.Nothing? {
      assert [] + s.later == s.later;
    } else {
      CompletionKeepsFifo(s, out, m);
    }
  }

  lemma CompletionKeepsFifo(s: System, out: Received, m: nat)
    requires m >= IPC_SIZE && Fifo(s, m)
    requires var due := s.sent[|s.delivered|..];
      due != [] && Delivers(due[0], out) && Tracks(out.r, out.queue + s.later, due[1..], m)
    ensures Fifo(Record(s, out), m)
  {
    OneMoreDelivered(s.delivered, s.sent, RawPacket(out.r.msg, [out.reply.data]));
  }

  lemma OneMoreDelivered(delivered: seq<RawPacket>, sent: seq<Packet>, p: RawPacket)
    requires FirstOnes(delivered, sent) && |delivered| < |sent|
    requires var due := sent[|delivered|..]; p == RawPacket(due[0].header, [due[0].Payload()])
    ensures FirstOnes(delivered + [p], sent) && sent[|delivered|..][1..] == sent[|delivered + [p]|..]
  {
  }

  // --------------------------------------------------------------- the channel

  /** The kernel's queue; all datagrams carry the same priority, so it is a FIFO. */
  class MessageQueue {
    var datagrams: seq<Datagram>

    constructor ()
      ensures datagrams == []
    {
      datagrams := [];
    }
  }

  class Channel {
    const queue: MessageQueue
    const msgSize: nat
    const buffers: BufferQueue
    var msgRead: bool
    var msg: seq<byte>
    var payload: Option<Buffer>

    ghost predicate Valid()
      reads this, buffers
    {
      msgSize > 0 && State().Valid()
    }

    ghost function State(): Receiver
      reads this, buffers
    {
      Receiver(msgRead, msg, payload, buffers.buffers)
    }

    constructor (q: MessageQueue, size: nat)
      requires size > 0
      ensures Valid() && queue == q && msgSize == size && fresh(buffers)
      ensures !msgRead && payload.None? && |buffers.buffers| == 5
    {
      queue, msgSize := q, size;
      buffers := new BufferQueue(5, 0x10_0000);
      msgRead, msg, payload := false, Zeros(IPC_SIZE), None;
    }

    /** `_send`. */
    method SendBytes(data: seq<byte>)
      requires msgSize > 0
      modifies queue
      ensures queue.datagrams == old(queue.datagrams) + Chunks(data, msgSize)
    {
      var pos := 0;
      while pos < |data|
        invariant 0 <= pos <= |data|
        invariant queue.datagrams + Chunks(data[pos..], msgSize) == old(queue.datagrams) + Chunks(data, msgSize)
      {
        var size := if |data| - pos < msgSize then |data| - pos else msgSize;
        ghost var before := queue.datagrams;
        ChunksStep(data, pos, size, msgSize);
        queue.datagrams := queue.datagrams + [data[pos..pos + size]];
        Assoc(before, [data[pos..pos + size]], Chunks(data[pos + size..], msgSize));
        pos := pos + size;
      }
      assert data[pos..] == [];
    }

    /** The first loop of the vector `send`. */
    method PayloadLength(parts: seq<seq<byte>>) returns (len: nat)
      ensures len == |Flatten(parts)|
    {
      len := 0;
      for i := 0 to |parts|
        invariant len == |Flatten(parts[..i])|
      {
        len := len + |parts[i]|;
        assert parts[..i + 1] == parts[..i] + [parts[i]];
        FlattenConcat(parts[..i], [parts[i]]);
      }
      assert parts[..|parts|] == parts;
    }

    /** Its second loop, over the buffers that are not empty. */
    method SendParts(parts: seq<seq<byte>>)
      requires msgSize > 0
      modifies queue
      ensures queue.datagrams == old(queue.datagrams) + PartDatagrams(parts, msgSize)
    {
      for i := 0 to |parts|
        invariant queue.datagrams + PartDatagrams(parts[i..], msgSize) == old(queue.datagrams) + PartDatagrams(parts, msgSize)
      {
        ghost var before := queue.datagrams;
        if |parts[i]| > 0 {
          SendBytes(parts[i]);
        }
        assert parts[i..][1..] == parts[i + 1..];
        assert queue.datagrams == before + Chunks(parts[i], msgSize);
        Assoc(before, Chunks(parts[i], msgSize), PartDatagrams(parts[i + 1..], msgSize));
      }
      assert parts[|parts|..] == [] && PartDatagrams([], msgSize) == [];
    }

    /** `send` of a header with any number of payload buffers. */
    method Send(header: seq<byte>, parts: seq<seq<byte>>)
      requires msgSize > 0 && |header| == IPC_SIZE
      modifies queue
      ensures queue.datagrams == old(queue.datagrams) + Datagrams(Stamp(header, parts), msgSize)
    {
      var len := PayloadLength(parts);
      ghost var stamped := Stamp(header, parts);
      assert stamped.header == Put(header, TOTAL, Int(Wrap32(len))) && stamped.parts == parts;
      SendBytes(Put(header, TOTAL, Int(Wrap32(len))));
      SendParts(parts);
      Assoc(old(queue.datagrams), Chunks(stamped.header, msgSize), PartDatagrams(parts, msgSize));
    }

    /** `_recv` on a non-blocking queue. */
    method Recv(want: nat, room: nat) returns (data: seq<byte>, ok: bool)
      modifies queue
      ensures match Drain(old(queue.datagrams), want, room)
        case Overrun => !ok
        case Drained(d, rest) => ok && data == d && queue.datagrams == rest
    {
      data, ok := [], true;
      while |data| < want && queue.datagrams != []
        invariant |data| <= room || data == []
        invariant Drain(old(queue.datagrams), want, room)
          == Prepend(data, Drain(queue.datagrams, if |data| >= want then 0 else want - |data|, room - |data|))
        decreases |queue.datagrams|
      {
        var d := queue.datagrams[0];
        if |data| + |d| > room {
          return data, false;
        }
        ghost var tail := Drain(queue.datagrams[1..], if |data| + |d| >= want then 0 else want - |data| - |d|, room - |data| - |d|);
        if tail.Drained? {
          Assoc(data, d, tail.data);
        }
        queue.datagrams := queue.datagrams[1..];
        data := data + d;
      }
    }

    /** `receive`: resumes where the previous call stopped. */
    method ReceiveMessage() returns (reply: Reply)
      requires Valid()
      modifies this, queue, buffers
      ensures reply == Receive(old(State()), old(queue.datagrams), msgSize).reply
      ensures reply.Threw? || Received(State(), queue.datagrams, reply) == Receive(old(State()), old(queue.datagrams), msgSize)
    {
      if !msgRead {
        var data, ok := Recv(IPC_SIZE, msgSize);
        if !ok {
          return Threw(OutOfBounds);
        }
        if |data| == 0 {
          return Nothing;
        }
        if |data| < IPC_SIZE {
          return Threw(NotImplemented);
        }
        msg := data[..IPC_SIZE];
        msgRead := true;
      }
      reply := ReceivePayload();
    }

    /** Reads behind what the buffer holds already. */
    method ReadInto(buf: Buffer, total: nat) returns (filled: Buffer, done: bool, ok: bool)
      requires |buf.data| <= buf.size
      modifies queue
      ensures match Fill(buf, total, old(queue.datagrams))
        case Failed => !ok
        case Filled(buf', rest, all) => ok && filled == buf' && queue.datagrams == rest && done == all
    {
      var want := (total - |buf.data|) % TWO_64;
      var data;
      data, ok := Recv(want, buf.size - |buf.data|);
      filled, done := Buffer(buf.data + data, buf.size), |data| == want;
    }

    method ReceivePayload() returns (reply: Reply)
      requires Valid()
      modifies this, queue, buffers
      ensures reply == ReceiveBody(old(State()), Total(old(msg)), old(queue.datagrams), msgSize).reply
      ensures reply.Threw?
        || Received(State(), queue.datagrams, reply) == ReceiveBody(old(State()), Total(old(msg)), old(queue.datagrams), msgSize)
    {
      var total := Total(msg);
      if total > 0 {
        var buf: Buffer;
        if payload.None? {
          buf := buffers.RetrieveBuffer(if total > msgSize then total else msgSize);
        } else {
          buf := payload.value;
        }
        var filled, done, ok := ReadInto(buf, total);
        if !ok {
          return Threw(OutOfBounds);
        }
        if done {
          msgRead := false;
          payload := None;
          return Complete(filled.data);
        } else {
          payload := Some(filled);
          return Nothing;
        }
      } else {
        msgRead := false;
        return Complete([]);
      }
    }
  }
}
