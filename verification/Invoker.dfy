/**
 * Both ends of an invocation: the controller's `Workers::submit` builds the header with the
 * table of buffer lengths and sends the buffers; the worker's `Invoker::poll` receives the
 * bytes in one piece and cuts them up again.
 */
module Invoker {
  import opened Wrappers
  import opened Bytes
  import opened Messages
  import opened Ipc
  import AppView = ApplicationView

  // ------------------------------------------------------- the controller's end

  function Sizes(parts: seq<seq<byte>>): (ls: seq<nat>)
    ensures |ls| == |parts| && forall i :: 0 <= i < |parts| ==> ls[i] == |parts[i]|
  {
    if parts == [] then [] else [|parts[0]|] + Sizes(parts[1..])
  }

  /** The lengths as the table stores them. */
  function Stored(sizes: seq<nat>): (ls: seq<int32>)
    ensures |ls| == |sizes| && forall i :: 0 <= i < |sizes| ==> ls[i] == Wrap32(sizes[i])
  {
    if sizes == [] then [] else [Wrap32(sizes[0])] + Stored(sizes[1..])
  }

  const KEY := Text(6, 16, 16)
  const FUNCTION := Text(22, 32, 32)

  /** The header `submit` sends: function and key, then the table of lengths. */
  function InvocationHeader(key: seq<byte>, fname: seq<byte>, lengths: seq<int32>): (h: seq<byte>)
    requires |lengths| <= TABLE_CAPACITY
    ensures |h| == IPC_SIZE
  {
    WithTable(Put(Put(Fresh(IPC_SIZE, IPC_INVOCATION), FUNCTION, Str(fname)), KEY, Str(key)), lengths)
  }

  function InvocationPacket(key: seq<byte>, fname: seq<byte>, parts: seq<seq<byte>>): (p: RawPacket)
    requires |parts| <= TABLE_CAPACITY
    ensures |p.header| == IPC_SIZE
  {
    Stamp(InvocationHeader(key, fname, Stored(Sizes(parts))), parts)
  }

  /** Entry `i` of the table, as the `size_t` it is assigned to. */
  function LengthAt(msg: seq<byte>, i: nat): nat
    requires |msg| == IPC_SIZE && i < TABLE_CAPACITY
  {
    Get(msg, Entry(i)).num % TWO_64
  }

  function Table(msg: seq<byte>, n: nat): (ls: seq<nat>)
    requires |msg| == IPC_SIZE && n <= TABLE_CAPACITY
    ensures |ls| == n
  {
    if n == 0 then [] else Table(msg, n - 1) + [LengthAt(msg, n - 1)]
  }

  /** What a header tells the worker. */
  ghost predicate Declares(h: seq<byte>, key: seq<byte>, fname: seq<byte>, sizes: seq<nat>)
    requires |h| == IPC_SIZE && |sizes| <= TABLE_CAPACITY
  {
    && Parse(Ipc, h) == Success(IPC_INVOCATION)
    && Get(h, KEY) == Str(key) && Get(h, FUNCTION) == Str(fname)
    && Get(h, COUNT) == Int(|sizes|) && Table(h, |sizes|) == sizes
  }

  lemma NamesReadBack(key: seq<byte>, fname: seq<byte>)
    requires |key| <= 16 && |fname| <= 32
    ensures var b := Put(Put(Fresh(IPC_SIZE, IPC_INVOCATION), FUNCTION, Str(fname)), KEY, Str(key));
      b[..2] == [IPC_INVOCATION, 0] && Get(b, KEY) == Str(CString(key)) && Get(b, FUNCTION) == Str(CString(fname))
  {
    var blank := Fresh(IPC_SIZE, IPC_INVOCATION);
    var named := Put(blank, FUNCTION, Str(fname));
    PutReadsBack(blank, FUNCTION, Str(fname));
    PutReadsBack(named, KEY, Str(key));
    PutLeavesOthers(blank, FUNCTION, Str(fname), KEY);
    PutLeavesOthers(named, KEY, Str(key), FUNCTION);
    assert blank[..2] == [IPC_INVOCATION, 0];
  }

  /** Two headers with the same bytes in front of the table have the same fields there. */
  lemma SamePrefix(a: seq<byte>, b: seq<byte>, f: Field)
    requires |a| == |b| == IPC_SIZE && f.Within(0, 74) && a[..74] == b[..74]
    ensures Get(a, f) == Get(b, f) && a[..2] == b[..2]
  {
    SliceOfPrefix(a, f.off, f.off + f.Size());
    SliceOfPrefix(b, f.off, f.off + f.Size());
    SliceOfPrefix(a, 0, 2);
    SliceOfPrefix(b, 0, 2);
  }

  lemma SliceOfPrefix(s: seq<byte>, lo: nat, hi: nat)
    requires lo <= hi <= 74 <= |s|
    ensures s[lo..hi] == s[..74][lo..hi] && s[..hi] == s[..74][..hi]
  {
  }

  ghost predicate HasEntries(h: seq<byte>, lengths: seq<int32>)
    requires |h| == IPC_SIZE && |lengths| <= TABLE_CAPACITY
  {
    forall i :: 0 <= i < |lengths| ==> Get(h, Entry(i)) == Int(lengths[i])
  }

  /** The header before `send` adds the total length. */
  lemma HeaderReadsBack(key: seq<byte>, fname: seq<byte>, lengths: seq<int32>)
    requires |lengths| <= TABLE_CAPACITY && |key| <= 16 && |fname| <= 32
    ensures var h := InvocationHeader(key, fname, lengths);
      && h[..2] == [IPC_INVOCATION, 0]
      && Get(h, KEY) == Str(CString(key)) && Get(h, FUNCTION) == Str(CString(fname)) && Get(h, COUNT) == Int(|lengths|)
      && HasEntries(h, lengths)
  {
    var named := Put(Put(Fresh(IPC_SIZE, IPC_INVOCATION), FUNCTION, Str(fname)), KEY, Str(key));
    var counted := Put(named, COUNT, Int(|lengths|));
    NamesReadBack(key, fname);
    PutReadsBack(named, COUNT, Int(|lengths|));
    PutLeavesOthers(named, COUNT, Int(|lengths|), KEY);
    PutLeavesOthers(named, COUNT, Int(|lengths|), FUNCTION);
    EntriesStayBehind(counted, lengths, |lengths|);
    forall i | 0 <= i < |lengths| ensures Get(InvocationHeader(key, fname, lengths), Entry(i)) == Int(lengths[i]) {
      EntryReadsBack(counted, lengths, |lengths|, i);
    }
    SamePrefix(InvocationHeader(key, fname, lengths), counted, KEY);
    SamePrefix(InvocationHeader(key, fname, lengths), counted, FUNCTION);
    SamePrefix(InvocationHeader(key, fname, lengths), counted, COUNT);
  }

  ghost predicate LengthIs(h: seq<byte>, i: nat, n: nat)
    requires |h| == IPC_SIZE && i < TABLE_CAPACITY
  {
    LengthAt(h, i) == n
  }

  lemma {:induction false} TableReads(h: seq<byte>, sizes: seq<nat>, n: nat)
    requires |h| == IPC_SIZE && n <= |sizes| <= TABLE_CAPACITY
    requires forall i :: 0 <= i < |sizes| ==> LengthIs(h, i, sizes[i])
    ensures Table(h, n) == sizes[..n]
  {
    if n > 0 {
      TableReads(h, sizes, n - 1);
      assert sizes[..n] == sizes[..n - 1] + [sizes[n - 1]];
    }
  }

  /** An entry as the worker reads it, after `send` has added the total length. */
  lemma EntryReads(h: seq<byte>, lengths: seq<int32>, total: int32, i: nat)
    requires |h| == IPC_SIZE && i < |lengths| <= TABLE_CAPACITY && HasEntries(h, lengths)
    ensures LengthAt(Put(h, TOTAL, Int(total)), i) == lengths[i] % TWO_64
  {
    TotalLeavesOthers(h, total, Entry(i));
  }

  lemma StampedReads(h: seq<byte>, lengths: seq<int32>, size: nat, total: int32, i: nat)
    requires |h| == IPC_SIZE && i < |lengths| <= TABLE_CAPACITY && HasEntries(h, lengths) && size == lengths[i]
    ensures LengthIs(Put(h, TOTAL, Int(total)), i, size)
  {
    EntryReads(h, lengths, total, i);
  }

  lemma EntriesRead(h: seq<byte>, lengths: seq<int32>, sizes: seq<nat>, total: int32)
    requires |h| == IPC_SIZE && |sizes| == |lengths| <= TABLE_CAPACITY && HasEntries(h, lengths)
    requires forall i :: 0 <= i < |sizes| ==> sizes[i] == lengths[i]
    ensures Table(Put(h, TOTAL, Int(total)), |sizes|) == sizes[..|sizes|]
  {
    var stamped := Put(h, TOTAL, Int(total));
    forall i | 0 <= i < |sizes| ensures LengthIs(stamped, i, sizes[i]) {
      StampedReads(h, lengths, sizes[i], total, i);
    }
    TableReads(stamped, sizes, |sizes|);
  }

  lemma StoredExactly(sizes: seq<nat>)
    requires forall i :: 0 <= i < |sizes| ==> sizes[i] < 0x8000_0000
    ensures forall i :: 0 <= i < |sizes| ==> sizes[i] == Stored(sizes)[i]
  {
  }

  /** What the worker reads from a submitted header is what the controller put in. */
  lemma InvocationReadsBack(key: seq<byte>, fname: seq<byte>, lengths: seq<int32>, sizes: seq<nat>, total: int32)
    requires |sizes| == |lengths| <= TABLE_CAPACITY && |key| <= 16 && |fname| <= 32
    requires forall i :: 0 <= i < |sizes| ==> sizes[i] == lengths[i]
    ensures Declares(Put(InvocationHeader(key, fname, lengths), TOTAL, Int(total)), CString(key), CString(fname), sizes)
  {
    var h := InvocationHeader(key, fname, lengths);
    HeaderReadsBack(key, fname, lengths);
    EntriesRead(h, lengths, sizes, total);
    TotalKeepsDeclared(h, CString(key), CString(fname), sizes, total);
  }

  lemma TotalKeepsDeclared(h: seq<byte>, key: seq<byte>, fname: seq<byte>, sizes: seq<nat>, total: int32)
    requires |sizes| <= TABLE_CAPACITY && |h| == IPC_SIZE && h[..2] == [IPC_INVOCATION, 0]
    requires Get(h, KEY) == Str(key) && Get(h, FUNCTION) == Str(fname) && Get(h, COUNT) == Int(|sizes|)
    requires Table(Put(h, TOTAL, Int(total)), |sizes|) == sizes[..|sizes|]
    ensures Declares(Put(h, TOTAL, Int(total)), key, fname, sizes)
  {
    TotalLeavesOthers(h, total, KEY);
    TotalLeavesOthers(h, total, FUNCTION);
    TotalLeavesOthers(h, total, COUNT);
    var r := Put(h, TOTAL, Int(total));
    assert sizes[..|sizes|] == sizes;
    assert r[0] == r[..2][0] && r[1] == r[..2][1];
  }

  lemma TotalLeavesOthers(h: seq<byte>, total: int32, g: Field)
    requires |h| == IPC_SIZE && g.Within(6, IPC_SIZE)
    ensures Get(Put(h, TOTAL, Int(total)), g) == Get(h, g)
    ensures Put(h, TOTAL, Int(total))[..2] == h[..2]
  {
    PutLeavesOthers(h, TOTAL, Int(total), g);
  }

  /** `Workers::submit` on an invocation: header, table, and the buffers behind them. */
  method Submit(channel: Channel, key: seq<byte>, fname: seq<byte>, parts: seq<seq<byte>>) returns (r: Result<()>)
    requires channel.msgSize > 0
    modifies channel.queue
    ensures r == if |fname| > 32 || |key| > 16 then Failure(InvalidArgument) else TableOutcome(|parts|)
    ensures channel.queue.datagrams == old(channel.queue.datagrams)
      + if r.Success? then Datagrams(InvocationPacket(key, fname, parts), channel.msgSize) else []
  {
    assert Layout(Ipc, IPC_INVOCATION)[1] == KEY && Layout(Ipc, IPC_INVOCATION)[2] == FUNCTION;
    var req := new Message(Ipc, IPC_INVOCATION);
    r := req.Set(2, Str(fname));
    if r.Failure? {
      return;
    }
    r := req.Set(1, Str(key));
    if r.Failure? {
      return;
    }
    var lengths := Stored(Sizes(parts));
    r := req.SetBuffers(lengths);
    if r.Failure? {
      return;
    }
    channel.Send(req.data[..], parts);
  }

  // ----------------------------------------------------------- the worker's end

  /** An argument of a function: a stretch of the input buffer. */
  datatype Arg = Arg(off: nat, len: nat)

  function Args(lens: seq<nat>, off: nat): (args: seq<Arg>)
    ensures |args| == |lens|
  {
    if lens == [] then [] else [Arg(off, lens[0])] + Args(lens[1..], off + lens[0])
  }

  function Sum(lens: seq<nat>): nat {
    if lens == [] then 0 else lens[0] + Sum(lens[1..])
  }

  /** The outcome of a blocking receive. `Blocked` means the call has not returned yet. */
  datatype Blocking = Blocked | Broken(error: Error) | Got(msg: seq<byte>, input: Buffer, rest: seq<Datagram>)

  /** `blocking_receive` into the caller's buffer, which grows when the message needs it. */
  function BlockingReceive(input: Buffer, q: seq<Datagram>, m: nat): (b: Blocking)
    ensures b.Got? ==> |b.msg| == IPC_SIZE && |b.rest| < |q| && |b.input.data| <= b.input.size
  {
    DrainShrinks(q, IPC_SIZE, m);
    match Drain(q, IPC_SIZE, m)
    case Overrun => Broken(OutOfBounds)
    case Drained(head, rest) =>
      if |head| < IPC_SIZE then Blocked
      else
        var msg := head[..IPC_SIZE];
        var total := Total(msg);
        if total < 0 then Broken(BadAlloc)   // the length becomes a huge `size_t`
        else
          var size := if input.size < total then total else input.size;
          DrainShrinks(rest, total, size);
          match Drain(rest, total, size)
          case Overrun => Broken(OutOfBounds)
          case Drained(data, rest') => if |data| < total then Blocked else Got(msg, Buffer(data, size), rest')
  }

  lemma {:induction false} DrainShrinks(q: seq<Datagram>, want: nat, room: nat)
    ensures var d := Drain(q, want, room);
      d.Drained? ==> |d.data| <= room && |d.rest| <= |q| && (|d.data| > 0 ==> |d.rest| < |q|)
  {
    if want != 0 && q != [] && |q[0]| <= room {
      DrainShrinks(q[1..], if |q[0]| >= want then 0 else want - |q[0]|, room - |q[0]|);
    }
  }

  datatype Invocation = Invocation(key: seq<byte>, fname: seq<byte>, args: seq<Arg>)

  /** Validation and splitting of a received invocation. A count above the table's capacity
      makes the worker read past the header. */
  function Split(msg: seq<byte>, input: Buffer): Result<Invocation>
    requires |msg| == IPC_SIZE
  {
    var n := Get(msg, COUNT).num;
    if n > TABLE_CAPACITY then Failure(OutOfBounds)
    else
      var lens := Table(msg, if n < 0 then 0 else n);
      if Sum(lens) % TWO_64 > |input.data| then Failure(PraaSException)
      else Success(Invocation(Get(msg, KEY).text, Get(msg, FUNCTION).text, Args(lens, 0)))
  }

  /** The status change a worker applies. */
  function ParsedUpdate(msg: seq<byte>): AppView.Change
    requires |msg| == IPC_SIZE
  {
    AppView.Change(Wrap32(Get(msg, STATUS).num), Get(msg, PROCESS).text)
  }

  datatype Polled =
    | Waiting(app: AppView.View)
    | Stopped(error: Error)
    | Invoked(invocation: Invocation, input: Buffer, rest: seq<Datagram>, app: AppView.View)

  /** `Invoker::poll`: applies updates until an invocation arrives. */
  function Poll(input: Buffer, q: seq<Datagram>, app: AppView.View, m: nat): Polled
    decreases |q|
  {
    match BlockingReceive(input, q, m)
    case Blocked => Waiting(app)
    case Broken(e) => Stopped(e)
    case Got(msg, input', rest) =>
      match Parse(Ipc, msg)
      case Failure(e) => Stopped(e)
      case Success(t) =>
        if t == IPC_INVOCATION then
          match Split(msg, input')
          case Failure(e) => Stopped(e)
          case Success(invocation) => Invoked(invocation, input', rest, app)
        else if t == IPC_UPDATE then Poll(input', rest, AppView.Apply(app, ParsedUpdate(msg)), m)
        else Poll(input', rest, app, m)
  }

  // -------------------------------------------------------------- end to end

  /** Blocking receive of the first message of a stream, whatever the input buffer was. */
  lemma ReceivesFirst(input: Buffer, p: Packet, more: seq<Datagram>, m: nat)
    requires m >= IPC_SIZE
    ensures var b := BlockingReceive(input, Datagrams(p, m) + more, m);
      b.Got? && b.msg == p.header && b.input.data == p.Payload() && b.rest == more
  {
    var rest := PartDatagrams(p.parts, m);
    PartsFlatten(p.parts, m);
    var q := Datagrams(p, m) + more;
    assert q == [p.header] + (rest + more);
    assert q[1..] == rest + more;
    assert Drain(q, IPC_SIZE, m) == Drained(p.header + [], q[1..]);
    assert (p.header + [])[..IPC_SIZE] == p.header;
    var total := |p.Payload()|;
    DrainAll(rest, more, if input.size < total then total else input.size);
  }

  lemma FirstPart(before: seq<byte>, part: seq<byte>, rest: seq<byte>)
    ensures IsPart(before + (part + rest), Arg(|before|, |part|), part)
  {
  }

  lemma ArgBehindFirst(parts: seq<seq<byte>>, off: nat, i: nat)
    requires 0 < i < |parts|
    ensures Args(Sizes(parts), off)[i] == Args(Sizes(parts[1..]), off + |parts[0]|)[i - 1]
  {
  }

  lemma {:induction false} ArgsAreTheParts(parts: seq<seq<byte>>, before: seq<byte>, i: nat)
    requires i < |parts|
    ensures IsPart(before + Flatten(parts), Args(Sizes(parts), |before|)[i], parts[i])
  {
    if i == 0 {
      FirstPart(before, parts[0], Flatten(parts[1..]));
    } else {
      ArgsAreTheParts(parts[1..], before + parts[0], i - 1);
      Assoc(before, parts[0], Flatten(parts[1..]));
      ArgBehindFirst(parts, |before|, i);
    }
  }

  /** The argument lies inside the input and holds exactly the part. */
  ghost predicate IsPart(input: seq<byte>, arg: Arg, part: seq<byte>) {
    arg.off + arg.len <= |input| && input[arg.off..arg.off + arg.len] == part
  }

  lemma {:induction false} SumOfSizes(parts: seq<seq<byte>>)
    ensures Sum(Sizes(parts)) == |Flatten(parts)|
  {
    if parts != [] {
      SumOfSizes(parts[1..]);
    }
  }

  lemma {:induction false} PartLength(parts: seq<seq<byte>>, i: nat)
    requires i < |parts|
    ensures |parts[i]| <= |Flatten(parts)|
  {
    if i > 0 {
      PartLength(parts[1..], i - 1);
    }
  }

  /** Splitting what `submit` sent: the validation passes and the arguments are the buffers. */
  lemma SplitRestoresParts(h: seq<byte>, key: seq<byte>, fname: seq<byte>, parts: seq<seq<byte>>, input: Buffer)
    requires |parts| <= TABLE_CAPACITY && |Flatten(parts)| < 0x8000_0000 && input.data == Flatten(parts)
    requires |h| == IPC_SIZE && Declares(h, key, fname, Sizes(parts))
    ensures Split(h, input) == Success(Invocation(key, fname, Args(Sizes(parts), 0)))
  {
    SumOfSizes(parts);
  }

  /**
   * End to end: for every list of at most 13 buffers of any lengths (2 GiB in total) and every
   * queue message size from 128 on, the worker that polls a queue holding the submitted
   * invocation gets exactly the buffers as arguments, in order and byte for byte, whatever
   * its input buffer was and whatever follows on the queue.
   */
  lemma ArgumentsArrive(input: Buffer, key: seq<byte>, fname: seq<byte>, parts: seq<seq<byte>>,
                        more: seq<Datagram>, app: AppView.View, m: nat)
    requires m >= IPC_SIZE && |parts| <= TABLE_CAPACITY && |key| <= 16 && |fname| <= 32
    requires |Flatten(parts)| < 0x8000_0000
    ensures var got := Poll(input, Datagrams(InvocationPacket(key, fname, parts), m) + more, app, m);
      && got.Invoked? && got.rest == more && got.app == app
      && got.invocation.key == CString(key) && got.invocation.fname == CString(fname)
      && |got.invocation.args| == |parts|
      && forall i :: 0 <= i < |parts| ==> IsPart(got.input.data, got.invocation.args[i], parts[i])
  {
    var sizes := Sizes(parts);
    StampIsAPacket(InvocationHeader(key, fname, Stored(sizes)), parts);
    forall i | 0 <= i < |parts| ensures sizes[i] < 0x8000_0000 {
      PartLength(parts, i);
    }
    StoredExactly(sizes);
    InvocationReadsBack(key, fname, Stored(sizes), sizes, Wrap32(|Flatten(parts)|));
    var p: Packet := InvocationPacket(key, fname, parts);
    PollsInvocation(input, p, CString(key), CString(fname), more, app, m);
    forall i | 0 <= i < |parts| ensures IsPart(Flatten(parts), Args(Sizes(parts), 0)[i], parts[i]) {
      ArgsAreTheParts(parts, [], i);
      assert [] + Flatten(parts) == Flatten(parts);
    }
  }

  lemma PollsInvocation(input: Buffer, p: Packet, key: seq<byte>, fname: seq<byte>,
                        more: seq<Datagram>, app: AppView.View, m: nat)
    requires m >= IPC_SIZE && |p.parts| <= TABLE_CAPACITY && |p.Payload()| < 0x8000_0000
    requires Declares(p.header, key, fname, Sizes(p.parts))
    ensures exists buf: Buffer ::
      && Poll(input, Datagrams(p, m) + more, app, m) ==
         Invoked(Invocation(key, fname, Args(Sizes(p.parts), 0)), buf, more, app)
      && buf.data == p.Payload()
  {
    ReceivesFirst(input, p, more, m);
    var b := BlockingReceive(input, Datagrams(p, m) + more, m);
    SplitRestoresParts(p.header, key, fname, p.parts, b.input);
  }

  // ------------------------------------------------------------------ updates

  const PROCESS := Text(6, 32, 32)
  const STATUS := Num(38, I32, false)

  /** One update of a broadcast: the controller reuses the message object of the previous one. */
  function UpdatePacket(previous: seq<byte>, u: AppView.Change): (p: RawPacket)
    requires |previous| == IPC_SIZE
    ensures |p.header| == IPC_SIZE
  {
    Stamp(Put(Put(previous, PROCESS, Str(u.id)), STATUS, Int(u.status)), [])
  }

  /** The datagrams a worker's queue receives for a broadcast. */
  function BroadcastDatagrams(previous: seq<byte>, us: seq<AppView.Change>, m: nat): seq<Datagram>
    requires |previous| == IPC_SIZE && m > 0
    decreases us
  {
    if us == [] then []
    else
      var p := UpdatePacket(previous, us[0]);
      Datagrams(p, m) + BroadcastDatagrams(p.header, us[1..], m)
  }

  lemma UpdateReadsBack(previous: seq<byte>, u: AppView.Change)
    requires |previous| == IPC_SIZE && previous[..2] == [IPC_UPDATE, 0] && |u.id| <= 32
    ensures var p := UpdatePacket(previous, u);
      && StatesItsLength(p) && p.header[..2] == [IPC_UPDATE, 0] && Parse(Ipc, p.header) == Success(IPC_UPDATE)
      && ParsedUpdate(p.header) == AppView.Change(u.status, CString(u.id))
  {
    var named := Put(previous, PROCESS, Str(u.id));
    var full := Put(named, STATUS, Int(u.status));
    PutReadsBack(previous, PROCESS, Str(u.id));
    PutReadsBack(named, STATUS, Int(u.status));
    PutLeavesOthers(previous, PROCESS, Str(u.id), STATUS);
    PutLeavesOthers(named, STATUS, Int(u.status), PROCESS);
    TotalLeavesOthers(full, 0, PROCESS);
    TotalLeavesOthers(full, 0, STATUS);
    StampIsAPacket(full, []);
    var h := UpdatePacket(previous, u).header;
    assert h[0] == h[..2][0] && h[1] == h[..2][1];
  }

  lemma PollAppliesOne(input: Buffer, p: Packet, u: AppView.Change, more: seq<Datagram>, app: AppView.View, m: nat) returns (input': Buffer)
    requires m >= IPC_SIZE && Parse(Ipc, p.header) == Success(IPC_UPDATE) && ParsedUpdate(p.header) == u
    ensures Poll(input, Datagrams(p, m) + more, app, m) == Poll(input', more, AppView.Apply(app, u), m)
  {
    ReceivesFirst(input, p, more, m);
    input' := BlockingReceive(input, Datagrams(p, m) + more, m).input;
  }

  /** A message of any other known type is skipped. */
  lemma PollSkipsOthers(input: Buffer, p: Packet, more: seq<Datagram>, app: AppView.View, m: nat) returns (input': Buffer)
    requires m >= IPC_SIZE && Parse(Ipc, p.header).Success?
    requires Parse(Ipc, p.header).value != IPC_UPDATE && Parse(Ipc, p.header).value != IPC_INVOCATION
    ensures Poll(input, Datagrams(p, m) + more, app, m) == Poll(input', more, app, m)
  {
    ReceivesFirst(input, p, more, m);
    input' := BlockingReceive(input, Datagrams(p, m) + more, m).input;
  }

  predicate Inside(args: seq<Arg>, size: nat) {
    forall i :: 0 <= i < |args| ==> args[i].off + args[i].len <= size
  }

  lemma {:induction false} ArgsInsideIff(lens: seq<nat>, off: nat, size: nat)
    ensures lens != [] ==> (Inside(Args(lens, off), size) <==> off + Sum(lens) <= size)
    ensures lens == [] ==> Args(lens, off) == []
  {
    if lens != [] {
      var args, later := Args(lens, off), Args(lens[1..], off + lens[0]);
      ArgsInsideIff(lens[1..], off + lens[0], size);
      assert args[0] == Arg(off, lens[0]) && args[1..] == later;
      if lens[1..] == [] {
        assert Sum(lens) == lens[0];
      } else {
        assert Inside(args, size) ==> forall i :: 0 <= i < |later| ==> later[i] == args[i + 1];
        assert Inside(later, size) && off + lens[0] <= size ==> Inside(args, size) by {
          assert forall i :: 0 < i < |args| ==> args[i] == later[i - 1];
        }
      }
    }
  }

  lemma {:induction false} SmallSums(lens: seq<nat>)
    requires forall i :: 0 <= i < |lens| ==> lens[i] < 0x8000_0000
    ensures Sum(lens) <= |lens| * 0x8000_0000
  {
    if lens != [] {
      SmallSums(lens[1..]);
    }
  }

  lemma SmallSumsDoNotWrap(lens: seq<nat>)
    requires |lens| <= TABLE_CAPACITY && forall i :: 0 <= i < |lens| ==> lens[i] < 0x8000_0000
    ensures Sum(lens) % TWO_64 == Sum(lens)
  {
    SmallSums(lens);
  }

  lemma SplitIs(msg: seq<byte>, input: Buffer, lens: seq<nat>)
    requires |msg| == IPC_SIZE && 0 <= Get(msg, COUNT).num <= TABLE_CAPACITY && lens == Table(msg, Get(msg, COUNT).num)
    ensures Split(msg, input).Success? <==> Sum(lens) % TWO_64 <= |input.data|
    ensures Split(msg, input).Failure? ==> Split(msg, input).error == PraaSException
  {
  }

  /** A worker takes an invocation, of up to 13 arguments and with lengths that are not negative,
      exactly if all its arguments lie inside the input. */
  lemma TakenIffInside(msg: seq<byte>, input: Buffer)
    requires |msg| == IPC_SIZE && 0 <= Get(msg, COUNT).num <= TABLE_CAPACITY
    ensures var lens := Table(msg, Get(msg, COUNT).num);
      (forall i :: 0 <= i < |lens| ==> lens[i] < 0x8000_0000) ==>
        && (Split(msg, input).Success? <==> Inside(Args(lens, 0), |input.data|))
        && (Split(msg, input).Failure? ==> Split(msg, input).error == PraaSException)
  {
    var lens := Table(msg, Get(msg, COUNT).num);
    SplitIs(msg, input, lens);
    if forall i :: 0 <= i < |lens| ==> lens[i] < 0x8000_0000 {
      SmallSumsDoNotWrap(lens);
      ArgsInsideIff(lens, 0, |input.data|);
    }
  }

  /** Names a broadcast can carry unchanged. */
  ghost predicate Carried(us: seq<AppView.Change>) {
    forall i :: 0 <= i < |us| ==> |us[i].id| <= 32 && 0 !in us[i].id
  }

  /** A worker applies the updates of a broadcast, in order, before it looks at what follows. */
  lemma {:induction false} PollAppliesBroadcast(input: Buffer, previous: seq<byte>, us: seq<AppView.Change>,
                                                more: seq<Datagram>, app: AppView.View, m: nat) returns (input': Buffer)
    requires m >= IPC_SIZE && |previous| == IPC_SIZE && previous[..2] == [IPC_UPDATE, 0] && Carried(us)
    ensures Poll(input, BroadcastDatagrams(previous, us, m) + more, app, m) == Poll(input', more, AppView.ApplyAll(app, us), m)
    decreases us
  {
    if us == [] {
      assert [] + more == more;
      return input;
    }
    assert Carried(us[1..]);
    var p: Packet := FirstUpdate(previous, us[0]);
    var behind := BroadcastDatagrams(p.header, us[1..], m);
    assert BroadcastDatagrams(previous, us, m) == Datagrams(p, m) + behind;
    Assoc(Datagrams(p, m), behind, more);
    var next := PollAppliesOne(input, p, us[0], behind + more, app, m);
    input' := PollAppliesBroadcast(next, p.header, us[1..], more, AppView.Apply(app, us[0]), m);
  }

  lemma FirstUpdate(previous: seq<byte>, u: AppView.Change) returns (p: RawPacket)
    requires |previous| == IPC_SIZE && previous[..2] == [IPC_UPDATE, 0] && |u.id| <= 32 && 0 !in u.id
    ensures p == UpdatePacket(previous, u) && StatesItsLength(p) && p.header[..2] == [IPC_UPDATE, 0]
    ensures Parse(Ipc, p.header) == Success(IPC_UPDATE) && ParsedUpdate(p.header) == u
  {
    p := UpdatePacket(previous, u);
    UpdateReadsBack(previous, u);
    CStringStops(u.id, []);
    assert u.id + [] == u.id;
  }

  /**
   * A function sees the application exactly as its controller does, with its own process in
   * front: for every broadcast of updates that do not name the process, the worker that
   * polls the next invocation behind them has caught up with all of them.
   */
  lemma WorkersSeeTheControllersView(input: Buffer, self: AppView.Name, us: seq<AppView.Change>, c: AppView.View, w: AppView.View,
                                     key: seq<byte>, fname: seq<byte>, parts: seq<seq<byte>>, more: seq<Datagram>, m: nat)
    requires m >= IPC_SIZE && AppView.Agree(self, c, w)
    requires Carried(us) && forall i :: 0 <= i < |us| ==> us[i].id != self
    requires |parts| <= TABLE_CAPACITY && |key| <= 16 && |fname| <= 32 && |Flatten(parts)| < 0x8000_0000
    ensures var got := Poll(input, BroadcastDatagrams(Fresh(IPC_SIZE, IPC_UPDATE), us, m)
                                   + (Datagrams(InvocationPacket(key, fname, parts), m) + more), w, m);
      got.Invoked? && AppView.Agree(self, AppView.ApplyAll(c, us), got.app)
  {
    var behind := Datagrams(InvocationPacket(key, fname, parts), m) + more;
    var blank := Fresh(IPC_SIZE, IPC_UPDATE);
    assert blank[..2] == [IPC_UPDATE, 0];
    var input' := PollAppliesBroadcast(input, blank, us, behind, w, m);
    AppView.ReplicasAgree(self, c, w, us);
    ArgumentsArrive(input', key, fname, parts, more, AppView.ApplyAll(w, us), m);
  }

  // -------------------------------------------------------- the worker process

  /** The worker's side of the channel, its input buffer and its view of the application. */
  class Worker {
    const channel: Channel
    const application: AppView.Application
    var input: Buffer

    constructor (channel: Channel, self: AppView.Name)
      ensures this.channel == channel && input == Buffer([], 0) && fresh(application)
      ensures application.State() == AppView.View([self], [])
    {
      this.channel := channel;
      application := new AppView.Application([self]);
      input := Buffer([], 0);
    }

    /** `blocking_receive`; `Blocked` stands for a call that is still waiting. */
    method ReceiveBlocking() returns (r: Blocking)
      modifies channel.queue, this
      ensures r == BlockingReceive(old(input), old(channel.queue.datagrams), channel.msgSize)
      ensures r.Got? ==> channel.queue.datagrams == r.rest && input == r.input
    {
      var head, ok := channel.Recv(IPC_SIZE, channel.msgSize);
      if !ok {
        return Broken(OutOfBounds);
      }
      if |head| < IPC_SIZE {
        return Blocked;
      }
      var msg := head[..IPC_SIZE];
      var total := Total(msg);
      if total < 0 {
        return Broken(BadAlloc);
      }
      if input.size < total {
        input := Buffer([], total);
      }
      var data, fits := channel.Recv(total, input.size);
      if !fits {
        return Broken(OutOfBounds);
      }
      if |data| < total {
        return Blocked;
      }
      input := Buffer(data, input.size);
      r := Got(msg, input, channel.queue.datagrams);
    }

    /** The arguments of an invocation, by the loop that advances a pointer over the input. */
    method SplitInput(lens: seq<nat>) returns (args: seq<Arg>)
      ensures args == Args(lens, 0)
    {
      args := [];
      var off := 0;
      for i := 0 to |lens|
        invariant args + Args(lens[i..], off) == Args(lens, 0)
      {
        ghost var before := args;
        args := args + [Arg(off, lens[i])];
        Assoc(before, [Arg(off, lens[i])], Args(lens[i + 1..], off + lens[i]));
        assert lens[i..][1..] == lens[i + 1..];
        off := off + lens[i];
      }
    }

    /** The validation loop. */
    method TotalLength(lens: seq<nat>) returns (total: nat)
      ensures total == Sum(lens)
    {
      total := 0;
      for i := 0 to |lens|
        invariant total + Sum(lens[i..]) == Sum(lens)
      {
        assert lens[i..][1..] == lens[i + 1..];
        total := total + lens[i];
      }
    }

    /** `poll`: waits for the next invocation, applying updates on the way. */
    method PollInvocation() returns (r: Polled)
      modifies channel.queue, application, this
      ensures r == Poll(old(input), old(channel.queue.datagrams), old(application.State()), channel.msgSize)
      ensures r.Invoked? ==> input == r.input && channel.queue.datagrams == r.rest && application.State() == r.app
    {
      while true
        invariant Poll(old(input), old(channel.queue.datagrams), old(application.State()), channel.msgSize)
          == Poll(input, channel.queue.datagrams, application.State(), channel.msgSize)
        decreases |channel.queue.datagrams|
      {
        var received := ReceiveBlocking();
        if received.Blocked? {
          return Waiting(View());
        }
        if received.Broken? {
          return Stopped(received.error);
        }
        var msg := received.msg;
        var kind := Parse(Ipc, msg);
        if kind.Failure? {
          return Stopped(kind.error);
        }
        if kind.value == IPC_INVOCATION {
          var n := Get(msg, COUNT).num;
          if n > TABLE_CAPACITY {
            return Stopped(OutOfBounds);
          }
          var lens := Table(msg, if n < 0 then 0 else n);
          var total := TotalLength(lens);
          if total % TWO_64 > |input.data| {
            return Stopped(PraaSException);
          }
          var args := SplitInput(lens);
          return Invoked(Invocation(Get(msg, KEY).text, Get(msg, FUNCTION).text, args),
                         input, channel.queue.datagrams, View());
        } else if kind.value == IPC_UPDATE {
          var u := ParsedUpdate(msg);
          application.Update(u.status, u.id);
        }
      }
    }

    function View(): AppView.View
      reads application
    {
      AppView.View(application.active, application.swapped)
    }
  }
}
