/**
 * The message headers of both protocols: 70 bytes on TCP, 128 bytes on the IPC queues.
 * A header is a byte array holding a 16-bit type, a 32-bit total length and fields at
 * fixed offsets; the layouts below list the offsets, and `Message` is the object whose
 * setters write them.
 */
module Messages {
  import opened Wrappers
  import opened Bytes

  // ------------------------------------------------------------------ fields

  /** A text field accepts at most `limit` bytes and is read back from `width` bytes. */
  datatype Field =
    | Text(off: nat, limit: nat, width: nat)
    | Num(off: nat, kind: NumKind, nonNegative: bool)
  {
    function Size(): nat {
      if Text? then width else Width(kind)
    }

    predicate Within(lo: nat, hi: nat) {
      lo <= off && off + Size() <= hi && (Text? ==> limit <= width)
    }

    predicate Disjoint(other: Field) {
      off + Size() <= other.off || other.off + other.Size() <= off
    }

    /** The argument type the setter of this field takes. */
    predicate Fits(v: Value) {
      if Text? then v.Str? else v.Int? && InRange(kind, v.num)
    }

    /** The setters' own checks; a call they refuse throws and writes nothing. */
    predicate Accepts(v: Value)
      requires Fits(v)
    {
      if Text? then |v.text| <= limit else !(nonNegative && v.num < 0)
    }
  }

  datatype Value = Str(text: seq<byte>) | Int(num: int)

  function Region(buf: seq<byte>, f: Field): seq<byte>
    requires f.Within(0, |buf|)
  {
    buf[f.off..f.off + f.Size()]
  }

  /** The getter of a parsed message. */
  function Get(buf: seq<byte>, f: Field): Value
    requires f.Within(0, |buf|)
  {
    if f.Text? then Str(CString(Region(buf, f))) else Int(DecodeNum(f.kind, Region(buf, f)))
  }

  function Splice(buf: seq<byte>, off: nat, bytes: seq<byte>): (r: seq<byte>)
    requires off + |bytes| <= |buf|
    ensures |r| == |buf|
    ensures forall j :: 0 <= j < |buf| ==> r[j] == if off <= j < off + |bytes| then bytes[j - off] else buf[j]
  {
    buf[..off] + bytes + buf[off + |bytes|..]
  }

  /** What the setter of `f` leaves in the buffer. */
  function Put(buf: seq<byte>, f: Field, v: Value): (r: seq<byte>)
    requires f.Within(0, |buf|) && f.Fits(v)
    ensures |r| == |buf|
  {
    if !f.Accepts(v) then buf
    else if f.Text? then Splice(buf, f.off, Strncpy(v.text, f.limit))
    else Splice(buf, f.off, EncodeNum(f.kind, v.num))
  }

  /** A reader gets the value set, cut at the first NUL byte. */
  function Cut(v: Value): Value {
    if v.Str? then Str(CString(v.text)) else v
  }

  function Blank(f: Field): Value {
    if f.Text? then Str([]) else Int(0)
  }

  // ----------------------------------------------------------------- layouts

  const TCP_SIZE: nat := 70
  const IPC_SIZE: nat := 128
  const MAX_BUFFERS: nat := 16   // what `InvocationRequest::buffers` accepts
  const TABLE_CAPACITY: nat := 13  // what the 128-byte header has room for

  const TOTAL := Num(2, I32, false)

  datatype Protocol = Tcp | Ipc

  function HeaderSize(p: Protocol): nat {
    if p == Tcp then TCP_SIZE else IPC_SIZE
  }

  /** TCP types. */
  const PROCESS_CONNECTION := 1
  const SWAP_REQUEST := 2
  const SWAP_CONFIRMATION := 3
  const INVOCATION_REQUEST := 4
  const INVOCATION_RESULT := 5
  const DATAPLANE_METRICS := 6
  const PROCESS_CLOSURE := 7
  const APPLICATION_UPDATE := 8
  const PUT_MESSAGE := 9

  /** IPC types. */
  const IPC_GET := 1
  const IPC_PUT := 2
  const IPC_INVOCATION := 3
  const IPC_RESULT := 4
  const IPC_UPDATE := 5
  const IPC_STATE_KEYS := 6
  const IPC_STATE_KEYS_RESULT := 7

  predicate KnownType(p: Protocol, t: int) {
    1 <= t <= if p == Tcp then 9 else 7
  }

  /** Fields of every message, in a fixed order; the total length always comes first. */
  function Layout(p: Protocol, t: int): (fs: seq<Field>)
    requires KnownType(p, t)
    ensures |fs| > 0 && fs[0] == TOTAL
  {
    [TOTAL] + if p == Tcp then TcpFields(t) else IpcFields(t)
  }

  function TcpFields(t: int): seq<Field> {
    match t
    case 1 => [Text(6, 32, 32)]                                    // process name
    case 2 => [Text(6, 16, 32)]                                    // path
    case 3 => [Num(6, I32, false)]                                 // swap size
    case 4 => [Num(6, I32, true), Text(10, 32, 32), Text(42, 16, 16)] // payload size, function, id
    case 5 => [Num(6, I32, false), Text(10, 16, 16)]               // return code, id
    case 6 => [Num(6, I32, true), Num(10, I32, true), Num(14, U64, false)] // count, time, last
    case 8 => [Text(6, 32, 32), Text(38, 16, 16), Num(54, I32, false), Num(58, I32, false)]
    case 9 => [Text(6, 32, 32), Text(38, 32, 32)]                  // key, sender
    case _ => []
  }

  function IpcFields(t: int): seq<Field> {
    match t
    case 1 => GenericFields()
    case 2 => GenericFields()
    case 3 => [Text(6, 16, 16), Text(22, 32, 32), Text(54, 16, 16), Num(70, I32, false)] + TableFields(TABLE_CAPACITY)
    case 4 => [Text(6, 16, 16), Num(22, I32, false), Num(26, I32, false)] // id, length, code
    case 5 => [Text(6, 32, 32), Num(38, I32, false)]               // process, status
    case 7 => [Num(6, I32, false)]                                 // length
    case _ => []
  }

  /** GET and PUT: data length, process, key, state flag. */
  function GenericFields(): seq<Field> {
    [Num(6, I32, false), Text(10, 32, 32), Text(42, 32, 32), Num(74, Flag, false)]
  }

  /** The table of buffer lengths that follows the buffer count of an invocation. */
  function TableFields(n: nat): (fs: seq<Field>)
    ensures |fs| == n
    ensures forall i :: 0 <= i < n ==> fs[i] == Num(74 + 4 * i, I32, false)
  {
    if n == 0 then [] else TableFields(n - 1) + [Num(74 + 4 * (n - 1), I32, false)]
  }

  ghost predicate WellLaidOut(fs: seq<Field>, size: nat) {
    && (forall i :: 0 <= i < |fs| ==> fs[i].Within(2, size))
    && (forall i, j :: 0 <= i < j < |fs| ==> fs[i].Disjoint(fs[j]))
  }

  /** Each field ends where the next one may start. */
  predicate Ascending(fs: seq<Field>, size: nat) {
    && (forall i :: 0 <= i < |fs| ==> fs[i].Within(2, size))
    && (forall i {:trigger fs[i]} :: 0 <= i < |fs| - 1 ==> fs[i].off + fs[i].Size() <= fs[i + 1].off)
  }

  lemma {:induction false} AscendingEnds(fs: seq<Field>, size: nat, i: nat, j: nat)
    requires Ascending(fs, size) && i < j < |fs|
    ensures fs[i].off + fs[i].Size() <= fs[j].off
    decreases j
  {
    if i + 1 < j {
      AscendingEnds(fs, size, i, j - 1);
    }
  }

  lemma TcpAscending(t: int)
    requires KnownType(Tcp, t)
    ensures Ascending(Layout(Tcp, t), TCP_SIZE)
  {
  }

  /** The fields in front of the table. */
  function TableHead(): seq<Field> {
    [TOTAL, Text(6, 16, 16), Text(22, 32, 32), Text(54, 16, 16), Num(70, I32, false)]
  }

  lemma TableAscending()
    ensures Ascending(TableHead() + TableFields(TABLE_CAPACITY), IPC_SIZE)
  {
    var fs := TableHead() + TableFields(TABLE_CAPACITY);
    forall i | 0 <= i < |fs| ensures fs[i].Within(2, IPC_SIZE) {
      TableField(i);
    }
    forall i {:trigger fs[i]} | 0 <= i < |fs| - 1 ensures fs[i].off + fs[i].Size() <= fs[i + 1].off {
      TableField(i);
      TableField(i + 1);
    }
  }

  lemma TableField(i: nat)
    requires i < 5 + TABLE_CAPACITY
    ensures (TableHead() + TableFields(TABLE_CAPACITY))[i] == if i < 5 then TableHead()[i] else Num(74 + 4 * (i - 5), I32, false)
  {
  }

  lemma IpcAscending(t: int)
    requires KnownType(Ipc, t)
    ensures Ascending(Layout(Ipc, t), IPC_SIZE)
  {
    if t == 3 {
      Assoc([TOTAL], TableHead()[1..], TableFields(TABLE_CAPACITY));
      assert Layout(Ipc, t) == TableHead() + TableFields(TABLE_CAPACITY);
      TableAscending();
    } else {
      ShortIpcAscending(t);
    }
  }

  lemma ShortIpcAscending(t: int)
    requires KnownType(Ipc, t) && t != 3
    ensures Ascending(Layout(Ipc, t), IPC_SIZE)
  {
  }

  /** No layout has overlapping fields or a field outside its header. */
  lemma LayoutsAreSound(p: Protocol, t: int)
    requires KnownType(p, t)
    ensures WellLaidOut(Layout(p, t), HeaderSize(p))
  {
    var fs := Layout(p, t);
    if p == Tcp { TcpAscending(t); } else { IpcAscending(t); }
    forall i, j | 0 <= i < j < |fs| ensures fs[i].Disjoint(fs[j]) {
      AscendingEnds(fs, HeaderSize(p), i, j);
    }
  }

  /** Thirteen is exactly what fits: the `n`-entry table stays inside the header iff n <= 13. */
  lemma TableFitsUpTo13(n: nat)
    ensures (forall i :: 0 <= i < n ==> TableFields(n)[i].Within(2, IPC_SIZE)) <==> n <= TABLE_CAPACITY
  {
    if n > TABLE_CAPACITY {
      assert !TableFields(n)[TABLE_CAPACITY].Within(2, IPC_SIZE);
    }
  }

  // ----------------------------------------------------- codec round trip

  function Fresh(size: nat, t: int): (buf: seq<byte>)
    requires 0 <= t < 10 && 2 <= size
    ensures |buf| == size
  {
    [t] + Zeros(size - 1)
  }

  /** `int16_t` at offset 0; values of 2^15 and above are negative. */
  function TypeOf(buf: seq<byte>): int
    requires |buf| >= 2
  {
    var u: int := buf[0] as int + 256 * (buf[1] as int);
    if u < 0x8000 then u else u - 0x1_0000
  }

  /** `MessageParser::parse` and `Message::parse_message`: the type, or the exception thrown. */
  function Parse(p: Protocol, buf: seq<byte>): Result<int>
    requires |buf| >= 2
  {
    var t := TypeOf(buf);
    if t < 0 || t >= (if p == Tcp then 10 else 8) then Failure(InvalidMessage)
    else if t == 0 then Failure(if p == Tcp then NotImplemented else PraaSException)
    else Success(t)
  }

  /** One setter call: field number and argument. */
  datatype Call = Call(field: nat, value: Value)

  predicate Callable(fs: seq<Field>, calls: seq<Call>) {
    forall k :: 0 <= k < |calls| ==> calls[k].field < |fs| && fs[calls[k].field].Fits(calls[k].value)
  }

  function Apply(buf: seq<byte>, fs: seq<Field>, calls: seq<Call>): (r: seq<byte>)
    requires Callable(fs, calls)
    requires forall i :: 0 <= i < |fs| ==> fs[i].Within(2, |buf|)
    ensures |r| == |buf|
  {
    if calls == [] then buf
    else
      var c := calls[|calls| - 1];
      Put(Apply(buf, fs, calls[..|calls| - 1]), fs[c.field], c.value)
  }

  /** The last value a setter of field `i` accepted, as a reader sees it. */
  function LastAccepted(fs: seq<Field>, calls: seq<Call>, i: nat): Value
    requires Callable(fs, calls) && i < |fs|
  {
    if calls == [] then Blank(fs[i])
    else
      var c := calls[|calls| - 1];
      if c.field == i && fs[i].Accepts(c.value) then Cut(c.value)
      else LastAccepted(fs, calls[..|calls| - 1], i)
  }

  /** A text field narrower on writing than on reading keeps NULs in the difference. */
  ghost predicate TailClear(buf: seq<byte>, f: Field)
    requires f.Within(0, |buf|)
  {
    f.Text? ==> Region(buf, f)[f.limit..] == Zeros(f.width - f.limit)
  }

  lemma PutReadsBack(buf: seq<byte>, f: Field, v: Value)
    requires f.Within(2, |buf|) && f.Fits(v) && f.Accepts(v) && TailClear(buf, f)
    ensures Get(Put(buf, f, v), f) == Cut(v) && TailClear(Put(buf, f, v), f)
  {
    if f.Text? {
      SpliceRegion(buf, f.off, Strncpy(v.text, f.limit), f.width);
      ReadBack(v.text, f.limit, f.width - f.limit);
    } else {
      SpliceRegion(buf, f.off, EncodeNum(f.kind, v.num), Width(f.kind));
      DecodeEncodeNum(f.kind, v.num);
    }
  }

  lemma SpliceRegion(buf: seq<byte>, off: nat, bytes: seq<byte>, size: nat)
    requires |bytes| <= size && off + size <= |buf|
    ensures Splice(buf, off, bytes)[off..off + size] == bytes + buf[off..off + size][|bytes|..]
    ensures (bytes + buf[off..off + size][|bytes|..])[|bytes|..] == buf[off..off + size][|bytes|..]
    ensures |bytes| == size ==> Splice(buf, off, bytes)[off..off + size] == bytes
  {
  }

  lemma PutLeavesOthers(buf: seq<byte>, f: Field, v: Value, g: Field)
    requires f.Within(2, |buf|) && g.Within(2, |buf|) && f.Fits(v) && f.Disjoint(g)
    ensures Region(Put(buf, f, v), g) == Region(buf, g)
    ensures Put(buf, f, v)[..2] == buf[..2]
  {
  }

  /**
   * Whatever setters are called, in whatever order and however often, and whichever of the
   * calls are refused: parsing the bytes gives the message's type, and every getter gives
   * the last value its setter accepted.
   */
  lemma ParsedFieldsAreTheLastSet(p: Protocol, t: int, fs: seq<Field>, calls: seq<Call>)
    requires KnownType(p, t) && fs == Layout(p, t) && Callable(fs, calls)
    ensures WellLaidOut(fs, HeaderSize(p))
    ensures var buf := Apply(Fresh(HeaderSize(p), t), fs, calls);
      && Parse(p, buf) == Success(t)
      && forall i :: 0 <= i < |fs| ==> Get(buf, fs[i]) == LastAccepted(fs, calls, i)
  {
    LayoutsAreSound(p, t);
    var buf := Apply(Fresh(HeaderSize(p), t), fs, calls);
    TypeStays(fs, HeaderSize(p), t, calls);
    ParsesBack(p, t, buf);
    forall i | 0 <= i < |fs| ensures Get(buf, fs[i]) == LastAccepted(fs, calls, i) {
      FieldRoundTrip(fs, HeaderSize(p), t, calls, i);
    }
  }

  lemma ParsesBack(p: Protocol, t: int, buf: seq<byte>)
    requires KnownType(p, t) && |buf| >= 2 && buf[..2] == [t, 0]
    ensures Parse(p, buf) == Success(t)
  {
    assert buf[0] == buf[..2][0] && buf[1] == buf[..2][1];
  }

  /** A field reads as the calls say. */
  ghost predicate ReadsAs(buf: seq<byte>, f: Field, v: Value)
    requires f.Within(0, |buf|)
  {
    Get(buf, f) == v && TailClear(buf, f)
  }

  lemma BlankReads(size: nat, t: int, f: Field)
    requires 0 <= t < 10 && 2 <= size && f.Within(2, size)
    ensures ReadsAs(Fresh(size, t), f, Blank(f))
  {
    assert Region(Fresh(size, t), f) == Zeros(f.Size());
    if f.Num? {
      DecodeZeros(f.kind);
    }
  }

  /** One setter call: its own field takes the value if it accepts it. */
  lemma OwnFieldReads(buf: seq<byte>, f: Field, v: Value, was: Value)
    requires f.Within(2, |buf|) && f.Fits(v) && ReadsAs(buf, f, was)
    ensures ReadsAs(Put(buf, f, v), f, if f.Accepts(v) then Cut(v) else was)
  {
    if f.Accepts(v) {
      PutReadsBack(buf, f, v);
    }
  }

  /** Every other field keeps its own. */
  lemma OtherFieldReads(buf: seq<byte>, f: Field, v: Value, g: Field, was: Value)
    requires f.Within(2, |buf|) && g.Within(2, |buf|) && f.Fits(v) && f.Disjoint(g) && ReadsAs(buf, g, was)
    ensures ReadsAs(Put(buf, f, v), g, was)
  {
    PutLeavesOthers(buf, f, v, g);
  }

  lemma {:induction false} FieldRoundTrip(fs: seq<Field>, size: nat, t: int, calls: seq<Call>, i: nat)
    requires 0 <= t < 10 && 2 <= size && WellLaidOut(fs, size) && Callable(fs, calls) && i < |fs|
    ensures ReadsAs(Apply(Fresh(size, t), fs, calls), fs[i], LastAccepted(fs, calls, i))
  {
    if calls == [] {
      BlankReads(size, t, fs[i]);
    } else {
      var init, c := calls[..|calls| - 1], calls[|calls| - 1];
      var before := Apply(Fresh(size, t), fs, init);
      FieldRoundTrip(fs, size, t, init, i);
      if c.field == i {
        OwnFieldReads(before, fs[i], c.value, LastAccepted(fs, init, i));
      } else {
        FieldsApart(fs, size, c.field, i);
        OtherFieldReads(before, fs[c.field], c.value, fs[i], LastAccepted(fs, init, i));
      }
    }
  }

  lemma FieldsApart(fs: seq<Field>, size: nat, i: nat, j: nat)
    requires WellLaidOut(fs, size) && i < |fs| && j < |fs| && i != j
    ensures fs[i].Disjoint(fs[j])
  {
    if j < i {
      assert fs[j].Disjoint(fs[i]);
    }
  }

  lemma {:induction false} TypeStays(fs: seq<Field>, size: nat, t: int, calls: seq<Call>)
    requires 0 <= t < 10 && 2 <= size && WellLaidOut(fs, size) && Callable(fs, calls)
    ensures Apply(Fresh(size, t), fs, calls)[..2] == [t, 0]
  {
    if calls != [] {
      var init, c := calls[..|calls| - 1], calls[|calls| - 1];
      TypeStays(fs, size, t, init);
      TypeKept(Apply(Fresh(size, t), fs, init), fs[c.field], c.value);
    }
  }

  lemma TypeKept(buf: seq<byte>, f: Field, v: Value)
    requires f.Within(2, |buf|) && f.Fits(v)
    ensures Put(buf, f, v)[..2] == buf[..2]
  {
  }

  // ------------------------------------------------------- the message object

  /** A message being written; setters change `data` in place. */
  class Message {
    const protocol: Protocol
    const kind: int
    const data: array<byte>

    ghost predicate Valid()
      reads this
    {
      KnownType(protocol, kind) && data.Length == HeaderSize(protocol)
    }

    constructor (p: Protocol, t: int)
      requires KnownType(p, t)
      ensures Valid() && protocol == p && kind == t && fresh(data)
      ensures data[..] == Fresh(HeaderSize(p), t)
    {
      protocol, kind := p, t;
      data := new byte[HeaderSize(p)](i => if i == 0 then t else 0);
      new;
      assert data[..] == Fresh(HeaderSize(p), t);
    }

    /** The setter of field `i`: throws on an argument it refuses, and then changes nothing. */
    method Set(i: nat, v: Value) returns (r: Result<()>)
      requires Valid() && i < |Layout(protocol, kind)| && Layout(protocol, kind)[i].Fits(v)
      modifies data
      ensures Layout(protocol, kind)[i].Within(2, |old(data[..])|)
      ensures r == if Layout(protocol, kind)[i].Accepts(v) then Success(()) else Failure(InvalidArgument)
      ensures data[..] == Put(old(data[..]), Layout(protocol, kind)[i], v)
    {
      LayoutsAreSound(protocol, kind);
      var f := Layout(protocol, kind)[i];
      if f.Text? {
        if |v.text| > f.limit {
          return Failure(InvalidArgument);
        }
        CopyString(f.off, v.text, f.limit);
      } else {
        if f.nonNegative && v.num < 0 {
          return Failure(InvalidArgument);
        }
        Store(f.off, EncodeNum(f.kind, v.num));
      }
      return Success(());
    }

    /** `std::strncpy`: copies up to the first NUL, then pads with NULs. */
    method CopyString(off: nat, src: seq<byte>, n: nat)
      requires off + n <= data.Length && |src| <= n
      modifies data
      ensures data[..] == Splice(old(data[..]), off, Strncpy(src, n))
    {
      ghost var text := CString(src);
      var k := 0;
      while k < |src| && src[k] != 0
        invariant k <= |text|
        invariant forall j :: 0 <= j < data.Length ==>
          data[j] == if off <= j < off + k then src[j - off] else old(data[j])
      {
        assert k < |text|;
        data[off + k] := src[k];
        k := k + 1;
      }
      assert k == |text|;
      while k < n
        invariant |text| <= k <= n
        invariant forall j :: 0 <= j < data.Length ==>
          data[j] == if off <= j < off + |text| then src[j - off] else if off <= j < off + k then 0 else old(data[j])
      {
        data[off + k] := 0;
        k := k + 1;
      }
      StrncpyAt(src, n);
      ghost var target := Splice(old(data[..]), off, Strncpy(src, n));
      assert forall j :: 0 <= j < data.Length ==> data[j] == target[j];
    }

    method Store(off: nat, bytes: seq<byte>)
      requires off + |bytes| <= data.Length
      modifies data
      ensures data[..] == Splice(old(data[..]), off, bytes)
    {
      for k := 0 to |bytes|
        invariant forall j :: 0 <= j < data.Length ==>
          data[j] == if off <= j < off + k then bytes[j - off] else old(data[j])
      {
        data[off + k] := bytes[k];
      }
    }

    /**
     * `InvocationRequest::buffers`: the count and then one length per buffer. More than 16
     * entries are refused; 14, 15 and 16 are accepted but leave the header, which the model
     * reports as `OutOfBounds` instead of writing there.
     */
    method SetBuffers(lengths: seq<int32>) returns (r: Result<()>)
      requires Valid() && protocol == Ipc && kind == IPC_INVOCATION
      modifies data
      ensures r == TableOutcome(|lengths|)
      ensures r.Success? ==> data[..] == WithTable(old(data[..]), lengths)
      ensures r.Failure? ==> data[..] == old(data[..])
    {
      r := TableOutcome(|lengths|);
      if r.Failure? {
        return;
      }
      StoreNumber(COUNT, |lengths|);
      ghost var counted := data[..];
      for k := 0 to |lengths|
        invariant data[..] == WithEntries(counted, lengths, k)
      {
        StoreNumber(Entry(k), lengths[k]);
      }
    }

    method StoreNumber(f: Field, n: int32)
      requires f.Num? && f.kind == I32 && !f.nonNegative && f.Within(0, data.Length)
      modifies data
      ensures data[..] == Put(old(data[..]), f, Int(n))
    {
      Store(f.off, EncodeNum(I32, n));
    }
  }

  const COUNT := Num(70, I32, false)

  function Entry(i: nat): Field {
    Num(74 + 4 * i, I32, false)
  }

  /** The first `k` entries of the table written. */
  function WithEntries(buf: seq<byte>, lengths: seq<int32>, k: nat): (r: seq<byte>)
    requires |buf| == IPC_SIZE && |lengths| <= TABLE_CAPACITY && k <= |lengths|
    ensures |r| == IPC_SIZE
  {
    if k == 0 then buf else Put(WithEntries(buf, lengths, k - 1), Entry(k - 1), Int(lengths[k - 1]))
  }

  function WithTable(buf: seq<byte>, lengths: seq<int32>): (r: seq<byte>)
    requires |buf| == IPC_SIZE && |lengths| <= TABLE_CAPACITY
    ensures |r| == IPC_SIZE
  {
    WithEntries(Put(buf, COUNT, Int(|lengths|)), lengths, |lengths|)
  }

  /** The table holds the lengths ... */
  lemma {:induction false} EntryReadsBack(buf: seq<byte>, lengths: seq<int32>, k: nat, i: nat)
    requires |buf| == IPC_SIZE && |lengths| <= TABLE_CAPACITY && i < k <= |lengths|
    ensures Get(WithEntries(buf, lengths, k), Entry(i)) == Int(lengths[i])
  {
    var before := WithEntries(buf, lengths, k - 1);
    if i < k - 1 {
      EntryReadsBack(buf, lengths, k - 1, i);
      PutLeavesOthers(before, Entry(k - 1), Int(lengths[k - 1]), Entry(i));
    } else {
      PutReadsBack(before, Entry(i), Int(lengths[i]));
    }
  }

  /** ... and nothing in front of it changes. */
  lemma {:induction false} EntriesStayBehind(buf: seq<byte>, lengths: seq<int32>, k: nat)
    requires |buf| == IPC_SIZE && |lengths| <= TABLE_CAPACITY && k <= |lengths|
    ensures WithEntries(buf, lengths, k)[..74] == buf[..74]
  {
    if k > 0 {
      EntriesStayBehind(buf, lengths, k - 1);
    }
  }

  function TableOutcome(n: nat): Result<()> {
    if n > MAX_BUFFERS then Failure(InvalidArgument)
    else if n > TABLE_CAPACITY then Failure(OutOfBounds)
    else Success(())
  }
}
