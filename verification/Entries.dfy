/**
 * The process's TCP server over all its connections: the entries in `_connection_data`, which
 * connections of the same name share, with the frame they are in the middle of and the pointer
 * that results are sent through.
 */
module Entries {
  import opened Wrappers
  import opened Bytes
  import opened Messages
  import F = Framing
  import Frames

  type Name = F.Name

  /** A TCP connection: the name of the entry in its context, and the bytes not read yet. */
  datatype Stream = Stream(context: Option<Name>, buffer: seq<byte>)

  datatype Passed = Passed(conn: nat, event: F.Event)

  /** An entry's pointer was set to a connection. */
  datatype Take = Take(name: Name, conn: nat)

  /**
   * `control` names the entry `_control_plane` points to; `_data_plane` is always the one named
   * DATA_PLANE. `handled` is what was passed on, and for which connection; `confirmed` are the
   * connections that were sent a confirmation. `taken` is history.
   */
  datatype Server = Server(
    entries: map<Name, F.Entry>, streams: map<nat, Stream>, control: Option<Name>,
    handled: seq<Passed>, confirmed: seq<nat>, taken: seq<Take>, failed: bool)

  const NoConnections := Server(map[], map[], None, [], [], [], false)

  datatype Event =
    | Accepted(conn: nat)               // a client connects
    | Announced(name: Name)             // an application update
    | Opened(name: Name, conn: nat)     // the client of an entry is connected; its context stays empty
    | PlaneOpened(name: Name, conn: nat)  // the control plane's connection made at the start, named CONTROLPLANE
    | PlaneClosed
    | Chunk(conn: nat, bytes: seq<byte>)

  /** The decoder a connection runs with: its entry's, or none before it registers. */
  function Load(s: Server, k: nat): F.Conn
    requires k in s.streams && (s.streams[k].context.Some? ==> s.streams[k].context.value in s.entries)
  {
    match s.streams[k].context
    case None => F.Fresh0(F.AtProcess(s.entries), {})
    case Some(n) =>
      Resumed(n, s.entries[n])
  }

  function Resumed(n: Name, e: F.Entry): F.Conn {
    F.Conn(F.AtProcess(map[]), Some(e.peer), n, {}, e.waiting, e.msg, false)
  }

  function PassedOn(k: nat, events: seq<F.Event>): seq<Passed> {
    if events == [] then [] else PassedOn(k, events[..|events| - 1]) + [Passed(k, events[|events| - 1])]
  }

  /** What a call of `_handle_message` leaves behind; a registration takes the entry's pointer. */
  function Stored(s: Server, k: nat, registers: bool, d: F.Decoded): Server {
    var t := s.(handled := s.handled + PassedOn(k, d.events));
    if d.conn.failed then t.(failed := true)
    else if d.conn.peer.None? then t.(streams := s.streams[k := Stream(None, d.rest)])
    else
      var n := d.conn.name;
      var pointer := if registers || n !in s.entries then Some(k) else s.entries[n].conn;
      t.(entries := s.entries[n := F.Entry(d.conn.peer.value, d.conn.waiting, d.conn.msg, pointer)],
         streams := s.streams[k := Stream(Some(n), d.rest)],
         control := if registers && n == F.CONTROLPLANE_ID then Some(n) else s.control,
         confirmed := s.confirmed + if registers then [k] else [],
         taken := s.taken + if registers then [Take(n, k)] else [])
  }

  function Pointed(s: Server, n: Name, e: F.Entry, k: nat, t: Stream): Server {
    s.(entries := s.entries[n := e.(conn := Some(k))], streams := s.streams[k := t], taken := s.taken + [Take(n, k)])
  }

  function Step(s: Server, e: Event): Server
    requires Sound(s)
  {
    if s.failed then s
    else match e
      case Accepted(k) => if k in s.streams then s else s.(streams := s.streams[k := Stream(None, [])])
      case Announced(n) =>
        if n in s.entries then s else s.(entries := s.entries[n := F.Entry(F.Process(n), 0, Zeros(TCP_SIZE), None)])
      case Opened(n, k) =>
        if n !in s.entries || k in s.streams then s else Pointed(s, n, s.entries[n], k, Stream(None, []))
      case PlaneOpened(n, k) =>
        if n in s.entries || k in s.streams then s
        else
          var e := F.Entry(F.ControlPlane, 0, Zeros(TCP_SIZE), None);
          Pointed(s, n, e, k, Stream(Some(n), [])).(control := Some(n))
      case PlaneClosed => s.(control := None)
      case Chunk(k, bytes) =>
        if k !in s.streams then s
        else
          LoadIsValid(s, k);
          Stored(s, k, s.streams[k].context.None?, F.Handle(Load(s, k), s.streams[k].buffer + bytes))
  }

  // --------------------------------------------------------------- the invariant

  /** The connection that an entry's pointer was last set to. */
  function LastTake(taken: seq<Take>, n: Name): Option<nat> {
    if taken == [] then None
    else if taken[|taken| - 1].name == n then Some(taken[|taken| - 1].conn)
    else LastTake(taken[..|taken| - 1], n)
  }

  ghost predicate EntrySound(n: Name, e: F.Entry, taken: seq<Take>) {
    && F.MidFrame(F.AtProcess(map[]), e.waiting, e.msg)
    && (e.peer.Process? ==> e.peer == F.Process(n))
    && (e.peer.DataPlane? ==> n == F.DATAPLANE_ID)
    && e.conn == LastTake(taken, n)
  }

  ghost predicate EntriesSound(s: Server) {
    forall n :: n in s.entries ==> EntrySound(n, s.entries[n], s.taken)
  }

  /** A connection with a context once took the entry it names. */
  ghost predicate ContextsSound(s: Server) {
    && (forall k :: k in s.streams && s.streams[k].context.Some? ==>
         s.streams[k].context.value in s.entries && Take(s.streams[k].context.value, k) in s.taken)
    && (s.control.Some? ==> s.control.value in s.entries && LastTake(s.taken, s.control.value).Some?)
    && (forall i :: 0 <= i < |s.taken| ==> s.taken[i].name in s.entries)
  }

  ghost predicate Sound(s: Server) {
    EntriesSound(s) && ContextsSound(s)
  }

  lemma LoadIsValid(s: Server, k: nat)
    requires Sound(s) && k in s.streams
    ensures s.streams[k].context.Some? ==> s.streams[k].context.value in s.entries
    ensures Load(s, k).Valid()
  {
    assert forall n :: n in s.entries ==> EntrySound(n, s.entries[n], s.taken);
  }

  lemma TakeMore(taken: seq<Take>, t: Take, n: Name)
    ensures LastTake(taken + [t], n) == if t.name == n then Some(t.conn) else LastTake(taken, n)
  {
    assert (taken + [t])[..|taken|] == taken;
  }

  lemma {:induction false} SomeTake(taken: seq<Take>, t: Take)
    requires t in taken
    ensures LastTake(taken, t.name).Some?
  {
    if taken[|taken| - 1].name != t.name {
      SomeTake(taken[..|taken| - 1], t);
    }
  }

  /** A step of a process's decoder keeps who it is for, or finds it in the entries. */
  ghost predicate Keeps(c: F.Conn, d: F.Conn) {
    && d.side == c.side
    && (c.peer.Some? ==> d.peer == c.peer && d.name == c.name)
    && (c.side.AtProcess? && c.peer.None? && d.peer.Some? ==> d.peer.value == F.EntryNamed(c.side.known, d.name).peer)
  }

  lemma NextKeeps(c: F.Conn, buf: seq<byte>)
    requires c.Valid() && c.side.AtProcess?
    ensures F.Next(c, buf).Took? ==> Keeps(c, F.Next(c, buf).next) && F.Next(c, buf).next.pending == c.pending
  {
    if c.waiting > 0 || c.peer.Some? {
      RegisteredKeeps(c, buf);
    } else {
      FirstHeaderKeeps(c, buf);
    }
  }

  /** A connection that is registered, or in a frame, changes only what it waits for. */
  lemma RegisteredKeeps(c: F.Conn, buf: seq<byte>)
    requires c.Valid() && c.side.AtProcess? && (c.waiting > 0 || c.peer.Some?)
    ensures F.Next(c, buf).Took? ==>
      var d := F.Next(c, buf).next; d == c.(waiting := d.waiting, msg := d.msg, failed := d.failed)
  {
  }

  lemma FirstHeaderKeeps(c: F.Conn, buf: seq<byte>)
    requires c.Valid() && c.side.AtProcess? && c.waiting == 0 && c.peer.None?
    ensures F.Next(c, buf).Took? ==> Keeps(c, F.Next(c, buf).next) && F.Next(c, buf).next.pending == c.pending
  {
  }

  lemma {:induction false} DecodeKeeps(c: F.Conn, buf: seq<byte>)
    requires c.Valid() && c.side.AtProcess?
    ensures Keeps(c, F.Decode(c, buf).conn)
    decreases !c.failed, |buf|
  {
    NextKeeps(c, buf);
    match F.Next(c, buf)
    case Stuck =>
    case Took(_, c', used) => DecodeKeeps(c', buf[used..]);
  }

  lemma {:induction false} HandleKeeps(c: F.Conn, buf: seq<byte>)
    requires c.Valid() && c.side.AtProcess?
    ensures Keeps(c, F.Handle(c, buf).conn)
    decreases !c.failed, |buf|
  {
    if c.waiting == 0 && c.peer.Some? {
      DecodeKeeps(c, buf);
    } else {
      NextKeeps(c, buf);
      match F.Next(c, buf)
      case Stuck =>
      case Took(_, c', used) =>
        if c.waiting == 0 {
          HandleKeeps(c', buf[used..]);
        }
    }
  }

  lemma TakesStay(s: Server, t: Take, n: Name)
    requires Sound(s) && n in s.entries && t.name != n
    ensures EntrySound(n, s.entries[n], s.taken + [t])
  {
    assert EntrySound(n, s.entries[n], s.taken);
    TakeMore(s.taken, t, n);
  }

  lemma PointedKeepsSound(s: Server, n: Name, e: F.Entry, k: nat, t: Stream)
    requires Sound(s) && k !in s.streams && (t.context.Some? ==> t.context.value == n)
    requires EntrySound(n, e.(conn := LastTake(s.taken, n)), s.taken)
    ensures Sound(Pointed(s, n, e, k, t))
  {
    var u := Pointed(s, n, e, k, t);
    TakeMore(s.taken, Take(n, k), n);
    forall m | m in u.entries ensures EntrySound(m, u.entries[m], u.taken) {
      if m != n {
        TakesStay(s, Take(n, k), m);
      }
    }
    PointersStay(s, Take(n, k));
  }

  lemma PointersStay(s: Server, t: Take)
    requires Sound(s)
    ensures s.control.Some? ==> LastTake(s.taken + [t], s.control.value).Some?
  {
    if s.control.Some? {
      TakeMore(s.taken, t, s.control.value);
    }
  }

  lemma StoredKeepsSound(s: Server, k: nat, d: F.Decoded)
    requires Sound(s) && k in s.streams && d.conn.Valid() && Keeps(Load(s, k), d.conn)
    ensures Sound(Stored(s, k, s.streams[k].context.None?, d))
  {
    if !d.conn.failed && d.conn.peer.Some? {
      StoredEntrySound(s, k, d);
      if s.streams[k].context.None? {
        RegisteredKeepsSound(s, k, d);
      } else {
        ContinuedKeepsSound(s, k, d);
      }
    }
  }

  /** The entry a decoder leaves behind, with the pointer there was. */
  function Leaves(s: Server, c: F.Conn): F.Entry
    requires c.peer.Some?
  {
    F.Entry(c.peer.value, c.waiting, c.msg, LastTake(s.taken, c.name))
  }

  /** What is stored belongs under its name, whatever the pointer. */
  lemma StoredEntrySound(s: Server, k: nat, d: F.Decoded)
    requires Sound(s) && k in s.streams && d.conn.Valid() && Keeps(Load(s, k), d.conn) && d.conn.peer.Some?
    ensures EntrySound(d.conn.name, Leaves(s, d.conn), s.taken)
  {
    assert forall n :: n in s.entries ==> EntrySound(n, s.entries[n], s.taken);
  }

  lemma RegisteredKeepsSound(s: Server, k: nat, d: F.Decoded)
    requires Sound(s) && k in s.streams && s.streams[k].context.None? && !d.conn.failed && d.conn.peer.Some?
    requires EntrySound(d.conn.name, Leaves(s, d.conn), s.taken)
    ensures Sound(Stored(s, k, true, d))
  {
    var n, u := d.conn.name, Stored(s, k, true, d);
    TakeMore(s.taken, Take(n, k), n);
    forall m | m in u.entries ensures EntrySound(m, u.entries[m], u.taken) {
      if m != n {
        TakesStay(s, Take(n, k), m);
      }
    }
    PointersStay(s, Take(n, k));
  }

  lemma ContinuedKeepsSound(s: Server, k: nat, d: F.Decoded)
    requires Sound(s) && k in s.streams && s.streams[k].context == Some(d.conn.name)
    requires !d.conn.failed && d.conn.peer.Some?
    requires EntrySound(d.conn.name, Leaves(s, d.conn), s.taken)
    ensures Sound(Stored(s, k, false, d))
  {
    var n, u := d.conn.name, Stored(s, k, false, d);
    assert n in s.entries && EntrySound(n, s.entries[n], s.taken);
    assert s.taken + [] == s.taken;
    forall m | m in u.entries ensures EntrySound(m, u.entries[m], u.taken) {
      if m != n {
        assert EntrySound(m, s.entries[m], s.taken);
      }
    }
  }

  lemma StepKeepsSound(s: Server, e: Event)
    requires Sound(s)
    ensures Sound(Step(s, e))
  {
    assert forall n :: n in s.entries ==> EntrySound(n, s.entries[n], s.taken);
    match e
    case Chunk(k, bytes) =>
      if k in s.streams && !s.failed {
        LoadIsValid(s, k);
        HandleKeeps(Load(s, k), s.streams[k].buffer + bytes);
        StoredKeepsSound(s, k, F.Handle(Load(s, k), s.streams[k].buffer + bytes));
      }
    case Opened(n, k) =>
      if n in s.entries && k !in s.streams {
        PointedKeepsSound(s, n, s.entries[n], k, Stream(None, []));
      }
    case PlaneOpened(n, k) =>
      if n !in s.entries && k !in s.streams {
        NotTaken(s, n);
        PointedKeepsSound(s, n, F.Entry(F.ControlPlane, 0, Zeros(TCP_SIZE), None), k, Stream(Some(n), []));
      }
    case Announced(n) => NotTaken(s, n);
    case _ =>
  }

  lemma NotTaken(s: Server, n: Name)
    requires Sound(s)
    ensures n !in s.entries ==> LastTake(s.taken, n) == None
  {
    if LastTake(s.taken, n).Some? {
      LastTakeIsTaken(s.taken, n);
    }
  }

  lemma {:induction false} LastTakeIsTaken(taken: seq<Take>, n: Name)
    requires LastTake(taken, n).Some?
    ensures Take(n, LastTake(taken, n).value) in taken
  {
    if taken[|taken| - 1].name != n {
      LastTakeIsTaken(taken[..|taken| - 1], n);
    }
  }

  function Run(es: seq<Event>): (s: Server)
    ensures Sound(s)
  {
    if es == [] then NoConnections
    else
      var s := Run(es[..|es| - 1]);
      StepKeepsSound(s, es[|es| - 1]);
      Step(s, es[|es| - 1])
  }

  // ------------------------------------------------------------- where results go

  /** The entry that a result for a peer is sent through, if there is one. */
  function Via(s: Server, peer: F.Peer): Option<Name> {
    match peer
    case DataPlane => if F.DATAPLANE_ID in s.entries then Some(F.DATAPLANE_ID) else None
    case ControlPlane => s.control
    case Process(n) => if n in s.entries then Some(n) else None
  }

  /** The connection `invocation_result` writes to. */
  function ResultGoesTo(s: Server, peer: F.Peer): Option<nat> {
    var n := Via(s, peer);
    if n.Some? && n.value in s.entries then s.entries[n.value].conn else None
  }

  /** The entry through which requests over a connection are answered. */
  function Answering(s: Server, n: Name): Option<Name>
    requires n in s.entries
  {
    if s.entries[n].peer.ControlPlane? then s.control else Some(n)
  }

  ghost predicate Reaches(to: Option<nat>, k: nat, far: nat -> nat) {
    to.Some? && far(to.value) == far(k)
  }

  /**
   * On every run, with `far` telling who is at the other end of a connection: a result reaches
   * the peer its request came from exactly if that peer is also at the end of the connection that
   * last took the entry, by registering under its name or as the entry's own client. For the
   * control plane it is the entry the server points to now.
   */
  lemma ResultReachesIff(es: seq<Event>, k: nat, far: nat -> nat)
    requires k in Run(es).streams && Run(es).streams[k].context.Some?
    ensures var s := Run(es); var n := s.streams[k].context.value;
      && n in s.entries
      && (Reaches(ResultGoesTo(s, s.entries[n].peer), k, far) <==>
          Answering(s, n).Some? && Reaches(LastTake(s.taken, Answering(s, n).value), k, far))
  {
    var s := Run(es);
    var n := s.streams[k].context.value;
    assert EntrySound(n, s.entries[n], s.taken);
    if s.control.Some? {
      assert EntrySound(s.control.value, s.entries[s.control.value], s.taken);
    }
  }

  /** A result for a request that came over a registered connection never goes through a null
      pointer. */
  lemma NoNullPointer(es: seq<Event>, k: nat)
    requires k in Run(es).streams && Run(es).streams[k].context.Some?
    ensures var s := Run(es); var n := s.streams[k].context.value;
      n in s.entries && (Via(s, s.entries[n].peer).Some? ==> ResultGoesTo(s, s.entries[n].peer).Some?)
  {
    var s := Run(es);
    var n := s.streams[k].context.value;
    assert EntrySound(n, s.entries[n], s.taken);
    SomeTake(s.taken, Take(n, k));
    if s.control.Some? {
      assert EntrySound(s.control.value, s.entries[s.control.value], s.taken);
    }
  }

  // -------------------------------------------------------- what each event achieves

  lemma StepNames(s: Server, e: Event, n: Name)
    requires Sound(s) && !Step(s, e).failed
    ensures var t := Step(s, e);
      && (n in s.entries ==> n in t.entries)
      && (n in t.entries && n !in s.entries ==> e == Announced(n) || LastTake(t.taken, n).Some?)
      && (e == Announced(n) ==> n in t.entries) && (LastTake(s.taken, n).Some? ==> LastTake(t.taken, n).Some?)
  {
    if e.Chunk? {
      if e.conn in s.streams {
        ChunkNames(s, e.conn, e.bytes, n);
      }
    } else if e.Opened? || e.PlaneOpened? {
      TakeMore(s.taken, Take(e.name, e.conn), n);
    }
  }

  lemma ChunkNames(s: Server, k: nat, bytes: seq<byte>, n: Name)
    requires Sound(s) && k in s.streams && !Step(s, Chunk(k, bytes)).failed
    ensures var t := Step(s, Chunk(k, bytes));
      && (n in s.entries ==> n in t.entries)
      && (n in t.entries && n !in s.entries ==> LastTake(t.taken, n).Some?)
      && (LastTake(s.taken, n).Some? ==> LastTake(t.taken, n).Some?)
  {
    LoadIsValid(s, k);
    var d := F.Handle(Load(s, k), s.streams[k].buffer + bytes);
    HandleKeeps(Load(s, k), s.streams[k].buffer + bytes);
    HandledPeer(s, k, d.conn);
    StoredNames(s, k, d, n);
    StepIsStored(s, k, bytes, d);
  }

  lemma StepIsStored(s: Server, k: nat, bytes: seq<byte>, d: F.Decoded)
    requires Sound(s) && k in s.streams && !Step(s, Chunk(k, bytes)).failed && Load(s, k).Valid()
    requires d == F.Handle(Load(s, k), s.streams[k].buffer + bytes)
    ensures Step(s, Chunk(k, bytes)) == Stored(s, k, s.streams[k].context.None?, d)
  {
  }

  lemma StoredNames(s: Server, k: nat, d: F.Decoded, n: Name)
    requires k in s.streams
    ensures var t := Stored(s, k, s.streams[k].context.None?, d);
      && (n in s.entries ==> n in t.entries)
      && (n in t.entries && n !in s.entries ==> d.conn.peer.Some? && n == d.conn.name)
      && (s.streams[k].context.None? && n in t.entries && n !in s.entries ==> LastTake(t.taken, n).Some?)
      && (LastTake(s.taken, n).Some? ==> LastTake(t.taken, n).Some?)
  {
    if d.conn.peer.Some? {
      TakeMore(s.taken, Take(d.conn.name, k), n);
    }
    assert s.taken + [] == s.taken;
  }

  /** On every run the server has an entry for exactly the names that were announced or that some
      connection took. */
  lemma {:induction false} EntryIff(es: seq<Event>, n: Name)
    requires !Run(es).failed
    ensures n in Run(es).entries <==> Announced(n) in es || LastTake(Run(es).taken, n).Some?
  {
    if es != [] {
      var before, e := es[..|es| - 1], es[|es| - 1];
      assert es == before + [e];
      EntryIff(before, n);
      StepNames(Run(before), e, n);
      NotTaken(Run(es), n);
    }
  }

  /** A connection is confirmed when it gets a context by registering, and at no other time. */
  lemma ConfirmedOnRegistration(es: seq<Event>, e: Event)
    requires !Run(es + [e]).failed
    ensures var s, t := Run(es), Run(es + [e]);
      t.confirmed == s.confirmed +
        if e.Chunk? && e.conn in s.streams && s.streams[e.conn].context.None? && t.streams[e.conn].context.Some? then [e.conn] else []
  {
    var s := Run(es);
    assert (es + [e])[..|es|] == es;
    assert s.confirmed + [] == s.confirmed;
    if e.Chunk? && e.conn in s.streams && !s.failed {
      LoadIsValid(s, e.conn);
      var d := F.Handle(Load(s, e.conn), s.streams[e.conn].buffer + e.bytes);
      HandleKeeps(Load(s, e.conn), s.streams[e.conn].buffer + e.bytes);
      HandledPeer(s, e.conn, d.conn);
      StepIsStored(s, e.conn, e.bytes, d);
      StoredConfirms(s, e.conn, d);
    }
  }

  lemma StoredConfirms(s: Server, k: nat, d: F.Decoded)
    requires k in s.streams && !Stored(s, k, s.streams[k].context.None?, d).failed
    requires s.streams[k].context.Some? ==> d.conn.peer.Some?
    ensures var t := Stored(s, k, s.streams[k].context.None?, d);
      k in t.streams
      && t.confirmed == s.confirmed + if s.streams[k].context.None? && t.streams[k].context.Some? then [k] else []
  {
    assert s.confirmed + [] == s.confirmed;
  }

  /** The client of an entry takes it when it is connected, without a context of its own. */
  lemma ClientTakesTheEntry(es: seq<Event>, n: Name, k: nat)
    requires !Run(es).failed && n in Run(es).entries && Run(es).entries[n].peer.Process? && k !in Run(es).streams
    ensures var t := Run(es + [Opened(n, k)]);
      k in t.streams && t.streams[k] == Stream(None, []) && ResultGoesTo(t, F.Process(n)) == Some(k)
  {
    assert (es + [Opened(n, k)])[..|es|] == es;
  }

  /** Results for the control plane go nowhere once its connection has ended, until one is made or
      registers under its name. */
  lemma NoPlaneNoResults(es: seq<Event>, e: Event)
    requires !Run(es + [e]).failed
    ensures e == PlaneClosed ==> ResultGoesTo(Run(es + [e]), F.ControlPlane) == None
    ensures var s, t := Run(es), Run(es + [e]);
      s.control.None? && t.control.Some? ==>
        e.PlaneOpened? || (|t.taken| == |s.taken| + 1 && t.taken[|s.taken|].name == F.CONTROLPLANE_ID)
  {
    var s := Run(es);
    assert (es + [e])[..|es|] == es;
    if e.Chunk? && e.conn in s.streams {
      LoadIsValid(s, e.conn);
    }
  }

  /** A header that registers a name. */
  predicate Greets(header: seq<byte>, name: Name) {
    |header| == TCP_SIZE && Parse(Tcp, header) == Success(PROCESS_CONNECTION) && Get(header, F.NAME) == Str(name)
  }

  lemma HelloGreets(name: Name)
    requires Frames.Plain(name, 32)
    ensures Greets(Frames.Header(Frames.Hello(name)), name)
  {
    Frames.ReadInvertsWrite(Frames.Hello(name));
  }

  /** The connection once it has registered: it goes on with the entry's frame. */
  function Joined(known: map<Name, F.Entry>, name: Name): F.Conn {
    var e := F.EntryNamed(known, name);
    F.Fresh0(F.AtProcess(known), {}).(peer := Some(e.peer), name := name, waiting := e.waiting, msg := e.msg)
  }

  lemma RegistersAs(known: map<Name, F.Entry>, header: seq<byte>, name: Name, more: seq<byte>)
    requires F.KnownSound(F.AtProcess(known)) && Greets(header, name)
    ensures Joined(known, name).Valid()
    ensures F.Handle(F.Fresh0(F.AtProcess(known), {}), header + more) ==
      F.After([F.Registered(F.EntryNamed(known, name).peer)], F.Handle(Joined(known, name), more))
  {
    var c, bytes := F.Fresh0(F.AtProcess(known), {}), header + more;
    assert bytes[..TCP_SIZE] == header && bytes[TCP_SIZE..] == more;
    assert F.Next(c, bytes) == F.Took([F.Registered(F.EntryNamed(known, name).peer)], Joined(known, name), TCP_SIZE);
  }

  lemma RegistersOnly(known: map<Name, F.Entry>, header: seq<byte>, name: Name)
    requires F.KnownSound(F.AtProcess(known)) && Greets(header, name)
    ensures F.Handle(F.Fresh0(F.AtProcess(known), {}), header) ==
      F.Decoded([F.Registered(F.EntryNamed(known, name).peer)], Joined(known, name), [])
  {
    RegistersAs(known, header, name, []);
    assert header + [] == header;
    assert F.Next(Joined(known, name), []).Stuck?;
  }

  lemma EntriesAreKnown(s: Server)
    requires Sound(s)
    ensures F.KnownSound(F.AtProcess(s.entries))
    ensures forall n :: n in s.entries && s.entries[n].peer.Process? ==> s.entries[n].peer == F.Process(n)
  {
    assert forall n :: n in s.entries ==> EntrySound(n, s.entries[n], s.taken);
  }

  /** Whoever may be asked for results under the name. */
  predicate NamesProcess(s: Server, name: Name) {
    F.EntryNamed(s.entries, name).peer.Process?
  }

  /**
   * Our own clients' connections have no context, so the confirmation a peer sends registers
   * the connection as a process of the confirmation's name, is confirmed back, and takes the
   * entry of that name from whoever was confirmed before.
   */
  lemma ConfirmationTakesTheEntry(es: seq<Event>, k: nat, header: seq<byte>, name: Name)
    requires Greets(header, name) && NamesProcess(Run(es), name)
    requires !Run(es).failed && k in Run(es).streams && Run(es).streams[k] == Stream(None, [])
    ensures var s := Run(es); var t := Step(s, Chunk(k, header));
      && t.streams == s.streams[k := Stream(Some(name), [])] && t.confirmed == s.confirmed + [k]
      && ResultGoesTo(t, F.Process(name)) == Some(k)
  {
    RegistrationStep(Run(es), k, header, name);
  }

  /**
   * With two clients of our own, results for whoever was confirmed first go to the other: both
   * connections have the same entry. `far` tells who is at the other end.
   */
  lemma SecondConfirmationDiverts(es: seq<Event>, j: nat, k: nat, header: seq<byte>, name: Name, far: nat -> nat)
    requires Greets(header, name) && NamesProcess(Run(es), name) && j != k && far(j) != far(k)
    requires !Run(es).failed && j in Run(es).streams && Run(es).streams[j] == Stream(None, [])
    requires k in Run(es).streams && Run(es).streams[k] == Stream(None, [])
    ensures var t := Run(es + [Chunk(j, header)] + [Chunk(k, header)]);
      && j in t.streams && t.streams[j].context == Some(name)
      && !Reaches(ResultGoesTo(t, F.Process(name)), j, far)
  {
    var first := es + [Chunk(j, header)];
    assert first[..|first| - 1] == es;
    RegistrationStep(Run(es), j, header, name);
    var both := first + [Chunk(k, header)];
    assert both[..|both| - 1] == first;
    RegistrationStep(Run(first), k, header, name);
  }

  lemma RegistrationStep(s: Server, k: nat, header: seq<byte>, name: Name)
    requires Sound(s) && Greets(header, name) && NamesProcess(s, name)
    requires !s.failed && k in s.streams && s.streams[k] == Stream(None, [])
    ensures var t := Step(s, Chunk(k, header));
      && t.streams == s.streams[k := Stream(Some(name), [])] && t.confirmed == s.confirmed + [k] && !t.failed
      && ResultGoesTo(t, F.Process(name)) == Some(k)
      && name in t.entries && t.entries[name] == F.EntryNamed(s.entries, name).(conn := Some(k))
  {
    EntriesAreKnown(s);
    LoadIsValid(s, k);
    RegistersOnly(s.entries, header, name);
    assert [] + header == header;
    var d := F.Handle(Load(s, k), header);
    ChunkIsStored(s, k, header, d);
    JoinedIsStored(s, k, name, d);
  }

  lemma ChunkIsStored(s: Server, k: nat, bytes: seq<byte>, d: F.Decoded)
    requires Sound(s) && !s.failed && k in s.streams && s.streams[k].buffer + bytes == bytes
    requires (s.streams[k].context.Some? ==> s.streams[k].context.value in s.entries) && Load(s, k).Valid()
    requires d == F.Handle(Load(s, k), bytes)
    ensures Step(s, Chunk(k, bytes)) == Stored(s, k, s.streams[k].context.None?, d)
  {
  }

  lemma JoinedIsStored(s: Server, k: nat, name: Name, d: F.Decoded)
    requires k in s.streams && d.rest == [] && !d.conn.failed && !s.failed
    requires d.conn.name == name && d.conn.peer == Some(F.EntryNamed(s.entries, name).peer)
    ensures var t := Stored(s, k, true, d);
      && t.streams == s.streams[k := Stream(Some(name), [])] && t.confirmed == s.confirmed + [k] && !t.failed
      && name in t.entries && ResultGoesTo(t, F.Process(name)) == Some(k)
      && t.entries[name] == F.Entry(d.conn.peer.value, d.conn.waiting, d.conn.msg, Some(k))
  {
  }

  // ---------------------------------------------------------- sharing a decoder

  /** The same decoder state, as far as it matters. */
  predicate Same(c: F.Conn, d: F.Conn) {
    d == c.(msg := d.msg) && (c.waiting > 0 ==> d.msg == c.msg)
  }

  lemma {:induction false} SameDecodes(c: F.Conn, d: F.Conn, buf: seq<byte>)
    requires c.Valid() && d.Valid() && Same(c, d)
    ensures var x, y := F.Decode(c, buf), F.Decode(d, buf);
      x.events == y.events && x.rest == y.rest && Same(x.conn, y.conn)
    decreases !c.failed, |buf|
  {
    match F.Next(c, buf)
    case Stuck =>
    case Took(_, c', used) =>
      SameNext(c, d, buf);
      SameDecodes(c', F.Next(d, buf).next, buf[used..]);
  }

  lemma SameNext(c: F.Conn, d: F.Conn, buf: seq<byte>)
    requires c.Valid() && d.Valid() && Same(c, d)
    ensures match F.Next(c, buf)
      case Stuck => F.Next(d, buf).Stuck?
      case Took(events, c', used) =>
        F.Next(d, buf).Took? && F.Next(d, buf).events == events && F.Next(d, buf).used == used && Same(c', F.Next(d, buf).next)
  {
  }

  lemma SameHandles(c: F.Conn, d: F.Conn, buf: seq<byte>)
    requires c.Valid() && d.Valid() && Same(c, d) && c.peer.Some?
    ensures var x, y := F.Handle(c, buf), F.Handle(d, buf);
      x.events == y.events && x.rest == y.rest && Same(x.conn, y.conn)
  {
    SameDecodes(c, d, buf);
    SameNext(c, d, buf);
  }

  /** Two decoder states for one process's connection decode all bytes alike exactly if they are
      the same: both between frames, or in the same frame with as much missing. */
  lemma DecodesAlikeIff(c: F.Conn, d: F.Conn)
    requires c.Valid() && d.Valid() && !c.failed && c.side.AtProcess? && c.peer.Some? && c.peer.value.Process?
    requires d == c.(waiting := d.waiting, msg := d.msg)
    ensures (forall bytes :: F.Decode(c, bytes).events == F.Decode(d, bytes).events) <==> Same(c, d)
  {
    if Same(c, d) {
      forall bytes ensures F.Decode(c, bytes).events == F.Decode(d, bytes).events {
        SameDecodes(c, d, bytes);
      }
    } else if c.waiting == d.waiting {
      var bytes := Zeros(c.waiting);
      FirstEvent(c, bytes);
      FirstEvent(d, bytes);
      assert F.Decode(c, bytes).events[0].header != F.Decode(d, bytes).events[0].header;
    } else if c.waiting < d.waiting {
      var bytes := EarlierOnly(c, d);
    } else {
      var bytes := EarlierOnly(d, c);
    }
  }

  /** A payload that is there is handed on with the header that was kept for it. */
  lemma FirstEvent(c: F.Conn, bytes: seq<byte>)
    requires c.Valid() && !c.failed && c.side.AtProcess? && c.peer.Some? && c.peer.value.Process?
    requires 0 < c.waiting <= |bytes|
    ensures var events := F.Decode(c, bytes).events;
      |events| > 0 && events[0].Message? && events[0].header == c.msg && events[0].payload == bytes[..c.waiting]
  {
    assert F.Next(c, bytes).events[0] == F.Decode(c, bytes).events[0];
  }

  /** Bytes that only the decoder with less to wait for makes something of, or something else. */
  lemma EarlierOnly(c: F.Conn, d: F.Conn) returns (bytes: seq<byte>)
    requires c.Valid() && d.Valid() && !c.failed && c.side.AtProcess? && c.peer.Some? && c.peer.value.Process?
    requires d == c.(waiting := d.waiting, msg := d.msg) && c.waiting < d.waiting
    ensures F.Decode(c, bytes).events != F.Decode(d, bytes).events
  {
    if c.waiting > 0 {
      bytes := Zeros(c.waiting);
      FirstEvent(c, bytes);
      assert F.Next(d, bytes).Stuck?;
    } else {
      HelloGreets([]);
      bytes := Frames.Header(Frames.Hello([]));
      ConfirmationFirst(c, bytes);
      if d.waiting <= TCP_SIZE {
        FirstEvent(d, bytes);
        assert |bytes[..d.waiting]| > 0;
      } else {
        assert F.Next(d, bytes).Stuck?;
      }
    }
  }

  lemma ConfirmationFirst(c: F.Conn, header: seq<byte>)
    requires c.Valid() && !c.failed && c.side.AtProcess? && c.peer.Some? && c.waiting == 0 && Greets(header, [])
    ensures var events := F.Decode(c, header).events;
      |events| > 0 && events[0].Message? && events[0].payload == []
  {
    assert header[..TCP_SIZE] == header;
    assert F.Next(c, header).events[0] == F.Decode(c, header).events[0];
  }

  function Replay(s: Server, es: seq<Event>): (t: Server)
    requires Sound(s)
    ensures Sound(t)
    decreases |es|
  {
    if es == [] then s
    else
      StepKeepsSound(s, es[0]);
      Replay(Step(s, es[0]), es[1..])
  }

  /** The chunks of one connection, and what was handed on for it. */
  function ChunksTo(es: seq<Event>, k: nat): seq<seq<byte>> {
    if es == [] then []
    else (if es[0].Chunk? && es[0].conn == k then [es[0].bytes] else []) + ChunksTo(es[1..], k)
  }

  function EventsFor(ps: seq<Passed>, k: nat): seq<F.Event> {
    if ps == [] then []
    else EventsFor(ps[..|ps| - 1], k) + if ps[|ps| - 1].conn == k then [ps[|ps| - 1].event] else []
  }

  /** The entry is as the connection left it. */
  ghost predicate AsLeft(s: Server, k: nat, left: F.Conn)
    requires Sound(s)
  {
    k in s.streams && s.streams[k].context.Some? && s.streams[k].context.value in s.entries && Same(left, Load(s, k))
  }

  function Current(s: Server, k: nat, left: F.Conn): F.Conn {
    if k in s.streams && s.streams[k].context.Some? && s.streams[k].context.value in s.entries then Load(s, k) else left
  }

  /** Whenever bytes come for a registered connection, its entry is as the connection left it: no
      other one of the name has moved it into or out of a frame. */
  ghost predicate Undisturbed(s: Server, k: nat, left: F.Conn, es: seq<Event>)
    requires Sound(s)
    decreases |es|
  {
    es != [] ==> (
      StepKeepsSound(s, es[0]);
      var t := Step(s, es[0]);
      if es[0].Chunk? && es[0].conn == k then AsLeft(s, k, left) && Undisturbed(t, k, Current(t, k, left), es[1..])
      else Undisturbed(t, k, left, es[1..]))
  }

  lemma {:induction false} SameHandleAll(c: F.Conn, d: F.Conn, buf: seq<byte>, chunks: seq<seq<byte>>)
    requires c.Valid() && d.Valid() && Same(c, d) && c.side.AtProcess? && c.peer.Some?
    ensures var x, y := F.HandleAll(c, buf, chunks), F.HandleAll(d, buf, chunks);
      x.events == y.events && x.rest == y.rest
    decreases |chunks|
  {
    if chunks != [] {
      SameHandles(c, d, buf + chunks[0]);
      HandleKeeps(c, buf + chunks[0]);
      var x, y := F.Handle(c, buf + chunks[0]), F.Handle(d, buf + chunks[0]);
      SameHandleAll(x.conn, y.conn, x.rest, chunks[1..]);
    }
  }

  lemma PassedMore(j: nat, events: seq<F.Event>, e: F.Event)
    ensures PassedOn(j, events + [e]) == PassedOn(j, events) + [Passed(j, e)]
  {
    assert (events + [e])[..|events|] == events;
  }

  lemma EventsForMore(ps: seq<Passed>, x: Passed, k: nat)
    ensures EventsFor(ps + [x], k) == EventsFor(ps, k) + if x.conn == k then [x.event] else []
  {
    assert (ps + [x])[..|ps|] == ps;
  }

  lemma {:induction false} EventsPassed(ps: seq<Passed>, j: nat, events: seq<F.Event>, k: nat)
    ensures EventsFor(ps + PassedOn(j, events), k) == EventsFor(ps, k) + if j == k then events else []
  {
    if events == [] {
      assert ps + [] == ps;
    } else {
      var init, e := events[..|events| - 1], events[|events| - 1];
      assert events == init + [e];
      EventsPassed(ps, j, init, k);
      OneMorePassed(ps, j, init, e, k);
    }
  }

  lemma OneMorePassed(ps: seq<Passed>, j: nat, init: seq<F.Event>, e: F.Event, k: nat)
    requires EventsFor(ps + PassedOn(j, init), k) == EventsFor(ps, k) + if j == k then init else []
    ensures EventsFor(ps + PassedOn(j, init + [e]), k) == EventsFor(ps, k) + if j == k then init + [e] else []
  {
    PassedMore(j, init, e);
    Assoc(ps, PassedOn(j, init), [Passed(j, e)]);
    EventsForMore(ps + PassedOn(j, init), Passed(j, e), k);
    Assoc(EventsFor(ps, k), init, [e]);
  }

  lemma {:induction false} FailedStays(s: Server, es: seq<Event>)
    requires Sound(s) && s.failed
    ensures Replay(s, es) == s
    decreases |es|
  {
    if es != [] {
      FailedStays(s, es[1..]);
    }
  }

  lemma StoredElsewhere(s: Server, j: nat, registers: bool, d: F.Decoded, k: nat)
    requires k in s.streams && j != k
    ensures var t := Stored(s, j, registers, d);
      k in t.streams && t.streams[k] == s.streams[k] && EventsFor(t.handled, k) == EventsFor(s.handled, k)
  {
    EventsPassed(s.handled, j, d.events, k);
    assert EventsFor(s.handled, k) + [] == EventsFor(s.handled, k);
  }

  /** A step that is not a chunk of the connection leaves its stream and its events alone. */
  lemma OthersPass(s: Server, e: Event, k: nat)
    requires Sound(s) && k in s.streams && !(e.Chunk? && e.conn == k)
    ensures var t := Step(s, e);
      k in t.streams && t.streams[k] == s.streams[k] && EventsFor(t.handled, k) == EventsFor(s.handled, k)
  {
    if e.Chunk? && e.conn in s.streams && !s.failed {
      LoadIsValid(s, e.conn);
      var d := F.Handle(Load(s, e.conn), s.streams[e.conn].buffer + e.bytes);
      StoredElsewhere(s, e.conn, s.streams[e.conn].context.None?, d, k);
    }
  }

  /** A chunk of a registered connection is handled with its entry's decoder, which gets the
      state left. */
  lemma ChunkPasses(s: Server, k: nat, bytes: seq<byte>)
    requires Sound(s) && !s.failed && k in s.streams && s.streams[k].context.Some?
    requires !Step(s, Chunk(k, bytes)).failed
    ensures s.streams[k].context.value in s.entries && Load(s, k).Valid()
    ensures var t, d := Step(s, Chunk(k, bytes)), F.Handle(Load(s, k), s.streams[k].buffer + bytes);
      && k in t.streams && t.streams[k] == Stream(s.streams[k].context, d.rest)
      && t.streams[k].context.value in t.entries && Load(t, k) == d.conn
      && EventsFor(t.handled, k) == EventsFor(s.handled, k) + d.events
  {
    LoadIsValid(s, k);
    var d := F.Handle(Load(s, k), s.streams[k].buffer + bytes);
    HandleKeeps(Load(s, k), s.streams[k].buffer + bytes);
    HandleKeepsPending(Load(s, k), s.streams[k].buffer + bytes);
    EventsPassed(s.handled, k, d.events, k);
  }

  lemma {:induction false} DecodeKeepsPending(c: F.Conn, buf: seq<byte>)
    requires c.Valid() && c.side.AtProcess?
    ensures F.Decode(c, buf).conn.pending == c.pending
    decreases !c.failed, |buf|
  {
    match F.Next(c, buf)
    case Stuck =>
    case Took(_, c', used) =>
      NextKeeps(c, buf);
      DecodeKeepsPending(c', buf[used..]);
  }

  lemma HandleKeepsPending(c: F.Conn, buf: seq<byte>)
    requires c.Valid() && c.side.AtProcess? && c.peer.Some?
    ensures F.Handle(c, buf).conn.pending == c.pending
  {
    DecodeKeepsPending(c, buf);
  }

  /**
   * A connection whose entry is undisturbed is decoded as if it were alone: over any run of all
   * connections, interleaved in any way, what is handed on for it and what stays unread are what
   * its own chunks give.
   */
  lemma {:induction false} SharingIsHarmless(s: Server, k: nat, left: F.Conn, es: seq<Event>)
    requires Sound(s) && k in s.streams && s.streams[k].context.Some? && !Replay(s, es).failed
    requires left.Valid() && left.side.AtProcess? && left.peer.Some? && Undisturbed(s, k, left, es)
    ensures var t, d := Replay(s, es), F.HandleAll(left, s.streams[k].buffer, ChunksTo(es, k));
      && k in t.streams && t.streams[k].buffer == d.rest
      && EventsFor(t.handled, k) == EventsFor(s.handled, k) + d.events
    decreases |es|
  {
    if es == [] {
      assert EventsFor(s.handled, k) + [] == EventsFor(s.handled, k);
    } else {
      var e := es[0];
      StepKeepsSound(s, e);
      var t := Step(s, e);
      if t.failed {
        FailedStays(t, es[1..]);
      }
      if e.Chunk? && e.conn == k {
        OneMoreChunk(s, k, left, e.bytes, es[1..]);
      } else {
        OthersPass(s, e, k);
        SharingIsHarmless(t, k, left, es[1..]);
        assert [] + ChunksTo(es[1..], k) == ChunksTo(es[1..], k);
      }
    }
  }

  lemma FirstChunk(c: F.Conn, buf: seq<byte>, bytes: seq<byte>, chunks: seq<seq<byte>>)
    requires c.Valid()
    ensures var d := F.Handle(c, buf + bytes);
      F.HandleAll(c, buf, [bytes] + chunks) == F.After(d.events, F.HandleAll(d.conn, d.rest, chunks))
  {
    assert ([bytes] + chunks)[1..] == chunks;
  }

  /** The decoder left and the entry's, after the same chunk. */
  lemma StillSame(left: F.Conn, entry: F.Conn, buf: seq<byte>, chunks: seq<seq<byte>>)
    requires left.Valid() && entry.Valid() && left.side.AtProcess? && left.peer.Some? && Same(left, entry)
    ensures var x, y := F.Handle(left, buf), F.Handle(entry, buf);
      && x.events == y.events && x.rest == y.rest
      && F.HandleAll(x.conn, x.rest, chunks).events == F.HandleAll(y.conn, y.rest, chunks).events
      && F.HandleAll(x.conn, x.rest, chunks).rest == F.HandleAll(y.conn, y.rest, chunks).rest
  {
    SameHandles(left, entry, buf);
    HandleKeeps(left, buf);
    SameHandleAll(F.Handle(left, buf).conn, F.Handle(entry, buf).conn, F.Handle(left, buf).rest, chunks);
  }

  lemma OneMoreChunk(s: Server, k: nat, left: F.Conn, bytes: seq<byte>, es: seq<Event>)
    requires Sound(s) && k in s.streams && s.streams[k].context.Some? && !s.failed
    requires left.Valid() && left.side.AtProcess? && left.peer.Some? && AsLeft(s, k, left)
    requires Sound(Step(s, Chunk(k, bytes))) && !Step(s, Chunk(k, bytes)).failed
    requires !Replay(Step(s, Chunk(k, bytes)), es).failed
    requires Undisturbed(Step(s, Chunk(k, bytes)), k, Current(Step(s, Chunk(k, bytes)), k, left), es)
    ensures var t := Replay(Step(s, Chunk(k, bytes)), es);
      var d := F.HandleAll(left, s.streams[k].buffer, [bytes] + ChunksTo(es, k));
      && k in t.streams && t.streams[k].buffer == d.rest
      && EventsFor(t.handled, k) == EventsFor(s.handled, k) + d.events
    decreases |es| + 1, 0
  {
    var t, buf, chunks := Step(s, Chunk(k, bytes)), s.streams[k].buffer + bytes, ChunksTo(es, k);
    ChunkPasses(s, k, bytes);
    HandleKeeps(Load(s, k), buf);
    SharingIsHarmless(t, k, Load(t, k), es);
    StillSame(left, Load(s, k), buf, chunks);
    FirstChunk(left, s.streams[k].buffer, bytes, chunks);
    var d := F.Handle(left, buf);
    Assoc(EventsFor(s.handled, k), d.events, F.HandleAll(d.conn, d.rest, chunks).events);
  }

  /** Nobody else is registered under the connection's name, now or later in the run. */
  ghost predicate Alone(s: Server, k: nat, es: seq<Event>)
    requires Sound(s) && k in s.streams
    decreases |es|
  {
    && (forall j :: j in s.streams && j != k ==> s.streams[j].context != s.streams[k].context)
    && (es != [] ==> (
         StepKeepsSound(s, es[0]);
         StreamsStay(s, es[0], k);
         Alone(Step(s, es[0]), k, es[1..])))
  }

  lemma StreamsStay(s: Server, e: Event, k: nat)
    requires Sound(s) && k in s.streams
    ensures k in Step(s, e).streams
    ensures s.streams[k].context.Some? ==> Step(s, e).streams[k].context == s.streams[k].context
  {
    if e.Chunk? && e.conn == k && !s.failed {
      LoadIsValid(s, k);
      HandleKeeps(Load(s, k), s.streams[k].buffer + e.bytes);
    }
  }

  /** A step that leaves nobody else under the connection's name leaves its entry's frame alone. */
  lemma EntryStays(s: Server, e: Event, k: nat)
    requires Sound(s) && k in s.streams && s.streams[k].context.Some? && !(e.Chunk? && e.conn == k)
    requires forall j :: j in Step(s, e).streams && j != k ==> Step(s, e).streams[j].context != s.streams[k].context
    ensures var t, n := Step(s, e), s.streams[k].context.value;
      n in s.entries && n in t.entries && t.entries[n] == s.entries[n].(conn := t.entries[n].conn)
  {
    LoadIsValid(s, k);
    if e.Chunk? && e.conn in s.streams && !s.failed {
      LoadIsValid(s, e.conn);
      StoredAway(s, e.conn, F.Handle(Load(s, e.conn), s.streams[e.conn].buffer + e.bytes), s.streams[k].context.value);
    }
  }

  lemma StoredAway(s: Server, j: nat, d: F.Decoded, n: Name)
    requires j in s.streams && n in s.entries
    ensures var t := Stored(s, j, s.streams[j].context.None?, d);
      n in t.entries && (j in t.streams && t.streams[j].context != Some(n) ==> t.entries[n] == s.entries[n])
  {
  }

  /** A connection that shares its name with no other is undisturbed. */
  lemma {:induction false} AloneIsUndisturbed(s: Server, k: nat, left: F.Conn, es: seq<Event>)
    requires Sound(s) && k in s.streams && s.streams[k].context.Some? && AsLeft(s, k, left) && Alone(s, k, es)
    ensures Undisturbed(s, k, left, es)
    decreases |es|
  {
    if es != [] {
      var e := es[0];
      StepKeepsSound(s, e);
      StreamsStay(s, e, k);
      var t := Step(s, e);
      LoadIsValid(t, k);
      if e.Chunk? && e.conn == k {
        AloneIsUndisturbed(t, k, Load(t, k), es[1..]);
      } else {
        EntryStays(s, e, k);
        OthersPass(s, e, k);
        AloneIsUndisturbed(t, k, left, es[1..]);
      }
    }
  }

  /**
   * Frames written on one of many connections: over any run of all of them, what was handed on for
   * it and what its unread bytes decode to are its frames, as long as its entry is undisturbed.
   */
  lemma FramesReachOverAnyRun(s: Server, k: nat, fs: seq<Frames.Frame>, es: seq<Event>)
    requires Sound(s) && k in s.streams && s.streams[k].context.Some? && s.streams[k].buffer == []
    requires Frames.Listening(Load(s, k)) && Frames.AllHeard(Load(s, k), fs)
    requires Undisturbed(s, k, Load(s, k), es) && !Replay(s, es).failed
    requires Flatten(ChunksTo(es, k)) == Frames.EncodeAll(fs)
    ensures var t, d := Replay(s, es), F.HandleAll(Load(s, k), [], ChunksTo(es, k));
      && k in t.streams
      && EventsFor(t.handled, k) + F.Decode(d.conn, t.streams[k].buffer).events
         == EventsFor(s.handled, k) + Frames.Arrivals(Load(s, k), fs)
  {
    var c := Load(s, k);
    SharingIsHarmless(s, k, c, es);
    Frames.FramesReachTheProcess(c, fs, ChunksTo(es, k));
    var d := F.HandleAll(c, [], ChunksTo(es, k));
    Assoc(EventsFor(s.handled, k), d.events, F.Decode(d.conn, d.rest).events);
  }

  // ------------------------------------------------------------ a payload that is not its own

  /** Two connections of the same name, between frames. */
  ghost predicate Sharing(s: Server, j: nat, k: nat, n: Name) {
    && !s.failed && j != k && j in s.streams && k in s.streams
    && s.streams[j] == Stream(Some(n), []) && s.streams[k] == Stream(Some(n), [])
    && n in s.entries && s.entries[n].waiting == 0 && s.entries[n].peer.Process?
  }

  /** A frame whose header has come over one connection is completed by whatever comes over
      another one of the name. */
  lemma PayloadFromAnother(s: Server, j: nat, k: nat, n: Name, f: Frames.Frame, bytes: seq<byte>)
    requires Sound(s) && Sharing(s, j, k, n)
    requires Frames.Writable(f) && |Frames.Payload(f)| == |bytes| > 0
    ensures var t := Replay(s, [Chunk(j, Frames.Header(f)), Chunk(k, bytes)]);
      var handler := F.HandlerOf(F.AtProcess(map[]), Frames.TypeNo(f));
      t.handled == s.handled + [Passed(k, F.Message(s.entries[n].peer, handler, Frames.Header(f), bytes))]
  {
    var side := F.AtProcess(map[]);
    Frames.AnnouncesItsPayload(side, f);
    CompletedByAnother(s, j, k, n, Frames.TypeNo(f), Frames.Header(f), bytes);
  }

  lemma CompletedByAnother(s: Server, j: nat, k: nat, n: Name, kind: int, h: seq<byte>, bytes: seq<byte>)
    requires Sound(s) && Sharing(s, j, k, n) && |bytes| > 0
    requires |h| == TCP_SIZE && Parse(Tcp, h) == Success(kind) && kind != PROCESS_CONNECTION
    requires F.Announced(F.AtProcess(map[]), kind, h) == Some(|bytes|)
    ensures Replay(s, [Chunk(j, h), Chunk(k, bytes)]).handled ==
      s.handled + [Passed(k, F.Message(s.entries[n].peer, F.HandlerOf(F.AtProcess(map[]), kind), h, bytes))]
  {
    LoadIsValid(s, j);
    Frames.HeaderAlone(Load(s, j), kind, h, |bytes|);
    StepKeepsSound(s, Chunk(j, h));
    var t := HeaderWaits(s, j, k, n, h, |bytes|);
    var event := Resumes(t, k, n, kind, h, bytes);
    PayloadResumed(t, k, n, h, bytes, event);
    ReplayTwo(s, Chunk(j, h), Chunk(k, bytes));
  }

  lemma Resumes(t: Server, k: nat, n: Name, kind: int, h: seq<byte>, bytes: seq<byte>) returns (event: F.Event)
    requires Sound(t) && k in t.streams && t.streams[k].context == Some(n) && n in t.entries
    requires t.entries[n].peer.Process? && t.entries[n].waiting == |bytes| > 0 && t.entries[n].msg == h
    requires |h| == TCP_SIZE && Parse(Tcp, h) == Success(kind) && kind != PROCESS_CONNECTION
    requires F.Announced(F.AtProcess(map[]), kind, h) == Some(|bytes|)
    ensures event == F.Message(t.entries[n].peer, F.HandlerOf(F.AtProcess(map[]), kind), h, bytes)
    ensures Load(t, k).Valid() && F.Handle(Load(t, k), bytes).events == [event]
  {
    LoadIsValid(t, k);
    event := F.Message(t.entries[n].peer, F.HandlerOf(F.AtProcess(map[]), kind), h, bytes);
    Frames.ResumedStops(Load(t, k).(waiting := 0), kind, h, bytes, []);
    assert bytes + [] == bytes;
  }

  lemma ReplayTwo(s: Server, e: Event, e': Event)
    requires Sound(s) && Sound(Step(s, e))
    ensures Replay(s, [e, e']) == Step(Step(s, e), e')
  {
    StepKeepsSound(Step(s, e), e');
    assert [e, e'][1..] == [e'];
    assert Replay(Step(s, e), [e']) == Step(Step(s, e), e');
  }

  lemma HeaderWaits(s: Server, j: nat, k: nat, n: Name, h: seq<byte>, length: nat) returns (t: Server)
    requires Sound(s) && Sharing(s, j, k, n) && |h| == TCP_SIZE
    requires Load(s, j).Valid()
    requires F.Handle(Load(s, j), h) == F.Decoded([], Load(s, j).(waiting := length, msg := h), [])
    ensures t == Step(s, Chunk(j, h)) && !t.failed && t.handled == s.handled
    ensures k in t.streams && t.streams[k] == Stream(Some(n), [])
    ensures n in t.entries && t.entries[n] == s.entries[n].(waiting := length, msg := h)
  {
    t := Step(s, Chunk(j, h));
    assert [] + h == h;
    assert s.handled + [] == s.handled;
  }

  lemma PayloadResumed(t: Server, k: nat, n: Name, h: seq<byte>, bytes: seq<byte>, event: F.Event)
    requires Sound(t) && !t.failed && k in t.streams && t.streams[k] == Stream(Some(n), []) && n in t.entries
    requires Load(t, k).Valid() && F.Handle(Load(t, k), bytes).events == [event]
    ensures Step(t, Chunk(k, bytes)).handled == t.handled + [Passed(k, event)]
  {
    var d := F.Handle(Load(t, k), bytes);
    assert [] + bytes == bytes;
    ChunkIsStored(t, k, bytes, d);
    OneStored(t, k, d, event);
  }

  lemma OneStored(t: Server, k: nat, d: F.Decoded, event: F.Event)
    requires k in t.streams && d.events == [event]
    ensures Stored(t, k, false, d).handled == t.handled + [Passed(k, event)]
  {
    assert PassedOn(k, [event]) == [Passed(k, event)];
  }

  /**
   * The run that leads there: two clients register under one name, the first sends a header and the
   * second any bytes, say a frame of its own. They are passed on as the first one's payload.
   */
  lemma PayloadStolen(name: Name, hello: seq<byte>, f: Frames.Frame, bytes: seq<byte>)
    requires Greets(hello, name) && F.PeerNamed(name).Process?
    requires Frames.Writable(f) && |Frames.Payload(f)| == |bytes| > 0
    ensures var s := Run([Accepted(0), Accepted(1), Chunk(0, hello), Chunk(1, hello)]);
      var t := Replay(s, [Chunk(0, Frames.Header(f)), Chunk(1, bytes)]);
      var handler := F.HandlerOf(F.AtProcess(map[]), Frames.TypeNo(f));
      t.handled == s.handled + [Passed(1, F.Message(F.Process(name), handler, Frames.Header(f), bytes))]
  {
    var s := TwoRegister(name, hello);
    PayloadFromAnother(s, 0, 1, name, f, bytes);
  }

  lemma TwoRegister(name: Name, hello: seq<byte>) returns (s: Server)
    requires Greets(hello, name) && F.PeerNamed(name).Process?
    ensures s == Run([Accepted(0), Accepted(1), Chunk(0, hello), Chunk(1, hello)])
    ensures Sharing(s, 0, 1, name) && s.entries[name].peer == F.Process(name)
  {
    var es := [Accepted(0), Accepted(1), Chunk(0, hello)];
    var first := TwoAccepted();
    var second := Registers(first, 0, hello, name);
    assert es[..2] == [Accepted(0), Accepted(1)];
    assert second == Run(es);
    s := Registers(second, 1, hello, name);
    assert (es + [Chunk(1, hello)])[..3] == es;
    assert es + [Chunk(1, hello)] == [Accepted(0), Accepted(1), Chunk(0, hello), Chunk(1, hello)];
  }

  lemma TwoAccepted() returns (s: Server)
    ensures s == Run([Accepted(0), Accepted(1)])
    ensures s == NoConnections.(streams := map[0 := Stream(None, []), 1 := Stream(None, [])])
  {
    assert [Accepted(0), Accepted(1)][..1] == [Accepted(0)];
    assert [Accepted(0)][..0] == [];
    s := Run([Accepted(0), Accepted(1)]);
  }

  /** A connection that registers while its name's entry is between frames. */
  lemma Registers(s: Server, k: nat, hello: seq<byte>, name: Name) returns (t: Server)
    requires Sound(s) && Greets(hello, name) && NamesProcess(s, name)
    requires !s.failed && k in s.streams && s.streams[k] == Stream(None, [])
    requires F.EntryNamed(s.entries, name).waiting == 0
    ensures t == Step(s, Chunk(k, hello)) && !t.failed && Sound(t)
    ensures t.streams == s.streams[k := Stream(Some(name), [])]
    ensures name in t.entries && t.entries[name].waiting == 0 && t.entries[name].peer == F.Process(name)
  {
    RegistrationStep(s, k, hello, name);
    StepKeepsSound(s, Chunk(k, hello));
    t := Step(s, Chunk(k, hello));
  }

  lemma HandledPeer(s: Server, k: nat, after: F.Conn)
    requires Sound(s) && k in s.streams && Load(s, k).Valid() && Keeps(Load(s, k), after)
    ensures s.streams[k].context.Some? ==> after.peer.Some? && s.streams[k].context == Some(after.name) && after.name in s.entries
    ensures after.peer.Some? && after.name in s.entries ==> s.entries[after.name].peer == after.peer.value
  {
  }

  // ----------------------------------------------------------------- the server object

  class TcpServer {
    var entries: map<Name, F.Entry>
    var streams: map<nat, Stream>
    var control: Option<Name>
    var handled: seq<Passed>
    var confirmed: seq<nat>
    var failed: bool
    ghost var taken: seq<Take>

    ghost function State(): Server
      reads this
    {
      Server(entries, streams, control, handled, confirmed, taken, failed)
    }

    ghost predicate Valid()
      reads this
    {
      Sound(State())
    }

    constructor ()
      ensures Valid() && State() == NoConnections
    {
      entries, streams, control, handled, confirmed, failed := map[], map[], None, [], [], false;
      taken := [];
    }

    method Accept(k: nat)
      requires Valid() && !failed
      modifies this`streams
      ensures Valid() && State() == Step(old(State()), Accepted(k))
    {
      StepKeepsSound(State(), Accepted(k));
      if k !in streams {
        streams := streams[k := Stream(None, [])];
      }
    }

    /** `_handle_app_update`; the address is not modelled. */
    method HandleAppUpdate(n: Name)
      requires Valid() && !failed
      modifies this`entries
      ensures Valid() && State() == Step(old(State()), Announced(n))
    {
      StepKeepsSound(State(), Announced(n));
      if n !in entries {
        entries := entries[n := F.Entry(F.Process(n), 0, Zeros(TCP_SIZE), None)];
      }
    }

    /** The callback of the client that `_connect` made: the pointer is set, the context is not. */
    method ClientConnected(n: Name, k: nat)
      requires Valid() && !failed && n in entries && k !in streams
      modifies this
      ensures Valid() && State() == Step(old(State()), Opened(n, k))
    {
      StepKeepsSound(State(), Opened(n, k));
      entries := entries[n := entries[n].(conn := Some(k))];
      streams := streams[k := Stream(None, [])];
      taken := taken + [Take(n, k)];
    }

    /** `poll`: the control plane's entry with its client, and the callback that it is connected. */
    method PlaneConnected(n: Name, k: nat)
      requires Valid() && !failed && n !in entries && k !in streams
      modifies this
      ensures Valid() && State() == Step(old(State()), PlaneOpened(n, k))
    {
      StepKeepsSound(State(), PlaneOpened(n, k));
      entries := entries[n := F.Entry(F.ControlPlane, 0, Zeros(TCP_SIZE), Some(k))];
      streams := streams[k := Stream(Some(n), [])];
      control := Some(n);
      taken := taken + [Take(n, k)];
    }

    /** The same callback once the connection is gone: the pointer to the entry is reset. */
    method PlaneDisconnected()
      requires Valid() && !failed
      modifies this`control
      ensures Valid() && State() == Step(old(State()), PlaneClosed)
    {
      StepKeepsSound(State(), PlaneClosed);
      control := None;
    }

    /** `_handle_connection`: finds the entry of the name or makes one, and confirms. */
    method HandleConnection(k: nat, n: Name, peer: F.Peer)
      requires k in streams
      modifies this
      ensures n in entries && entries == old(entries)[n := entries[n]]
      ensures entries[n].conn == Some(k) && (
        var before := if n in old(entries) then old(entries)[n] else F.Entry(peer, 0, Zeros(TCP_SIZE), None);
        entries[n] == before.(conn := Some(k)))
      ensures control == if n == F.CONTROLPLANE_ID then Some(n) else old(control)
      ensures streams == old(streams)[k := old(streams)[k].(context := Some(n))]
      ensures confirmed == old(confirmed) + [k] && taken == old(taken) + [Take(n, k)]
      ensures handled == old(handled) && failed == old(failed)
    {
      if n in entries {
        entries := entries[n := entries[n].(conn := Some(k))];
      } else {
        entries := entries[n := F.Entry(peer, 0, Zeros(TCP_SIZE), Some(k))];
      }
      if n == F.CONTROLPLANE_ID {
        control := Some(n);
      }
      streams := streams[k := streams[k].(context := Some(n))];
      confirmed := confirmed + [k];
      taken := taken + [Take(n, k)];
    }

    /** What the handler leaves in the entry and unread, after passing frames on. */
    method Keep(k: nat, events: seq<F.Event>, after: F.Conn, rest: seq<byte>)
      requires k in streams
      requires streams[k].context.Some? ==> after.peer.Some? && streams[k].context == Some(after.name) && after.name in entries
      requires !failed && (after.peer.Some? && after.name in entries ==> entries[after.name].peer == after.peer.value)
      modifies this
      ensures State() == Stored(old(State()), k, old(streams)[k].context.None?, F.Decoded(events, after, rest))
    {
      handled := handled + PassedOn(k, events);
      if after.failed {
        failed := true;
        return;
      }
      if streams[k].context.None? && after.peer.Some? {
        HandleConnection(k, after.name, after.peer.value);
      }
      if after.peer.Some? {
        entries := entries[after.name := entries[after.name].(waiting := after.waiting, msg := after.msg)];
      }
      streams := streams[k := streams[k].(buffer := rest)];
    }

    /** The message callback: the connection's decoder runs with what its entry keeps, and leaves
        there what it keeps. */
    method Receive(k: nat, bytes: seq<byte>)
      requires Valid() && !failed && k in streams
      modifies this
      ensures Valid() && State() == Step(old(State()), Chunk(k, bytes))
    {
      StepKeepsSound(State(), Chunk(k, bytes));
      LoadIsValid(State(), k);
      HandleKeeps(Load(State(), k), streams[k].buffer + bytes);
      HandledPeer(State(), k, F.Handle(Load(State(), k), streams[k].buffer + bytes).conn);
      var start := match streams[k].context
        case None => F.Fresh0(F.AtProcess(entries), {})
        case Some(n) => Resumed(n, entries[n]);
      var decoder := new F.ProcessConnection.Resume(start, streams[k].buffer);
      decoder.Receive(bytes);
      assert decoder.handled == F.Handle(start, streams[k].buffer + bytes).events;
      Keep(k, decoder.handled, decoder.conn, decoder.buffer);
    }

    /** `invocation_result`: the connection the result goes to; none for an unknown recipient. */
    method SendResult(peer: F.Peer) returns (to: Option<nat>)
      requires Valid()
      requires var n := Via(State(), peer); n.Some? && n.value in entries ==> entries[n.value].conn.Some?
      ensures to == ResultGoesTo(State(), peer)
    {
      var n := match peer
        case DataPlane => Some(F.DATAPLANE_ID)
        case ControlPlane => control
        case Process(name) => Some(name);
      if n.None? || n.value !in entries {
        return None;
      }
      return entries[n.value].conn;
    }
  }
}
