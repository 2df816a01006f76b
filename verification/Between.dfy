/**
 * From one process to another: what a worker of one gives for the other, through the controller,
 * the connection and the decoder, to what the other's controller is handed.
 */
module Between {
  import opened Wrappers
  import opened Bytes
  import opened Strings
  import Messages
  import F = Framing
  import opened Frames
  import S = Scheduler
  import C = ProcessController
  import Delivery
  import PL = PeerLink

  /** A string a text field of the width carries. */
  predicate Plainly(t: string, n: nat) {
    |t| <= n && forall i :: 0 <= i < |t| ==> 0 < t[i] as int < 256
  }

  lemma {:induction false} TextOfRaw(t: string, n: nat)
    requires Plainly(t, n)
    ensures Text(Raw(t)) == t && Plain(Raw(t), n)
  {
    if t != "" {
      var init := t[..|t| - 1];
      TextOfRaw(init, n);
      assert Raw(t)[..|t| - 1] == Raw(init) && Raw(t) == Raw(init) + [t[|t| - 1] as int % 256];
      assert t == init + [t[|t| - 1]];
    }
  }

  // ------------------------------------------------------- out of one controller

  /** The frame that `put_message` or `invocation_request` writes. */
  function FrameOf(self: string, o: C.Output): Frame
    requires Delivery.GoesOut(o)
  {
    if o.Forward? then Put(Raw(o.key), Raw(self), o.data) else Invoke(Raw(o.id), Raw(o.fname), o.data)
  }

  function FramesTo(self: string, other: string, sent: seq<C.Output>): seq<Frame> {
    if sent == [] then []
    else
      var o := sent[|sent| - 1];
      FramesTo(self, other, sent[..|sent| - 1]) + if Delivery.GoesOut(o) && o.process == other then [FrameOf(self, o)] else []
  }

  lemma {:induction false} OnlyOutgoing(self: string, other: string, sent: seq<C.Output>)
    ensures FramesTo(self, other, sent) == FramesTo(self, other, Delivery.Outgoing(sent))
  {
    if sent != [] {
      var init, o := sent[..|sent| - 1], sent[|sent| - 1];
      OnlyOutgoing(self, other, init);
      if Delivery.GoesOut(o) {
        assert (Delivery.Outgoing(init) + [o])[..|Delivery.Outgoing(init)|] == Delivery.Outgoing(init);
      } else {
        assert Delivery.Outgoing(init) + [] == Delivery.Outgoing(init);
      }
    }
  }

  // ----------------------------------------------------------- into the other one

  function SourceOf(peer: F.Peer): S.Source {
    match peer
    case DataPlane => S.DataPlane
    case ControlPlane => S.ControlPlane
    case Process(name) => S.Process(Text(name))
  }

  /** `dataplane_message`, `controlplane_message` and `remote_message`: what the controller handles. */
  function ExternalOf(e: F.Event): seq<C.Event> {
    if !e.Message? || e.handler != F.ToController || |e.header| != Messages.TCP_SIZE then []
    else match Read(e.header, e.payload)
      case Some(Put(name, sender, data)) => [C.RemotePut(Text(name), Text(sender), data)]
      case Some(Invoke(id, fname, data)) => [C.RemoteInvoke(Text(fname), Text(id), data, SourceOf(e.peer))]
      case Some(Result(id, code, data)) => [C.RemoteResult(Text(id), code, data)]
      case _ => []
  }

  function Externals(events: seq<F.Event>): seq<C.Event> {
    if events == [] then [] else ExternalOf(events[0]) + Externals(events[1..])
  }

  /** What a frame of a peer means to the controller. */
  function Meant(peer: F.Peer, f: Frame): seq<C.Event> {
    match f
    case Put(name, sender, data) => [C.RemotePut(Text(name), Text(sender), data)]
    case Invoke(id, fname, data) => [C.RemoteInvoke(Text(fname), Text(id), data, SourceOf(peer))]
    case Result(id, code, data) => [C.RemoteResult(Text(id), code, data)]
    case _ => []
  }

  function MeantAll(peer: F.Peer, fs: seq<Frame>): seq<C.Event> {
    if fs == [] then [] else Meant(peer, fs[0]) + MeantAll(peer, fs[1..])
  }

  lemma FrameMeans(c: F.Conn, f: Frame)
    requires Writable(f) && c.side.AtProcess? && c.peer.Some?
    ensures ExternalOf(Arrival(c, f)) == Meant(c.peer.value, f)
  {
    ReadInvertsWrite(f);
    ReadMeans(Arrival(c, f), f);
  }

  lemma ReadMeans(e: F.Event, f: Frame)
    requires e.Message? && |e.header| == Messages.TCP_SIZE && Read(e.header, e.payload) == Some(f)
    requires e.handler == F.ToController <==> f.Put? || f.Invoke? || f.Result?
    ensures ExternalOf(e) == Meant(e.peer, f)
  {
  }

  lemma {:induction false} FramesMean(c: F.Conn, fs: seq<Frame>)
    requires PL.AllWritable(fs) && c.side.AtProcess? && c.peer.Some?
    ensures Externals(Arrivals(c, fs)) == MeantAll(c.peer.value, fs)
    decreases |fs|
  {
    if fs != [] {
      FrameMeans(c, fs[0]);
      FramesMean(c, fs[1..]);
      var events := Arrivals(c, fs);
      assert events[0] == Arrival(c, fs[0]) && events[1..] == Arrivals(c, fs[1..]);
    }
  }

  lemma {:induction false} MeantMore(peer: F.Peer, a: seq<Frame>, b: seq<Frame>)
    ensures MeantAll(peer, a + b) == MeantAll(peer, a) + MeantAll(peer, b)
    decreases |a|
  {
    if a == [] {
      assert a + b == b;
    } else {
      assert (a + b)[1..] == a[1..] + b;
      MeantMore(peer, a[1..], b);
      Assoc(Meant(peer, a[0]), MeantAll(peer, a[1..]), MeantAll(peer, b));
    }
  }

  /** A confirmation among the frames means nothing to the controller. */
  lemma GreetingMeansNothing(peer: F.Peer, fs: seq<Frame>, i: nat, name: seq<byte>)
    requires i <= |fs|
    ensures MeantAll(peer, fs[..i] + [Hello(name)] + fs[i..]) == MeantAll(peer, fs)
  {
    assert [Hello(name)][1..] == [];
    assert MeantAll(peer, [Hello(name)]) == [];
    MeantMore(peer, fs[..i] + [Hello(name)], fs[i..]);
    MeantMore(peer, fs[..i], [Hello(name)]);
    MeantMore(peer, fs[..i], fs[i..]);
    assert fs[..i] + fs[i..] == fs;
    assert MeantAll(peer, fs[..i]) + [] == MeantAll(peer, fs[..i]);
  }

  // ------------------------------------------------------------------- end to end

  /** What a worker's message or invocation becomes at the other process. */
  function Becomes(self: string, o: C.Output): C.Event
    requires Delivery.GoesOut(o)
  {
    if o.Forward? then C.RemotePut(o.key, self, o.data) else C.RemoteInvoke(o.fname, o.id, o.data, S.Process(self))
  }

  function AllBecome(self: string, other: string, asked: seq<C.Output>): seq<C.Event> {
    if asked == [] then []
    else
      var o := asked[|asked| - 1];
      AllBecome(self, other, asked[..|asked| - 1]) + if Delivery.GoesOut(o) && o.process == other then [Becomes(self, o)] else []
  }

  /** Names that fit their fields, and data an `int32_t` can count. */
  predicate Fits(o: C.Output) {
    match o
    case Forward(_, key, data) => Plainly(key, 32) && |data| < 0x8000_0000
    case Request(_, fname, id, data) => Plainly(fname, 32) && Plainly(id, 16) && |data| < 0x8000_0000
    case _ => true
  }

  ghost predicate AllFit(asked: seq<C.Output>) {
    forall o :: o in asked ==> Fits(o)
  }

  lemma ForwardBecomes(self: string, o: C.Output)
    requires o.Forward? && Fits(o) && Plainly(self, 32)
    ensures Writable(FrameOf(self, o))
    ensures Meant(F.Process(Raw(self)), FrameOf(self, o)) == [Becomes(self, o)]
  {
    TextOfRaw(self, 32);
    TextOfRaw(o.key, 32);
  }

  lemma RequestBecomes(self: string, o: C.Output)
    requires o.Request? && Fits(o) && Plainly(self, 32)
    ensures Writable(FrameOf(self, o))
    ensures Meant(F.Process(Raw(self)), FrameOf(self, o)) == [Becomes(self, o)]
  {
    TextOfRaw(self, 32);
    TextOfRaw(o.fname, 32);
    TextOfRaw(o.id, 16);
    InvokeMeans(Raw(self), Raw(o.id), Raw(o.fname), o.data, self, o.id, o.fname);
  }

  lemma InvokeMeans(
      name: seq<byte>, id: seq<byte>, fname: seq<byte>, data: seq<byte>, self: string, idText: string, fnameText: string)
    requires Text(name) == self && Text(id) == idText && Text(fname) == fnameText
    ensures Meant(F.Process(name), Invoke(id, fname, data)) == [C.RemoteInvoke(fnameText, idText, data, S.Process(self))]
  {
  }

  lemma {:induction false} FramesBecome(self: string, other: string, asked: seq<C.Output>)
    requires AllFit(asked) && Plainly(self, 32)
    ensures PL.AllWritable(FramesTo(self, other, asked))
    ensures MeantAll(F.Process(Raw(self)), FramesTo(self, other, asked)) == AllBecome(self, other, asked)
  {
    if asked != [] {
      var init, o := asked[..|asked| - 1], asked[|asked| - 1];
      assert o in asked && forall x :: x in init ==> x in asked;
      FramesBecome(self, other, init);
      if Delivery.GoesOut(o) && o.process == other {
        if o.Forward? {
          ForwardBecomes(self, o);
        } else {
          RequestBecomes(self, o);
        }
        OneMore(self, FramesTo(self, other, init), FrameOf(self, o));
      } else {
        assert FramesTo(self, other, init) + [] == FramesTo(self, other, init);
        assert AllBecome(self, other, init) + [] == AllBecome(self, other, init);
      }
    }
  }

  lemma OneMore(self: string, fs: seq<Frame>, f: Frame)
    requires PL.AllWritable(fs) && Writable(f)
    ensures PL.AllWritable(fs + [f])
    ensures MeantAll(F.Process(Raw(self)), fs + [f]) == MeantAll(F.Process(Raw(self)), fs) + Meant(F.Process(Raw(self)), f)
  {
    MeantMore(F.Process(Raw(self)), fs, [f]);
    assert [f][1..] == [];
    assert Meant(F.Process(Raw(self)), f) + [] == Meant(F.Process(Raw(self)), f);
  }

  /** The connection of one process to another carries what its controller hands to the server, from
      a time when the server knows the other one; nothing closes, and the other does not connect. */
  ghost predicate Carried(cfg: C.Config, es: seq<C.Event>, other: string, link: seq<PL.Event>) {
    && PL.NeverCloses(link) && PL.NoRegistration(link) && PL.OpensOnce(link) && PL.Opened in link
    && !PL.Run(Raw(cfg.self), link).crashed
    && PL.Taken(link) == FramesTo(cfg.self, other, C.Run(cfg, es).sent)
    && (PL.FirstConfirmed(link).Some? ==> Plain(PL.FirstConfirmed(link).value.1, 32))
  }

  /** The other process has no entry of our name, or one between frames. */
  ghost predicate Awaited(known: map<seq<byte>, F.Entry>, self: string) {
    F.KnownSound(F.AtProcess(known)) && PL.Ready(known, Raw(self))
  }

  /**
   * End to end: over any run of one process's controller, the messages and invocations that its
   * workers give for another process are, once they have come over the connection in any chunks and
   * all are read, exactly what the other's controller is handed, once each, in order, as from this
   * process and with their contents.
   */
  lemma WhatWorkersGiveArrives(
      cfg: C.Config, es: seq<C.Event>, other: string, link: seq<PL.Event>, known: map<seq<byte>, F.Entry>, chunks: seq<seq<byte>>)
    requires Plainly(cfg.self, 32) && AllFit(Delivery.AskedFor(cfg, es))
    requires Carried(cfg, es, other, link) && Awaited(known, cfg.self)
    requires Flatten(chunks) == EncodeAll(PL.Run(Raw(cfg.self), link).wire)
    ensures var d := F.HandleAll(F.Fresh0(F.AtProcess(known), {}), [], chunks);
      Externals(d.events + F.Decode(d.conn, d.rest).events) == AllBecome(cfg.self, other, Delivery.AskedFor(cfg, es))
  {
    var self, asked := Raw(cfg.self), Delivery.AskedFor(cfg, es);
    TextOfRaw(cfg.self, 32);
    Delivery.EverythingIsPassedOn(cfg, es);
    OnlyOutgoing(cfg.self, other, C.Run(cfg, es).sent);
    FramesBecome(cfg.self, other, asked);
    PL.GivenFramesArrive(self, link, known, chunks);
    PL.WrittenIsWritable(link);
    WrittenMeans(self, link, known);
    RegistrationMeansNothing(F.Process(self), Arrivals(PL.AtPeer(known, self), PL.Written(link)));
  }

  lemma RegistrationMeansNothing(peer: F.Peer, events: seq<F.Event>)
    ensures Externals([F.Registered(peer)] + events) == Externals(events)
  {
    assert ([F.Registered(peer)] + events)[1..] == events;
    assert [] + Externals(events) == Externals(events);
  }

  lemma WrittenMeans(self: seq<byte>, link: seq<PL.Event>, known: map<seq<byte>, F.Entry>)
    requires F.KnownSound(F.AtProcess(known)) && PL.Ready(known, self) && PL.AllWritable(PL.Written(link))
    ensures PL.AtPeer(known, self).peer.Some?
    ensures Externals(Arrivals(PL.AtPeer(known, self), PL.Written(link))) == MeantAll(F.Process(self), PL.Taken(link))
  {
    FramesMean(PL.AtPeer(known, self), PL.Written(link));
    match PL.FirstConfirmed(link)
    case None =>
    case Some((i, reply)) => GreetingMeansNothing(F.Process(self), PL.Taken(link), i, reply);
  }
}
