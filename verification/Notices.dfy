/**
 * The frames that are a header only, from the wire to what they change: swap confirmations,
 * closures and metrics at the control plane, application updates at a process.
 */
module Notices {
  import opened Wrappers
  import opened Bytes
  import opened Strings
  import opened ProcessStatus
  import Messages
  import F = Framing
  import opened Frames
  import App = PlaneApplication
  import Plane = PlaneProcess
  import View = ApplicationView

  // ------------------------------------------------------- at the control plane

  /** What a handler of the control plane calls: the application, the process's ledger, or its metrics. */
  datatype Call = ToApp(event: App.Event) | ToLedger(result: Plane.Event) | ToMetrics(report: Given)

  datatype Given = Given(count: int, time: int, last: int)

  /** The process behind the connection: its name and its place in the application's table. */
  datatype Speaker = Speaker(name: App.Name, pid: nat)

  /** `handle_invocation_result`, `handle_swap`, `handle_closure` and `handle_data_metrics`. */
  function CallOf(s: Speaker, e: F.Event): seq<Call> {
    if !e.Message? || |e.header| != Messages.TCP_SIZE then []
    else match e.handler
      case Finish =>
        [ToLedger(Plane.Result(Messages.Get(e.header, RESULT_ID).text, Messages.Get(e.header, RETURN_CODE).num, e.payload))]
      case Swapped => [ToApp(App.Swapped(s.name))]
      case Closing => [ToApp(App.Closure(s.pid))]
      case Metrics =>
        var r := ReadReport(e.header);
        [ToMetrics(Given(r.count, r.time, r.last))]
      case _ => []
  }

  function CallsOf(s: Speaker, events: seq<F.Event>): seq<Call> {
    if events == [] then [] else CallOf(s, events[0]) + CallsOf(s, events[1..])
  }

  /** What the process means by a frame. */
  function Meant(s: Speaker, f: Frame): seq<Call> {
    match f
    case Result(id, code, payload) => [ToLedger(Plane.Result(id, code, payload))]
    case SwapConfirmed(_) => [ToApp(App.Swapped(s.name))]
    case Goodbye => [ToApp(App.Closure(s.pid))]
    case Report(count, time, last) => [ToMetrics(Given(count, time, last))]
    case _ => []
  }

  function MeantAll(s: Speaker, fs: seq<Frame>): seq<Call> {
    if fs == [] then [] else Meant(s, fs[0]) + MeantAll(s, fs[1..])
  }

  lemma ResultMeans(s: Speaker, c: F.Conn, f: Frame)
    requires f.Result? && Writable(f) && c.side.AtControlPlane? && c.peer.Some?
    ensures CallOf(s, Arrival(c, f)) == Meant(s, f)
  {
    ResultFieldsRead(f.id, f.code, |f.payload|);
  }

  lemma ReportMeans(s: Speaker, c: F.Conn, f: Frame)
    requires f.Report? && Writable(f) && c.side.AtControlPlane? && c.peer.Some?
    ensures CallOf(s, Arrival(c, f)) == Meant(s, f)
  {
    ReportFieldsRead(f.count, f.time, f.last);
  }

  lemma FrameMeans(s: Speaker, c: F.Conn, f: Frame)
    requires Writable(f) && Hears(c, f) && c.side.AtControlPlane?
    ensures CallOf(s, Arrival(c, f)) == Meant(s, f)
  {
    match f
    case Result(_, _, _) => ResultMeans(s, c, f);
    case Report(_, _, _) => ReportMeans(s, c, f);
    case _ =>
  }

  lemma {:induction false} FramesMean(s: Speaker, c: F.Conn, fs: seq<Frame>)
    requires AllHeard(c, fs) && c.side.AtControlPlane? && c.peer.Some?
    ensures CallsOf(s, Arrivals(c, fs)) == MeantAll(s, fs)
    decreases |fs|
  {
    if fs != [] {
      FrameMeans(s, c, fs[0]);
      FramesMean(s, c, fs[1..]);
      var events := Arrivals(c, fs);
      assert events[0] == Arrival(c, fs[0]) && events[1..] == Arrivals(c, fs[1..]);
    }
  }

  /**
   * However the network cuts the stream of a registered process, each result is handed to the
   * ledger, each swap confirmation to `swapped_process`, each closure to `closed_process` and each
   * report to the metrics: in the order in which the process sent them, and with its values.
   */
  lemma FramesReachTheirHandlers(s: Speaker, c: F.Conn, fs: seq<Frame>, chunks: seq<seq<byte>>)
    requires Listening(c) && c.side.AtControlPlane? && AllHeard(c, fs)
    requires Flatten(chunks) == EncodeAll(fs)
    ensures CallsOf(s, F.FeedAll(c, [], chunks).events) == MeantAll(s, fs)
  {
    DecodesWhatWasWritten(c, fs);
    F.FeedingIsDecoding(c, [], chunks);
    assert [] + Flatten(chunks) == EncodeAll(fs);
    FramesMean(s, c, fs);
  }

  // --------------------------------------------------- what they do to the application

  function AppAfter(limits: App.Limits, a: App.App, calls: seq<Call>): App.App
    decreases |calls|
  {
    if calls == [] then a
    else AppAfter(limits, if calls[0].ToApp? then App.Step(limits, a, calls[0].event) else a, calls[1..])
  }

  /** The application after a process's stream. */
  function Heard(limits: App.Limits, a: App.App, s: Speaker, c: F.Conn, chunks: seq<seq<byte>>): App.App
    requires c.Valid()
  {
    AppAfter(limits, a, CallsOf(s, F.FeedAll(c, [], chunks).events))
  }

  /** The process is in the active map and has been asked to swap. */
  ghost predicate Swapping(a: App.App, s: Speaker) {
    && App.LifeSound(a) && s.pid < |a.table|
    && a.table[s.pid].name == s.name && a.table[s.pid].status == SwappingOut
  }

  /** A process that confirms its swap and then says goodbye is closed and can be found among the
      swapped ones; its name is no longer active. (The end of its connection is a closure of its
      own: see `GoodbyeLosesTheSwap`.) */
  lemma ConfirmedThenGoodbye(limits: App.Limits, a: App.App, s: Speaker, c: F.Conn, size: int32, chunks: seq<seq<byte>>)
    requires Swapping(a, s) && Listening(c) && c.side.AtControlPlane?
    requires Flatten(chunks) == EncodeAll([SwapConfirmed(size), Goodbye])
    ensures var b := Heard(limits, a, s, c, chunks);
      && !b.broken && s.pid < |b.table| && b.table[s.pid].status == Closed
      && s.name !in b.active && s.name in b.swapped && b.swapped[s.name] == s.pid
  {
    var fs := [SwapConfirmed(size), Goodbye];
    FramesReachTheirHandlers(s, c, fs, chunks);
    MeantTwo(s, SwapConfirmed(size), Goodbye);
    TwoCalls(limits, a, App.Swapped(s.name), App.Closure(s.pid));
    SwapCloses(limits, a, s);
  }

  lemma MeantOne(s: Speaker, f: Frame)
    ensures MeantAll(s, [f]) == Meant(s, f)
  {
    assert [f][1..] == [];
    assert Meant(s, f) + [] == Meant(s, f);
  }

  lemma MeantTwo(s: Speaker, f: Frame, g: Frame)
    ensures MeantAll(s, [f, g]) == Meant(s, f) + Meant(s, g)
  {
    assert [f, g][1..] == [g];
    MeantOne(s, g);
  }

  lemma OneCall(limits: App.Limits, a: App.App, e: App.Event)
    ensures AppAfter(limits, a, [ToApp(e)]) == App.Step(limits, a, e)
  {
    assert [ToApp(e)][1..] == [];
  }

  lemma TwoCalls(limits: App.Limits, a: App.App, e: App.Event, e': App.Event)
    ensures AppAfter(limits, a, [ToApp(e), ToApp(e')]) == App.Step(limits, App.Step(limits, a, e), e')
  {
    assert [ToApp(e), ToApp(e')][1..] == [ToApp(e')];
    OneCall(limits, App.Step(limits, a, e), e');
  }

  lemma SwapCloses(limits: App.Limits, a: App.App, s: Speaker)
    requires Swapping(a, s)
    ensures var b := App.Step(limits, App.Step(limits, a, App.Swapped(s.name)), App.Closure(s.pid));
      && !b.broken && s.pid < |b.table| && b.table[s.pid].status == Closed
      && s.name !in b.active && s.name in b.swapped && b.swapped[s.name] == s.pid
  {
    assert s.name in a.active && a.active[s.name] == s.pid;
  }

  /** One that says goodbye without the confirmation has failed, and is in neither map. */
  lemma GoodbyeAlone(limits: App.Limits, a: App.App, s: Speaker, c: F.Conn, chunks: seq<seq<byte>>)
    requires Swapping(a, s) && Listening(c) && c.side.AtControlPlane?
    requires Flatten(chunks) == EncodeAll([Goodbye])
    ensures var b := Heard(limits, a, s, c, chunks);
      && s.pid < |b.table| && b.table[s.pid].status == Failed
      && s.name !in b.active && s.name !in b.swapped
  {
    FramesReachTheirHandlers(s, c, [Goodbye], chunks);
    MeantOne(s, Goodbye);
    OneCall(limits, a, App.Closure(s.pid));
    ClosureFails(limits, a, s);
  }

  lemma ClosureFails(limits: App.Limits, a: App.App, s: Speaker)
    requires Swapping(a, s)
    ensures var b := App.Step(limits, a, App.Closure(s.pid));
      && s.pid < |b.table| && b.table[s.pid].status == Failed
      && s.name !in b.active && s.name !in b.swapped
  {
    assert s.name in a.active && a.active[s.name] == s.pid;
  }

  // ------------------------------------------------------------------- metrics

  datatype Metrics = Metrics(given: Given, reported: int)

  /** `update_metrics`, at the time the clock shows. */
  function Updated(m: Metrics, g: Given, now: int): Metrics {
    if now >= m.reported then Metrics(g, now) else m
  }

  /** The metrics after reports, each with the clock's reading. */
  function UpdatedAll(m: Metrics, rs: seq<(Given, int)>): Metrics {
    if rs == [] then m else Updated(UpdatedAll(m, rs[..|rs| - 1]), rs[|rs| - 1].0, rs[|rs| - 1].1)
  }

  /** The report with the latest reading, the last one of them if there are several. */
  ghost predicate Latest(m: Metrics, rs: seq<(Given, int)>, i: nat) {
    && i < |rs| && rs[i].1 >= m.reported
    && (forall j :: 0 <= j < i ==> rs[j].1 <= rs[i].1)
    && (forall j :: i < j < |rs| ==> rs[j].1 < rs[i].1)
  }

  /** Whatever the clock does, the metrics kept are those of the report it showed the latest time
      for, or the old ones if it never came back to their time. */
  lemma {:induction false} MetricsAreTheLatest(m: Metrics, rs: seq<(Given, int)>, i: nat)
    ensures Latest(m, rs, i) ==> UpdatedAll(m, rs) == Metrics(rs[i].0, rs[i].1)
    ensures (forall j :: 0 <= j < |rs| ==> rs[j].1 < m.reported) ==> UpdatedAll(m, rs) == m
    decreases |rs|
  {
    if rs != [] {
      var before := rs[..|rs| - 1];
      MetricsAreTheLatest(m, before, i);
      if Latest(m, rs, i) && i == |rs| - 1 {
        ReadingsBound(m, before, rs[i].1);
      }
    }
  }

  lemma {:induction false} ReadingsBound(m: Metrics, rs: seq<(Given, int)>, now: int)
    requires m.reported <= now && forall j :: 0 <= j < |rs| ==> rs[j].1 <= now
    ensures UpdatedAll(m, rs).reported <= now
  {
    if rs != [] {
      ReadingsBound(m, rs[..|rs| - 1], now);
    }
  }

  class ProcessMetrics {
    var count: int
    var time: int
    var last: int
    var reported: int

    ghost function State(): Metrics
      reads this
    {
      Metrics(Given(count, time, last), reported)
    }

    constructor ()
      ensures State() == Metrics(Given(0, 0, 0), 0)
    {
      count, time, last, reported := 0, 0, 0, 0;
    }

    method Update(time: int, count: int, last: int, now: int)
      modifies this
      ensures State() == Updated(old(State()), Given(count, time, last), now)
    {
      if now >= reported {
        this.time := time;
        this.count := count;
        this.last := last;
        reported := now;
      }
    }
  }

  // -------------------------------------------------------------- at a process

  /** Where a process passes the frames of a registered peer. */
  function HandlerAtProcess(f: Frame): F.Handler {
    match f
    case Hello(_) => F.Confirmation
    case Put(_, _, _) => F.ToController
    case Invoke(_, _, _) => F.ToController
    case Result(_, _, _) => F.ToController
    case Announce(_, _, _, _) => F.UpdateView
    case SwapConfirmed(_) => F.Unsupported
    case Goodbye => F.Unsupported
    case Report(_, _, _) => F.Unsupported
  }

  lemma {:induction false} FramesArePassed(c: F.Conn, fs: seq<Frame>, i: nat)
    requires c.side.AtProcess? && c.peer.Some? && i < |fs|
    ensures |Arrivals(c, fs)| == |fs|
    ensures Arrivals(c, fs)[i] == F.Message(c.peer.value, HandlerAtProcess(fs[i]), Header(fs[i]), Payload(fs[i]))
    decreases |fs|
  {
    if i > 0 {
      FramesArePassed(c, fs[1..], i - 1);
    } else if |fs| > 1 {
      FramesArePassed(c, fs[1..], 0);
    }
  }

  /** A put or a result is passed on exactly if it comes from a process: from a peer without an id it
      ends the decoder. Every other frame is passed on. */
  lemma OnlyProcessesPut(c: F.Conn, f: Frame)
    requires Listening(c) && c.side.AtProcess? && Writable(f)
    ensures var d := F.Decode(c, Encode(f));
      if (f.Put? || f.Result?) && !c.peer.value.Process? then d.events == [] && d.conn.failed
      else d.events == [F.Message(c.peer.value, HandlerAtProcess(f), Header(f), Payload(f))] && !d.conn.failed
  {
    assert Encode(f) + [] == Encode(f);
    if (f.Put? || f.Result?) && !c.peer.value.Process? {
      AnnouncesItsPayload(c.side, f);
      NamelessFails(c, TypeNo(f), Header(f), Payload(f));
    } else {
      var c' := DecodesOne(c, f, []);
      assert F.Next(c', []).Stuck?;
      FramesArePassed(c, [f], 0);
    }
  }

  lemma NamelessFails(c: F.Conn, t: int, header: seq<byte>, payload: seq<byte>)
    requires Listening(c) && c.side.AtProcess? && !c.peer.value.Process?
    requires t == Messages.INVOCATION_RESULT || t == Messages.PUT_MESSAGE
    requires |header| == Messages.TCP_SIZE && Messages.Parse(Messages.Tcp, header) == Success(t)
    requires F.Announced(c.side, t, header) == Some(|payload|)
    ensures F.Decode(c, header + payload).events == [] && F.Decode(c, header + payload).conn.failed
  {
    var bytes := header + payload;
    assert bytes[..Messages.TCP_SIZE] == header && bytes[Messages.TCP_SIZE..] == payload;
    F.StartsFrame(c, bytes, t, |payload|);
    var d := if payload == [] then c.(msg := header) else c.(waiting := |payload|, msg := header);
    assert payload[..|payload|] == payload && payload[|payload|..] == [];
    assert F.Decode(d.(failed := true), []) == F.Decoded([], d.(failed := true), []);
  }

  /** `_handle_app_update`: what the controller and, through it, every worker is told. */
  function ChangeOf(e: F.Event): seq<View.Change> {
    if e.Message? && e.handler == F.UpdateView && |e.header| == Messages.TCP_SIZE then
      var u := ReadAnnounce(e.header);
      [View.Change(u.status, u.name)]
    else []
  }

  function ChangesOf(events: seq<F.Event>): seq<View.Change> {
    if events == [] then [] else ChangeOf(events[0]) + ChangesOf(events[1..])
  }

  /** The changes that frames announce. */
  function Changed(fs: seq<Frame>): seq<View.Change> {
    if fs == [] then []
    else (if fs[0].Announce? then [View.Change(fs[0].status, fs[0].name)] else []) + Changed(fs[1..])
  }

  lemma AnnounceChanges(c: F.Conn, f: Frame)
    requires c.side.AtProcess? && c.peer.Some? && Writable(f)
    ensures ChangeOf(Arrival(c, f)) == if f.Announce? then [View.Change(f.status, f.name)] else []
  {
    FramesArePassed(c, [f], 0);
    if f.Announce? {
      AnnounceFieldsRead(f.name, f.address, f.status, f.port);
      HeaderChanges(c.peer.value, AnnounceHeader(f.name, f.address, f.status, f.port), f);
    } else {
      OthersChangeNothing(Arrival(c, f));
    }
  }

  lemma HeaderChanges(peer: F.Peer, header: seq<byte>, f: Frame)
    requires |header| == Messages.TCP_SIZE && f.Announce? && ReadAnnounce(header) == f
    ensures ChangeOf(F.Message(peer, F.UpdateView, header, [])) == [View.Change(f.status, f.name)]
  {
  }

  lemma OthersChangeNothing(e: F.Event)
    requires e.Message? && e.handler != F.UpdateView
    ensures ChangeOf(e) == []
  {
  }

  lemma {:induction false} AnnouncesChange(c: F.Conn, fs: seq<Frame>)
    requires AllHeard(c, fs) && c.side.AtProcess? && c.peer.Some?
    ensures ChangesOf(Arrivals(c, fs)) == Changed(fs)
    decreases |fs|
  {
    if fs != [] {
      AnnounceChanges(c, fs[0]);
      AnnouncesChange(c, fs[1..]);
      var events := Arrivals(c, fs);
      assert events[0] == Arrival(c, fs[0]) && events[1..] == Arrivals(c, fs[1..]);
    }
  }

  /** Whatever else comes between them and however the stream is cut, a process applies exactly the
      updates announced to it, in their order, once its unread bytes are read. */
  lemma AnnouncementsArrive(c: F.Conn, fs: seq<Frame>, chunks: seq<seq<byte>>, v: View.View)
    requires Listening(c) && c.side.AtProcess? && AllHeard(c, fs)
    requires Flatten(chunks) == EncodeAll(fs)
    ensures var d := F.HandleAll(c, [], chunks);
      View.ApplyAll(v, ChangesOf(d.events + F.Decode(d.conn, d.rest).events)) == View.ApplyAll(v, Changed(fs))
  {
    FramesReachTheProcess(c, fs, chunks);
    AnnouncesChange(c, fs);
  }
}
