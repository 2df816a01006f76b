/**
 * An application's processes in the control plane: the active and the swapped map, and the
 * statuses that allocation, registration, swapping, closing and deletion give a process.
 */
module PlaneApplication {
  import opened Wrappers
  import opened ProcessStatus

  type Name = string

  /** A process object; its place in the table stands for the shared pointer. `gone` and
      `closes` are history: a failed allocation and the closures seen. */
  datatype Entry = Entry(name: Name, status: Status, connected: bool, located: bool, gone: bool, closes: nat)

  datatype Limits = Limits(memory: real, vcpus: real)

  /** `pending` is the TCP server's table of processes that have not registered, `requested` the
      swap requests sent. `broken` is set by an exception on the TCP server's event loop, where
      nobody catches it, and by undefined behaviour. */
  datatype App = App(
    table: seq<Entry>, active: map<Name, nat>, swapped: map<Name, nat>, pending: map<Name, nat>,
    requested: seq<(nat, string)>, broken: bool)

  const NoProcesses := App([], map[], map[], map[], [], false)

  datatype Event =
    | Add(name: Name, memory: real, vcpus: real)
    | GiveUp(pid: nat)
    | Register(name: Name, sendable: bool)   // whether the names of all waiting invocations fit
    | Swap(name: Name, path: string)
    | Swapped(name: Name)
    | Closure(pid: nat)
    | Delete(name: Name)

  // ---------------------------------------------------------------- the handlers

  predicate Affordable(limits: Limits, memory: real, vcpus: real) {
    0.0 < memory <= limits.memory && 0.0 < vcpus <= limits.vcpus
  }

  /** `add_process`: only the active map is asked whether the name is taken. */
  function Added(limits: Limits, a: App, name: Name, memory: real, vcpus: real): (App, Result<()>) {
    if name == [] || !Affordable(limits, memory, vcpus) then (a, Failure(InvalidConfiguration))
    else if name in a.active then (a, Failure(ObjectExists))
    else
      var pid := |a.table|;
      (a.(table := a.table + [Entry(name, Allocating, false, false, false, 0)],
          active := a.active[name := pid],
          pending := if name in a.pending then a.pending else a.pending[name := pid],
          broken := a.broken || name in a.pending), Success(()))
  }

  /** The allocation callback: erases by the iterator it kept. */
  function Lost(a: App, pid: nat): App
    requires pid < |a.table|
  {
    var e := a.table[pid];
    if e.name !in a.active || a.active[e.name] != pid then a.(broken := true)
    else a.(table := a.table[pid := e.(gone := true)], active := a.active - {e.name})
  }

  /** `handle_connection` and `Process::connect`: the status is set before the invocations that
      wait are sent. */
  function Registered(a: App, name: Name, sendable: bool): App {
    if name !in a.pending || a.pending[name] >= |a.table| then a
    else
      var pid := a.pending[name];
      var e := a.table[pid];
      if e.status != Allocating then a.(pending := a.pending - {name}, broken := true)
      else a.(table := a.table[pid := e.(status := Allocated, connected := true)], pending := a.pending - {name},
              broken := a.broken || !sendable)
  }

  /** What the setter of the swap request accepts. */
  const PATH_LIMIT: nat := 16

  /** `swap_process`: the status is set before the request is built. */
  function SwapStarted(a: App, name: Name, path: string): (App, Result<()>) {
    if name == [] then (a, Failure(InvalidConfiguration))
    else if name !in a.active || a.active[name] >= |a.table| then (a, Failure(ObjectDoesNotExist))
    else
      var pid := a.active[name];
      var e := a.table[pid];
      if e.status != Allocated then (a, Failure(InvalidProcessState))
      else
        var b := a.(table := a.table[pid := e.(status := SwappingOut, located := true)]);
        if !e.connected then (b, Success(()))
        else if |path| > PATH_LIMIT then (b, Failure(InvalidArgument))
        else (b.(requested := b.requested + [(pid, path)]), Success(()))
  }

  /** `swapped_process`: the entry moves, unless the name is taken in the swapped map. */
  function SwapDone(a: App, name: Name): (App, Result<()>) {
    if name !in a.active || a.active[name] >= |a.table| then (a, Failure(ObjectDoesNotExist))
    else
      var pid := a.active[name];
      var e := a.table[pid];
      if e.status != SwappingOut then (a, Failure(InvalidProcessState))
      else (a.(table := a.table[pid := e.(status := SwappedOut)], active := a.active - {name},
               swapped := if name in a.swapped then a.swapped else a.swapped[name := pid]), Success(()))
  }

  /** `closed_process`: an unexpected closure looks the process up by its name. */
  function Ended(a: App, pid: nat): App
    requires pid < |a.table|
  {
    var e := a.table[pid].(closes := a.table[pid].closes + 1);
    if e.status == SwappedOut then a.(table := a.table[pid := e.(status := Closed, connected := false)])
    else
      var b := a.(table := a.table[pid := e.(status := Failed)]);
      if e.name in a.active then b.(active := a.active - {e.name})
      else b.(swapped := a.swapped - {e.name})
  }

  /** `handle_swap`: what `swapped_process` throws ends the event loop. */
  function SwapConfirmed(a: App, name: Name): App {
    var (b, r) := SwapDone(a, name);
    if r.Success? then b else b.(broken := true)
  }

  function Deleted(a: App, name: Name): (App, Result<()>) {
    if name == [] then (a, Failure(InvalidConfiguration))
    else if name !in a.swapped || a.swapped[name] >= |a.table| then (a, Failure(ObjectDoesNotExist))
    else (a.(swapped := a.swapped - {name}, broken := a.broken || !a.table[a.swapped[name]].located), Success(()))
  }

  function Step(limits: Limits, a: App, e: Event): App {
    match e
    case Add(name, memory, vcpus) => Added(limits, a, name, memory, vcpus).0
    case GiveUp(pid) => if pid < |a.table| then Lost(a, pid) else a
    case Register(name, sendable) => Registered(a, name, sendable)
    case Swap(name, path) => SwapStarted(a, name, path).0
    case Swapped(name) => SwapConfirmed(a, name)
    case Closure(pid) => if pid < |a.table| then Ended(a, pid) else a
    case Delete(name) => Deleted(a, name).0
  }

  function Run(limits: Limits, es: seq<Event>): App {
    if es == [] then NoProcesses else Step(limits, Run(limits, es[..|es| - 1]), es[|es| - 1])
  }

  // --------------------------------------------------------- assumptions on a run

  /** Names are new in every table; the backend gives up only on a process that is still being
      allocated, and that one never connects; what waits for a process that registers can be
      sent; a process confirms a swap it was asked for; and each registered process closes once. */
  predicate Expected(a: App, e: Event) {
    match e
    case Add(name, _, _) => name !in a.swapped && name !in a.pending
    case GiveUp(pid) => pid < |a.table| && a.table[pid].status == Allocating && !a.table[pid].gone
    case Register(name, sendable) => name in a.pending && a.pending[name] < |a.table| ==> !a.table[a.pending[name]].gone && sendable
    case Swapped(name) => name in a.active && a.active[name] < |a.table| && a.table[a.active[name]].status == SwappingOut
    case Closure(pid) => pid < |a.table| && a.table[pid].status != Allocating && a.table[pid].closes == 0
    case _ => true
  }

  predicate AllExpected(limits: Limits, es: seq<Event>) {
    es != [] ==> AllExpected(limits, es[..|es| - 1]) && Expected(Run(limits, es[..|es| - 1]), es[|es| - 1])
  }

  // ---------------------------------------------------------------- the invariant

  predicate InActive(s: Status) {
    s == Allocating || s == Allocated || s == SwappingOut
  }

  ghost predicate ActiveSound(a: App) {
    && (forall n :: n in a.active ==> a.active[n] < |a.table| && a.table[a.active[n]].name == n)
    && (forall n :: n in a.active ==> InActive(a.table[a.active[n]].status) && !a.table[a.active[n]].gone)
    && (forall p :: 0 <= p < |a.table| && InActive(a.table[p].status) && !a.table[p].gone ==>
         a.table[p].name in a.active && a.active[a.table[p].name] == p)
  }

  ghost predicate SwappedSound(a: App) {
    && (forall n :: n in a.swapped ==> a.swapped[n] < |a.table| && a.table[a.swapped[n]].name == n)
    && (forall n :: n in a.swapped ==> a.table[a.swapped[n]].status in {SwappedOut, Closed})
    && (forall n :: n in a.swapped ==> n !in a.active)
  }

  ghost predicate PendingSound(a: App) {
    && (forall n :: n in a.pending ==> a.pending[n] < |a.table| && a.table[a.pending[n]].name == n)
    && (forall n :: n in a.pending ==> a.table[a.pending[n]].status == Allocating)
  }

  /** A process has a swap location from the moment it is swapped out, and closes once at the end. */
  predicate EntrySound(e: Entry) {
    && (e.status in {SwappingOut, SwappedOut, Closed} ==> e.located)
    && (e.closes > 0 <==> e.status in {Closed, Failed})
    && (e.gone ==> e.status == Allocating)
    && e.status != SwappingIn
  }

  ghost predicate TableSound(a: App) {
    forall p :: 0 <= p < |a.table| ==> EntrySound(a.table[p])
  }

  ghost predicate LifeSound(a: App) {
    !a.broken && ActiveSound(a) && SwappedSound(a) && PendingSound(a) && TableSound(a)
  }

  /** Changing an entry that stays active, or stays inactive, leaves the active map right. */
  lemma TouchKeepsActive(a: App, pid: nat, e: Entry)
    requires ActiveSound(a) && pid < |a.table| && e.name == a.table[pid].name && e.gone == a.table[pid].gone
    requires InActive(e.status) == InActive(a.table[pid].status)
    ensures ActiveSound(a.(table := a.table[pid := e]))
  {
  }

  /** An entry that is no longer active leaves the active map. */
  lemma LeaveKeepsActive(a: App, pid: nat, e: Entry)
    requires ActiveSound(a) && pid < |a.table| && e.name == a.table[pid].name && (!InActive(e.status) || e.gone)
    requires InActive(a.table[pid].status) && !a.table[pid].gone
    ensures e.name in a.active && ActiveSound(a.(table := a.table[pid := e], active := a.active - {e.name}))
  {
    assert a.active[e.name] == pid;
  }

  /** The other tables stay right if the entry stays where its new status allows it to be. */
  lemma TouchKeepsRest(a: App, pid: nat, e: Entry)
    requires SwappedSound(a) && PendingSound(a) && TableSound(a) && pid < |a.table|
    requires e.name == a.table[pid].name && EntrySound(e)
    requires a.table[pid].status in {SwappedOut, Closed} ==> e.status in {SwappedOut, Closed}
    requires e.name in a.pending && a.pending[e.name] == pid ==> e.status == Allocating
    ensures var b := a.(table := a.table[pid := e]);
      SwappedSound(b) && PendingSound(b) && TableSound(b)
  {
  }

  lemma JoinKeepsActive(a: App, e: Entry)
    requires ActiveSound(a) && e.name !in a.active && InActive(e.status) && !e.gone
    ensures ActiveSound(a.(table := a.table + [e], active := a.active[e.name := |a.table|]))
  {
  }

  lemma JoinKeepsRest(a: App, e: Entry)
    requires SwappedSound(a) && PendingSound(a) && TableSound(a) && EntrySound(e)
    requires e.name !in a.swapped && e.name !in a.pending && e.status == Allocating
    ensures var b := a.(table := a.table + [e], active := a.active[e.name := |a.table|], pending := a.pending[e.name := |a.table|]);
      SwappedSound(b) && PendingSound(b) && TableSound(b)
  {
  }

  lemma AddKeeps(limits: Limits, a: App, name: Name, memory: real, vcpus: real)
    requires LifeSound(a) && name !in a.swapped && name !in a.pending
    ensures LifeSound(Added(limits, a, name, memory, vcpus).0)
  {
    if name !in a.active {
      var e := Entry(name, Allocating, false, false, false, 0);
      JoinKeepsActive(a, e);
      JoinKeepsRest(a, e);
    }
  }

  lemma LostKeeps(a: App, pid: nat)
    requires LifeSound(a) && Expected(a, GiveUp(pid))
    ensures LifeSound(Lost(a, pid))
  {
    var e := a.table[pid].(gone := true);
    LeaveKeepsActive(a, pid, e);
    TouchKeepsRest(a, pid, e);
  }

  lemma RegisterKeeps(a: App, name: Name)
    requires LifeSound(a) && Expected(a, Register(name, true))
    ensures LifeSound(Registered(a, name, true))
  {
    if name in a.pending {
      var pid := a.pending[name];
      var e := a.table[pid].(status := Allocated, connected := true);
      TouchKeepsActive(a, pid, e);
      TouchKeepsRest(a.(pending := a.pending - {name}), pid, e);
    }
  }

  lemma SwapKeeps(a: App, name: Name, path: string)
    requires LifeSound(a)
    ensures LifeSound(SwapStarted(a, name, path).0)
  {
    if name in a.active && a.table[a.active[name]].status == Allocated {
      var pid := a.active[name];
      var e := a.table[pid].(status := SwappingOut, located := true);
      TouchKeepsActive(a, pid, e);
      TouchKeepsRest(a, pid, e);
    }
  }

  lemma SwappedKeeps(a: App, name: Name)
    requires LifeSound(a) && Expected(a, Swapped(name))
    ensures LifeSound(SwapConfirmed(a, name))
  {
    var pid := a.active[name];
    var e := a.table[pid].(status := SwappedOut);
    LeaveKeepsActive(a, pid, e);
    TouchKeepsRest(a, pid, e);
  }

  lemma ClosedKeeps(a: App, pid: nat)
    requires LifeSound(a) && Expected(a, Closure(pid))
    ensures LifeSound(Ended(a, pid))
  {
    assert EntrySound(a.table[pid]);
    if a.table[pid].status == SwappedOut {
      ClosedSwappedKeeps(a, pid);
    } else {
      ClosedActiveKeeps(a, pid);
    }
  }

  lemma ClosedSwappedKeeps(a: App, pid: nat)
    requires LifeSound(a) && pid < |a.table| && a.table[pid].status == SwappedOut
    ensures LifeSound(Ended(a, pid))
  {
    assert EntrySound(a.table[pid]);
    var e := a.table[pid].(closes := a.table[pid].closes + 1, status := Closed, connected := false);
    TouchKeepsActive(a, pid, e);
    TouchKeepsRest(a, pid, e);
  }

  lemma ClosedActiveKeeps(a: App, pid: nat)
    requires LifeSound(a) && pid < |a.table| && a.table[pid].status in {Allocated, SwappingOut}
    ensures LifeSound(Ended(a, pid))
  {
    assert EntrySound(a.table[pid]);
    var e := a.table[pid].(closes := a.table[pid].closes + 1, status := Failed);
    LeaveKeepsActive(a, pid, e);
    TouchKeepsRest(a, pid, e);
  }

  lemma DeletedKeeps(a: App, name: Name)
    requires LifeSound(a)
    ensures LifeSound(Deleted(a, name).0)
  {
  }

  lemma StepKeepsLife(limits: Limits, a: App, e: Event)
    requires LifeSound(a) && Expected(a, e)
    ensures LifeSound(Step(limits, a, e))
  {
    match e
    case Add(name, memory, vcpus) => AddKeeps(limits, a, name, memory, vcpus);
    case GiveUp(pid) => LostKeeps(a, pid);
    case Register(name, sendable) =>
      if sendable {
        RegisterKeeps(a, name);
      }
    case Swap(name, path) => SwapKeeps(a, name, path);
    case Swapped(name) => SwappedKeeps(a, name);
    case Closure(pid) => ClosedKeeps(a, pid);
    case Delete(name) => DeletedKeeps(a, name);
  }

  /**
   * Lifecycle safety: on every run of expected events both maps are keyed by the processes' own
   * names and disjoint, the active one holds exactly the processes that are being allocated,
   * allocated or swapping out, the swapped one only processes with a swap location, and
   * `delete_process` never dereferences a missing location.
   */
  lemma {:induction false} LifecycleIsSafe(limits: Limits, es: seq<Event>)
    requires AllExpected(limits, es)
    ensures LifeSound(Run(limits, es))
  {
    if es != [] {
      LifecycleIsSafe(limits, es[..|es| - 1]);
      StepKeepsLife(limits, Run(limits, es[..|es| - 1]), es[|es| - 1]);
    }
  }

  // ---------------------------------------------------------------- the status order

  function Rank(s: Status): nat {
    match s
    case Allocating => 0
    case Allocated => 1
    case SwappingOut => 2
    case SwappedOut => 3
    case _ => 4
  }

  /** One step along the life of a process, or out of it. */
  predicate Follows(s: Status, t: Status) {
    || t == s
    || (s == Allocating && t == Allocated) || (s == Allocated && t == SwappingOut)
    || (s == SwappingOut && t == SwappedOut) || (s == SwappedOut && t == Closed)
    || ((s == Allocated || s == SwappingOut) && t == Failed)
  }

  /** No process disappears or changes its name, and its status follows the order. */
  ghost predicate Moves(a: App, b: App, pid: nat)
    requires pid < |a.table|
  {
    && |a.table| <= |b.table| && b.table[pid].name == a.table[pid].name
    && Follows(a.table[pid].status, b.table[pid].status)
  }

  lemma AddMoves(limits: Limits, a: App, name: Name, memory: real, vcpus: real, pid: nat)
    requires pid < |a.table|
    ensures Moves(a, Added(limits, a, name, memory, vcpus).0, pid)
  {
  }

  lemma SwapMoves(a: App, name: Name, path: string, pid: nat)
    requires pid < |a.table|
    ensures Moves(a, SwapStarted(a, name, path).0, pid) && Moves(a, SwapConfirmed(a, name), pid)
  {
  }

  lemma ClosureMoves(a: App, closing: nat, pid: nat)
    requires TableSound(a) && Expected(a, Closure(closing)) && pid < |a.table|
    ensures Moves(a, Ended(a, closing), pid)
  {
    assert EntrySound(a.table[closing]);
  }

  /** Every expected step moves every process along that order, and no process disappears. */
  lemma StatusesFollow(limits: Limits, a: App, e: Event, pid: nat)
    requires LifeSound(a) && Expected(a, e) && pid < |a.table|
    ensures Moves(a, Step(limits, a, e), pid)
  {
    match e
    case Add(name, memory, vcpus) => AddMoves(limits, a, name, memory, vcpus, pid);
    case Swap(name, path) => SwapMoves(a, name, path, pid);
    case Swapped(name) => SwapMoves(a, name, "", pid);
    case Closure(closing) => ClosureMoves(a, closing, pid);
    case _ =>
  }

  /** Over a whole run a status never goes back. */
  lemma {:induction false} StatusesNeverGoBack(limits: Limits, es: seq<Event>, n: nat, pid: nat)
    requires AllExpected(limits, es) && n <= |es| && pid < |Run(limits, es[..n]).table|
    ensures pid < |Run(limits, es).table|
    ensures Rank(Run(limits, es[..n]).table[pid].status) <= Rank(Run(limits, es).table[pid].status)
    ensures Run(limits, es[..n]).table[pid].status in {Closed, Failed} ==>
      Run(limits, es).table[pid].status == Run(limits, es[..n]).table[pid].status
  {
    if n == |es| {
      assert es[..n] == es;
    } else {
      var before := es[..|es| - 1];
      assert before[..n] == es[..n];
      StatusesNeverGoBack(limits, before, n, pid);
      LifecycleIsSafe(limits, before);
      StatusesFollow(limits, Run(limits, before), es[|es| - 1], pid);
    }
  }

  // ------------------------------------------------ where the assumptions matter

  /** A new process keeps the maps disjoint exactly when its name is not in the swapped one,
      which `add_process` does not look at. */
  lemma AddKeepsDisjointIff(limits: Limits, a: App, name: Name, memory: real, vcpus: real)
    requires LifeSound(a) && Added(limits, a, name, memory, vcpus).1.Success?
    ensures (forall n :: n in a.swapped ==> n !in Added(limits, a, name, memory, vcpus).0.active) <==> name !in a.swapped
  {
  }

  /** A confirmed swap files the process exactly when its name is free in the swapped map;
      otherwise it is in neither. */
  lemma SwapFilesIff(a: App, name: Name)
    requires ActiveSound(a) && SwapDone(a, name).1.Success?
    ensures var pid, b := a.active[name], SwapDone(a, name).0;
      && name !in b.active
      && (name in b.swapped && b.swapped[name] == pid <==> name !in a.swapped || a.swapped[name] == pid)
  {
  }

  /** A closure message is followed by the end of the connection, and both close the process: a
      swapped process that says goodbye this way fails and can no longer be deleted or found. */
  lemma GoodbyeLosesTheSwap(limits: Limits, a: App, pid: nat)
    requires LifeSound(a) && pid < |a.table| && a.table[pid].status == SwappedOut
    requires a.table[pid].name in a.swapped && a.swapped[a.table[pid].name] == pid
    ensures var name, b := a.table[pid].name, Step(limits, Step(limits, a, Closure(pid)), Closure(pid));
      && b.table[pid].status == Failed
      && name !in b.swapped && name !in b.active
      && Deleted(b, name).1.Failure?
  {
  }

  /** A second closure is harmful exactly when the name is still in one of the maps. */
  lemma SecondClosureHarmlessIff(a: App, pid: nat)
    requires pid < |a.table| && a.table[pid].status in {Closed, Failed}
    ensures Ended(a, pid).active == a.active && Ended(a, pid).swapped == a.swapped <==>
      a.table[pid].name !in a.active && a.table[pid].name !in a.swapped
  {
    var name := a.table[pid].name;
    assert name in a.active ==> name !in (a.active - {name});
    assert name in a.swapped ==> name !in (a.swapped - {name});
  }

  /** A process that registers is in the active map exactly if its allocation has not failed:
      one whose allocation did is still expected by the TCP server, becomes allocated and is
      in no map. */
  lemma LateConnectionIsLostIff(a: App, name: Name, sendable: bool)
    requires LifeSound(a) && name in a.pending
    ensures var pid, b := a.pending[name], Registered(a, name, sendable);
      && b.table[pid].status == Allocated
      && (name in b.swapped ==> b.swapped[name] != pid)
      && (name in b.active && b.active[name] == pid <==> !a.table[pid].gone)
  {
  }

  /** A failed allocation can be undone exactly while the process is still being allocated, once. */
  lemma GiveUpIsSoundIff(a: App, pid: nat)
    requires LifeSound(a) && pid < |a.table|
    ensures LifeSound(Lost(a, pid)) <==> a.table[pid].status == Allocating && !a.table[pid].gone
  {
    if a.table[pid].status == Allocating && !a.table[pid].gone {
      LostKeeps(a, pid);
    } else if !Lost(a, pid).broken {
      assert !EntrySound(Lost(a, pid).table[pid]);
    }
  }

  /** A confirmation that no swap asked for ends the event loop. */
  lemma ConfirmationIsSoundIff(a: App, name: Name)
    requires LifeSound(a)
    ensures LifeSound(SwapConfirmed(a, name)) <==> Expected(a, Swapped(name))
  {
    if Expected(a, Swapped(name)) {
      SwappedKeeps(a, name);
    }
  }

  /** A swap is requested from the process exactly when it is connected and the path fits; with
      a longer one the process is left swapping out although nothing was sent. */
  lemma SwapRequestSentIff(a: App, name: Name, path: string)
    requires LifeSound(a) && name != [] && name in a.active && a.table[a.active[name]].status == Allocated
    ensures var pid, b := a.active[name], SwapStarted(a, name, path).0;
      && b.table[pid].status == SwappingOut
      && (b.requested == a.requested + [(pid, path)] <==> a.table[pid].connected && |path| <= PATH_LIMIT)
  {
    assert |a.requested + [(a.active[name], path)]| == |a.requested| + 1;
  }

  // ------------------------------------------------------- what the calls achieve

  /** Entries under other names are as they were. */
  ghost predicate SameButFor(m: map<Name, nat>, n: map<Name, nat>, name: Name) {
    forall x :: x != name ==> (x in m <==> x in n) && (x in m ==> m[x] == n[x])
  }

  /** A process can be created exactly under a proper name that no process which is being allocated,
      runs or swaps out has, with resources the backend offers. It is then in the active map, and the
      TCP server expects it, unless an earlier process of the name never registered there: that ends
      the server's event loop. */
  lemma CreationSucceedsIff(limits: Limits, a: App, name: Name, memory: real, vcpus: real)
    requires LifeSound(a)
    ensures var (b, r) := Added(limits, a, name, memory, vcpus);
      var affordable := 0.0 < memory <= limits.memory && 0.0 < vcpus <= limits.vcpus;
      && (r.Success? <==> name != "" && affordable && forall p :: 0 <= p < |a.table| && a.table[p].name == name ==>
            a.table[p].gone || a.table[p].status in {SwappedOut, SwappingIn, Closed, Failed})
      && (r.Failure? ==> b == a && r.error == if name == "" || !affordable then InvalidConfiguration else ObjectExists)
      && (r.Success? ==>
            && b.table == a.table + [Entry(name, Allocating, false, false, false, 0)]
            && name in b.active && b.active[name] == |a.table| && SameButFor(b.active, a.active, name)
            && name in b.pending && SameButFor(b.pending, a.pending, name)
            && (b.broken <==> name in a.pending) && (!b.broken ==> b.pending[name] == |a.table|))
  {
    if name in a.active {
      assert a.table[a.active[name]].name == name;
    }
  }

  /** A process whose allocation failed is forgotten by the application but not by the TCP server,
      and creating its name again ends the server's event loop. */
  lemma FailedNameCannotReturn(limits: Limits, a: App, pid: nat, memory: real, vcpus: real)
    requires LifeSound(a) && Expected(a, GiveUp(pid)) && Affordable(limits, memory, vcpus)
    requires a.table[pid].name != "" && a.table[pid].name in a.pending
    ensures var name, b := a.table[pid].name, Step(limits, a, GiveUp(pid));
      && name !in b.active && SameButFor(b.active, a.active, name) && b.swapped == a.swapped
      && (forall q :: 0 <= q < |a.table| && q != pid ==> b.table[q] == a.table[q])
      && Added(limits, b, name, memory, vcpus).1.Success? && Added(limits, b, name, memory, vcpus).0.broken
  {
    assert a.table[pid].name in a.active && a.active[a.table[pid].name] == pid;
  }

  /** A swap succeeds exactly for an allocated process whose path fits if it is connected; without
      the path fitting it is left swapping out, and otherwise nothing changes. */
  lemma SwapSucceedsIff(a: App, name: Name, path: string)
    requires LifeSound(a)
    ensures var (b, r) := SwapStarted(a, name, path);
      var running := name != "" && name in a.active && a.table[a.active[name]].status == Allocated;
      var refusal :=
        if name == "" then InvalidConfiguration else if name in a.active then InvalidProcessState else ObjectDoesNotExist;
      && (r.Success? <==> running && (a.table[a.active[name]].connected ==> |path| <= PATH_LIMIT))
      && (!running ==> b == a && r.error == refusal)
      && (running ==> b.table[a.active[name]].status == SwappingOut && b.active == a.active && b.swapped == a.swapped)
      && (b.requested != a.requested ==> r.Success? && b.requested == a.requested + [(a.active[name], path)])
  {
  }

  /** A swap is confirmed exactly for an active process that swaps out; otherwise nothing changes. */
  lemma ConfirmationSucceedsIff(a: App, name: Name)
    requires LifeSound(a)
    ensures var (b, r) := SwapDone(a, name);
      && (r.Success? <==> name in a.active && a.table[a.active[name]].status == SwappingOut)
      && (r.Failure? ==> b == a && r.error == if name in a.active then InvalidProcessState else ObjectDoesNotExist)
      && (r.Success? ==>
            && b.table[a.active[name]].status == SwappedOut && SameButFor(b.active, a.active, name)
            && name in b.swapped && b.swapped[name] == a.active[name] && SameButFor(b.swapped, a.swapped, name))
  {
  }

  /** A process can be deleted exactly while it is in the swapped map. Then its name is in neither
      map, nothing else changes, and it cannot be deleted again. */
  lemma DeletionSucceedsIff(a: App, name: Name)
    requires LifeSound(a)
    ensures var (b, r) := Deleted(a, name);
      && (r.Success? <==> name != "" && name in a.swapped)
      && (r.Failure? ==> b == a && r.error == if name == "" then InvalidConfiguration else ObjectDoesNotExist)
      && (r.Success? ==>
            && name !in b.swapped && name !in b.active && SameButFor(b.swapped, a.swapped, name)
            && b == a.(swapped := b.swapped)
            && Deleted(b, name) == (b, Failure(ObjectDoesNotExist)))
  {
  }

  /** The swap of a name was confirmed and the name was not deleted since. */
  predicate Kept(es: seq<Event>, name: Name) {
    es != [] && (es[|es| - 1] == Swapped(name) || (es[|es| - 1] != Delete(name) && Kept(es[..|es| - 1], name)))
  }

  lemma StepSwaps(limits: Limits, a: App, e: Event, name: Name)
    requires LifeSound(a) && Expected(a, e) && (name in a.swapped || e == Swapped(name) ==> name != "")
    ensures var b := Step(limits, a, e);
      && (name in b.swapped <==> e == Swapped(name) || (e != Delete(name) && name in a.swapped))
      && (name in a.swapped && name in b.swapped ==> b.swapped[name] == a.swapped[name])
  {
    if e.Closure? {
      assert EntrySound(a.table[e.pid]);
    }
  }

  lemma NamesAreProper(limits: Limits, a: App, e: Event)
    requires LifeSound(a) && Expected(a, e) && forall p :: 0 <= p < |a.table| ==> a.table[p].name != ""
    ensures forall p :: 0 <= p < |Step(limits, a, e).table| ==> Step(limits, a, e).table[p].name != ""
  {
  }

  lemma {:induction false} AllNamesAreProper(limits: Limits, es: seq<Event>)
    requires AllExpected(limits, es)
    ensures forall p :: 0 <= p < |Run(limits, es).table| ==> Run(limits, es).table[p].name != ""
  {
    if es != [] {
      AllNamesAreProper(limits, es[..|es| - 1]);
      LifecycleIsSafe(limits, es[..|es| - 1]);
      NamesAreProper(limits, Run(limits, es[..|es| - 1]), es[|es| - 1]);
    }
  }

  /** Over every expected run the swapped map holds exactly the processes whose swap was confirmed
      and that were not deleted since. */
  lemma {:induction false} SwappedIffKept(limits: Limits, es: seq<Event>, name: Name)
    requires AllExpected(limits, es)
    ensures name in Run(limits, es).swapped <==> Kept(es, name)
  {
    if es != [] {
      var before, e := es[..|es| - 1], es[|es| - 1];
      SwappedIffKept(limits, before, name);
      LifecycleIsSafe(limits, before);
      AllNamesAreProper(limits, before);
      StepSwaps(limits, Run(limits, before), e, name);
    }
  }

  /** A swapped process can be found as itself until its name is deleted. */
  lemma {:induction false} SwappedStays(limits: Limits, es: seq<Event>, n: nat, name: Name)
    requires AllExpected(limits, es) && n <= |es| && name in Run(limits, es[..n]).swapped
    requires forall i :: n <= i < |es| ==> es[i] != Delete(name)
    ensures name in Run(limits, es).swapped && Run(limits, es).swapped[name] == Run(limits, es[..n]).swapped[name]
  {
    if n == |es| {
      assert es[..n] == es;
    } else {
      var before := es[..|es| - 1];
      assert before[..n] == es[..n];
      SwappedStays(limits, before, n, name);
      LifecycleIsSafe(limits, before);
      AllNamesAreProper(limits, before);
      StepSwaps(limits, Run(limits, before), es[|es| - 1], name);
    }
  }

  // ---------------------------------------------------------------- the object

  class Application {
    const limits: Limits
    var table: seq<Entry>
    var active: map<Name, nat>
    var swapped: map<Name, nat>
    var pending: map<Name, nat>
    var requested: seq<(nat, string)>
    var broken: bool

    ghost function State(): App
      reads this
    {
      App(table, active, swapped, pending, requested, broken)
    }

    /** Pointers in the maps point at processes. */
    predicate Valid()
      reads this
    {
      && (forall n :: n in active ==> active[n] < |table|)
      && (forall n :: n in swapped ==> swapped[n] < |table|)
      && (forall n :: n in pending ==> pending[n] < |table|)
    }

    constructor (limits: Limits)
      ensures Valid() && State() == NoProcesses && this.limits == limits
    {
      this.limits := limits;
      table, active, swapped, pending, requested, broken := [], map[], map[], map[], [], false;
    }

    method AddProcess(name: Name, memory: real, vcpus: real) returns (r: Result<()>)
      requires Valid()
      modifies this
      ensures Valid() && (State(), r) == Added(limits, old(State()), name, memory, vcpus)
    {
      if |name| == 0 {
        return Failure(InvalidConfiguration);
      }
      if memory <= 0.0 || memory > limits.memory || vcpus <= 0.0 || vcpus > limits.vcpus {
        return Failure(InvalidConfiguration);
      }
      if name in active {
        return Failure(ObjectExists);
      }
      var pid := |table|;
      table := table + [Entry(name, Allocating, false, false, false, 0)];
      active := active[name := pid];
      if name in pending {
        broken := true;
      } else {
        pending := pending[name := pid];
      }
      return Success(());
    }

    method AllocationFailed(pid: nat)
      requires Valid() && pid < |table|
      modifies this
      ensures Valid() && State() == Lost(old(State()), pid)
    {
      var e := table[pid];
      if e.name !in active || active[e.name] != pid {
        broken := true;
        return;
      }
      table := table[pid := e.(gone := true)];
      active := active - {e.name};
    }

    /** The result of sending the waiting invocations, which `connect` does last, is `sendable`. */
    method HandleConnection(name: Name, sendable: bool)
      requires Valid()
      modifies this
      ensures Valid() && State() == Registered(old(State()), name, sendable)
    {
      if name !in pending {
        return;
      }
      var pid := pending[name];
      pending := pending - {name};
      if table[pid].status != Allocating {
        broken := true;
        return;
      }
      table := table[pid := table[pid].(status := Allocated, connected := true)];
      if !sendable {
        broken := true;
      }
    }

    method SwapProcess(name: Name, path: string) returns (r: Result<()>)
      requires Valid()
      modifies this
      ensures Valid() && (State(), r) == SwapStarted(old(State()), name, path)
    {
      if |name| == 0 {
        return Failure(InvalidConfiguration);
      }
      if name !in active {
        return Failure(ObjectDoesNotExist);
      }
      var pid := active[name];
      if table[pid].status != Allocated {
        return Failure(InvalidProcessState);
      }
      table := table[pid := table[pid].(status := SwappingOut, located := true)];
      if table[pid].connected {
        if |path| > PATH_LIMIT {
          return Failure(InvalidArgument);
        }
        requested := requested + [(pid, path)];
      }
      return Success(());
    }

    method SwappedProcess(name: Name) returns (r: Result<()>)
      requires Valid()
      modifies this
      ensures Valid() && (State(), r) == SwapDone(old(State()), name)
    {
      if name !in active {
        return Failure(ObjectDoesNotExist);
      }
      var pid := active[name];
      if table[pid].status != SwappingOut {
        return Failure(InvalidProcessState);
      }
      active := active - {name};
      table := table[pid := table[pid].(status := SwappedOut)];
      if name !in swapped {
        swapped := swapped[name := pid];
      }
      return Success(());
    }

    method HandleSwap(name: Name)
      requires Valid()
      modifies this
      ensures Valid() && State() == SwapConfirmed(old(State()), name)
    {
      var r := SwappedProcess(name);
      if r.Failure? {
        broken := true;
      }
    }

    method ClosedProcess(pid: nat)
      requires Valid() && pid < |table|
      modifies this
      ensures Valid() && State() == Ended(old(State()), pid)
    {
      var e := table[pid].(closes := table[pid].closes + 1);
      if e.status != SwappedOut {
        table := table[pid := e.(status := Failed)];
        if e.name in active {
          active := active - {e.name};
        } else if e.name in swapped {
          swapped := swapped - {e.name};
        } else {
          assert swapped - {e.name} == swapped;
        }
      } else {
        table := table[pid := e.(status := Closed, connected := false)];
      }
    }

    method DeleteProcess(name: Name) returns (r: Result<()>)
      requires Valid()
      modifies this
      ensures Valid() && (State(), r) == Deleted(old(State()), name)
    {
      if |name| == 0 {
        return Failure(InvalidConfiguration);
      }
      if name !in swapped {
        return Failure(ObjectDoesNotExist);
      }
      broken := broken || !table[swapped[name]].located;
      swapped := swapped - {name};
      return Success(());
    }
  }
}
