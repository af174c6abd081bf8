// The multi-worker server as a state machine.  Any number of workers share the
// ConnectionDataManager; between two system calls or manager operations of one
// worker, any other worker, the kernel and the clients may act.  An action is one
// such call with the answer the kernel gives to it.
module Workers {
  import opened Sockets
  import opened EchoConnection

  type Fd = int
  type Ptr = nat          // addresses of ConnectionData objects, never used twice
  const NULL: Ptr := 0
  const MAX_EVENTS := 100000

  // A one-shot entry of an epoll set; `reg` is Disarmed or Armed.
  datatype Item = Item(epoll: nat, ptr: Ptr, reg: Registration)

  datatype Event = Event(ptr: Ptr, flags: Flags)

  datatype Pc =
    | Waiting                        // in epoll_wait, which is filling events_
    | Looping                        // at the head of the loop over events_
    | Accepting                      // about to call accept4
    | Inserting(fd: Fd)              // about to call data_manager_.insert
    | Adding(fd: Fd, ptr: Ptr)       // about to call EPOLL_CTL_ADD
    | Handling(ptr: Ptr, h: HandlerPc)
    | Removing(ptr: Ptr, fd: Fd)     // about to call data_manager_.remove
    | Deleting(ptr: Ptr, fd: Fd)     // about to call EPOLL_CTL_DEL
    | Closing(ptr: Ptr, fd: Fd)      // about to call close

  datatype Worker = Worker(epoll: nat, listener: Fd, batch: seq<Event>, pc: Pc)

  datatype State = State(
    listeners: seq<Fd>,
    heap: map<Ptr, Conn>,            // the live ConnectionData objects
    data: map<Fd, Ptr>,              // ConnectionDataManager::data_
    open: map<Fd, nat>,              // open connection descriptors and their sockets
    sockets: map<nat, Socket>,       // every connection ever accepted
    items: map<Fd, Item>,
    workers: seq<Worker>,
    nextPtr: Ptr,
    nextSock: nat,
    parked: map<Ptr, ParkReason>)    // history: why a connection was left to nobody

  // Listener k's object is inserted k-th.
  function ListenerPtr(k: nat): Ptr { k + 1 }

  predicate IsListenerPtr(s: State, p: Ptr) { 1 <= p <= |s.listeners| }

  datatype Action =
    | Sends(sock: nat, bytes: seq<byte>)
    | Shuts(sock: nat)
    | ReportListener(w: nat, flags: Flags)
    | Report(w: nat, fd: Fd, flags: Flags)
    | Return(w: nat)
    | Wait(w: nat)
    | Take(w: nat, stale: Errno)
    | Accept(w: nat, fd: Fd)
    | AcceptStops(w: nat)
    | Insert(w: nat)
    | Add(w: nat, added: bool)
    | Handle(w: nat, call: Call)
    | Remove(w: nat)
    | Delete(w: nat)
    | Close(w: nat)

  function Goto(s: State, w: nat, pc: Pc): State
    requires w < |s.workers|
  {
    s.(workers := s.workers[w := s.workers[w].(pc := pc)])
  }

  function Queue(s: State, w: nat, e: Event): State
    requires w < |s.workers|
  {
    s.(workers := s.workers[w := s.workers[w].(batch := s.workers[w].batch + [e])])
  }

  predicate At(s: State, w: nat, pc: Pc) {
    w < |s.workers| && s.workers[w].pc == pc
  }

  // ---- epoll_wait ----

  // The listener is registered level-triggered, so it may be reported at any time.
  predicate CanReportListener(s: State, w: nat) {
    At(s, w, Waiting) && |s.workers[w].batch| < MAX_EVENTS && s.workers[w].listener in s.data
  }

  function DoReportListener(s: State, w: nat, flags: Flags): State
    requires CanReportListener(s, w)
  {
    Queue(s, w, Event(s.data[s.workers[w].listener], flags))
  }

  predicate CanReport(s: State, w: nat, fd: Fd) {
    && At(s, w, Waiting) && |s.workers[w].batch| < MAX_EVENTS
    && fd in s.items && s.items[fd].epoll == s.workers[w].epoll && s.items[fd].reg.Armed?
  }

  // EPOLLONESHOT: reporting an entry disarms it.
  function DoReport(s: State, w: nat, fd: Fd, flags: Flags): State
    requires CanReport(s, w, fd)
  {
    Queue(s, w, Event(s.items[fd].ptr, flags)).(items := s.items[fd := s.items[fd].(reg := Disarmed)])
  }

  // ---- Worker::start on one event ----

  predicate CanTake(s: State, w: nat) {
    At(s, w, Looping) && s.workers[w].batch != [] && s.workers[w].batch[0].ptr in s.heap
  }

  // Dispatch on the object's descriptor, then on the flags.
  function TakePc(obj: Conn, listener: Fd, e: Event, stale: Errno): Pc {
    if obj.connFd == listener then Accepting
    else match RouteOf(e.flags)
         case ToClose => Removing(e.ptr, obj.connFd)
         case ToSkip => Looping
         case ToHandle => Handling(e.ptr, StartPc(obj, stale))
  }

  function DoTake(s: State, w: nat, stale: Errno): State
    requires CanTake(s, w)
  {
    var wk := s.workers[w];
    var e := wk.batch[0];
    var pc := TakePc(s.heap[e.ptr], wk.listener, e, stale);
    s.(workers := s.workers[w := wk.(batch := wk.batch[1..], pc := pc)],
       parked := if pc == Looping then s.parked[e.ptr := Hangup] else s.parked)
  }

  // ---- acceptConnections ----

  predicate CanAccept(s: State, w: nat, fd: Fd) {
    At(s, w, Accepting) && 0 <= fd && fd !in s.open && fd !in s.listeners
  }

  function DoAccept(s: State, w: nat, fd: Fd): State
    requires CanAccept(s, w, fd)
  {
    Goto(s, w, Inserting(fd)).(
      open := s.open[fd := s.nextSock],
      sockets := s.sockets[s.nextSock := NewSocket()],
      nextSock := s.nextSock + 1)
  }

  predicate CanInsert(s: State, w: nat) {
    w < |s.workers| && s.workers[w].pc.Inserting?
  }

  function DoInsert(s: State, w: nat): State
    requires CanInsert(s, w)
  {
    var fd := s.workers[w].pc.fd;
    if fd in s.data then Goto(s, w, Adding(fd, NULL))
    else Goto(s, w, Adding(fd, s.nextPtr)).(
           heap := s.heap[s.nextPtr := NewConn(fd)], data := s.data[fd := s.nextPtr], nextPtr := s.nextPtr + 1)
  }

  predicate CanAdd(s: State, w: nat) {
    w < |s.workers| && s.workers[w].pc.Adding?
  }

  function DoAdd(s: State, w: nat, added: bool): State
    requires CanAdd(s, w)
  {
    var fd, p := s.workers[w].pc.fd, s.workers[w].pc.ptr;
    if added then Goto(s, w, Accepting).(items := s.items[fd := Item(s.workers[w].epoll, p, Armed(In))])
    else Goto(s, w, Looping)
  }

  // ---- handleConnectionEvent ----

  ghost predicate CanHandle(s: State, w: nat, call: Call) {
    && w < |s.workers| && s.workers[w].pc.Handling? && s.workers[w].pc.ptr in s.heap
    && var obj := s.heap[s.workers[w].pc.ptr];
    && obj.connFd in s.open && s.open[obj.connFd] in s.sockets
    && CallEnabled(obj, s.sockets[s.open[obj.connFd]], s.workers[w].pc.h, call)
    && (call == Mod(true) ==> obj.connFd in s.items && s.items[obj.connFd].epoll == s.workers[w].epoll)
  }

  function ParkedAt(s: State, p: Ptr): Option<ParkReason> {
    if p in s.parked then Some(s.parked[p]) else None
  }

  ghost function DoHandle(s: State, w: nat, call: Call): State
    requires CanHandle(s, w, call)
  {
    var p, h := s.workers[w].pc.ptr, s.workers[w].pc.h;
    var fd := s.heap[p].connFd;
    var l := Advance(s.heap[p], s.sockets[s.open[fd]], h, call);
    var parked := ParkedAfter(ParkedAt(s, p), l.pc, call);
    Goto(s, w, if l.pc == Done then Looping else Handling(p, l.pc)).(
      heap := s.heap[p := l.obj],
      sockets := s.sockets[s.open[fd] := l.sock],
      items := if call == Mod(true) then s.items[fd := Item(s.workers[w].epoll, p, Armed(h.interest))] else s.items,
      parked := if parked.Some? then s.parked[p := parked.value] else s.parked)
  }

  // ---- closeConnection ----

  predicate CanRemove(s: State, w: nat) {
    w < |s.workers| && s.workers[w].pc.Removing?
  }

  // Erasing the map's entry destroys the object.
  function DoRemove(s: State, w: nat): State
    requires CanRemove(s, w)
  {
    var p, fd := s.workers[w].pc.ptr, s.workers[w].pc.fd;
    Goto(s, w, Deleting(p, fd)).(
      heap := if fd in s.data then s.heap - {s.data[fd]} else s.heap, data := s.data - {fd})
  }

  predicate CanDelete(s: State, w: nat) {
    w < |s.workers| && s.workers[w].pc.Deleting?
  }

  function DoDelete(s: State, w: nat): State
    requires CanDelete(s, w)
  {
    var p, fd := s.workers[w].pc.ptr, s.workers[w].pc.fd;
    Goto(s, w, Closing(p, fd)).(
      items := if fd in s.items && s.items[fd].epoll == s.workers[w].epoll then s.items - {fd} else s.items)
  }

  predicate CanClose(s: State, w: nat) {
    w < |s.workers| && s.workers[w].pc.Closing?
  }

  // close() also drops what is left of the descriptor in an epoll set.
  function DoClose(s: State, w: nat): State
    requires CanClose(s, w)
  {
    var fd := s.workers[w].pc.fd;
    Goto(s, w, Looping).(open := s.open - {fd}, items := s.items - {fd})
  }

  // ---- One action ----

  ghost predicate Enabled(s: State, a: Action) {
    match a
    case Sends(k, _) => k in s.sockets
    case Shuts(k) => k in s.sockets
    case ReportListener(w, _) => CanReportListener(s, w)
    case Report(w, fd, _) => CanReport(s, w, fd)
    case Return(w) => At(s, w, Waiting) && s.workers[w].batch != []
    case Wait(w) => At(s, w, Looping) && s.workers[w].batch == []
    case Take(w, _) => CanTake(s, w)
    case Accept(w, fd) => CanAccept(s, w, fd)
    case AcceptStops(w) => At(s, w, Accepting)
    case Insert(w) => CanInsert(s, w)
    case Add(w, _) => CanAdd(s, w)
    case Handle(w, call) => CanHandle(s, w, call)
    case Remove(w) => CanRemove(s, w)
    case Delete(w) => CanDelete(s, w)
    case Close(w) => CanClose(s, w)
  }

  ghost function Step(s: State, a: Action): State
    requires Enabled(s, a)
  {
    match a
    case Sends(k, bytes) => s.(sockets := s.sockets[k := s.sockets[k].Arrive(bytes)])
    case Shuts(k) => s.(sockets := s.sockets[k := s.sockets[k].Shut()])
    case ReportListener(w, flags) => DoReportListener(s, w, flags)
    case Report(w, fd, flags) => DoReport(s, w, fd, flags)
    case Return(w) => Goto(s, w, Looping)
    case Wait(w) => Goto(s, w, Waiting)
    case Take(w, stale) => DoTake(s, w, stale)
    case Accept(w, fd) => DoAccept(s, w, fd)
    case AcceptStops(w) => Goto(s, w, Looping)
    case Insert(w) => DoInsert(s, w)
    case Add(w, added) => DoAdd(s, w, added)
    case Handle(w, call) => DoHandle(s, w, call)
    case Remove(w) => DoRemove(s, w)
    case Delete(w) => DoDelete(s, w)
    case Close(w) => DoClose(s, w)
  }

  // ---- Configurations and runs ----

  /** reuse_port_ gives each worker its own listener and its own epoll set; otherwise
      all workers share one listener and one epoll set. */
  datatype Config = Config(reusePort: bool, workerNum: nat, listeners: seq<Fd>) {
    ghost predicate Valid() {
      |listeners| == (if reusePort then workerNum else 1) && Distinct(listeners)
    }

    function EpollOf(i: nat): nat { if reusePort then i else 0 }

    // Does every worker wait on an epoll set of its own?
    predicate Private() { reusePort || workerNum <= 1 }
  }

  // The manager's heap and map after `start` has inserted the listeners in order.
  function ListenerHeap(fds: seq<Fd>): (m: map<Ptr, Conn>)
    ensures forall p :: p in m <==> 1 <= p <= |fds|
    ensures forall p :: p in m ==> m[p] == NewConn(fds[p - 1])
  {
    if fds == [] then map[]
    else ListenerHeap(fds[..|fds| - 1])[ListenerPtr(|fds| - 1) := NewConn(fds[|fds| - 1])]
  }

  predicate Distinct(fds: seq<Fd>) {
    forall i, j :: 0 <= i < j < |fds| ==> fds[i] != fds[j]
  }

  function ListenerData(fds: seq<Fd>): (m: map<Fd, Ptr>)
    requires Distinct(fds)
    ensures forall fd :: fd in m <==> fd in fds
    ensures forall k :: 0 <= k < |fds| ==> fds[k] in m && m[fds[k]] == ListenerPtr(k)
  {
    if fds == [] then map[]
    else ListenerData(fds[..|fds| - 1])[fds[|fds| - 1] := ListenerPtr(|fds| - 1)]
  }

  ghost function Initial(c: Config): State
    requires c.Valid()
  {
    State(c.listeners,
          ListenerHeap(c.listeners), ListenerData(c.listeners),
          map[], map[], map[],
          seq(c.workerNum,
              i requires 0 <= i < c.workerNum => Worker(c.EpollOf(i), c.listeners[c.EpollOf(i)], [], Waiting)),
          |c.listeners| + 1, 0, map[])
  }

  ghost predicate Runs(s: State, acts: seq<Action>)
    decreases |acts|, 0
  {
    acts == [] || (Runs(s, acts[..|acts| - 1]) && Enabled(After(s, acts[..|acts| - 1]), acts[|acts| - 1]))
  }

  ghost function After(s: State, acts: seq<Action>): State
    requires Runs(s, acts)
    decreases |acts|, 1
  {
    if acts == [] then s else Step(After(s, acts[..|acts| - 1]), acts[|acts| - 1])
  }

  lemma RunsSnoc(s: State, acts: seq<Action>, a: Action)
    requires Runs(s, acts) && Enabled(After(s, acts), a)
    ensures Runs(s, acts + [a]) && After(s, acts + [a]) == Step(After(s, acts), a)
  {
    assert (acts + [a])[..|acts|] == acts;
  }

  // No read() of the run fails hard.
  predicate NoHardReadError(acts: seq<Action>) {
    forall a | a in acts :: !(a.Handle? && a.call == Read(ReadFailed))
  }
}
