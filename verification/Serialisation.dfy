// The interleaved machine, looked at through one connection, is the sequential
// automaton: each action of any worker is one of its events, or leaves it alone.
module Serialisation {
  import opened Sockets
  import opened EchoConnection
  import opened Workers
  import opened Ownership
  import opened Conservation
  import opened Preservation

  // ---- The view of one connection ----

  function WorkerWork(w: Worker, p: Ptr): Work {
    if w.pc.Adding? && w.pc.ptr == p then Starting
    else if w.pc.Handling? && w.pc.ptr == p then Busy(w.pc.h)
    else if w.pc.Removing? && w.pc.ptr == p then Ending
    else if Occurs(w.batch, p) > 0 then Queued
    else Free
  }

  // What the workers are doing with p, taking the last one that does anything.
  function WorkOf(ws: seq<Worker>, p: Ptr): Work {
    if ws == [] then Free
    else if WorkerWork(ws[|ws| - 1], p) != Free then WorkerWork(ws[|ws| - 1], p)
    else WorkOf(ws[..|ws| - 1], p)
  }

  lemma WorkOfFree(ws: seq<Worker>, p: Ptr)
    requires forall j :: 0 <= j < |ws| ==> WorkerWork(ws[j], p) == Free
    ensures WorkOf(ws, p) == Free
  {
  }

  lemma WorkOfSole(ws: seq<Worker>, i: nat, p: Ptr)
    requires i < |ws| && forall j :: 0 <= j < |ws| && j != i ==> WorkerWork(ws[j], p) == Free
    ensures WorkOf(ws, p) == WorkerWork(ws[i], p)
  {
    if i == |ws| - 1 {
      WorkOfFree(ws[..i], p);
    } else {
      WorkOfSole(ws[..|ws| - 1], i, p);
    }
  }

  lemma WorkOfSame(ws: seq<Worker>, i: nat, w: Worker, p: Ptr)
    requires i < |ws| && WorkerWork(w, p) == WorkerWork(ws[i], p)
    ensures WorkOf(ws[i := w], p) == WorkOf(ws, p)
  {
    var n := |ws| - 1;
    if i == n {
      assert ws[i := w][..n] == ws[..n];
    } else {
      assert ws[i := w][..n] == ws[..n][i := w];
      WorkOfSame(ws[..n], i, w, p);
    }
  }

  function RegOf(s: State, fd: Fd, p: Ptr): Registration {
    if fd in s.items && s.items[fd].ptr == p then s.items[fd].reg else Unregistered
  }

  ghost predicate Visible(s: State, p: Ptr) {
    |s.listeners| < p && p in s.heap && s.heap[p].connFd in s.open && s.open[s.heap[p].connFd] in s.sockets
  }

  ghost function View(s: State, p: Ptr): Solo
    requires Visible(s, p)
  {
    var fd := s.heap[p].connFd;
    Solo(s.heap[p], s.sockets[s.open[fd]], RegOf(s, fd, p), WorkOf(s.workers, p), ParkedAt(s, p))
  }

  lemma LiveIsVisible(s: State, p: Ptr)
    requires Maps(s) && |s.listeners| < p && p in s.heap
    ensures Visible(s, p) && s.data[s.heap[p].connFd] == p && s.heap[p].connFd !in s.listeners
  {
    assert s.data[s.heap[p].connFd] == p;
    assert forall k :: 0 <= k < |s.listeners| ==> s.listeners[k] != s.heap[p].connFd;
  }

  // ---- Projection of an action ----

  // The event of p that action a is, if it is one: it must concern p's socket, p's
  // entry, or the pointer a worker takes or works on.
  ghost function EventOf(s: State, a: Action, p: Ptr): Option<SoloEvent>
    requires Enabled(s, a)
  {
    if !Visible(s, p) then None
    else match a
         case Sends(k, bytes) => if s.open[s.heap[p].connFd] == k then Some(ClientSends(bytes)) else None
         case Shuts(k) => if s.open[s.heap[p].connFd] == k then Some(ClientShuts) else None
         case Report(_, fd, _) => if s.items[fd].ptr == p then Some(Delivered) else None
         case Take(w, stale) =>
           if s.workers[w].batch[0].ptr == p then Some(Dispatched(s.workers[w].batch[0].flags, stale)) else None
         case Add(w, added) => if s.workers[w].pc.ptr == p then Some(Registers(added)) else None
         case Handle(w, call) => if s.workers[w].pc.ptr == p then Some(Called(call)) else None
         case _ => None
  }

  function Listed(e: Option<SoloEvent>): seq<SoloEvent> {
    if e.Some? then [e.value] else []
  }

  /** The events of p on a run, in order. */
  ghost function Projection(s: State, acts: seq<Action>, p: Ptr): seq<SoloEvent>
    requires Runs(s, acts)
  {
    if acts == [] then []
    else
      var before := acts[..|acts| - 1];
      Projection(s, before, p) + Listed(EventOf(After(s, before), acts[|acts| - 1], p))
  }

  // y is the view after the projected event of x.
  ghost predicate Follows(x: Solo, e: Option<SoloEvent>, y: Solo) {
    match e
    case None => y == x
    case Some(ev) => SoloEnabled(x, ev) && y == SoloApply(x, ev)
  }

  lemma ApartIsFree(w: Worker, p: Ptr)
    requires Apart(w, p)
    ensures WorkerWork(w, p) == Free
  {
    if Occurs(w.batch, p) > 0 {
      var k := OccursWitness(w.batch, p);
    }
  }

  lemma SoleView(s: State, i: nat, p: Ptr)
    requires i < |s.workers| && forall j :: 0 <= j < |s.workers| && j != i ==> Apart(s.workers[j], p)
    ensures WorkOf(s.workers, p) == WorkerWork(s.workers[i], p)
  {
    forall j | 0 <= j < |s.workers| && j != i ensures WorkerWork(s.workers[j], p) == Free {
      ApartIsFree(s.workers[j], p);
    }
    WorkOfSole(s.workers, i, p);
  }

  // Nobody but worker w has anything to do with p.
  ghost predicate Alone(s: State, w: nat, p: Ptr) {
    w < |s.workers| && forall j :: 0 <= j < |s.workers| && j != w ==> Apart(s.workers[j], p)
  }

  lemma SoleViewAfter(s: State, s': State, w: nat, p: Ptr)
    requires Alone(s, w, p) && |s'.workers| == |s.workers| && s'.workers == s.workers[w := s'.workers[w]]
    ensures WorkOf(s.workers, p) == WorkerWork(s.workers[w], p)
    ensures WorkOf(s'.workers, p) == WorkerWork(s'.workers[w], p)
  {
    SoleView(s, w, p);
    SoleView(s', w, p);
  }

  lemma ReportOwn(s: State, w: nat, fd: Fd, flags: Flags, p: Ptr)
    requires CanReport(s, w, fd) && Visible(s, p) && s.heap[p].connFd == fd && s.items[fd].ptr == p
    requires Alone(s, w, p) && Occurs(s.workers[w].batch, p) == 0
    ensures var s' := DoReport(s, w, fd, flags);
            Visible(s', p) && Follows(View(s, p), Some(Delivered), View(s', p))
  {
    OccursAppend(s.workers[w].batch, Event(p, flags), p);
    SoleViewAfter(s, DoReport(s, w, fd, flags), w, p);
  }

  lemma ReportOther(s: State, w: nat, fd: Fd, flags: Flags, p: Ptr)
    requires CanReport(s, w, fd) && Visible(s, p) && s.items[fd].ptr != p
    ensures Visible(DoReport(s, w, fd, flags), p) && View(DoReport(s, w, fd, flags), p) == View(s, p)
  {
    OccursAppend(s.workers[w].batch, Event(s.items[fd].ptr, flags), p);
    WorkOfSame(s.workers, w, DoReport(s, w, fd, flags).workers[w], p);
  }

  lemma ReportSimulates(s: State, w: nat, fd: Fd, flags: Flags, p: Ptr)
    requires Inv(s) && CanReport(s, w, fd) && Visible(s, p)
    ensures var s' := DoReport(s, w, fd, flags);
            Visible(s', p) && Follows(View(s, p), if s.items[fd].ptr == p then Some(Delivered) else None, View(s', p))
  {
    if s.items[fd].ptr == p {
      ArmedApart(s, w, fd);
      ReportOwn(s, w, fd, flags, p);
    } else {
      ReportOther(s, w, fd, flags, p);
    }
  }

  lemma TakeOwn(s: State, w: nat, stale: Errno, p: Ptr)
    requires CanTake(s, w) && Visible(s, p) && s.workers[w].batch[0].ptr == p
    requires s.heap[p].connFd != s.workers[w].listener
    requires Alone(s, w, p) && Occurs(s.workers[w].batch, p) == 1
    ensures var s', e := DoTake(s, w, stale), Dispatched(s.workers[w].batch[0].flags, stale);
            Visible(s', p) && Follows(View(s, p), Some(e), View(s', p))
  {
    SoleViewAfter(s, DoTake(s, w, stale), w, p);
  }

  lemma TakeOther(s: State, w: nat, stale: Errno, p: Ptr)
    requires CanTake(s, w) && Visible(s, p) && s.workers[w].batch[0].ptr != p
    ensures Visible(DoTake(s, w, stale), p) && View(DoTake(s, w, stale), p) == View(s, p)
  {
    WorkOfSame(s.workers, w, DoTake(s, w, stale).workers[w], p);
  }

  lemma TakeSimulates(s: State, w: nat, stale: Errno, p: Ptr)
    requires Inv(s) && CanTake(s, w) && Visible(s, p)
    ensures var s', e := DoTake(s, w, stale), s.workers[w].batch[0];
            && Visible(s', p)
            && Follows(View(s, p), if e.ptr == p then Some(Dispatched(e.flags, stale)) else None, View(s', p))
  {
    if s.workers[w].batch[0].ptr == p {
      TakenKind(s, w);
      Sole(s, w, p);
      TakeOwn(s, w, stale, p);
    } else {
      TakeOther(s, w, stale, p);
    }
  }

  lemma AddOwn(s: State, w: nat, added: bool, p: Ptr)
    requires CanAdd(s, w) && Visible(s, p) && s.workers[w].pc.ptr == p && s.workers[w].pc.fd == s.heap[p].connFd
    requires s.workers[w].pc.fd !in s.items
    requires Alone(s, w, p) && Occurs(s.workers[w].batch, p) == 0
    ensures Visible(DoAdd(s, w, added), p) && Follows(View(s, p), Some(Registers(added)), View(DoAdd(s, w, added), p))
  {
    SoleViewAfter(s, DoAdd(s, w, added), w, p);
  }

  lemma AddOther(s: State, w: nat, added: bool, p: Ptr)
    requires CanAdd(s, w) && Visible(s, p) && s.workers[w].pc.ptr != p && s.workers[w].pc.fd !in s.items
    ensures Visible(DoAdd(s, w, added), p) && View(DoAdd(s, w, added), p) == View(s, p)
  {
    WorkOfSame(s.workers, w, DoAdd(s, w, added).workers[w], p);
  }

  lemma AddSimulates(s: State, w: nat, added: bool, p: Ptr)
    requires Inv(s) && CanAdd(s, w) && Visible(s, p)
    ensures var s', q := DoAdd(s, w, added), s.workers[w].pc.ptr;
            Visible(s', p) && Follows(View(s, p), if q == p then Some(Registers(added)) else None, View(s', p))
  {
    assert WorkerOk(s, s.workers[w]);
    if s.workers[w].pc.ptr == p {
      Sole(s, w, p);
      AddOwn(s, w, added, p);
    } else {
      AddOther(s, w, added, p);
    }
  }

  lemma HandleOwn(s: State, w: nat, call: Call, p: Ptr)
    requires CanHandle(s, w, call) && Visible(s, p) && s.workers[w].pc.ptr == p && s.workers[w].pc.h != Done
    requires Registered(s, s.workers[w], p) && s.items[s.heap[p].connFd].reg != Unregistered
    requires Alone(s, w, p) && Occurs(s.workers[w].batch, p) == 0
    ensures Visible(DoHandle(s, w, call), p) && Follows(View(s, p), Some(Called(call)), View(DoHandle(s, w, call), p))
  {
    HandleFrame(s, w, call);
    HandleOutcome(s, w, call);
    SoleViewAfter(s, DoHandle(s, w, call), w, p);
  }

  lemma HandleOther(s: State, w: nat, call: Call, p: Ptr)
    requires CanHandle(s, w, call) && Visible(s, p) && s.workers[w].pc.ptr != p
    requires Registered(s, s.workers[w], s.workers[w].pc.ptr)
    requires s.open[s.heap[s.workers[w].pc.ptr].connFd] != s.open[s.heap[p].connFd]
    ensures Visible(DoHandle(s, w, call), p) && View(DoHandle(s, w, call), p) == View(s, p)
  {
    HandleFrame(s, w, call);
    WorkOfSame(s.workers, w, DoHandle(s, w, call).workers[w], p);
  }

  lemma HandleSimulates(s: State, w: nat, call: Call, p: Ptr)
    requires Inv(s) && CanHandle(s, w, call) && Visible(s, p)
    ensures var s', q := DoHandle(s, w, call), s.workers[w].pc.ptr;
            Visible(s', p) && Follows(View(s, p), if q == p then Some(Called(call)) else None, View(s', p))
  {
    HandlerAlone(s, w, call);
    if s.workers[w].pc.ptr == p {
      HandleOwn(s, w, call, p);
    } else {
      HandleOther(s, w, call, p);
    }
  }

  lemma InsertSimulates(s: State, w: nat, p: Ptr)
    requires CanInsert(s, w) && Visible(s, p) && s.nextPtr != p
    ensures Visible(DoInsert(s, w), p) && View(DoInsert(s, w), p) == View(s, p)
  {
    WorkOfSame(s.workers, w, DoInsert(s, w).workers[w], p);
  }

  lemma CloserSimulates(s: State, w: nat, s': State, p: Ptr)
    requires Visible(s, p) && p in s'.heap
    requires (CanRemove(s, w) && s' == DoRemove(s, w)) || (CanDelete(s, w) && s' == DoDelete(s, w))
             || (CanClose(s, w) && s' == DoClose(s, w))
    requires s.workers[w].pc.Removing? ==> s.workers[w].pc.ptr != p
    requires !s.workers[w].pc.Removing? ==> s.heap[p].connFd != s.workers[w].pc.fd
    ensures Visible(s', p) && View(s', p) == View(s, p)
  {
    WorkOfSame(s.workers, w, s'.workers[w], p);
  }

  lemma RemoveSimulates(s: State, w: nat, p: Ptr)
    requires Inv(s) && CanRemove(s, w) && Visible(s, p) && p in DoRemove(s, w).heap
    ensures Visible(DoRemove(s, w), p) && View(DoRemove(s, w), p) == View(s, p)
  {
    RemoverAlone(s, w);
    CloserSimulates(s, w, DoRemove(s, w), p);
  }

  lemma CloseSimulates(s: State, w: nat, s': State, p: Ptr)
    requires Inv(s) && Visible(s, p)
    requires (CanDelete(s, w) && s' == DoDelete(s, w)) || (CanClose(s, w) && s' == DoClose(s, w))
    ensures Visible(s', p) && View(s', p) == View(s, p)
  {
    assert WorkerOk(s, s.workers[w]);
    CloserSimulates(s, w, s', p);
  }

  lemma MoveSimulates(s: State, w: nat, s': State, p: Ptr)
    requires Visible(s, p) && w < |s.workers| && |s'.workers| == |s.workers|
    requires s' == s.(workers := s'.workers, open := s'.open, sockets := s'.sockets, nextSock := s'.nextSock)
    requires s'.workers == s.workers[w := s'.workers[w]] && WorkerWork(s'.workers[w], p) == WorkerWork(s.workers[w], p)
    requires s.heap[p].connFd in s'.open && s'.open[s.heap[p].connFd] == s.open[s.heap[p].connFd]
    requires s.open[s.heap[p].connFd] in s'.sockets
    requires s'.sockets[s.open[s.heap[p].connFd]] == s.sockets[s.open[s.heap[p].connFd]]
    ensures Visible(s', p) && View(s', p) == View(s, p)
  {
    WorkOfSame(s.workers, w, s'.workers[w], p);
  }

  lemma SocketsSimulate(s: State, k: nat, sock: Socket, p: Ptr)
    requires Visible(s, p) && k in s.sockets
    ensures var s' := s.(sockets := s.sockets[k := sock]);
            && Visible(s', p)
            && View(s', p) == if k == s.open[s.heap[p].connFd] then View(s, p).(sock := sock) else View(s, p)
  {
  }

  lemma ListenerReportSimulates(s: State, w: nat, flags: Flags, p: Ptr)
    requires Visible(s, p) && CanReportListener(s, w) && s.data[s.workers[w].listener] != p
    ensures Visible(DoReportListener(s, w, flags), p) && View(DoReportListener(s, w, flags), p) == View(s, p)
  {
    OccursAppend(s.workers[w].batch, Event(s.data[s.workers[w].listener], flags), p);
    MoveSimulates(s, w, DoReportListener(s, w, flags), p);
  }

  lemma ListenerIsNotConnection(s: State, w: nat, p: Ptr)
    requires Inv(s) && w < |s.workers| && |s.listeners| < p
    ensures s.workers[w].listener in s.data && s.data[s.workers[w].listener] != p
  {
    assert WorkerOk(s, s.workers[w]);
  }

  lemma AcceptSimulates(s: State, w: nat, fd: Fd, p: Ptr)
    requires Visible(s, p) && CanAccept(s, w, fd) && s.nextSock !in s.sockets
    ensures Visible(DoAccept(s, w, fd), p) && View(DoAccept(s, w, fd), p) == View(s, p)
  {
    MoveSimulates(s, w, DoAccept(s, w, fd), p);
  }

  lemma GotoSimulates(s: State, w: nat, pc: Pc, p: Ptr)
    requires Visible(s, p) && w < |s.workers| && pc in {Waiting, Looping}
             && s.workers[w].pc in {Waiting, Looping, Accepting}
    ensures Visible(Goto(s, w, pc), p) && View(Goto(s, w, pc), p) == View(s, p)
  {
    MoveSimulates(s, w, Goto(s, w, pc), p);
  }

  lemma OutsideSimulates(s: State, a: Action, p: Ptr)
    requires Enabled(s, a) && Visible(s, p) && (a.Sends? || a.Shuts?)
    ensures Visible(Step(s, a), p) && Follows(View(s, p), EventOf(s, a, p), View(Step(s, a), p))
  {
    match a
    case Sends(j, bytes) => SocketsSimulate(s, j, s.sockets[j].Arrive(bytes), p);
    case Shuts(j) => SocketsSimulate(s, j, s.sockets[j].Shut(), p);
  }

  // Actions that are no event of any connection in service.
  predicate Elsewhere(a: Action) {
    || a.ReportListener? || a.Return? || a.Wait? || a.Accept? || a.AcceptStops?
    || a.Insert? || a.Remove? || a.Delete? || a.Close?
  }

  lemma LoopSimulates(s: State, a: Action, p: Ptr)
    requires Inv(s) && Enabled(s, a) && Visible(s, p)
             && (a.ReportListener? || a.Return? || a.Wait? || a.AcceptStops? || a.Accept?)
    ensures Visible(Step(s, a), p) && View(Step(s, a), p) == View(s, p)
  {
    match a
    case ReportListener(w, flags) =>
      ListenerIsNotConnection(s, w, p);
      ListenerReportSimulates(s, w, flags, p);
    case Return(w) => GotoSimulates(s, w, Looping, p);
    case Wait(w) => GotoSimulates(s, w, Waiting, p);
    case Accept(w, fd) => AcceptSimulates(s, w, fd, p);
    case AcceptStops(w) => GotoSimulates(s, w, Looping, p);
  }

  lemma TableSimulates(s: State, a: Action, p: Ptr)
    requires Inv(s) && Enabled(s, a) && Visible(s, p) && (a.Insert? || a.Remove? || a.Delete? || a.Close?)
    requires a.Remove? ==> p in DoRemove(s, a.w).heap
    ensures Visible(Step(s, a), p) && View(Step(s, a), p) == View(s, p)
  {
    match a
    case Insert(w) => InsertSimulates(s, w, p);
    case Remove(w) => RemoveSimulates(s, w, p);
    case Delete(w) => CloseSimulates(s, w, DoDelete(s, w), p);
    case Close(w) => CloseSimulates(s, w, DoClose(s, w), p);
  }

  lemma ElsewhereSimulates(s: State, a: Action, p: Ptr)
    requires Inv(s) && Enabled(s, a) && Visible(s, p) && p in Step(s, a).heap && Elsewhere(a)
    ensures Visible(Step(s, a), p) && View(Step(s, a), p) == View(s, p)
  {
    if a.Insert? || a.Remove? || a.Delete? || a.Close? {
      TableSimulates(s, a, p);
    } else {
      LoopSimulates(s, a, p);
    }
  }

  /** One action of the machine, seen through a connection that lives on, is its projected
      event, or leaves the view alone. */
  lemma Simulates(s: State, a: Action, p: Ptr)
    requires Inv(s) && Enabled(s, a) && Visible(s, p) && p in Step(s, a).heap
    ensures Visible(Step(s, a), p) && Follows(View(s, p), EventOf(s, a, p), View(Step(s, a), p))
  {
    if Elsewhere(a) {
      ElsewhereSimulates(s, a, p);
    } else if a.Sends? || a.Shuts? {
      OutsideSimulates(s, a, p);
    } else {
      ServiceSimulates(s, a, p);
    }
  }

  lemma ServiceSimulates(s: State, a: Action, p: Ptr)
    requires Inv(s) && Enabled(s, a) && Visible(s, p) && (a.Report? || a.Take? || a.Add? || a.Handle?)
    ensures Visible(Step(s, a), p) && Follows(View(s, p), EventOf(s, a, p), View(Step(s, a), p))
  {
    match a
    case Report(w, fd, flags) => ReportSimulates(s, w, fd, flags, p);
    case Take(w, stale) => TakeSimulates(s, w, stale, p);
    case Add(w, added) => AddSimulates(s, w, added, p);
    case Handle(w, call) => HandleSimulates(s, w, call, p);
  }
}
