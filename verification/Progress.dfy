// Progress of the interleaved server.  A connection with bytes unread or unsent always
// has a worker that can bring its echo nearer, or can come nearer to serving it, and
// the other workers' connections are no obstacle: the echo can always be completed.
module Progress {
  import opened Sockets
  import opened EchoConnection
  import opened Workers
  import opened Ownership
  import opened Conservation
  import opened Preservation
  import opened Serialisation
  import opened EchoServer
  import Echo

  // ---- One step away ----

  // Action a of some worker is the responsive event e of p, and brings its echo nearer.
  ghost predicate Advances(s: State, a: Action, p: Ptr, e: SoloEvent) {
    && Visible(s, p) && Enabled(s, a) && Visible(Step(s, a), p)
    && Echo.Responsive(View(s, p), e) && Follows(View(s, p), Some(e), View(Step(s, a), p))
    && Echo.Measure(View(Step(s, a), p)) < Echo.Measure(View(s, p))
  }

  // p is in service, fits its buffer, and has bytes unread or unsent.
  ghost predicate Waits(s: State, p: Ptr) {
    Visible(s, p) && Echo.InService(View(s, p)) && Echo.Fits(View(s, p).sock) && !Echo.Quiet(View(s, p))
  }

  // The call that serves the connection is one its handler can make.
  lemma HandlingCan(s: State, i: nat, p: Ptr) returns (call: Call)
    requires Inv(s) && Waits(s, p) && i < |s.workers| && s.workers[i].pc.Handling? && s.workers[i].pc.ptr == p
    ensures CanHandle(s, i, call) && Echo.Responsive(View(s, p), Called(call)) && SoloEnabled(View(s, p), Called(call))
  {
    HandlerView(s, i, p);
    var e := Echo.ServiceIsEnabled(View(s, p));
    call := e.call;
    ModReachesEntry(s, i, p);
  }

  lemma HandlingAdvances(s: State, i: nat, p: Ptr) returns (call: Call)
    requires Inv(s) && Waits(s, p) && i < |s.workers| && s.workers[i].pc.Handling? && s.workers[i].pc.ptr == p
    ensures Advances(s, Handle(i, call), p, Called(call))
  {
    call := HandlingCan(s, i, p);
    HandleSimulates(s, i, call, p);
    FollowingServes(View(s, p), Called(call), View(DoHandle(s, i, call), p));
    assert Step(s, Handle(i, call)) == DoHandle(s, i, call);
  }

  lemma FollowingServes(x: Solo, e: SoloEvent, y: Solo)
    requires Echo.InService(x) && Echo.Fits(x.sock) && !Echo.Quiet(x) && Echo.Responsive(x, e) && Follows(x, Some(e), y)
    ensures Echo.Measure(y) < Echo.Measure(x)
  {
    Echo.ServiceStep(x, e);
  }

  lemma ModReachesEntry(s: State, i: nat, p: Ptr)
    requires Inv(s) && i < |s.workers| && s.workers[i].pc.Handling? && s.workers[i].pc.ptr == p
    ensures Registered(s, s.workers[i], p)
  {
    assert WorkerOk(s, s.workers[i]);
  }

  lemma ReportAdvances(s: State, i: nat, fd: Fd)
    requires Inv(s) && fd in s.items && CanReport(s, i, fd) && Waits(s, s.items[fd].ptr)
    ensures Advances(s, Report(i, fd, CALM), s.items[fd].ptr, Delivered)
  {
    var p := s.items[fd].ptr;
    ReportSimulates(s, i, fd, CALM, p);
    FollowingServes(View(s, p), Delivered, View(DoReport(s, i, fd, CALM), p));
  }

  lemma TakeAdvances(s: State, i: nat, p: Ptr)
    requires Inv(s) && Waits(s, p) && CanTake(s, i) && s.workers[i].batch[0] == Event(p, CALM)
    ensures Advances(s, Take(i, EOther), p, Dispatched(CALM, EOther))
  {
    TakeSimulates(s, i, EOther, p);
    FollowingServes(View(s, p), Dispatched(CALM, EOther), View(DoTake(s, i, EOther), p));
  }

  // Worker i is one step away from serving the entry of fd: it handles the connection,
  // has its readiness event at the head, or waits with room while the entry is armed.
  ghost predicate Near(s: State, i: nat, fd: Fd)
    requires i < |s.workers| && fd in s.items
  {
    var w := s.workers[i];
    || (w.pc.Handling? && w.pc.ptr == s.items[fd].ptr)
    || (CanTake(s, i) && w.batch[0] == Event(s.items[fd].ptr, CALM))
    || CanReport(s, i, fd)
  }

  // Actions that invite no trouble: no error bits, no new listener event, no hard read error.
  predicate Gentle(a: Action) {
    !a.ReportListener? && (a.Report? ==> a.flags == CALM) && !(a.Handle? && a.call == Read(ReadFailed))
  }

  lemma NearAdvances(s: State, i: nat, fd: Fd) returns (a: Action, e: SoloEvent)
    requires Inv(s) && i < |s.workers| && fd in s.items && Near(s, i, fd) && Waits(s, s.items[fd].ptr)
    ensures ActorOf(a) == Some(i) && Gentle(a) && Advances(s, a, s.items[fd].ptr, e)
  {
    var p := s.items[fd].ptr;
    if CanReport(s, i, fd) {
      ReportAdvances(s, i, fd);
      a, e := Report(i, fd, CALM), Delivered;
    } else if CanTake(s, i) {
      TakeAdvances(s, i, p);
      a, e := Take(i, EOther), Dispatched(CALM, EOther);
    } else {
      var call := HandlingAdvances(s, i, p);
      a, e := Handle(i, call), Called(call);
    }
  }

  // ---- Further away ----

  function PcDistance(pc: Pc): nat {
    match pc
    case Waiting => 2
    case Looping => 1
    case Accepting => 2
    case Inserting(_) => 4
    case Adding(_, _) => 3
    case Handling(_, Reading(_)) => 5
    case Handling(_, Writing(_)) => 4
    case Handling(_, Rearming(_, _)) => 3
    case Handling(_, _) => 2
    case Removing(_, _) => 4
    case Deleting(_, _) => 3
    case Closing(_, _) => 2
  }

  // How far the worker is from waiting with room, or from the events behind in its batch.
  function Away(w: Worker, armed: bool): nat {
    10 * |w.batch| + if armed && w.pc == Waiting && |w.batch| < MAX_EVENTS then 0 else PcDistance(w.pc)
  }

  // Worker i has the connection of fd, or is one it can be reported to.
  ghost predicate Cares(s: State, i: nat, fd: Fd) {
    && i < |s.workers| && fd in s.items && s.workers[i].epoll == s.items[fd].epoll
    && (s.items[fd].reg.Armed? || !Apart(s.workers[i], s.items[fd].ptr))
  }

  // The action is no event of fd's connection and brings worker i nearer to it.
  ghost predicate Approaches(s: State, a: Action, i: nat, fd: Fd) {
    && Enabled(s, a) && ActorOf(a) == Some(i) && Gentle(a) && Cares(s, i, fd)
    && var p, t := s.items[fd].ptr, Step(s, a);
    && EventOf(s, a, p) == None && p in t.heap && fd in t.items && t.items[fd] == s.items[fd]
    && Cares(t, i, fd) && Away(t.workers[i], s.items[fd].reg.Armed?) < Away(s.workers[i], s.items[fd].reg.Armed?)
  }

  // The worker takes an event of p out of its batch.
  ghost predicate TakesOwn(s: State, a: Action, p: Ptr) {
    a.Take? && CanTake(s, a.w) && s.workers[a.w].batch[0].ptr == p
  }

  // What is known of a worker that cares but is not near.
  ghost predicate Busied(s: State, i: nat, fd: Fd) {
    && Cares(s, i, fd) && !Near(s, i, fd)
    && var p := s.items[fd].ptr;
    && |s.listeners| < p && p in s.heap && s.heap[p].connFd == fd && p < s.nextPtr && fd in s.data && s.data[fd] == p
    && PtrOf(s.workers[i].pc) != p
    && WorkerOk(s, s.workers[i]) && PointersLive(s, s.workers[i])
  }

  lemma WaitsIsBusied(s: State, i: nat, fd: Fd)
    requires Inv(s) && Cares(s, i, fd) && !Near(s, i, fd) && Waits(s, s.items[fd].ptr)
    ensures Busied(s, i, fd)
  {
    var p := s.items[fd].ptr;
    assert WorkerOk(s, s.workers[i]);
    WorkerPointersLive(s, s.workers[i]);
    if Held(s.workers[i].pc) == p {
      Sole(s, i, p);
      SoleView(s, i, p);
    }
  }

  lemma MoveThroughBatch(s: State, i: nat, fd: Fd) returns (a: Action)
    requires Busied(s, i, fd) && s.workers[i].pc in {Waiting, Looping, Accepting}
    ensures Enabled(s, a) && ActorOf(a) == Some(i) && Gentle(a)
            && (TakesOwn(s, a, s.items[fd].ptr) || Approaches(s, a, i, fd))
  {
    var w := s.workers[i];
    match w.pc
    case Waiting => a := Return(i);
    case Looping => a := if w.batch == [] then Wait(i) else Take(i, EOther);
    case Accepting => a := AcceptStops(i);
  }

  lemma MoveThroughAccept(s: State, i: nat, fd: Fd) returns (a: Action)
    requires Busied(s, i, fd) && (s.workers[i].pc.Inserting? || s.workers[i].pc.Adding?)
    ensures Approaches(s, a, i, fd)
  {
    a := if s.workers[i].pc.Inserting? then Insert(i) else Add(i, true);
  }

  lemma MoveThroughRemove(s: State, i: nat, fd: Fd)
    requires Busied(s, i, fd) && s.workers[i].pc.Removing? && DataHeap(s)
    ensures Approaches(s, Remove(i), i, fd)
  {
  }

  lemma MoveThroughClose(s: State, i: nat, fd: Fd) returns (a: Action)
    requires Busied(s, i, fd) && (s.workers[i].pc.Deleting? || s.workers[i].pc.Closing?)
    ensures Approaches(s, a, i, fd)
  {
    a := if s.workers[i].pc.Deleting? then Delete(i) else Close(i);
  }

  // The call with which a handler of another connection gets on.
  function NextCall(obj: Conn, h: HandlerPc): Call {
    match h
    case Reading(_) => Read(if obj.ReadRequest() == 0 then Eof else ReadAgain)
    case Writing(_) => Write(WroteNothing)
    case Rearming(_, _) => Mod(true)
    case _ => Reset
  }

  lemma NextCallIsNearer(obj: Conn, sock: Socket, h: HandlerPc, q: Ptr)
    requires obj.WellFormed() && sock.WellFormed() && h != Done
    ensures CallEnabled(obj, sock, h, NextCall(obj, h))
    ensures var l := Advance(obj, sock, h, NextCall(obj, h));
            PcDistance(if l.pc == Done then Looping else Handling(q, l.pc)) < PcDistance(Handling(q, h))
  {
  }

  lemma MoveThroughHandler(s: State, i: nat, fd: Fd) returns (a: Action)
    requires Busied(s, i, fd) && s.workers[i].pc.Handling? && Visible(s, s.workers[i].pc.ptr)
    requires SoloInv(View(s, s.workers[i].pc.ptr))
    ensures Approaches(s, a, i, fd)
  {
    var q, h := s.workers[i].pc.ptr, s.workers[i].pc.h;
    var call := NextCall(s.heap[q], h);
    NextCallIsNearer(s.heap[q], s.sockets[s.open[s.heap[q].connFd]], h, q);
    a := Handle(i, call);
    HandleFrame(s, i, call);
  }

  // ---- The echo can always be completed ----

  /** The ownership invariant, and the invariant of every connection. */
  ghost predicate Sound(s: State) {
    Inv(s) && forall q :: Visible(s, q) ==> SoloInv(View(s, q))
  }

  lemma StepKeepsSound(s: State, a: Action)
    requires Sound(s) && Enabled(s, a) && Benign(s, a)
    ensures Sound(Step(s, a))
  {
    StepKeepsInv(s, a);
    forall q | Visible(Step(s, a), q) ensures SoloInv(View(Step(s, a), q)) {
      ConnectionStepInv(s, a, q);
    }
  }

  lemma ConnectionStepInv(s: State, a: Action, q: Ptr)
    requires Sound(s) && Enabled(s, a) && Visible(Step(s, a), q)
    ensures SoloInv(View(Step(s, a), q))
  {
    StepKeepsSets(s, a);
    if q in s.heap {
      LiveIsVisible(s, q);
      Simulates(s, a, q);
      FollowsInv(View(s, q), EventOf(s, a, q), View(Step(s, a), q));
    } else {
      StepBirth(s, a, q);
      NewbornInv(View(Step(s, a), q));
    }
  }

  lemma FollowsInv(x: Solo, e: Option<SoloEvent>, y: Solo)
    requires SoloInv(x) && Follows(x, e, y)
    ensures SoloInv(y)
  {
    if e.Some? {
      StepInv(x, e.value);
    }
  }

  lemma Approach(s: State, i: nat, fd: Fd) returns (a: Action)
    requires Sound(s) && Cares(s, i, fd) && !Near(s, i, fd) && Waits(s, s.items[fd].ptr)
    ensures Enabled(s, a) && ActorOf(a) == Some(i) && Gentle(a)
            && (TakesOwn(s, a, s.items[fd].ptr) || Approaches(s, a, i, fd))
  {
    WaitsIsBusied(s, i, fd);
    match s.workers[i].pc
    case Handling(q, _) =>
      HandlerIsVisible(s, i);
      LiveIsVisible(s, q);
      a := MoveThroughHandler(s, i, fd);
    case Removing(_, _) =>
      MoveThroughRemove(s, i, fd);
      a := Remove(i);
    case Deleting(_, _) => a := MoveThroughClose(s, i, fd);
    case Closing(_, _) => a := MoveThroughClose(s, i, fd);
    case Inserting(_) => a := MoveThroughAccept(s, i, fd);
    case Adding(_, _) => a := MoveThroughAccept(s, i, fd);
    case _ => a := MoveThroughBatch(s, i, fd);
  }

  // Every queued event of p is free of error bits.
  ghost predicate Calm(s: State, p: Ptr) {
    forall j, k :: 0 <= j < |s.workers| && 0 <= k < |s.workers[j].batch| && s.workers[j].batch[k].ptr == p ==>
      s.workers[j].batch[k].flags == CALM
  }

  lemma StepKeepsCalm(s: State, a: Action, p: Ptr)
    requires Enabled(s, a) && Gentle(a) && Calm(s, p)
    ensures Calm(Step(s, a), p)
  {
    var t := Step(s, a);
    forall j, k | 0 <= j < |t.workers| && 0 <= k < |t.workers[j].batch| && t.workers[j].batch[k].ptr == p
      ensures t.workers[j].batch[k].flags == CALM
    {
      StepBatch(s, a, j);
    }
  }

  // A batch after a gentle action: kept, without its head, or with one more calm event.
  ghost predicate BatchMoves(before: seq<Event>, after: seq<Event>) {
    || after == before || (before != [] && after == before[1..])
    || (exists p :: after == before + [Event(p, CALM)])
  }

  lemma StepBatch(s: State, a: Action, j: nat)
    requires Enabled(s, a) && Gentle(a) && j < |Step(s, a).workers|
    ensures j < |s.workers| && BatchMoves(s.workers[j].batch, Step(s, a).workers[j].batch)
  {
    if Elsewhere(a) {
      ElsewhereBatch(s, a, j);
    } else if a.Report? {
      assert j == a.w ==> Step(s, a).workers[j].batch == s.workers[j].batch + [Event(s.items[a.fd].ptr, CALM)];
    } else if !a.Take? {
      ServiceBatch(s, a, j);
    }
  }

  lemma HandleBatch(s: State, w: nat, call: Call, j: nat)
    requires CanHandle(s, w, call) && j < |DoHandle(s, w, call).workers|
    ensures j < |s.workers| && DoHandle(s, w, call).workers[j].batch == s.workers[j].batch
  {
    HandleFrame(s, w, call);
  }

  lemma AddBatch(s: State, w: nat, added: bool, j: nat)
    requires CanAdd(s, w) && j < |DoAdd(s, w, added).workers|
    ensures j < |s.workers| && DoAdd(s, w, added).workers[j].batch == s.workers[j].batch
  {
  }

  lemma ServiceBatch(s: State, a: Action, j: nat)
    requires Enabled(s, a) && (a.Sends? || a.Shuts? || a.Add? || a.Handle?) && j < |Step(s, a).workers|
    ensures j < |s.workers| && Step(s, a).workers[j].batch == s.workers[j].batch
  {
    match a
    case Handle(w, call) => HandleBatch(s, w, call, j);
    case Add(w, added) => AddBatch(s, w, added, j);
    case _ =>
  }

  lemma ElsewhereBatch(s: State, a: Action, j: nat)
    requires Enabled(s, a) && Elsewhere(a) && !a.ReportListener? && j < |Step(s, a).workers|
    ensures j < |s.workers| && Step(s, a).workers[j].batch == s.workers[j].batch
  {
  }

  /** A continuation of the run in which the server gets on and no read fails hard. */
  ghost predicate Leads(s: State, more: seq<Action>, t: State) {
    Runs(s, more) && After(s, more) == t && NoHardReadError(more)
  }

  lemma LeadsBy(s: State, more: seq<Action>, t: State, a: Action)
    requires Leads(s, more, t) && Enabled(t, a) && Gentle(a)
    ensures Leads(s, more + [a], Step(t, a))
  {
    RunsSnoc(s, more, a);
  }

  lemma {:induction false} RunsOn(s: State, acts: seq<Action>, more: seq<Action>)
    requires Runs(s, acts) && Runs(After(s, acts), more)
    ensures Runs(s, acts + more) && After(s, acts + more) == After(After(s, acts), more)
  {
    if more == [] {
      assert acts + more == acts;
    } else {
      var front, a := more[..|more| - 1], more[|more| - 1];
      RunsOn(s, acts, front);
      RunsSnoc(s, acts + front, a);
      assert acts + more == (acts + front) + [a];
    }
  }

  lemma LeadsOn(s: State, more: seq<Action>, t: State, last: seq<Action>, u: State)
    requires Leads(s, more, t) && Leads(t, last, u)
    ensures Leads(s, more + last, u)
  {
    RunsOn(s, more, last);
  }

  // A state from which p is to be served, and what it has received and its view are.
  ghost predicate Served(s: State, p: Ptr, x: Solo) {
    Sound(s) && Visible(s, p) && Calm(s, p) && View(s, p) == x
  }

  lemma EntryOf(s: State, p: Ptr) returns (fd: Fd)
    requires Waits(s, p)
    ensures fd == s.heap[p].connFd && fd in s.items && s.items[fd].ptr == p
  {
    fd := s.heap[p].connFd;
  }

  // Worker i gets on until it is one step from serving the connection, whose view stays.
  lemma Reach(s: State, i: nat, fd: Fd) returns (more: seq<Action>, t: State)
    requires Sound(s) && Cares(s, i, fd) && Waits(s, s.items[fd].ptr) && Calm(s, s.items[fd].ptr)
    ensures Leads(s, more, t) && Served(t, s.items[fd].ptr, View(s, s.items[fd].ptr))
    ensures Cares(t, i, fd) && t.items[fd] == s.items[fd] && Near(t, i, fd)
    decreases Away(s.workers[i], s.items[fd].reg.Armed?)
  {
    if Near(s, i, fd) {
      more, t := [], s;
    } else {
      var p := s.items[fd].ptr;
      var a := Approach(s, i, fd);
      if TakesOwn(s, a, p) {
        CalmIsNear(s, a, i, fd);
      }
      StepKeepsSound(s, a);
      StepKeepsCalm(s, a, p);
      Simulates(s, a, p);
      LeadsBy(s, [], s, a);
      more, t := Reach(Step(s, a), i, fd);
      LeadsOn(s, [] + [a], Step(s, a), more, t);
      more := [] + [a] + more;
    }
  }

  lemma CalmIsNear(s: State, a: Action, i: nat, fd: Fd)
    requires Cares(s, i, fd) && Calm(s, s.items[fd].ptr) && TakesOwn(s, a, s.items[fd].ptr) && ActorOf(a) == Some(i)
    ensures Near(s, i, fd)
  {
  }

  // A worker that has the connection, or one it can be reported to: at once, if there is one.
  lemma Caretaker(s: State, fd: Fd) returns (i: nat)
    requires Inv(s) && fd in s.items && Waits(s, s.items[fd].ptr)
    ensures Cares(s, i, fd)
    ensures (exists j :: CanReport(s, j, fd)) ==> CanReport(s, i, fd)
  {
    HasOneToken(s, fd);
    if s.items[fd].reg.Armed? {
      i := s.items[fd].epoll;
      if j :| CanReport(s, j, fd) {
        i := j;
      }
    } else {
      i := ClaimWitness(s.workers, s.items[fd].ptr);
      HolderShares(s, i, fd);
    }
  }

  lemma AdvancesServes(s: State, a: Action, p: Ptr, e: SoloEvent)
    requires Waits(s, p) && Advances(s, a, p, e)
    ensures var y := View(Step(s, a), p);
            && y.sock.received == View(s, p).sock.received && Echo.InService(y) && Echo.Fits(y.sock)
            && (Echo.Quiet(y) || Waits(Step(s, a), p)) && 0 <= Echo.Measure(y) < Echo.Measure(View(s, p))
  {
    Echo.ServiceStep(View(s, p), e);
  }

  // The connection p of t has everything echoed that it had received in s.
  ghost predicate Completed(s: State, t: State, p: Ptr)
    requires Visible(s, p)
  {
    Visible(t, p) && View(t, p).sock.sent == View(s, p).sock.received
  }

  // Reach a worker's next event of the connection, and take it.
  lemma Serve(s: State, p: Ptr) returns (more: seq<Action>, t: State)
    requires Sound(s) && Waits(s, p) && Calm(s, p)
    ensures Leads(s, more, t) && Sound(t) && Calm(t, p) && Visible(t, p)
    ensures Echo.InService(View(t, p)) && Echo.Fits(View(t, p).sock) && (Echo.Quiet(View(t, p)) || Waits(t, p))
    ensures View(t, p).sock.received == View(s, p).sock.received
    ensures 0 <= Echo.Measure(View(t, p)) < Echo.Measure(View(s, p))
  {
    var fd := EntryOf(s, p);
    var i := Caretaker(s, fd);
    var a, e;
    more, t := Reach(s, i, fd);
    a, e := NearAdvances(t, i, fd);
    AdvancesServes(t, a, p, e);
    StepKeepsSound(t, a);
    StepKeepsCalm(t, a, p);
    LeadsBy(s, more, t, a);
    more, t := more + [a], Step(t, a);
  }

  lemma Complete(s: State, p: Ptr) returns (more: seq<Action>, t: State)
    requires Sound(s) && Waits(s, p) && Calm(s, p)
    ensures Leads(s, more, t) && Completed(s, t, p)
    decreases Echo.Measure(View(s, p))
  {
    more, t := Serve(s, p);
    if Echo.Quiet(View(t, p)) {
      Echo.QuietIsEchoed(View(t, p));
    } else {
      var last, u := Complete(t, p);
      LeadsOn(s, more, t, last, u);
      more, t := more + last, u;
    }
  }

  // ---- On runs ----

  lemma RunKeepsSound(c: Config, acts: seq<Action>)
    requires c.Valid() && Runs(Initial(c), acts) && Allowed(c, acts)
    ensures Sound(After(Initial(c), acts)) && After(Initial(c), acts).listeners == c.listeners
  {
    RunKeepsInv(c, acts);
    var s := After(Initial(c), acts);
    forall q | Visible(s, q) ensures SoloInv(View(s, q)) {
      ConnectionInv(c, acts, q);
    }
  }

  /** A connection in service with bytes unread or unsent always has a worker of its
      epoll set that can move: the one that holds it, or, while it is armed, one it can
      be reported to.  When that worker is one step away from serving it, the step is a
      responsive event of the connection that brings its echo nearer.  Otherwise the step
      takes the connection's own event, or leaves its view alone and brings the worker
      nearer. */
  lemma {:induction false} ServerProgress(c: Config, acts: seq<Action>, fd: Fd) returns (i: nat, a: Action)
    requires c.Valid() && Runs(Initial(c), acts) && Allowed(c, acts)
    requires var s := After(Initial(c), acts); fd in s.items && Waits(s, s.items[fd].ptr)
    ensures var s := After(Initial(c), acts);
            var p := s.items[fd].ptr;
            && Enabled(s, a) && ActorOf(a) == Some(i) && Cares(s, i, fd)
            && ((exists j :: CanReport(s, j, fd)) ==> Near(s, i, fd))
            && if Near(s, i, fd) then exists e :: Advances(s, a, p, e)
               else || TakesOwn(s, a, p)
                    || (Approaches(s, a, i, fd) && Visible(Step(s, a), p) && View(Step(s, a), p) == View(s, p))
  {
    RunKeepsSound(c, acts);
    var s := After(Initial(c), acts);
    i := Caretaker(s, fd);
    if Near(s, i, fd) {
      var e;
      a, e := NearAdvances(s, i, fd);
    } else {
      a := Approach(s, i, fd);
      if !TakesOwn(s, a, s.items[fd].ptr) {
        Simulates(s, a, s.items[fd].ptr);
      }
    }
  }

  /** Whatever the workers have done so far, and whatever other connections they are busy
      with: the server can go on to echo everything a connection in service has sent, as
      long as no error event of it is queued. */
  lemma {:induction false} ServerCompletes(c: Config, acts: seq<Action>, p: Ptr) returns (more: seq<Action>)
    requires c.Valid() && Runs(Initial(c), acts) && Allowed(c, acts)
    requires Waits(After(Initial(c), acts), p) && Calm(After(Initial(c), acts), p)
    ensures Runs(Initial(c), acts + more) && Allowed(c, acts + more) && NoHardReadError(more)
    ensures Completed(After(Initial(c), acts), After(Initial(c), acts + more), p)
  {
    RunKeepsSound(c, acts);
    var t;
    more, t := Complete(After(Initial(c), acts), p);
    RunsOn(Initial(c), acts, more);
  }

  // ---- A queued error event is the only obstacle ----

  // Bytes are left unsent, and p is closed, about to be closed, parked, or its queued
  // event has error bits.
  ghost predicate Doomed(s: State, p: Ptr, sent: seq<byte>) {
    && |s.listeners| < p < s.nextPtr
    && (p in s.heap ==>
          && Visible(s, p) && View(s, p).sock.sent == sent
          && match View(s, p).work
             case Ending => true
             case Free => View(s, p).parked.Some?
             case Queued => !Calm(s, p)
             case _ => false)
  }

  lemma WaitingIsDoomed(s: State, p: Ptr)
    requires Inv(s) && Waits(s, p) && !Calm(s, p)
    ensures Doomed(s, p, View(s, p).sock.sent)
  {
    var j, k :| 0 <= j < |s.workers| && 0 <= k < |s.workers[j].batch| && s.workers[j].batch[k].ptr == p
                && s.workers[j].batch[k].flags != CALM;
    OccursMember(s.workers[j].batch, k);
    Sole(s, j, p);
    SoleView(s, j, p);
  }

  // An event with error bits stays in its batch until it is taken.
  lemma StepKeepsFlaw(s: State, a: Action, p: Ptr)
    requires Enabled(s, a) && Visible(s, p) && !Calm(s, p) && !TakesOwn(s, a, p)
    ensures !Calm(Step(s, a), p)
  {
    var j, k :| 0 <= j < |s.workers| && 0 <= k < |s.workers[j].batch| && s.workers[j].batch[k].ptr == p
                && s.workers[j].batch[k].flags != CALM;
    StepKeepsEvent(s, a, j, k);
  }

  lemma StepKeepsEvent(s: State, a: Action, j: nat, k: nat)
    requires Enabled(s, a) && j < |s.workers| && k < |s.workers[j].batch| && !TakesOwn(s, a, s.workers[j].batch[k].ptr)
    ensures j < |Step(s, a).workers|
    ensures s.workers[j].batch[k] in Step(s, a).workers[j].batch
  {
    if a.Take? && j == a.w {
      assert Step(s, a).workers[j].batch[k - 1] == s.workers[j].batch[k];
    } else if a.Sends? || a.Shuts? || a.Add? || a.Handle? {
      ServiceBatch(s, a, j);
    } else if !a.Take? {
      QueueKeepsEvent(s, a, j, k);
    }
  }

  lemma QueueKeepsEvent(s: State, a: Action, j: nat, k: nat)
    requires Enabled(s, a) && (a.Report? || Elsewhere(a)) && j < |s.workers| && k < |s.workers[j].batch|
    ensures j < |Step(s, a).workers| && k < |Step(s, a).workers[j].batch|
    ensures Step(s, a).workers[j].batch[k] == s.workers[j].batch[k]
  {
    if !a.Report? && !a.ReportListener? {
      StepKeepsSets(s, a);
      ElsewhereBatch(s, a, j);
    }
  }

  // The event a worker takes is the only one of p, so it is the one with error bits.
  lemma TakenIsFlawed(s: State, a: Action, p: Ptr)
    requires Inv(s) && |s.listeners| < p && !Calm(s, p) && TakesOwn(s, a, p)
    ensures s.workers[a.w].batch[0].flags != CALM
  {
    var j, k :| 0 <= j < |s.workers| && 0 <= k < |s.workers[j].batch| && s.workers[j].batch[k].ptr == p
                && s.workers[j].batch[k].flags != CALM;
    OccursMember(s.workers[a.w].batch, 0);
    Sole(s, a.w, p);
    assert j == a.w;
    if k > 0 {
      OccursMember(s.workers[j].batch[1..], k - 1);
    }
  }

  lemma StepKeepsDoomed(s: State, a: Action, p: Ptr, sent: seq<byte>)
    requires Sound(s) && Enabled(s, a) && Doomed(s, p, sent)
    ensures Doomed(Step(s, a), p, sent)
  {
    NextPtrGrows(s, a);
    StepKeepsSets(s, a);
    if p in Step(s, a).heap {
      if p !in s.heap {
        Births(s, a, p);
      }
      Simulates(s, a, p);
      if TakesOwn(s, a, p) {
        DoomedIsTaken(s, a, p, sent);
      } else {
        DoomedStays(s, a, p, sent);
      }
    }
  }

  lemma DoomedIsTaken(s: State, a: Action, p: Ptr, sent: seq<byte>)
    requires Inv(s) && Enabled(s, a) && Doomed(s, p, sent) && p in s.heap && TakesOwn(s, a, p)
    requires Visible(Step(s, a), p) && Follows(View(s, p), EventOf(s, a, p), View(Step(s, a), p))
    ensures View(Step(s, a), p).sock.sent == sent
    ensures View(Step(s, a), p).work == Ending || (View(Step(s, a), p).work == Free && View(Step(s, a), p).parked.Some?)
  {
    TakenIsFlawed(s, a, p);
  }

  lemma DoomedStays(s: State, a: Action, p: Ptr, sent: seq<byte>)
    requires Enabled(s, a) && Doomed(s, p, sent) && p in s.heap && !TakesOwn(s, a, p) && SoloInv(View(s, p))
    requires Visible(Step(s, a), p) && Follows(View(s, p), EventOf(s, a, p), View(Step(s, a), p))
    ensures var y := View(Step(s, a), p);
            && y.sock.sent == sent && y.work == View(s, p).work && (y.work == Free ==> y.parked.Some?)
            && (y.work == Queued ==> !Calm(Step(s, a), p))
  {
    OnlyTheClientMoves(View(s, p), EventOf(s, a, p), View(Step(s, a), p));
    if View(s, p).work == Queued {
      StepKeepsFlaw(s, a, p);
    }
  }

  lemma OnlyTheClientMoves(x: Solo, e: Option<SoloEvent>, y: Solo)
    requires SoloInv(x) && Follows(x, e, y) && !(e.Some? && e.value.Dispatched?)
    requires x.work == Ending || x.work == Queued || (x.work == Free && x.parked.Some?)
    ensures y.sock.sent == x.sock.sent && y.work == x.work && y.parked == x.parked
  {
  }

  lemma {:induction false} DoomedForEver(c: Config, acts: seq<Action>, more: seq<Action>, p: Ptr, sent: seq<byte>)
    requires c.Valid() && Runs(Initial(c), acts) && Runs(Initial(c), acts + more) && Allowed(c, acts + more)
    requires Doomed(After(Initial(c), acts), p, sent)
    ensures Doomed(After(Initial(c), acts + more), p, sent)
  {
    if more == [] {
      assert acts + more == acts;
    } else {
      var rest := more[..|more| - 1];
      assert (acts + more)[..|acts + more| - 1] == acts + rest;
      AllowedPrefix(c, acts + more);
      DoomedForEver(c, acts, rest, p, sent);
      RunKeepsSound(c, acts + rest);
      StepKeepsDoomed(After(Initial(c), acts + rest), (acts + more)[|acts + more| - 1], p, sent);
    }
  }

  ghost predicate CompletesOn(c: Config, acts: seq<Action>, more: seq<Action>, p: Ptr)
    requires c.Valid() && Runs(Initial(c), acts) && Visible(After(Initial(c), acts), p)
  {
    Runs(Initial(c), acts + more) && Allowed(c, acts + more)
    && Completed(After(Initial(c), acts), After(Initial(c), acts + more), p)
  }

  lemma UnsentWhileWaiting(x: Solo)
    requires Echo.InService(x) && !Echo.Quiet(x)
    ensures x.sock.sent != x.sock.received
  {
    Echo.InvFaithful(x);
  }

  /** The exact obstacle: a connection in service that fits can have its echo completed by
      some continuation of the run if and only if no event of it with error bits is queued. */
  lemma {:induction false} ServerCompletesExactlyWhenCalm(c: Config, acts: seq<Action>, p: Ptr)
    requires c.Valid() && Runs(Initial(c), acts) && Allowed(c, acts) && Waits(After(Initial(c), acts), p)
    ensures (exists more :: CompletesOn(c, acts, more, p)) <==> Calm(After(Initial(c), acts), p)
  {
    var s := After(Initial(c), acts);
    if Calm(s, p) {
      var more := ServerCompletes(c, acts, p);
      assert CompletesOn(c, acts, more, p);
    } else if more :| CompletesOn(c, acts, more, p) {
      RunKeepsSound(c, acts);
      WaitingIsDoomed(s, p);
      DoomedForEver(c, acts, more, p, View(s, p).sock.sent);
      UnsentWhileWaiting(View(s, p));
    }
  }
}
