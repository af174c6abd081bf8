// The one-shot token discipline: an armed registration is the token of its
// connection; reporting the event hands it to one worker, EPOLL_CTL_MOD gives it
// back.  With it go the invariants on the manager's map, the heap and the epoll set.
module Ownership {
  import opened Sockets
  import opened EchoConnection
  import opened Workers

  // ---- Tokens ----

  function Occurs(batch: seq<Event>, p: Ptr): nat {
    if batch == [] then 0 else (if batch[0].ptr == p then 1 else 0) + Occurs(batch[1..], p)
  }

  lemma OccursAppend(batch: seq<Event>, e: Event, p: Ptr)
    ensures Occurs(batch + [e], p) == Occurs(batch, p) + if e.ptr == p then 1 else 0
  {
    if batch == [] {
      assert batch + [e] == [e];
    } else {
      assert (batch + [e])[1..] == batch[1..] + [e];
      OccursAppend(batch[1..], e, p);
    }
  }

  lemma OccursMember(batch: seq<Event>, k: nat)
    requires k < |batch|
    ensures Occurs(batch, batch[k].ptr) > 0
  {
    if k == 0 {
    } else {
      OccursMember(batch[1..], k - 1);
    }
  }

  // The pointer a worker holds between taking its event and releasing it.  A worker
  // about to call reset() after a hard read error has already released it.
  function Held(pc: Pc): Ptr {
    match pc
    case Adding(_, p) => p
    case Handling(p, h) => if h == Resetting then NULL else p
    case Removing(p, _) => p
    case Deleting(p, _) => p
    case Closing(p, _) => p
    case _ => NULL
  }

  function WorkerClaims(w: Worker, p: Ptr): nat {
    Occurs(w.batch, p) + if Held(w.pc) == p then 1 else 0
  }

  function Claims(ws: seq<Worker>, p: Ptr): nat {
    if ws == [] then 0 else Claims(ws[..|ws| - 1], p) + WorkerClaims(ws[|ws| - 1], p)
  }

  lemma ClaimsUpdate(ws: seq<Worker>, i: nat, w: Worker, p: Ptr)
    requires i < |ws|
    ensures Claims(ws[i := w], p) + WorkerClaims(ws[i], p) == Claims(ws, p) + WorkerClaims(w, p)
  {
    var n := |ws| - 1;
    if i == n {
      assert ws[i := w][..n] == ws[..n];
    } else {
      assert ws[i := w][..n] == ws[..n][i := w];
      ClaimsUpdate(ws[..n], i, w, p);
    }
  }

  lemma ClaimsAt(ws: seq<Worker>, i: nat, p: Ptr)
    requires i < |ws|
    ensures WorkerClaims(ws[i], p) <= Claims(ws, p)
  {
    if i < |ws| - 1 {
      ClaimsAt(ws[..|ws| - 1], i, p);
    }
  }

  lemma ClaimsAtTwo(ws: seq<Worker>, i: nat, j: nat, p: Ptr)
    requires i < |ws| && j < |ws| && i != j
    ensures WorkerClaims(ws[i], p) + WorkerClaims(ws[j], p) <= Claims(ws, p)
  {
    var n := |ws| - 1;
    if i == n {
      ClaimsAt(ws[..n], j, p);
    } else if j == n {
      ClaimsAt(ws[..n], i, p);
    } else {
      ClaimsAtTwo(ws[..n], i, j, p);
    }
  }

  // Is the entry of p's descriptor armed for p?
  predicate ArmedFor(s: State, p: Ptr) {
    && p in s.heap && s.heap[p].connFd in s.items
    && s.items[s.heap[p].connFd].ptr == p && s.items[s.heap[p].connFd].reg.Armed?
  }

  function Tokens(s: State, p: Ptr): nat {
    Claims(s.workers, p) + if ArmedFor(s, p) then 1 else 0
  }

  // ---- Invariants ----

  predicate Private(s: State) {
    forall i, j :: 0 <= i < j < |s.workers| ==> s.workers[i].epoll != s.workers[j].epoll
  }

  // The manager's map and the heap are inverse to each other.
  ghost predicate DataHeap(s: State) {
    && (forall fd :: fd in s.data ==> s.data[fd] in s.heap && s.heap[s.data[fd]].connFd == fd)
    && (forall p :: p in s.heap ==> 0 < p < s.nextPtr && s.heap[p].connFd in s.data && s.data[s.heap[p].connFd] == p)
    && |s.listeners| < s.nextPtr
    && (forall k :: 0 <= k < |s.listeners| ==> s.listeners[k] in s.data && s.data[s.listeners[k]] == ListenerPtr(k))
  }

  // Mapped descriptors are open, and open descriptors denote distinct sockets.
  ghost predicate OpenSockets(s: State) {
    && (forall fd :: fd in s.data ==> fd in s.open || fd in s.listeners)
    && (forall fd :: fd in s.open ==> fd !in s.listeners && s.open[fd] in s.sockets)
    && (forall fd, fd' :: fd in s.open && fd' in s.open && fd != fd' ==> s.open[fd] != s.open[fd'])
    && (forall k :: k in s.sockets ==> k < s.nextSock)
  }

  ghost predicate Maps(s: State) {
    DataHeap(s) && OpenSockets(s)
  }

  // Every entry is an open connection's; only a live object's entry is armed.
  ghost predicate EntryShape(s: State) {
    forall fd :: fd in s.items ==>
      && fd in s.open && |s.listeners| < s.items[fd].ptr < s.nextPtr
      && s.items[fd].reg != Unregistered
      && (if fd in s.data then s.items[fd].ptr == s.data[fd]
          else s.items[fd].reg == Disarmed && s.items[fd].ptr !in s.heap)
  }

  ghost predicate EntryUnique(s: State) {
    forall fd, fd' :: fd in s.items && fd' in s.items && fd != fd' ==> s.items[fd].ptr != s.items[fd'].ptr
  }

  // Every entry is in the epoll set of some worker.
  ghost predicate EntryServed(s: State) {
    forall fd :: fd in s.items ==>
      s.items[fd].epoll < |s.workers| && s.workers[s.items[fd].epoll].epoll == s.items[fd].epoll
  }

  ghost predicate ParkedShape(s: State) {
    forall p :: p in s.parked ==>
      |s.listeners| < p && p in s.heap && s.heap[p].connFd in s.items && s.items[s.heap[p].connFd].reg == Disarmed
  }

  ghost predicate Entries(s: State) {
    EntryShape(s) && EntryUnique(s) && EntryServed(s) && ParkedShape(s)
  }

  ghost predicate WorkersServed(s: State) {
    forall i :: 0 <= i < |s.workers| ==>
      s.workers[i].epoll < |s.workers| && s.workers[s.workers[i].epoll].epoll == s.workers[i].epoll
  }

  // p is live, registered, and its entry is in w's epoll set.
  ghost predicate Registered(s: State, w: Worker, p: Ptr) {
    && p in s.heap && s.heap[p].connFd in s.items
    && s.items[s.heap[p].connFd].ptr == p && s.items[s.heap[p].connFd].epoll == w.epoll
  }

  ghost predicate BatchOk(s: State, w: Worker) {
    forall k :: 0 <= k < |w.batch| ==>
      if IsListenerPtr(s, w.batch[k].ptr)
      then w.listener in s.data && w.batch[k].ptr == s.data[w.listener]
      else Registered(s, w, w.batch[k].ptr)
  }

  // The server has not touched the socket yet.
  ghost predicate Pristine(k: Socket) {
    k.taken == 0 && k.sent == [] && k.base == 0 && k.sentBase == 0 && !k.readError && !k.writeError
  }

  ghost predicate PcOk(s: State, w: Worker) {
    match w.pc
    case Inserting(fd) =>
      && fd in s.open && fd !in s.data && fd !in s.items
      && s.open[fd] in s.sockets && Pristine(s.sockets[s.open[fd]])
    case Adding(fd, p) => fd in s.data && s.data[fd] == p && |s.listeners| < p && fd !in s.items
    case Handling(p, h) =>
      && |s.listeners| < p && h != Done && Registered(s, w, p)
      && (h == Resetting ==> Private(s) && (ArmedFor(s, p) || p in s.parked))
      && (h.Rearming? && h.thenReset ==> Private(s))
    case Removing(p, fd) => |s.listeners| < p && Registered(s, w, p) && s.heap[p].connFd == fd
    case Deleting(p, fd) =>
      && fd in s.open && fd !in s.data && p !in s.heap && |s.listeners| < p < s.nextPtr
      && fd in s.items && s.items[fd].ptr == p && s.items[fd].epoll == w.epoll
    case Closing(p, fd) =>
      && fd in s.open && fd !in s.data && p !in s.heap && |s.listeners| < p < s.nextPtr && fd !in s.items
      && (forall f :: f in s.items ==> s.items[f].ptr != p)
    case _ => true
  }

  ghost predicate WorkerOk(s: State, w: Worker) {
    w.listener in s.listeners && BatchOk(s, w) && PcOk(s, w)
  }

  // A descriptor that is open but in no table belongs to one worker.
  function Loose(pc: Pc): Option<Fd> {
    match pc
    case Inserting(fd) => Some(fd)
    case Deleting(_, fd) => Some(fd)
    case Closing(_, fd) => Some(fd)
    case _ => None
  }

  ghost predicate LooseApart(s: State) {
    forall i, j :: 0 <= i < j < |s.workers| && Loose(s.workers[i].pc).Some? ==>
      Loose(s.workers[i].pc) != Loose(s.workers[j].pc)
  }

  /** Token conservation. */
  ghost predicate OneToken(s: State) {
    && (forall p :: |s.listeners| < p ==> Tokens(s, p) <= 1)
    && (forall p :: s.nextPtr <= p ==> Claims(s.workers, p) == 0)
    && (forall fd :: fd in s.items ==> (Tokens(s, s.items[fd].ptr) == 1 <==> s.items[fd].ptr !in s.parked))
  }

  ghost predicate Staff(s: State) {
    forall i :: 0 <= i < |s.workers| ==> WorkerOk(s, s.workers[i])
  }

  ghost predicate Inv(s: State) {
    Maps(s) && Entries(s) && WorkersServed(s) && Staff(s) && LooseApart(s) && OneToken(s)
  }
}
