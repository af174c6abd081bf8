// Every action of the machine keeps the ownership invariants.
module Conservation {
  import opened Sockets
  import opened EchoConnection
  import opened Workers
  import opened Ownership

  // ---- The holder of a token is alone ----

  // The pointer a worker is working on, released or not.
  function PtrOf(pc: Pc): Ptr {
    match pc
    case Handling(p, _) => p
    case _ => Held(pc)
  }

  /** w has nothing to do with p. */
  ghost predicate Apart(w: Worker, p: Ptr) {
    PtrOf(w.pc) != p && forall k :: 0 <= k < |w.batch| ==> w.batch[k].ptr != p
  }

  lemma NoOccurrence(batch: seq<Event>, p: Ptr)
    ensures Occurs(batch, p) == 0 ==> forall k :: 0 <= k < |batch| ==> batch[k].ptr != p
  {
    forall k | 0 <= k < |batch| && batch[k].ptr == p ensures Occurs(batch, p) > 0 {
      OccursMember(batch, k);
    }
  }

  lemma OccursWitness(batch: seq<Event>, p: Ptr) returns (k: nat)
    requires Occurs(batch, p) > 0
    ensures k < |batch| && batch[k].ptr == p
  {
    if batch[0].ptr == p {
      k := 0;
    } else {
      k := OccursWitness(batch[1..], p);
      k := k + 1;
    }
  }

  // A worker that claims a registered pointer waits on the epoll set of its entry.
  lemma ClaimantsShareTheSet(s: State, w: Worker, p: Ptr)
    requires WorkerOk(s, w) && |s.listeners| < p && WorkerClaims(w, p) > 0
    requires p in s.heap && s.heap[p].connFd in s.items && DataHeap(s)
    ensures Registered(s, w, p)
  {
    if Occurs(w.batch, p) > 0 {
      var k := OccursWitness(w.batch, p);
    }
  }

  lemma Sole(s: State, i: nat, p: Ptr)
    requires Inv(s) && i < |s.workers| && |s.listeners| < p && WorkerClaims(s.workers[i], p) >= 1
    ensures WorkerClaims(s.workers[i], p) == 1 == Claims(s.workers, p) && !ArmedFor(s, p)
    ensures forall j :: 0 <= j < |s.workers| && j != i ==> Apart(s.workers[j], p)
    ensures Held(s.workers[i].pc) == p ==> Occurs(s.workers[i].batch, p) == 0
  {
    assert Tokens(s, p) <= 1;
    ClaimsAt(s.workers, i, p);
    forall j | 0 <= j < |s.workers| && j != i ensures Apart(s.workers[j], p) {
      SoleApart(s, i, j, p);
    }
  }

  lemma SoleApart(s: State, i: nat, j: nat, p: Ptr)
    requires Inv(s) && i < |s.workers| && j < |s.workers| && i != j && |s.listeners| < p
    requires WorkerClaims(s.workers[i], p) >= 1
    ensures Apart(s.workers[j], p)
  {
    assert Tokens(s, p) <= 1;
    ClaimsAtTwo(s.workers, i, j, p);
    NoOccurrence(s.workers[j].batch, p);
    assert WorkerOk(s, s.workers[j]) && WorkerOk(s, s.workers[i]);
    if p in s.heap && s.heap[p].connFd in s.items {
      ClaimantsShareTheSet(s, s.workers[i], p);
    }
  }

  /** Nobody works on an armed connection, except a worker of a private set about to reset it. */
  lemma ArmedApart(s: State, i: nat, fd: Fd)
    requires Inv(s) && i < |s.workers| && fd in s.items && s.items[fd].reg.Armed?
    requires s.items[fd].epoll == s.workers[i].epoll
    ensures Claims(s.workers, s.items[fd].ptr) == 0
    ensures forall j :: 0 <= j < |s.workers| && j != i ==> Apart(s.workers[j], s.items[fd].ptr)
    ensures Occurs(s.workers[i].batch, s.items[fd].ptr) == 0
  {
    var p := s.items[fd].ptr;
    assert ArmedFor(s, p) && Tokens(s, p) <= 1;
    ClaimsAt(s.workers, i, p);
    forall j | 0 <= j < |s.workers| && j != i ensures Apart(s.workers[j], p) {
      ClaimsAt(s.workers, j, p);
      NoOccurrence(s.workers[j].batch, p);
      assert WorkerOk(s, s.workers[j]);
    }
  }

  // ---- Frames: workers away from the changed connection ----

  // Pointer q means in s' what it means in s.
  ghost predicate KeepsPtr(s: State, s': State, q: Ptr) {
    && (q in s.heap <==> q in s'.heap)
    && (q in s.heap ==> s'.heap[q].connFd == s.heap[q].connFd)
    && (q in s.parked ==> q in s'.parked)
  }

  ghost predicate KeepsFd(s: State, s': State, f: Fd) {
    && (f in s.data <==> f in s'.data) && (f in s.data ==> s'.data[f] == s.data[f])
    && (f in s.items <==> f in s'.items) && (f in s.items ==> s'.items[f] == s.items[f])
    && (f in s.open <==> f in s'.open) && (f in s.open ==> s'.open[f] == s.open[f])
    && (f in s.open && s.open[f] in s.sockets && Pristine(s.sockets[s.open[f]]) ==>
          s.open[f] in s'.sockets && Pristine(s'.sockets[s.open[f]]))
  }

  // s' differs from s only in what belongs to pointer p and descriptor fd.
  ghost predicate ChangesOnly(s: State, s': State, p: Ptr, fd: Fd) {
    && s'.listeners == s.listeners && s.nextPtr <= s'.nextPtr
    && (forall q {:trigger KeepsPtr(s, s', q)} :: q != p ==> KeepsPtr(s, s', q))
    && (forall f {:trigger KeepsFd(s, s', f)} :: f != fd ==> KeepsFd(s, s', f))
    && (fd in s'.items ==> s'.items[fd].ptr == p)
    && (Private(s) ==> Private(s'))
  }

  // fd is p's descriptor, as far as the tables of s say.
  ghost predicate Belongs(s: State, p: Ptr, fd: Fd) {
    && fd !in s.listeners
    && (fd in s.data ==> s.data[fd] == p)
    && (fd in s.items ==> s.items[fd].ptr == p)
  }

  lemma OtherRegistered(s: State, s': State, w: Worker, q: Ptr, p: Ptr, fd: Fd)
    requires Registered(s, w, q) && q != p && ChangesOnly(s, s', p, fd) && Belongs(s, p, fd)
    ensures Registered(s', w, q) && s'.heap[q].connFd == s.heap[q].connFd
    ensures (ArmedFor(s, q) ==> ArmedFor(s', q)) && (q in s.parked ==> q in s'.parked)
  {
    assert KeepsPtr(s, s', q);
    assert KeepsFd(s, s', s.heap[q].connFd);
  }

  lemma OtherBatch(s: State, s': State, w: Worker, p: Ptr, fd: Fd)
    requires BatchOk(s, w) && ChangesOnly(s, s', p, fd) && Belongs(s, p, fd) && w.listener in s.listeners
    requires forall k :: 0 <= k < |w.batch| ==> w.batch[k].ptr != p
    ensures BatchOk(s', w)
  {
    assert KeepsFd(s, s', w.listener);
    forall k | 0 <= k < |w.batch| && !IsListenerPtr(s, w.batch[k].ptr) ensures Registered(s', w, w.batch[k].ptr) {
      OtherRegistered(s, s', w, w.batch[k].ptr, p, fd);
    }
  }

  lemma OtherPc(s: State, s': State, w: Worker, p: Ptr, fd: Fd)
    requires PcOk(s, w) && ChangesOnly(s, s', p, fd) && Belongs(s, p, fd)
    requires PtrOf(w.pc) != p && Loose(w.pc) != Some(fd)
    ensures PcOk(s', w)
  {
    match w.pc
    case Inserting(f) => assert KeepsFd(s, s', f);
    case Adding(f, q) => assert KeepsFd(s, s', f);
    case Handling(q, h) => OtherRegistered(s, s', w, q, p, fd);
    case Removing(q, f) => OtherRegistered(s, s', w, q, p, fd);
    case Deleting(q, f) => assert KeepsFd(s, s', f) && KeepsPtr(s, s', q);
    case Closing(q, f) =>
      assert KeepsFd(s, s', f) && KeepsPtr(s, s', q);
      forall g | g in s'.items ensures s'.items[g].ptr != q {
        assert g == fd || KeepsFd(s, s', g);
      }
    case _ =>
  }

  lemma OtherWorker(s: State, s': State, w: Worker, p: Ptr, fd: Fd)
    requires WorkerOk(s, w) && ChangesOnly(s, s', p, fd) && Belongs(s, p, fd)
    requires Apart(w, p) && Loose(w.pc) != Some(fd)
    ensures WorkerOk(s', w)
  {
    OtherBatch(s, s', w, p, fd);
    OtherPc(s, s', w, p, fd);
  }

  // Workers other than i do not notice what i does to its own connection.
  lemma OtherWorkers(s: State, s': State, i: nat, p: Ptr, fd: Fd)
    requires Staff(s) && ChangesOnly(s, s', p, fd) && Belongs(s, p, fd)
    requires |s'.workers| == |s.workers| && i < |s.workers|
    requires forall j :: 0 <= j < |s.workers| && j != i ==>
               s'.workers[j] == s.workers[j] && Apart(s.workers[j], p) && Loose(s.workers[j].pc) != Some(fd)
    requires WorkerOk(s', s'.workers[i])
    ensures Staff(s')
  {
    forall j | 0 <= j < |s'.workers| && j != i ensures WorkerOk(s', s'.workers[j]) {
      OtherWorker(s, s', s.workers[j], p, fd);
    }
  }

  // A registered or mapped descriptor is nobody's loose one, or its entry is disarmed.
  lemma LooseIsUnlisted(s: State, fd: Fd)
    requires Staff(s) && EntryShape(s) && (fd in s.data || (fd in s.items && s.items[fd].reg.Armed?))
    ensures forall j :: 0 <= j < |s.workers| ==> Loose(s.workers[j].pc) != Some(fd)
  {
    forall j | 0 <= j < |s.workers| ensures Loose(s.workers[j].pc) != Some(fd) {
      assert WorkerOk(s, s.workers[j]);
    }
  }

  lemma LooseIsOpen(s: State, j: nat, fd: Fd)
    requires Staff(s) && j < |s.workers| && Loose(s.workers[j].pc) == Some(fd)
    ensures fd in s.open && fd !in s.data
  {
    assert WorkerOk(s, s.workers[j]);
  }

  // The next address is not in use anywhere.
  lemma FreshApart(s: State)
    requires Inv(s)
    ensures forall j :: 0 <= j < |s.workers| ==> Apart(s.workers[j], s.nextPtr)
    ensures s.nextPtr !in s.heap && s.nextPtr !in s.parked
  {
    forall j | 0 <= j < |s.workers| ensures Apart(s.workers[j], s.nextPtr) {
      ClaimsAt(s.workers, j, s.nextPtr);
      NoOccurrence(s.workers[j].batch, s.nextPtr);
      assert WorkerOk(s, s.workers[j]);
    }
  }

  // A worker about to reset() has its private set, so nobody else is near the connection.
  lemma ResettingApart(s: State, i: nat, p: Ptr)
    requires Inv(s) && i < |s.workers| && s.workers[i].pc == Handling(p, Resetting)
    ensures forall j :: 0 <= j < |s.workers| && j != i ==> Apart(s.workers[j], p)
    ensures Occurs(s.workers[i].batch, p) == 0
  {
    assert WorkerOk(s, s.workers[i]);
    ClaimsAt(s.workers, i, p);
    assert Tokens(s, p) <= 1 && (Tokens(s, s.items[s.heap[p].connFd].ptr) == 1 <==> p !in s.parked);
    forall j | 0 <= j < |s.workers| && j != i ensures Apart(s.workers[j], p) {
      assert WorkerOk(s, s.workers[j]);
      NoOccurrence(s.workers[j].batch, p);
      if WorkerClaims(s.workers[j], p) > 0 {
        ClaimantsShareTheSet(s, s.workers[j], p);
      }
    }
  }

  lemma SameMaps(s: State, s': State)
    requires Maps(s) && s' == s.(workers := s'.workers, items := s'.items, parked := s'.parked)
    ensures Maps(s')
  {
  }

  ghost predicate SameSets(s: State, s': State) {
    |s'.workers| == |s.workers| && forall j :: 0 <= j < |s.workers| ==> s'.workers[j].epoll == s.workers[j].epoll
  }

  lemma SameEntries(s: State, s': State)
    requires Entries(s) && s' == s.(workers := s'.workers) && SameSets(s, s')
    ensures Entries(s')
  {
  }

  lemma SameServed(s: State, s': State)
    requires WorkersServed(s) && SameSets(s, s')
    ensures WorkersServed(s')
  {
  }

  lemma SameTables(s: State, s': State, w: Worker)
    requires WorkerOk(s, w) && s' == s.(workers := s'.workers, sockets := s'.sockets)
    requires forall k :: k in s.sockets && Pristine(s.sockets[k]) ==> k in s'.sockets && Pristine(s'.sockets[k])
    requires Private(s) ==> Private(s')
    ensures WorkerOk(s', w)
  {
  }

  lemma SameEpolls(s: State, s': State)
    requires SameSets(s, s')
    ensures Private(s') <==> Private(s)
  {
  }

  // ---- Frames: tokens of the other connections ----

  lemma TokensFrame(s: State, s': State, i: nat, q: Ptr)
    requires i < |s.workers| && |s'.workers| == |s.workers| && s'.workers == s.workers[i := s'.workers[i]]
    requires forall p :: p != q && p > 0 ==> WorkerClaims(s'.workers[i], p) == WorkerClaims(s.workers[i], p)
    requires forall p :: p != q ==> (ArmedFor(s', p) <==> ArmedFor(s, p))
    ensures forall p :: p != q && p > 0 ==>
              Tokens(s', p) == Tokens(s, p) && Claims(s'.workers, p) == Claims(s.workers, p)
    ensures Claims(s'.workers, q) + WorkerClaims(s.workers[i], q)
            == Claims(s.workers, q) + WorkerClaims(s'.workers[i], q)
  {
    forall p
      ensures Claims(s'.workers, p) + WorkerClaims(s.workers[i], p)
              == Claims(s.workers, p) + WorkerClaims(s'.workers[i], p)
    {
      ClaimsUpdate(s.workers, i, s'.workers[i], p);
    }
  }

  // The claims on q after worker i has moved.
  function ClaimsMoved(s: State, s': State, i: nat, q: Ptr): int
    requires i < |s.workers| && i < |s'.workers|
  {
    Claims(s.workers, q) - WorkerClaims(s.workers[i], q) + WorkerClaims(s'.workers[i], q)
  }

  lemma KeepsOneToken(s: State, s': State, i: nat, q: Ptr)
    requires OneToken(s) && s'.listeners == s.listeners && s.nextPtr <= s'.nextPtr && |s.listeners| < q < s'.nextPtr
    requires i < |s.workers| && |s'.workers| == |s.workers| && s'.workers == s.workers[i := s'.workers[i]]
    requires forall p :: p != q && p > 0 ==> WorkerClaims(s'.workers[i], p) == WorkerClaims(s.workers[i], p)
    requires forall p :: p != q ==> (ArmedFor(s', p) <==> ArmedFor(s, p))
    requires forall p :: p != q ==> (p in s'.parked <==> p in s.parked)
    requires forall fd :: fd in s'.items ==> 0 < s'.items[fd].ptr
    requires forall fd :: fd in s'.items && s'.items[fd].ptr != q ==>
               fd in s.items && s.items[fd].ptr == s'.items[fd].ptr
    requires ClaimsMoved(s, s', i, q) + (if ArmedFor(s', q) then 1 else 0) <= 1
    requires forall fd :: fd in s'.items && s'.items[fd].ptr == q ==>
               (ClaimsMoved(s, s', i, q) + (if ArmedFor(s', q) then 1 else 0) == 1 <==> q !in s'.parked)
    ensures OneToken(s')
  {
    TokensFrame(s, s', i, q);
    assert Tokens(s', q) == ClaimsMoved(s, s', i, q) + if ArmedFor(s', q) then 1 else 0;
  }

  lemma KeepsLooseApart(s: State, s': State, i: nat)
    requires LooseApart(s) && i < |s.workers| && |s'.workers| == |s.workers|
    requires forall j :: 0 <= j < |s.workers| && j != i ==> s'.workers[j] == s.workers[j]
    requires Loose(s'.workers[i].pc).Some? ==>
               forall j :: 0 <= j < |s.workers| && j != i ==> Loose(s.workers[j].pc) != Loose(s'.workers[i].pc)
    ensures LooseApart(s')
  {
  }

  // Actions of worker i that change no table and no claim.
  ghost predicate QuietMove(s: State, s': State, i: nat) {
    && i < |s.workers| && |s'.workers| == |s.workers|
    && s' == s.(workers := s'.workers) && s'.workers == s.workers[i := s'.workers[i]]
    && s'.workers[i].epoll == s.workers[i].epoll && s'.workers[i].listener == s.workers[i].listener
    && Loose(s'.workers[i].pc) == None
    && forall p :: |s.listeners| < p ==> WorkerClaims(s'.workers[i], p) == WorkerClaims(s.workers[i], p)
  }

  lemma QuietTables(s: State, s': State, i: nat)
    requires Maps(s) && Entries(s) && QuietMove(s, s', i)
    ensures Maps(s') && Entries(s')
  {
    SameMaps(s, s');
    SameEntries(s, s');
  }

  lemma QuietStaff(s: State, s': State, i: nat)
    requires Staff(s) && QuietMove(s, s', i) && WorkerOk(s', s'.workers[i])
    ensures Staff(s')
  {
    SameEpolls(s, s');
    forall j | 0 <= j < |s'.workers| && j != i ensures WorkerOk(s', s'.workers[j]) {
      SameTables(s, s', s.workers[j]);
    }
  }

  lemma TokensStay(s: State, s': State, i: nat)
    requires OneToken(s) && s'.listeners == s.listeners && |s.listeners| < s.nextPtr <= s'.nextPtr
    requires i < |s.workers| && |s'.workers| == |s.workers| && s'.workers == s.workers[i := s'.workers[i]]
    requires s'.items == s.items && s'.parked == s.parked
    requires forall fd :: fd in s.items ==> |s.listeners| < s.items[fd].ptr
    requires forall p :: |s.listeners| < p ==> WorkerClaims(s'.workers[i], p) == WorkerClaims(s.workers[i], p)
    requires forall p :: |s.listeners| < p ==> (ArmedFor(s', p) <==> ArmedFor(s, p))
    ensures OneToken(s')
  {
    forall p | |s.listeners| < p
      ensures Tokens(s', p) == Tokens(s, p) && Claims(s'.workers, p) == Claims(s.workers, p)
    {
      ClaimsUpdate(s.workers, i, s'.workers[i], p);
    }
  }

  lemma KeepsQuietMove(s: State, s': State, i: nat)
    requires Inv(s) && QuietMove(s, s', i) && WorkerOk(s', s'.workers[i])
    ensures Inv(s')
  {
    QuietTables(s, s', i);
    SameServed(s, s');
    QuietStaff(s, s', i);
    KeepsLooseApart(s, s', i);
    TokensStay(s, s', i);
  }
}
