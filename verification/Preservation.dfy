// Every action of the machine keeps the ownership invariants: one group of lemmas
// for each action, on the tables, on the workers and on the tokens.
module Preservation {
  import opened Sockets
  import opened EchoConnection
  import opened Workers
  import opened Ownership
  import opened Conservation

  // ---- The environment, and moves that touch no table ----

  lemma KeepsSockets(s: State, s': State)
    requires Inv(s) && s' == s.(sockets := s'.sockets) && s'.sockets.Keys == s.sockets.Keys
    requires forall k :: k in s.sockets && Pristine(s.sockets[k]) ==> Pristine(s'.sockets[k])
    ensures Inv(s')
  {
    assert Maps(s');
    assert Entries(s') && WorkersServed(s');
    forall p ensures Tokens(s', p) == Tokens(s, p) {
    }
    forall j | 0 <= j < |s'.workers| ensures WorkerOk(s', s'.workers[j]) {
      SameTables(s, s', s.workers[j]);
    }
  }

  lemma KeepsGoto(s: State, w: nat, pc: Pc)
    requires Inv(s) && w < |s.workers| && pc in {Waiting, Looping} && s.workers[w].pc in {Waiting, Looping, Accepting}
    ensures Inv(Goto(s, w, pc))
  {
    KeepsQuietMove(s, Goto(s, w, pc), w);
  }

  lemma KeepsReportListener(s: State, w: nat, flags: Flags)
    requires Inv(s) && CanReportListener(s, w)
    ensures Inv(DoReportListener(s, w, flags))
  {
    var s' := DoReportListener(s, w, flags);
    var k :| 0 <= k < |s.listeners| && s.listeners[k] == s.workers[w].listener;
    forall p | |s.listeners| < p ensures WorkerClaims(s'.workers[w], p) == WorkerClaims(s.workers[w], p) {
      OccursAppend(s.workers[w].batch, Event(ListenerPtr(k), flags), p);
    }
    KeepsQuietMove(s, s', w);
  }

  // ---- Report ----

  lemma ReportTables(s: State, w: nat, fd: Fd, flags: Flags)
    requires Maps(s) && Entries(s) && CanReport(s, w, fd)
    ensures Maps(DoReport(s, w, fd, flags)) && Entries(DoReport(s, w, fd, flags))
  {
    SameMaps(s, DoReport(s, w, fd, flags));
  }

  lemma ReportWorker(s: State, w: nat, fd: Fd, flags: Flags)
    requires Maps(s) && Entries(s) && CanReport(s, w, fd) && WorkerOk(s, s.workers[w])
    ensures WorkerOk(DoReport(s, w, fd, flags), DoReport(s, w, fd, flags).workers[w])
  {
  }

  lemma ReportChanges(s: State, w: nat, fd: Fd, flags: Flags)
    requires Maps(s) && Entries(s) && CanReport(s, w, fd)
    ensures ChangesOnly(s, DoReport(s, w, fd, flags), s.items[fd].ptr, fd) && Belongs(s, s.items[fd].ptr, fd)
  {
    SameEpolls(s, DoReport(s, w, fd, flags));
  }

  lemma ReportStaff(s: State, w: nat, fd: Fd, flags: Flags)
    requires Inv(s) && CanReport(s, w, fd)
    ensures Staff(DoReport(s, w, fd, flags))
  {
    ReportWorker(s, w, fd, flags);
    ReportChanges(s, w, fd, flags);
    ArmedApart(s, w, fd);
    LooseIsUnlisted(s, fd);
    OtherWorkers(s, DoReport(s, w, fd, flags), w, s.items[fd].ptr, fd);
  }

  lemma ReportTokens(s: State, w: nat, fd: Fd, flags: Flags)
    requires Inv(s) && CanReport(s, w, fd)
    ensures OneToken(DoReport(s, w, fd, flags))
  {
    var s' := DoReport(s, w, fd, flags);
    var q := s.items[fd].ptr;
    ArmedApart(s, w, fd);
    forall p ensures WorkerClaims(s'.workers[w], p) == WorkerClaims(s.workers[w], p) + if p == q then 1 else 0 {
      OccursAppend(s.workers[w].batch, Event(q, flags), p);
    }
    KeepsOneToken(s, s', w, q);
  }

  lemma KeepsReport(s: State, w: nat, fd: Fd, flags: Flags)
    requires Inv(s) && CanReport(s, w, fd)
    ensures Inv(DoReport(s, w, fd, flags))
  {
    ReportTables(s, w, fd, flags);
    SameServed(s, DoReport(s, w, fd, flags));
    ReportStaff(s, w, fd, flags);
    ReportTokens(s, w, fd, flags);
    KeepsLooseApart(s, DoReport(s, w, fd, flags), w);
  }

  // ---- Take ----

  // What a worker takes from its batch: its listener, or a connection that is its own.
  lemma TakenKind(s: State, w: nat)
    requires Inv(s) && CanTake(s, w)
    ensures var q := s.workers[w].batch[0].ptr;
            if IsListenerPtr(s, q) then s.heap[q].connFd == s.workers[w].listener
            else |s.listeners| < q && s.heap[q].connFd != s.workers[w].listener && Registered(s, s.workers[w], q)
                 && WorkerClaims(s.workers[w], q) > 0
  {
    assert WorkerOk(s, s.workers[w]);
  }

  lemma TakeTables(s: State, w: nat, stale: Errno)
    requires Inv(s) && CanTake(s, w)
    ensures Maps(DoTake(s, w, stale)) && Entries(DoTake(s, w, stale))
  {
    var s' := DoTake(s, w, stale);
    SameMaps(s, s');
    SameEntries(s, s'.(parked := s.parked));
    TakenKind(s, w);
    var q := s.workers[w].batch[0].ptr;
    if !IsListenerPtr(s, q) {
      Sole(s, w, q);
      EntriesPark(s'.(parked := s.parked), q, Hangup);
    }
  }

  // A registered connection with a disarmed entry may be parked.
  lemma EntriesPark(s: State, q: Ptr, why: ParkReason)
    requires Entries(s) && |s.listeners| < q && q in s.heap
    requires s.heap[q].connFd in s.items && s.items[s.heap[q].connFd].reg == Disarmed
    ensures Entries(s.(parked := s.parked[q := why]))
  {
  }

  lemma TakeWorker(s: State, w: nat, stale: Errno)
    requires Inv(s) && CanTake(s, w)
    ensures WorkerOk(DoTake(s, w, stale), DoTake(s, w, stale).workers[w])
  {
    TakenKind(s, w);
    assert WorkerOk(s, s.workers[w]);
  }

  lemma TakeStaff(s: State, w: nat, stale: Errno)
    requires Inv(s) && CanTake(s, w)
    ensures Staff(DoTake(s, w, stale))
  {
    var s' := DoTake(s, w, stale);
    TakeWorker(s, w, stale);
    TakenKind(s, w);
    SameEpolls(s, s');
    forall j | 0 <= j < |s'.workers| && j != w ensures WorkerOk(s', s'.workers[j]) {
      MoreParked(s, s', s.workers[j]);
    }
  }

  lemma MoreParked(s: State, s': State, w: Worker)
    requires WorkerOk(s, w) && s' == s.(workers := s'.workers, parked := s'.parked)
    requires s.parked.Keys <= s'.parked.Keys && (Private(s) ==> Private(s'))
    ensures WorkerOk(s', w)
  {
  }

  lemma TakeClaims(s: State, w: nat, stale: Errno, p: Ptr)
    requires CanTake(s, w) && p != s.workers[w].batch[0].ptr && p > 0
    ensures WorkerClaims(DoTake(s, w, stale).workers[w], p) == WorkerClaims(s.workers[w], p)
  {
  }

  lemma TakeTokens(s: State, w: nat, stale: Errno)
    requires Inv(s) && CanTake(s, w)
    ensures OneToken(DoTake(s, w, stale))
  {
    var s' := DoTake(s, w, stale);
    var q := s.workers[w].batch[0].ptr;
    TakenKind(s, w);
    forall p | p != q && p > 0 ensures WorkerClaims(s'.workers[w], p) == WorkerClaims(s.workers[w], p) {
      TakeClaims(s, w, stale, p);
    }
    if IsListenerPtr(s, q) {
      TokensStay(s, s', w);
    } else {
      Sole(s, w, q);
      KeepsOneToken(s, s', w, q);
    }
  }

  lemma KeepsTake(s: State, w: nat, stale: Errno)
    requires Inv(s) && CanTake(s, w)
    ensures Inv(DoTake(s, w, stale))
  {
    TakeTables(s, w, stale);
    SameServed(s, DoTake(s, w, stale));
    TakeStaff(s, w, stale);
    TakeTokens(s, w, stale);
    KeepsLooseApart(s, DoTake(s, w, stale), w);
  }

  // ---- Accept: the kernel opens a fresh descriptor ----

  lemma AcceptTables(s: State, w: nat, fd: Fd)
    requires Maps(s) && Entries(s) && CanAccept(s, w, fd)
    ensures Maps(DoAccept(s, w, fd)) && Entries(DoAccept(s, w, fd))
  {
  }

  lemma AcceptChanges(s: State, w: nat, fd: Fd)
    requires Maps(s) && Entries(s) && CanAccept(s, w, fd)
    ensures ChangesOnly(s, DoAccept(s, w, fd), s.nextPtr, fd) && Belongs(s, s.nextPtr, fd)
  {
    SameEpolls(s, DoAccept(s, w, fd));
  }

  lemma AcceptStaff(s: State, w: nat, fd: Fd)
    requires Inv(s) && CanAccept(s, w, fd)
    ensures Staff(DoAccept(s, w, fd)) && LooseApart(DoAccept(s, w, fd))
  {
    var s' := DoAccept(s, w, fd);
    assert WorkerOk(s, s.workers[w]);
    AcceptChanges(s, w, fd);
    FreshApart(s);
    forall j | 0 <= j < |s.workers| ensures Loose(s.workers[j].pc) != Some(fd) {
      if Loose(s.workers[j].pc) == Some(fd) {
        LooseIsOpen(s, j, fd);
      }
    }
    OtherWorkers(s, s', w, s.nextPtr, fd);
    KeepsLooseApart(s, s', w);
  }

  lemma KeepsAccept(s: State, w: nat, fd: Fd)
    requires Inv(s) && CanAccept(s, w, fd)
    ensures Inv(DoAccept(s, w, fd))
  {
    AcceptTables(s, w, fd);
    SameServed(s, DoAccept(s, w, fd));
    AcceptStaff(s, w, fd);
    TokensStay(s, DoAccept(s, w, fd), w);
  }

  // ---- Insert: a fresh object for a descriptor that is in no table ----

  lemma InsertMaps(s: State, w: nat)
    requires Maps(s) && CanInsert(s, w) && PcOk(s, s.workers[w])
    ensures Maps(DoInsert(s, w))
  {
  }

  lemma InsertEntries(s: State, w: nat)
    requires DataHeap(s) && Entries(s) && CanInsert(s, w) && PcOk(s, s.workers[w])
    ensures Entries(DoInsert(s, w))
  {
  }

  lemma InsertChanges(s: State, w: nat)
    requires DataHeap(s) && CanInsert(s, w) && PcOk(s, s.workers[w])
    ensures ChangesOnly(s, DoInsert(s, w), s.nextPtr, s.workers[w].pc.fd) && Belongs(s, s.nextPtr, s.workers[w].pc.fd)
  {
    SameEpolls(s, DoInsert(s, w));
  }

  lemma InsertWorker(s: State, w: nat)
    requires DataHeap(s) && CanInsert(s, w) && WorkerOk(s, s.workers[w])
    ensures WorkerOk(DoInsert(s, w), DoInsert(s, w).workers[w])
  {
  }

  lemma InsertStaff(s: State, w: nat)
    requires Inv(s) && CanInsert(s, w)
    ensures Staff(DoInsert(s, w)) && LooseApart(DoInsert(s, w))
  {
    InsertWorker(s, w);
    InsertChanges(s, w);
    FreshApart(s);
    OtherWorkers(s, DoInsert(s, w), w, s.nextPtr, s.workers[w].pc.fd);
    KeepsLooseApart(s, DoInsert(s, w), w);
  }

  lemma InsertTokens(s: State, w: nat)
    requires Inv(s) && CanInsert(s, w)
    ensures OneToken(DoInsert(s, w))
  {
    assert WorkerOk(s, s.workers[w]);
    FreshApart(s);
    KeepsOneToken(s, DoInsert(s, w), w, s.nextPtr);
  }

  lemma KeepsInsert(s: State, w: nat)
    requires Inv(s) && CanInsert(s, w)
    ensures Inv(DoInsert(s, w))
  {
    assert WorkerOk(s, s.workers[w]);
    InsertMaps(s, w);
    InsertEntries(s, w);
    SameServed(s, DoInsert(s, w));
    InsertStaff(s, w);
    InsertTokens(s, w);
  }

  // ---- Add: the token is created with the entry, or never ----

  lemma AddTables(s: State, w: nat, added: bool)
    requires Maps(s) && Entries(s) && WorkersServed(s) && CanAdd(s, w) && PcOk(s, s.workers[w])
    ensures Maps(DoAdd(s, w, added)) && Entries(DoAdd(s, w, added))
  {
    SameMaps(s, DoAdd(s, w, added));
    if added {
      AddEntry(s, w);
    } else {
      SameEntries(s, DoAdd(s, w, added));
    }
  }

  lemma AddEntry(s: State, w: nat)
    requires DataHeap(s) && OpenSockets(s) && Entries(s) && WorkersServed(s) && CanAdd(s, w) && PcOk(s, s.workers[w])
    ensures Entries(DoAdd(s, w, true))
  {
    var s' := DoAdd(s, w, true);
    assert EntryServed(s') && ParkedShape(s');
    assert EntryShape(s');
    assert EntryUnique(s');
  }

  lemma AddChanges(s: State, w: nat, added: bool)
    requires DataHeap(s) && CanAdd(s, w) && PcOk(s, s.workers[w])
    ensures ChangesOnly(s, DoAdd(s, w, added), s.workers[w].pc.ptr, s.workers[w].pc.fd)
    ensures Belongs(s, s.workers[w].pc.ptr, s.workers[w].pc.fd)
  {
    SameEpolls(s, DoAdd(s, w, added));
  }

  lemma AddStaff(s: State, w: nat, added: bool)
    requires Inv(s) && CanAdd(s, w)
    ensures Staff(DoAdd(s, w, added)) && LooseApart(DoAdd(s, w, added))
  {
    var s' := DoAdd(s, w, added);
    assert WorkerOk(s, s.workers[w]);
    Sole(s, w, s.workers[w].pc.ptr);
    NoOccurrence(s.workers[w].batch, s.workers[w].pc.ptr);
    AddChanges(s, w, added);
    LooseIsUnlisted(s, s.workers[w].pc.fd);
    OtherBatch(s, s', s.workers[w], s.workers[w].pc.ptr, s.workers[w].pc.fd);
    OtherWorkers(s, s', w, s.workers[w].pc.ptr, s.workers[w].pc.fd);
    KeepsLooseApart(s, s', w);
  }

  lemma AddTokens(s: State, w: nat, added: bool)
    requires Inv(s) && CanAdd(s, w)
    ensures OneToken(DoAdd(s, w, added))
  {
    assert WorkerOk(s, s.workers[w]);
    Sole(s, w, s.workers[w].pc.ptr);
    AddMoves(s, w, added);
  }

  lemma AddMoves(s: State, w: nat, added: bool)
    requires OneToken(s) && Entries(s) && DataHeap(s) && CanAdd(s, w) && PcOk(s, s.workers[w])
    requires Claims(s.workers, s.workers[w].pc.ptr) == 1 && Occurs(s.workers[w].batch, s.workers[w].pc.ptr) == 0
    requires !ArmedFor(s, s.workers[w].pc.ptr)
    ensures OneToken(DoAdd(s, w, added))
  {
    KeepsOneToken(s, DoAdd(s, w, added), w, s.workers[w].pc.ptr);
  }

  lemma KeepsAdd(s: State, w: nat, added: bool)
    requires Inv(s) && CanAdd(s, w)
    ensures Inv(DoAdd(s, w, added))
  {
    assert WorkerOk(s, s.workers[w]);
    AddTables(s, w, added);
    SameServed(s, DoAdd(s, w, added));
    AddStaff(s, w, added);
    AddTokens(s, w, added);
  }

  // ---- Handle: one call of handleConnectionEvent, by the only worker near the object ----

  lemma HandlerAlone(s: State, w: nat, call: Call)
    requires Inv(s) && CanHandle(s, w, call)
    ensures var p := s.workers[w].pc.ptr;
            && |s.listeners| < p && Registered(s, s.workers[w], p) && PcOk(s, s.workers[w])
            && s.heap[p].connFd !in s.listeners && s.heap[p].connFd in s.data && s.data[s.heap[p].connFd] == p
            && (forall j :: 0 <= j < |s.workers| && j != w ==> Apart(s.workers[j], p))
            && Occurs(s.workers[w].batch, p) == 0
            && (s.workers[w].pc.h != Resetting ==>
                  !ArmedFor(s, p) && p !in s.parked && Claims(s.workers, p) == 1)
            && Tokens(s, p) <= 1
  {
    assert WorkerOk(s, s.workers[w]);
    var p := s.workers[w].pc.ptr;
    if s.workers[w].pc.h == Resetting {
      ResettingApart(s, w, p);
    } else {
      Sole(s, w, p);
      assert Tokens(s, s.items[s.heap[p].connFd].ptr) == 1;
    }
  }

  lemma AdvanceKeepsFd(obj: Conn, sock: Socket, pc: HandlerPc, c: Call)
    requires CallEnabled(obj, sock, pc, c)
    ensures Advance(obj, sock, pc, c).obj.connFd == obj.connFd
  {
  }

  // What DoHandle does to the tables, whatever the call.
  lemma HandleFrame(s: State, w: nat, call: Call)
    requires CanHandle(s, w, call)
    ensures var s', p := DoHandle(s, w, call), s.workers[w].pc.ptr;
            var fd := s.heap[p].connFd;
            && s'.heap.Keys == s.heap.Keys && (forall q :: q in s.heap ==> s'.heap[q].connFd == s.heap[q].connFd)
            && s'.sockets.Keys == s.sockets.Keys
            && s'.workers == s.workers[w := s'.workers[w]] && s'.workers[w] == s.workers[w].(pc := s'.workers[w].pc)
            && (s'.items == if call == Mod(true)
                            then s.items[fd := Item(s.workers[w].epoll, p, Armed(s.workers[w].pc.h.interest))]
                            else s.items)
            && s' == s.(heap := s'.heap, sockets := s'.sockets, items := s'.items, workers := s'.workers,
                        parked := s'.parked)
            && s'.parked.Keys <= s.parked.Keys + {p} && s.parked.Keys <= s'.parked.Keys
  {
    var p := s.workers[w].pc.ptr;
    AdvanceKeepsFd(s.heap[p], s.sockets[s.open[s.heap[p].connFd]], s.workers[w].pc.h, call);
  }

  lemma HandleMaps(s: State, s': State)
    requires Maps(s) && s'.heap.Keys == s.heap.Keys && s'.sockets.Keys == s.sockets.Keys
    requires forall q :: q in s.heap ==> s'.heap[q].connFd == s.heap[q].connFd
    requires s' == s.(heap := s'.heap, sockets := s'.sockets, items := s'.items, workers := s'.workers,
                      parked := s'.parked)
    ensures Maps(s')
  {
  }

  // Where the worker stands after the call, and whether the connection is parked.
  lemma HandleOutcome(s: State, w: nat, call: Call)
    requires CanHandle(s, w, call) && s.workers[w].pc.h != Done
    ensures var s', p, h := DoHandle(s, w, call), s.workers[w].pc.ptr, s.workers[w].pc.h;
            var pc' := s'.workers[w].pc;
            && (pc' == Looping || (pc'.Handling? && pc'.ptr == p && pc'.h != Done))
            && (pc' == Looping || pc' == Handling(p, Resetting) ==>
                  h == Resetting || call == Mod(true) || p in s'.parked)
            && (pc' == Handling(p, Resetting) ==> h.Rearming? && h.thenReset)
            && (pc'.Handling? && pc'.h.Rearming? && pc'.h.thenReset ==> call == Read(ReadFailed))
            && (p in s'.parked && p !in s.parked ==>
                  call != Mod(true) && h != Resetting && (pc' == Looping || pc' == Handling(p, Resetting)))
            && (h.Rearming? <==> call.Mod?) && (h == Resetting <==> call.Reset?)
  {
  }

  lemma HandleEntries(s: State, w: nat, call: Call)
    requires DataHeap(s) && Entries(s) && CanHandle(s, w, call) && s.workers[w].pc.h != Done
    requires Registered(s, s.workers[w], s.workers[w].pc.ptr) && |s.listeners| < s.workers[w].pc.ptr
    requires s.heap[s.workers[w].pc.ptr].connFd in s.data
    requires s.workers[w].pc.h != Resetting ==> s.workers[w].pc.ptr !in s.parked && !ArmedFor(s, s.workers[w].pc.ptr)
    ensures Entries(DoHandle(s, w, call))
  {
    var s', p := DoHandle(s, w, call), s.workers[w].pc.ptr;
    HandleFrame(s, w, call);
    HandleOutcome(s, w, call);
    assert EntryShape(s');
    assert EntryUnique(s') && EntryServed(s');
    assert ParkedShape(s');
  }

  lemma HandleChanges(s: State, w: nat, call: Call)
    requires CanHandle(s, w, call) && Registered(s, s.workers[w], s.workers[w].pc.ptr) && OpenSockets(s)
    requires s.heap[s.workers[w].pc.ptr].connFd !in s.listeners
    requires s.heap[s.workers[w].pc.ptr].connFd in s.data
    requires s.data[s.heap[s.workers[w].pc.ptr].connFd] == s.workers[w].pc.ptr
    ensures ChangesOnly(s, DoHandle(s, w, call), s.workers[w].pc.ptr, s.heap[s.workers[w].pc.ptr].connFd)
    ensures Belongs(s, s.workers[w].pc.ptr, s.heap[s.workers[w].pc.ptr].connFd)
  {
    HandleFrame(s, w, call);
    SameEpolls(s, DoHandle(s, w, call));
  }

  lemma HandleWorker(s: State, w: nat, call: Call)
    requires Inv(s) && CanHandle(s, w, call) && (call == Read(ReadFailed) ==> Private(s))
    ensures WorkerOk(DoHandle(s, w, call), DoHandle(s, w, call).workers[w])
  {
    var s', p := DoHandle(s, w, call), s.workers[w].pc.ptr;
    HandlerAlone(s, w, call);
    HandleChanges(s, w, call);
    HandleFrame(s, w, call);
    NoOccurrence(s.workers[w].batch, p);
    assert WorkerOk(s, s.workers[w]);
    OtherBatch(s, s', s'.workers[w], p, s.heap[p].connFd);
    HandlePc(s, w, call);
  }

  lemma HandlePc(s: State, w: nat, call: Call)
    requires CanHandle(s, w, call) && PcOk(s, s.workers[w]) && (call == Read(ReadFailed) ==> Private(s))
    ensures PcOk(DoHandle(s, w, call), DoHandle(s, w, call).workers[w])
  {
    HandleFrame(s, w, call);
    HandleOutcome(s, w, call);
    SameEpolls(s, DoHandle(s, w, call));
  }

  lemma HandleStaff(s: State, w: nat, call: Call)
    requires Inv(s) && CanHandle(s, w, call) && (call == Read(ReadFailed) ==> Private(s))
    ensures Staff(DoHandle(s, w, call)) && LooseApart(DoHandle(s, w, call))
  {
    var s', p := DoHandle(s, w, call), s.workers[w].pc.ptr;
    HandlerAlone(s, w, call);
    HandleChanges(s, w, call);
    HandleFrame(s, w, call);
    HandleWorker(s, w, call);
    LooseIsUnlisted(s, s.heap[p].connFd);
    OtherWorkers(s, s', w, p, s.heap[p].connFd);
    HandleOutcome(s, w, call);
    KeepsLooseApart(s, s', w);
  }

  lemma HandleArmed(s: State, w: nat, call: Call)
    requires DataHeap(s) && CanHandle(s, w, call) && Registered(s, s.workers[w], s.workers[w].pc.ptr)
    ensures var s', p := DoHandle(s, w, call), s.workers[w].pc.ptr;
            && (ArmedFor(s', p) <==> call == Mod(true) || ArmedFor(s, p))
            && (forall q :: q != p ==> (ArmedFor(s', q) <==> ArmedFor(s, q)))
            && (forall fd :: fd in s'.items ==> fd in s.items && s'.items[fd].ptr == s.items[fd].ptr)
  {
    HandleFrame(s, w, call);
  }

  lemma HandleTokens(s: State, w: nat, call: Call)
    requires Inv(s) && CanHandle(s, w, call)
    ensures OneToken(DoHandle(s, w, call))
  {
    HandlerAlone(s, w, call);
    HandleMoves(s, w, call);
  }

  lemma HandleMoves(s: State, w: nat, call: Call)
    requires OneToken(s) && DataHeap(s) && EntryShape(s) && CanHandle(s, w, call) && PcOk(s, s.workers[w])
    requires s.workers[w].pc.h != Resetting ==>
               && !ArmedFor(s, s.workers[w].pc.ptr) && s.workers[w].pc.ptr !in s.parked
               && Claims(s.workers, s.workers[w].pc.ptr) == 1
    requires Occurs(s.workers[w].batch, s.workers[w].pc.ptr) == 0
    ensures OneToken(DoHandle(s, w, call))
  {
    HandleFrame(s, w, call);
    HandleOutcome(s, w, call);
    HandleArmed(s, w, call);
    KeepsOneToken(s, DoHandle(s, w, call), w, s.workers[w].pc.ptr);
  }

  lemma KeepsHandle(s: State, w: nat, call: Call)
    requires Inv(s) && CanHandle(s, w, call) && (call == Read(ReadFailed) ==> Private(s))
    ensures Inv(DoHandle(s, w, call))
  {
    HandleFrame(s, w, call);
    HandleMaps(s, DoHandle(s, w, call));
    HandlerAlone(s, w, call);
    HandleEntries(s, w, call);
    SameServed(s, DoHandle(s, w, call));
    HandleStaff(s, w, call);
    HandleTokens(s, w, call);
  }

  // ---- Remove: only the holder destroys the object ----

  lemma RemoverAlone(s: State, w: nat)
    requires Inv(s) && CanRemove(s, w)
    ensures var p, fd := s.workers[w].pc.ptr, s.workers[w].pc.fd;
            && |s.listeners| < p && p in s.heap && fd in s.data && s.data[fd] == p && s.heap[p].connFd == fd
            && fd in s.items && s.items[fd].ptr == p && s.items[fd].reg == Disarmed
            && s.items[fd].epoll == s.workers[w].epoll
            && fd in s.open && fd !in s.listeners && p !in s.parked && p < s.nextPtr
            && (forall j :: 0 <= j < |s.workers| && j != w ==> Apart(s.workers[j], p))
            && Claims(s.workers, p) == 1 && Occurs(s.workers[w].batch, p) == 0
  {
    assert WorkerOk(s, s.workers[w]);
    var p := s.workers[w].pc.ptr;
    Sole(s, w, p);
    assert Tokens(s, s.items[s.heap[p].connFd].ptr) == 1;
  }

  lemma RemoveMaps(s: State, w: nat)
    requires Inv(s) && CanRemove(s, w)
    ensures Maps(DoRemove(s, w))
  {
    RemoverAlone(s, w);
  }

  lemma RemoveEntries(s: State, w: nat)
    requires DataHeap(s) && Entries(s) && CanRemove(s, w)
    requires s.workers[w].pc.fd in s.data && s.data[s.workers[w].pc.fd] == s.workers[w].pc.ptr
    requires s.workers[w].pc.fd in s.items && s.items[s.workers[w].pc.fd].reg == Disarmed
    requires s.workers[w].pc.ptr !in s.parked
    ensures Entries(DoRemove(s, w))
  {
    var s' := DoRemove(s, w);
    assert EntryUnique(s') && EntryServed(s');
    assert EntryShape(s');
    assert ParkedShape(s');
  }

  lemma RemoveStaff(s: State, w: nat)
    requires Inv(s) && CanRemove(s, w)
    ensures Staff(DoRemove(s, w)) && LooseApart(DoRemove(s, w))
  {
    var s', p, fd := DoRemove(s, w), s.workers[w].pc.ptr, s.workers[w].pc.fd;
    RemoverAlone(s, w);
    SameEpolls(s, s');
    NoOccurrence(s.workers[w].batch, p);
    assert WorkerOk(s, s.workers[w]);
    RemoveChanges(s, w);
    OtherBatch(s, s', s'.workers[w], p, fd);
    LooseIsUnlisted(s, fd);
    OtherWorkers(s, s', w, p, fd);
    KeepsLooseApart(s, s', w);
  }

  lemma RemoveChanges(s: State, w: nat)
    requires CanRemove(s, w) && s.workers[w].pc.fd !in s.listeners
    requires s.workers[w].pc.fd in s.data && s.data[s.workers[w].pc.fd] == s.workers[w].pc.ptr
    requires s.workers[w].pc.fd in s.items ==> s.items[s.workers[w].pc.fd].ptr == s.workers[w].pc.ptr
    ensures ChangesOnly(s, DoRemove(s, w), s.workers[w].pc.ptr, s.workers[w].pc.fd)
    ensures Belongs(s, s.workers[w].pc.ptr, s.workers[w].pc.fd)
  {
    SameEpolls(s, DoRemove(s, w));
  }

  lemma KeepsRemove(s: State, w: nat)
    requires Inv(s) && CanRemove(s, w)
    ensures Inv(DoRemove(s, w))
  {
    RemoveMaps(s, w);
    RemoverAlone(s, w);
    RemoveEntries(s, w);
    SameServed(s, DoRemove(s, w));
    RemoveStaff(s, w);
    RemoveTokens(s, w);
  }

  lemma RemoveTokens(s: State, w: nat)
    requires Inv(s) && CanRemove(s, w)
    ensures OneToken(DoRemove(s, w))
  {
    RemoverAlone(s, w);
    KeepsOneToken(s, DoRemove(s, w), w, s.workers[w].pc.ptr);
  }

  // ---- Delete and Close: the descriptor leaves the epoll set, then the process ----

  lemma CloserAlone(s: State, w: nat)
    requires Inv(s) && (CanDelete(s, w) || CanClose(s, w))
    ensures var p, fd := s.workers[w].pc.ptr, s.workers[w].pc.fd;
            && |s.listeners| < p < s.nextPtr && fd !in s.listeners && PcOk(s, s.workers[w]) && BatchOk(s, s.workers[w])
            && s.workers[w].listener in s.listeners
            && (forall j :: 0 <= j < |s.workers| && j != w ==>
                  Apart(s.workers[j], p) && Loose(s.workers[j].pc) != Some(fd))
            && (forall k :: 0 <= k < |s.workers[w].batch| ==> s.workers[w].batch[k].ptr != p)
            && Claims(s.workers, p) == 1 && Occurs(s.workers[w].batch, p) == 0
  {
    assert WorkerOk(s, s.workers[w]);
    Sole(s, w, s.workers[w].pc.ptr);
    NoOccurrence(s.workers[w].batch, s.workers[w].pc.ptr);
  }

  lemma DeleteChanges(s: State, w: nat)
    requires CanDelete(s, w) && PcOk(s, s.workers[w]) && s.workers[w].pc.fd !in s.listeners
    ensures ChangesOnly(s, DoDelete(s, w), s.workers[w].pc.ptr, s.workers[w].pc.fd)
    ensures Belongs(s, s.workers[w].pc.ptr, s.workers[w].pc.fd)
  {
    SameEpolls(s, DoDelete(s, w));
  }

  lemma DeleteStaff(s: State, w: nat)
    requires Inv(s) && CanDelete(s, w)
    ensures Staff(DoDelete(s, w)) && LooseApart(DoDelete(s, w))
  {
    var s', p, fd := DoDelete(s, w), s.workers[w].pc.ptr, s.workers[w].pc.fd;
    CloserAlone(s, w);
    DeleteChanges(s, w);
    OtherBatch(s, s', s'.workers[w], p, fd);
    OtherWorkers(s, s', w, p, fd);
    KeepsLooseApart(s, s', w);
  }

  lemma DeleteEntries(s: State, w: nat)
    requires DataHeap(s) && Entries(s) && CanDelete(s, w) && PcOk(s, s.workers[w])
    ensures Entries(DoDelete(s, w))
  {
  }

  lemma DeleteTokens(s: State, w: nat)
    requires Inv(s) && CanDelete(s, w)
    ensures OneToken(DoDelete(s, w))
  {
    CloserAlone(s, w);
    KeepsOneToken(s, DoDelete(s, w), w, s.workers[w].pc.ptr);
  }

  lemma KeepsDelete(s: State, w: nat)
    requires Inv(s) && CanDelete(s, w)
    ensures Inv(DoDelete(s, w))
  {
    assert WorkerOk(s, s.workers[w]);
    SameMaps(s, DoDelete(s, w));
    DeleteEntries(s, w);
    SameServed(s, DoDelete(s, w));
    DeleteStaff(s, w);
    DeleteTokens(s, w);
  }

  lemma CloseTables(s: State, w: nat)
    requires Maps(s) && Entries(s) && CanClose(s, w) && PcOk(s, s.workers[w])
    ensures Maps(DoClose(s, w)) && Entries(DoClose(s, w))
  {
    assert DoClose(s, w).items == s.items;
  }

  lemma CloseChanges(s: State, w: nat)
    requires CanClose(s, w) && PcOk(s, s.workers[w]) && s.workers[w].pc.fd !in s.listeners
    ensures ChangesOnly(s, DoClose(s, w), s.workers[w].pc.ptr, s.workers[w].pc.fd)
    ensures Belongs(s, s.workers[w].pc.ptr, s.workers[w].pc.fd)
  {
    SameEpolls(s, DoClose(s, w));
  }

  lemma CloseStaff(s: State, w: nat)
    requires Inv(s) && CanClose(s, w)
    ensures Staff(DoClose(s, w)) && LooseApart(DoClose(s, w))
  {
    var s', p, fd := DoClose(s, w), s.workers[w].pc.ptr, s.workers[w].pc.fd;
    CloserAlone(s, w);
    CloseChanges(s, w);
    OtherBatch(s, s', s'.workers[w], p, fd);
    OtherWorkers(s, s', w, p, fd);
    KeepsLooseApart(s, s', w);
  }

  lemma CloseTokens(s: State, w: nat)
    requires Inv(s) && CanClose(s, w)
    ensures OneToken(DoClose(s, w))
  {
    CloserAlone(s, w);
    CloseMoves(s, w);
  }

  lemma CloseMoves(s: State, w: nat)
    requires OneToken(s) && EntryShape(s) && DataHeap(s) && CanClose(s, w) && PcOk(s, s.workers[w])
    requires Claims(s.workers, s.workers[w].pc.ptr) == 1 && Occurs(s.workers[w].batch, s.workers[w].pc.ptr) == 0
    ensures OneToken(DoClose(s, w))
  {
    assert DoClose(s, w).items == s.items;
    KeepsOneToken(s, DoClose(s, w), w, s.workers[w].pc.ptr);
  }

  lemma KeepsClose(s: State, w: nat)
    requires Inv(s) && CanClose(s, w)
    ensures Inv(DoClose(s, w))
  {
    assert WorkerOk(s, s.workers[w]);
    CloseTables(s, w);
    SameServed(s, DoClose(s, w));
    CloseStaff(s, w);
    CloseTokens(s, w);
  }

  // ---- All of them ----

  /** An action a configuration may take: a hard read error only where sets are private. */
  predicate Benign(s: State, a: Action) {
    a.Handle? && a.call == Read(ReadFailed) ==> Private(s)
  }

  /** Token discipline, map agreement and live pointers survive every action. */
  lemma {:induction false} StepKeepsInv(s: State, a: Action)
    requires Inv(s) && Enabled(s, a) && Benign(s, a)
    ensures Inv(Step(s, a))
  {
    match a
    case Sends(_, _) => KeepsSockets(s, Step(s, a));
    case Shuts(_) => KeepsSockets(s, Step(s, a));
    case ReportListener(w, flags) => KeepsReportListener(s, w, flags);
    case Report(w, fd, flags) => KeepsReport(s, w, fd, flags);
    case Return(w) => KeepsGoto(s, w, Looping);
    case Wait(w) => KeepsGoto(s, w, Waiting);
    case Take(w, stale) => KeepsTake(s, w, stale);
    case Accept(w, fd) => KeepsAccept(s, w, fd);
    case AcceptStops(w) => KeepsGoto(s, w, Looping);
    case Insert(w) => KeepsInsert(s, w);
    case Add(w, added) => KeepsAdd(s, w, added);
    case Handle(w, call) => KeepsHandle(s, w, call);
    case Remove(w) => KeepsRemove(s, w);
    case Delete(w) => KeepsDelete(s, w);
    case Close(w) => KeepsClose(s, w);
  }
}
