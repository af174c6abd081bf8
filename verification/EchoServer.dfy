// What the multi-worker server guarantees on every run of every configuration in
// which hard read errors are not mixed with a shared epoll set.
module EchoServer {
  import opened Sockets
  import opened EchoConnection
  import opened Workers
  import opened Ownership
  import opened Conservation
  import opened Preservation
  import opened Serialisation
  import Echo

  // ---- Runs keep the ownership invariants ----

  lemma ClaimsNothing(ws: seq<Worker>, p: Ptr)
    requires p > 0 && forall i :: 0 <= i < |ws| ==> ws[i].batch == [] && ws[i].pc == Waiting
    ensures Claims(ws, p) == 0
  {
  }

  lemma InitialMaps(c: Config)
    requires c.Valid()
    ensures Maps(Initial(c))
  {
    var s := Initial(c);
    forall fd | fd in s.data ensures s.data[fd] in s.heap && s.heap[s.data[fd]].connFd == fd {
      var k :| 0 <= k < |c.listeners| && c.listeners[k] == fd;
    }
    forall p | p in s.heap ensures s.heap[p].connFd in s.data && s.data[s.heap[p].connFd] == p {
      assert c.listeners[p - 1] in c.listeners;
    }
    assert DataHeap(s);
    assert OpenSockets(s);
  }

  lemma InitialStaff(c: Config)
    requires c.Valid()
    ensures Staff(Initial(c))
  {
    var s := Initial(c);
    forall i | 0 <= i < |s.workers| ensures WorkerOk(s, s.workers[i]) {
      assert s.workers[i].listener == c.listeners[c.EpollOf(i)];
    }
  }

  lemma InitialSets(c: Config)
    requires c.Valid()
    ensures Entries(Initial(c)) && WorkersServed(Initial(c)) && LooseApart(Initial(c))
    ensures c.Private() ==> Private(Initial(c))
  {
  }

  lemma InitialInv(c: Config)
    requires c.Valid()
    ensures Inv(Initial(c)) && (c.Private() ==> Private(Initial(c)))
  {
    InitialMaps(c);
    InitialSets(c);
    InitialStaff(c);
    InitialTokens(c);
  }

  lemma InitialTokens(c: Config)
    requires c.Valid()
    ensures OneToken(Initial(c))
  {
    var s := Initial(c);
    forall p | p > 0 ensures Tokens(s, p) == 0 == Claims(s.workers, p) {
      ClaimsNothing(s.workers, p);
    }
  }

  /** Hard read errors are harmless as long as every worker has an epoll set of its own. */
  predicate Allowed(c: Config, acts: seq<Action>) {
    c.Private() || NoHardReadError(acts)
  }

  lemma AllowedPrefix(c: Config, acts: seq<Action>)
    requires acts != [] && Allowed(c, acts)
    ensures Allowed(c, acts[..|acts| - 1])
  {
    assert forall a :: a in acts[..|acts| - 1] ==> a in acts;
  }

  lemma StepKeepsSets(s: State, a: Action)
    requires Enabled(s, a)
    ensures SameSets(s, Step(s, a)) && Step(s, a).listeners == s.listeners
  {
    if a.Handle? {
      HandleFrame(s, a.w, a.call);
    } else if Elsewhere(a) {
      ElsewhereKeepsSets(s, a);
    }
  }

  lemma ElsewhereKeepsSets(s: State, a: Action)
    requires Enabled(s, a) && Elsewhere(a)
    ensures SameSets(s, Step(s, a)) && Step(s, a).listeners == s.listeners
  {
  }

  lemma {:induction false} RunKeepsInv(c: Config, acts: seq<Action>)
    requires c.Valid() && Runs(Initial(c), acts) && Allowed(c, acts)
    ensures var s := After(Initial(c), acts);
            Inv(s) && s.listeners == c.listeners && |s.workers| == c.workerNum && (c.Private() ==> Private(s))
  {
    InitialInv(c);
    if acts == [] {
    } else {
      AllowedPrefix(c, acts);
      RunKeepsInv(c, acts[..|acts| - 1]);
      var s, a := After(Initial(c), acts[..|acts| - 1]), acts[|acts| - 1];
      assert a in acts;
      StepKeepsInv(s, a);
      StepKeepsSets(s, a);
      SameEpolls(s, Step(s, a));
    }
  }

  lemma StepKeepsListeners(s: State, a: Action)
    requires Enabled(s, a)
    ensures |Step(s, a).workers| == |s.workers|
    ensures forall i :: 0 <= i < |s.workers| ==> Step(s, a).workers[i].listener == s.workers[i].listener
  {
    if a.Handle? {
      HandleFrame(s, a.w, a.call);
    } else if Elsewhere(a) {
      ElsewhereKeepsListeners(s, a);
    }
  }

  lemma ElsewhereKeepsListeners(s: State, a: Action)
    requires Enabled(s, a) && Elsewhere(a)
    ensures |Step(s, a).workers| == |s.workers|
    ensures forall i :: 0 <= i < |s.workers| ==> Step(s, a).workers[i].listener == s.workers[i].listener
  {
  }

  /** Both layouts of start: on every run, with SO_REUSEPORT worker i waits for listener i on
      a set of its own, otherwise all wait for the one listener on one set; so each listener
      has a worker as long as there are any. */
  lemma {:induction false} ListenersAreServed(c: Config, acts: seq<Action>)
    requires c.Valid() && Runs(Initial(c), acts) && Allowed(c, acts)
    ensures var s := After(Initial(c), acts);
            && |s.workers| == c.workerNum
            && (forall i :: 0 <= i < c.workerNum ==>
                  && s.workers[i].listener == c.listeners[if c.reusePort then i else 0]
                  && s.workers[i].epoll == if c.reusePort then i else 0)
            && (c.workerNum > 0 ==>
                  forall k :: 0 <= k < |c.listeners| ==>
                    exists i :: 0 <= i < c.workerNum && s.workers[i].listener == c.listeners[k])
  {
    if acts == [] {
    } else {
      var s, a := After(Initial(c), acts[..|acts| - 1]), acts[|acts| - 1];
      AllowedPrefix(c, acts);
      ListenersAreServed(c, acts[..|acts| - 1]);
      StepKeepsListeners(s, a);
      StepKeepsSets(s, a);
    }
    var t := After(Initial(c), acts);
    forall k | 0 <= k < |c.listeners| && c.workerNum > 0
      ensures exists i :: 0 <= i < c.workerNum && t.workers[i].listener == c.listeners[k]
    {
      assert t.workers[k].listener == c.listeners[k];
    }
  }

  // ---- Ownership, as seen from outside ----

  /** One-shot token conservation: an armed entry and the unreleased occurrences of its
      pointer in all batches and hands are together one token, unless it is parked. */
  lemma {:induction false} TokenConservation(c: Config, acts: seq<Action>, fd: Fd)
    requires c.Valid() && Runs(Initial(c), acts) && Allowed(c, acts)
    requires fd in After(Initial(c), acts).items
    ensures var s := After(Initial(c), acts);
            var p := s.items[fd].ptr;
            Tokens(s, p) == if p in s.parked then 0 else 1
  {
    RunKeepsInv(c, acts);
    var s := After(Initial(c), acts);
    assert Tokens(s, s.items[fd].ptr) <= 1;
  }

  /** Every pointer a worker can still be given, has been given, or is using denotes a
      live object, and the descriptor in that object is still its own connection's. */
  lemma {:induction false} LivePointers(c: Config, acts: seq<Action>)
    requires c.Valid() && Runs(Initial(c), acts) && Allowed(c, acts)
    ensures var s := After(Initial(c), acts);
            && (forall fd :: fd in s.items && s.items[fd].reg.Armed? ==>
                  s.items[fd].ptr in s.heap && s.heap[s.items[fd].ptr].connFd == fd)
            && (forall i :: 0 <= i < |s.workers| ==> PointersLive(s, s.workers[i]))
  {
    RunKeepsInv(c, acts);
    var s := After(Initial(c), acts);
    forall i | 0 <= i < |s.workers| ensures PointersLive(s, s.workers[i]) {
      WorkerPointersLive(s, s.workers[i]);
    }
  }

  // What the worker has not yet looked at, or is using, is live and its descriptor open.
  ghost predicate PointersLive(s: State, w: Worker) {
    && (forall k :: 0 <= k < |w.batch| ==> w.batch[k].ptr in s.heap)
    && (w.pc.Handling? || w.pc.Removing? ==> w.pc.ptr in s.heap && s.heap[w.pc.ptr].connFd in s.open)
  }

  lemma WorkerPointersLive(s: State, w: Worker)
    requires WorkerOk(s, w) && DataHeap(s) && EntryShape(s)
    ensures PointersLive(s, w)
  {
  }

  /** The manager's map and the process's descriptors agree, and insert() always finds
      its key unused. */
  lemma {:induction false} MapAndDescriptorAgreement(c: Config, acts: seq<Action>)
    requires c.Valid() && Runs(Initial(c), acts) && Allowed(c, acts)
    ensures var s := After(Initial(c), acts);
            && (forall fd :: fd in s.data ==>
                  && (fd in s.open || fd in s.listeners)
                  && s.data[fd] in s.heap && s.heap[s.data[fd]].connFd == fd)
            && (forall p :: p in s.heap ==> s.heap[p].connFd in s.data && s.data[s.heap[p].connFd] == p)
            && (forall i :: 0 <= i < |s.workers| && s.workers[i].pc.Inserting? ==> s.workers[i].pc.fd !in s.data)
            && (forall i :: 0 <= i < |s.workers| && s.workers[i].pc.Adding? ==> s.workers[i].pc.ptr != NULL)
  {
    RunKeepsInv(c, acts);
    var s := After(Initial(c), acts);
    forall i | 0 <= i < |s.workers| ensures WorkerOk(s, s.workers[i]) {
    }
  }

  /** No two workers are ever concerned with the same connection. */
  ghost predicate Exclusive(s: State) {
    forall i, j, p :: 0 <= i < |s.workers| && 0 <= j < |s.workers| && i != j && |s.listeners| < p ==>
      Apart(s.workers[i], p) || Apart(s.workers[j], p)
  }

  lemma InvExclusive(s: State)
    requires Inv(s)
    ensures Exclusive(s)
  {
    forall i, j, p | 0 <= i < |s.workers| && 0 <= j < |s.workers| && i != j && |s.listeners| < p
      ensures Apart(s.workers[i], p) || Apart(s.workers[j], p)
    {
      if s.workers[i].pc == Handling(p, Resetting) {
        ResettingApart(s, i, p);
      } else if WorkerClaims(s.workers[i], p) > 0 {
        Sole(s, i, p);
      } else {
        NoOccurrence(s.workers[i].batch, p);
      }
    }
  }

  lemma {:induction false} WorkersExclude(c: Config, acts: seq<Action>)
    requires c.Valid() && Runs(Initial(c), acts) && Allowed(c, acts)
    ensures Exclusive(After(Initial(c), acts))
  {
    RunKeepsInv(c, acts);
    InvExclusive(After(Initial(c), acts));
  }

  // ---- Connections on a run are sequential ----

  /** The object that insert() has just made is a newborn connection. */
  lemma InsertIsBirth(s: State, w: nat)
    requires Inv(s) && CanInsert(s, w)
    ensures Visible(DoInsert(s, w), s.nextPtr) && Newborn(View(DoInsert(s, w), s.nextPtr))
  {
    assert WorkerOk(s, s.workers[w]);
    FreshApart(s);
    SoleView(DoInsert(s, w), w, s.nextPtr);
  }

  // Only insert() brings an object into the heap.
  lemma Births(s: State, a: Action, p: Ptr)
    requires Enabled(s, a) && p !in s.heap && p in Step(s, a).heap
    ensures a.Insert? && p == s.nextPtr
  {
    if a.Handle? {
      HandleFrame(s, a.w, a.call);
    } else if !a.Insert? {
      HeapShrinks(s, a);
    }
  }

  lemma HeapShrinks(s: State, a: Action)
    requires Enabled(s, a) && !a.Insert? && !a.Handle?
    ensures Step(s, a).heap.Keys <= s.heap.Keys
  {
    if Elsewhere(a) {
      HeapElsewhere(s, a);
    }
  }

  lemma HeapElsewhere(s: State, a: Action)
    requires Enabled(s, a) && Elsewhere(a) && !a.Insert?
    ensures Step(s, a).heap.Keys <= s.heap.Keys
  {
  }

  // The successful read() and write() calls that any workers made on p.
  ghost function SuccessesOn(s: State, acts: seq<Action>, p: Ptr): nat
    requires Runs(s, acts)
  {
    if acts == [] then 0
    else
      var before, a := acts[..|acts| - 1], acts[|acts| - 1];
      SuccessesOn(s, before, p) +
      if a.Handle? && After(s, before).workers[a.w].pc.ptr == p then Echo.SuccessOf(Called(a.call)) else 0
  }

  // The run of the automaton grows by the event of one action, if it is one.
  lemma SerialStep(s: State, a: Action, p: Ptr, x: Solo, es: seq<SoloEvent>)
    requires Inv(s) && Enabled(s, a) && Visible(s, p) && p in Step(s, a).heap
    requires SoloRuns(x, es) && SoloFinal(x, es) == View(s, p)
    ensures var es' := es + Listed(EventOf(s, a, p));
            && Visible(Step(s, a), p) && SoloRuns(x, es') && SoloFinal(x, es') == View(Step(s, a), p)
            && Echo.Successes(es') == Echo.Successes(es)
                                      + if a.Handle? && s.workers[a.w].pc.ptr == p
                                        then Echo.SuccessOf(Called(a.call))
                                        else 0
  {
    Simulates(s, a, p);
    FollowOn(x, es, EventOf(s, a, p), View(Step(s, a), p));
  }

  lemma FollowOn(x: Solo, es: seq<SoloEvent>, e: Option<SoloEvent>, y: Solo)
    requires SoloRuns(x, es) && Follows(SoloFinal(x, es), e, y)
    ensures SoloRuns(x, es + Listed(e)) && SoloFinal(x, es + Listed(e)) == y
    ensures Echo.Successes(es + Listed(e)) == Echo.Successes(es) + if e.Some? then Echo.SuccessOf(e.value) else 0
  {
    if e.Some? {
      SoloSnoc(x, es, e.value);
      assert (es + [e.value])[..|es|] == es;
    } else {
      assert es + Listed(e) == es;
    }
  }

  // x, followed by the events of p on the run, is what p has become.
  ghost predicate Projects(c: Config, acts: seq<Action>, p: Ptr, x: Solo)
    requires c.Valid() && Runs(Initial(c), acts)
  {
    var s, es := After(Initial(c), acts), Projection(Initial(c), acts, p);
    && Visible(s, p) && SoloRuns(x, es) && SoloFinal(x, es) == View(s, p)
    && Echo.Successes(es) == SuccessesOn(Initial(c), acts, p)
  }

  lemma SerialGrowth(c: Config, acts: seq<Action>, p: Ptr, x: Solo)
    requires c.Valid() && Runs(Initial(c), acts) && acts != [] && Allowed(c, acts)
    requires |c.listeners| < p && p in After(Initial(c), acts).heap && Projects(c, acts[..|acts| - 1], p, x)
    ensures Projects(c, acts, p, x)
  {
    var before := acts[..|acts| - 1];
    AllowedPrefix(c, acts);
    RunKeepsInv(c, before);
    SerialStep(After(Initial(c), before), acts[|acts| - 1], p, x, Projection(Initial(c), before, p));
  }

  lemma StepBirth(s: State, a: Action, p: Ptr)
    requires Inv(s) && Enabled(s, a) && p !in s.heap && p in Step(s, a).heap
    ensures a.Insert? && p == s.nextPtr && Visible(Step(s, a), p) && Newborn(View(Step(s, a), p))
  {
    Births(s, a, p);
    InsertIsBirth(s, a.w);
  }

  lemma SerialBirth(c: Config, acts: seq<Action>, p: Ptr) returns (x: Solo)
    requires c.Valid() && Runs(Initial(c), acts) && acts != [] && Allowed(c, acts)
    requires |c.listeners| < p && p in After(Initial(c), acts).heap && p !in After(Initial(c), acts[..|acts| - 1]).heap
    ensures Newborn(x) && Projects(c, acts, p, x)
  {
    var before := acts[..|acts| - 1];
    AllowedPrefix(c, acts);
    RunKeepsInv(c, before);
    StepBirth(After(Initial(c), before), acts[|acts| - 1], p);
    UnbornHasNoEvents(c, before, p);
    x := View(After(Initial(c), acts), p);
  }

  /** Serialisation: the events of a live connection on any interleaved run are, in their
      order there, a run of the sequential automaton from its birth to its present state,
      so they are handled one after the other. */
  lemma {:induction false} Serialised(c: Config, acts: seq<Action>, p: Ptr) returns (x: Solo)
    requires c.Valid() && Runs(Initial(c), acts) && Allowed(c, acts)
    requires |c.listeners| < p && p in After(Initial(c), acts).heap
    ensures Newborn(x) && Projects(c, acts, p, x)
  {
    assert acts != [];
    AllowedPrefix(c, acts);
    if p in After(Initial(c), acts[..|acts| - 1]).heap {
      x := Serialised(c, acts[..|acts| - 1], p);
      SerialGrowth(c, acts, p, x);
    } else {
      x := SerialBirth(c, acts, p);
    }
  }

  lemma NextPtrGrows(s: State, a: Action)
    requires Enabled(s, a)
    ensures s.nextPtr <= Step(s, a).nextPtr
  {
    if Elsewhere(a) {
      NextPtrElsewhere(s, a);
    }
  }

  lemma NextPtrElsewhere(s: State, a: Action)
    requires Enabled(s, a) && Elsewhere(a)
    ensures s.nextPtr <= Step(s, a).nextPtr
  {
  }

  lemma {:induction false} UnbornHasNoEvents(c: Config, acts: seq<Action>, p: Ptr)
    requires c.Valid() && Runs(Initial(c), acts) && Allowed(c, acts) && After(Initial(c), acts).nextPtr <= p
    ensures SuccessesOn(Initial(c), acts, p) == 0 && Projection(Initial(c), acts, p) == []
  {
    if acts == [] {
    } else {
      var s := After(Initial(c), acts[..|acts| - 1]);
      AllowedPrefix(c, acts);
      RunKeepsInv(c, acts[..|acts| - 1]);
      NextPtrGrows(s, acts[|acts| - 1]);
      UnbornHasNoEvents(c, acts[..|acts| - 1], p);
    }
  }

  lemma {:induction false} ConnectionInv(c: Config, acts: seq<Action>, p: Ptr)
    requires c.Valid() && Runs(Initial(c), acts) && Allowed(c, acts)
    requires |c.listeners| < p && p in After(Initial(c), acts).heap
    ensures Visible(After(Initial(c), acts), p) && SoloInv(View(After(Initial(c), acts), p))
  {
    var x := Serialised(c, acts, p);
    NewbornInv(x);
    RunInv(x, Projection(Initial(c), acts, p));
  }

  /** Cursors, request lengths and the phase flag of every live connection. */
  lemma {:induction false} ServerCursors(c: Config, acts: seq<Action>, p: Ptr)
    requires c.Valid() && Runs(Initial(c), acts) && Allowed(c, acts)
    requires |c.listeners| < p && p in After(Initial(c), acts).heap
    ensures var s := After(Initial(c), acts);
            Visible(s, p) &&
            var v := View(s, p);
            && 0 <= v.obj.writeIndex <= v.obj.readIndex <= CAPACITY + 1
            && (Echo.Fits(v.sock) ==> v.obj.readIndex <= CAPACITY)
            && (v.obj.readyForWrite ==> v.work.Busy? && v.work.pc == Writing(EAgain))
  {
    ConnectionInv(c, acts, p);
  }

  /** Why a connection is left to nobody: end of file or a full buffer on reading, a
      hangup event, or a failed rearm. */
  lemma {:induction false} ServerParks(c: Config, acts: seq<Action>, p: Ptr)
    requires c.Valid() && Runs(Initial(c), acts) && Allowed(c, acts) && p in After(Initial(c), acts).parked
    ensures var s := After(Initial(c), acts);
            |c.listeners| < p && Visible(s, p) && !ArmedFor(s, p) && Tokens(s, p) == 0 &&
            var v := View(s, p);
            s.parked[p] == EndOfFile ==> v.sock.eof || v.obj.readIndex == CAPACITY + 1
  {
    RunKeepsInv(c, acts);
    ConnectionInv(c, acts, p);
    var s := After(Initial(c), acts);
    TokenConservation(c, acts, s.heap[p].connFd);
  }

  // The actions that leave p to nobody: a zero-length read that ends its read phase, a
  // failed rearm, an event with EPOLLHUP alone, which is skipped.
  ghost predicate LosesToken(s: State, a: Action, p: Ptr)
    requires Enabled(s, a)
  {
    || (a.Handle? && s.workers[a.w].pc.ptr == p
        && (a.call == Mod(false) || (a.call == Read(Eof) && !s.heap[p].readyForWrite)))
    || (a.Take? && s.workers[a.w].batch[0].ptr == p && s.heap[p].connFd != s.workers[a.w].listener
        && s.workers[a.w].batch[0].flags == Flags(false, false, true))
  }

  /** What a worker does with the event at the head of its batch, bit by bit: the listener's
      starts accepting; EPOLLERR and EPOLLRDHUP start closing; EPOLLHUP alone is skipped,
      and only that parks the connection; without any of them it is handled. */
  lemma TakeRoutes(s: State, w: nat, stale: Errno)
    requires CanTake(s, w)
    ensures var e, t := s.workers[w].batch[0], Step(s, Take(w, stale));
            var l := s.heap[e.ptr].connFd == s.workers[w].listener;
            && (t.workers[w].pc == Accepting <==> l)
            && (t.workers[w].pc.Removing? <==> !l && (e.flags.err || e.flags.rdhup))
            && (t.workers[w].pc == Looping <==> !l && e.flags.hup && !e.flags.err && !e.flags.rdhup)
            && (t.workers[w].pc.Handling? <==> !l && !e.flags.hup && !e.flags.err && !e.flags.rdhup)
            && (e.ptr !in s.parked ==> (e.ptr in t.parked <==> !l && e.flags == Flags(false, false, true)))
            && t.workers[w].batch == s.workers[w].batch[1..]
  {
  }

  lemma Parks(s: State, a: Action, p: Ptr)
    requires Enabled(s, a) && p !in s.parked
    ensures p in Step(s, a).parked <==> LosesToken(s, a, p)
  {
    if Elsewhere(a) {
      ElsewhereParks(s, a);
    }
  }

  /** A registered connection that had its one token has none after an action exactly when
      the action is one of the three; every other action passes the token on. */
  lemma {:induction false} TokenIsLost(s: State, a: Action, fd: Fd)
    requires Inv(s) && Enabled(s, a) && Benign(s, a) && fd in s.items && fd in Step(s, a).items
    requires Step(s, a).items[fd].ptr == s.items[fd].ptr && Tokens(s, s.items[fd].ptr) == 1
    ensures Tokens(Step(s, a), s.items[fd].ptr) == if LosesToken(s, a, s.items[fd].ptr) then 0 else 1
  {
    StepKeepsInv(s, a);
    Parks(s, a, s.items[fd].ptr);
    HasOneToken(s, fd);
    HasOneToken(Step(s, a), fd);
  }

  lemma HasOneToken(s: State, fd: Fd)
    requires OneToken(s) && EntryShape(s) && fd in s.items
    ensures Tokens(s, s.items[fd].ptr) == if s.items[fd].ptr in s.parked then 0 else 1
  {
    assert Tokens(s, s.items[fd].ptr) <= 1;
  }

  lemma ElsewhereParks(s: State, a: Action)
    requires Enabled(s, a) && Elsewhere(a)
    ensures Step(s, a).parked == s.parked
  {
  }

  lemma StepKeepsParked(s: State, a: Action, p: Ptr)
    requires Enabled(s, a) && p in s.parked
    ensures p in Step(s, a).parked
  {
    if Elsewhere(a) {
      ElsewhereParks(s, a);
    }
  }

  lemma StepKeepsFd(s: State, a: Action, p: Ptr)
    requires Enabled(s, a) && p in s.heap && p != s.nextPtr && p in Step(s, a).heap
    ensures Step(s, a).heap[p].connFd == s.heap[p].connFd
  {
    if a.Handle? {
      HandleFrame(s, a.w, a.call);
    } else if Elsewhere(a) {
      ElsewhereKeepsFd(s, a, p);
    }
  }

  lemma ElsewhereKeepsFd(s: State, a: Action, p: Ptr)
    requires Enabled(s, a) && Elsewhere(a) && p in s.heap && p != s.nextPtr && p in Step(s, a).heap
    ensures Step(s, a).heap[p].connFd == s.heap[p].connFd
  {
  }

  lemma ParkedIsLive(s: State, p: Ptr)
    requires DataHeap(s) && ParkedShape(s) && p in s.parked
    ensures p in s.heap && p < s.nextPtr
  {
  }

  lemma StepKeepsParkedAlive(s: State, a: Action, p: Ptr)
    requires Inv(s) && Enabled(s, a) && Benign(s, a) && p in s.parked
    ensures p in Step(s, a).parked && p in s.heap && p in Step(s, a).heap
            && Step(s, a).heap[p].connFd == s.heap[p].connFd
  {
    StepKeepsInv(s, a);
    StepKeepsParked(s, a, p);
    ParkedIsLive(s, p);
    ParkedIsLive(Step(s, a), p);
    StepKeepsFd(s, a, p);
  }

  /** Parking is for ever: whatever happens later, the connection keeps its object and its
      open descriptor, and no worker is given it again. */
  lemma {:induction false} ParkedForEver(c: Config, acts: seq<Action>, more: seq<Action>, p: Ptr)
    requires c.Valid() && Runs(Initial(c), acts) && Runs(Initial(c), acts + more) && Allowed(c, acts + more)
    requires p in After(Initial(c), acts).parked
    ensures var s, t := After(Initial(c), acts), After(Initial(c), acts + more);
            && p in t.parked && p in s.heap && Visible(t, p) && t.heap[p].connFd == s.heap[p].connFd
            && Tokens(t, p) == 0 && !ArmedFor(t, p)
  {
    if more == [] {
      assert acts + more == acts;
    } else {
      var rest := more[..|more| - 1];
      assert (acts + more)[..|acts + more| - 1] == acts + rest;
      AllowedPrefix(c, acts + more);
      ParkedForEver(c, acts, rest, p);
      RunKeepsInv(c, acts + rest);
      StepKeepsParkedAlive(After(Initial(c), acts + rest), (acts + more)[|acts + more| - 1], p);
    }
    ServerParks(c, acts + more, p);
  }

  /** All workers together make at most two successful calls for each byte received. */
  lemma {:induction false} ServerEffort(c: Config, acts: seq<Action>, p: Ptr)
    requires c.Valid() && Runs(Initial(c), acts) && Allowed(c, acts)
    requires |c.listeners| < p && p in After(Initial(c), acts).heap
    ensures Visible(After(Initial(c), acts), p)
    ensures SuccessesOn(Initial(c), acts, p) <= 2 * |View(After(Initial(c), acts), p).sock.received|
  {
    var x := Serialised(c, acts, p);
    var es := Projection(Initial(c), acts, p);
    NewbornInv(x);
    Echo.SuccessesAreBounded(x, es);
    Echo.Arrivals(x, es);
  }

  // ---- Byte streams of all connections, open or closed ----

  ghost predicate Echoed(k: Socket) {
    k.Faithful() && (!k.readError ==> k.base == 0 && k.sentBase == 0)
  }

  lemma SendsKeepEchoed(k: Socket, bytes: seq<byte>)
    requires Echoed(k)
    ensures Echoed(k.Arrive(bytes)) && Echoed(k.Shut())
  {
    assert k.Arrive(bytes).received[k.base..k.taken] == k.received[k.base..k.taken];
  }

  // Where the sockets of a step come from.
  lemma StepSockets(s: State, a: Action, k: nat)
    requires Enabled(s, a) && k in Step(s, a).sockets
    ensures var k' := Step(s, a).sockets[k];
            || (k in s.sockets && k' == s.sockets[k])
            || k' == NewSocket()
            || (k in s.sockets && a.Sends? && k' == s.sockets[k].Arrive(a.bytes))
            || (k in s.sockets && a.Shuts? && k' == s.sockets[k].Shut())
            || (k in s.sockets && a.Handle?
                && k' == Advance(s.heap[s.workers[a.w].pc.ptr], s.sockets[k], s.workers[a.w].pc.h, a.call).sock
                && CallEnabled(s.heap[s.workers[a.w].pc.ptr], s.sockets[k], s.workers[a.w].pc.h, a.call)
                && s.open[s.heap[s.workers[a.w].pc.ptr].connFd] == k)
  {
    if !a.Handle? && !a.Accept? && !a.Sends? && !a.Shuts? {
      QuietSockets(s, a);
    }
  }

  lemma QuietSockets(s: State, a: Action)
    requires Enabled(s, a) && !a.Handle? && !a.Accept? && !a.Sends? && !a.Shuts?
    ensures Step(s, a).sockets == s.sockets
  {
    if Elsewhere(a) {
      ElsewhereSockets(s, a);
    }
  }

  lemma ElsewhereSockets(s: State, a: Action)
    requires Enabled(s, a) && Elsewhere(a) && !a.Accept?
    ensures Step(s, a).sockets == s.sockets
  {
  }

  predicate HandlesSocket(s: State, a: Action, k: nat)
  {
    && a.Handle? && a.w < |s.workers| && s.workers[a.w].pc.Handling? && s.workers[a.w].pc.ptr in s.heap
    && s.heap[s.workers[a.w].pc.ptr].connFd in s.open && s.open[s.heap[s.workers[a.w].pc.ptr].connFd] == k
  }

  lemma SocketStep(s: State, a: Action, k: nat)
    requires Enabled(s, a) && k in Step(s, a).sockets && (k in s.sockets ==> Echoed(s.sockets[k]))
    ensures HandlesSocket(s, a, k) || Echoed(Step(s, a).sockets[k])
    ensures (k in s.sockets ==> !s.sockets[k].readError) && !(a.Handle? && a.call == Read(ReadFailed))
            ==> !Step(s, a).sockets[k].readError
  {
    StepSockets(s, a, k);
    if k in s.sockets {
      SendsKeepEchoed(s.sockets[k], if a.Sends? then a.bytes else []);
    }
    assert Echoed(NewSocket());
  }

  lemma {:induction false} AllEchoed(c: Config, acts: seq<Action>, k: nat)
    requires c.Valid() && Runs(Initial(c), acts) && Allowed(c, acts)
    requires k in After(Initial(c), acts).sockets
    ensures var k' := After(Initial(c), acts).sockets[k];
            Echoed(k') && (NoHardReadError(acts) ==> !k'.readError)
  {
    assert acts != [];
    var before, a := acts[..|acts| - 1], acts[|acts| - 1];
    var s := After(Initial(c), before);
    AllowedPrefix(c, acts);
    assert a in acts && forall b :: b in before ==> b in acts;
    if k in s.sockets {
      AllEchoed(c, before, k);
    }
    SocketStep(s, a, k);
    if HandlesSocket(s, a, k) {
      HandledEchoed(c, acts);
    }
  }

  // After a handler's call the socket is that of a live, hence faithful, connection.
  lemma HandledEchoed(c: Config, acts: seq<Action>)
    requires c.Valid() && Runs(Initial(c), acts) && Allowed(c, acts) && acts != [] && acts[|acts| - 1].Handle?
    ensures var s, a := After(Initial(c), acts[..|acts| - 1]), acts[|acts| - 1];
            var k := s.open[s.heap[s.workers[a.w].pc.ptr].connFd];
            k in After(Initial(c), acts).sockets && Echoed(After(Initial(c), acts).sockets[k])
  {
    var s, a := After(Initial(c), acts[..|acts| - 1]), acts[|acts| - 1];
    var p := s.workers[a.w].pc.ptr;
    AllowedPrefix(c, acts);
    RunKeepsInv(c, acts[..|acts| - 1]);
    HandlerAlone(s, a.w, a.call);
    HandleFrame(s, a.w, a.call);
    ConnectionInv(c, acts, p);
    Echo.InvFaithful(View(After(Initial(c), acts), p));
  }

  /** Echo fidelity of the server: on every connection ever accepted, since the last
      rewind of its buffer the output is a prefix of the input; without hard read
      errors the whole output is a prefix of the whole input. */
  lemma {:induction false} ServerEchoes(c: Config, acts: seq<Action>, k: nat)
    requires c.Valid() && Runs(Initial(c), acts) && Allowed(c, acts)
    requires k in After(Initial(c), acts).sockets
    ensures var k' := After(Initial(c), acts).sockets[k];
            && k'.Faithful()
            && (NoHardReadError(acts) ==> k'.sent <= k'.received)
  {
    AllEchoed(c, acts, k);
    var k' := After(Initial(c), acts).sockets[k];
    if NoHardReadError(acts) {
      assert k'.sent[0..] == k'.sent && k'.received[0..k'.taken] == k'.received[..k'.taken];
    }
  }

  /** A live connection armed for read, with nothing unread, has echoed everything. */
  lemma {:induction false} ServerInterestMatchesBacklog(c: Config, acts: seq<Action>, p: Ptr)
    requires c.Valid() && Runs(Initial(c), acts) && Allowed(c, acts)
    requires |c.listeners| < p && p in After(Initial(c), acts).heap && ArmedFor(After(Initial(c), acts), p)
    ensures var s := After(Initial(c), acts);
            Visible(s, p) &&
            var v := View(s, p);
            v.reg == Armed(In) && v.work == Free && !v.sock.writeError ==>
              && v.obj.writeIndex == v.obj.readIndex
              && (NoHardReadError(acts) && v.sock.Unread() == 0 ==> v.sock.sent == v.sock.received)
  {
    ConnectionInv(c, acts, p);
    var s := After(Initial(c), acts);
    AllEchoed(c, acts, s.open[s.heap[p].connFd]);
    var v := View(s, p);
    if v.reg == Armed(In) && v.work == Free && !v.sock.writeError && NoHardReadError(acts) && v.sock.Unread() == 0 {
      Echo.QuietIsEchoed(v);
    }
  }

  // ---- No worker ever blocks outside epoll_wait ----

  // A call the kernel may answer, for a handler that is about to make one.
  lemma SomeCall(x: Solo) returns (call: Call)
    requires SoloInv(x) && x.work.Busy? && x.reg != Unregistered
    ensures CallEnabled(x.obj, x.sock, x.work.pc, call) && call != Mod(true) && call != Read(ReadFailed)
  {
    match x.work.pc
    case Reading(_) => call := Read(if x.obj.ReadRequest() == 0 then Eof else ReadAgain);
    case Writing(_) => call := Write(WroteNothing);
    case Rearming(_, _) => call := Mod(false);
    case Resetting => call := Reset;
  }

  function ActorOf(a: Action): Option<nat> {
    match a
    case Sends(_, _) => None
    case Shuts(_) => None
    case _ => Some(a.w)
  }

  // The next action of a worker that is neither waiting nor in a handler.
  lemma PlainStep(s: State, i: nat) returns (a: Action)
    requires i < |s.workers| && WorkerOk(s, s.workers[i]) && DataHeap(s) && EntryShape(s)
    requires s.workers[i].pc != Waiting && !s.workers[i].pc.Handling?
    ensures Enabled(s, a) && ActorOf(a) == Some(i)
  {
    match s.workers[i].pc
    case Looping =>
      WorkerPointersLive(s, s.workers[i]);
      a := if s.workers[i].batch == [] then Wait(i) else Take(i, EOther);
    case Accepting => a := AcceptStops(i);
    case Inserting(_) => a := Insert(i);
    case Adding(_, _) => a := Add(i, true);
    case Removing(_, _) => a := Remove(i);
    case Deleting(_, _) => a := Delete(i);
    case Closing(_, _) => a := Close(i);
  }

  /** Whatever the others have done to the shared tables, a worker outside epoll_wait
      has a step: it never finds its object destroyed or its descriptor closed. */
  lemma {:induction false} WorkerHasStep(c: Config, acts: seq<Action>, i: nat) returns (a: Action)
    requires c.Valid() && Runs(Initial(c), acts) && Allowed(c, acts) && i < |After(Initial(c), acts).workers|
    requires After(Initial(c), acts).workers[i].pc != Waiting
    ensures Enabled(After(Initial(c), acts), a) && ActorOf(a) == Some(i)
  {
    RunKeepsInv(c, acts);
    var s := After(Initial(c), acts);
    if s.workers[i].pc.Handling? {
      HandlerIsVisible(s, i);
      ConnectionInv(c, acts, s.workers[i].pc.ptr);
      HandlerView(s, i, s.workers[i].pc.ptr);
      a := HandlerStep(s, i);
    } else {
      assert WorkerOk(s, s.workers[i]);
      a := PlainStep(s, i);
    }
  }

  lemma HandlerIsVisible(s: State, i: nat)
    requires Inv(s) && i < |s.workers| && s.workers[i].pc.Handling?
    ensures |s.listeners| < s.workers[i].pc.ptr && s.workers[i].pc.ptr in s.heap
  {
    assert WorkerOk(s, s.workers[i]);
  }

  lemma HandlerStep(s: State, i: nat) returns (a: Action)
    requires i < |s.workers| && s.workers[i].pc.Handling? && Visible(s, s.workers[i].pc.ptr)
    requires SoloInv(View(s, s.workers[i].pc.ptr)) && View(s, s.workers[i].pc.ptr).reg != Unregistered
    requires View(s, s.workers[i].pc.ptr).work == Busy(s.workers[i].pc.h)
    ensures Enabled(s, a) && ActorOf(a) == Some(i)
  {
    var call := SomeCall(View(s, s.workers[i].pc.ptr));
    a := Handle(i, call);
  }

  // The view of a connection in a handler's hands shows that handler.
  lemma HandlerView(s: State, i: nat, p: Ptr)
    requires Inv(s) && i < |s.workers| && s.workers[i].pc.Handling? && s.workers[i].pc.ptr == p && Visible(s, p)
    ensures View(s, p).work == Busy(s.workers[i].pc.h) && View(s, p).reg != Unregistered
  {
    assert WorkerOk(s, s.workers[i]);
    if s.workers[i].pc.h == Resetting {
      ResettingApart(s, i, p);
    } else {
      Sole(s, i, p);
    }
    SoleView(s, i, p);
  }

  /** A registered connection that is not parked is always in somebody's care: its entry
      can be reported to a worker of its set, or that set's workers have steps to take,
      or the one worker that has it has. */
  lemma {:induction false} NeverForgotten(c: Config, acts: seq<Action>, fd: Fd) returns (i: nat, a: Action)
    requires c.Valid() && Runs(Initial(c), acts) && Allowed(c, acts)
    requires var s := After(Initial(c), acts); fd in s.items && s.items[fd].ptr !in s.parked
    ensures var s := After(Initial(c), acts);
            && i < |s.workers| && Enabled(s, a) && ActorOf(a) == Some(i) && s.workers[i].epoll == s.items[fd].epoll
            && (if s.items[fd].reg.Armed?
                then (a.Report? && a.fd == fd) || s.workers[i].pc != Waiting || |s.workers[i].batch| >= MAX_EVENTS
                else !Apart(s.workers[i], s.items[fd].ptr))
  {
    RunKeepsInv(c, acts);
    var s := After(Initial(c), acts);
    var p := s.items[fd].ptr;
    TokenConservation(c, acts, fd);
    if s.items[fd].reg.Armed? {
      i := s.items[fd].epoll;
    } else {
      i := ClaimWitness(s.workers, p);
      HolderShares(s, i, fd);
    }
    if s.workers[i].pc != Waiting {
      a := WorkerHasStep(c, acts, i);
    } else if s.items[fd].reg.Armed? && |s.workers[i].batch| < MAX_EVENTS {
      a := Report(i, fd, CALM);
    } else {
      a := Return(i);
    }
  }

  lemma ClaimWitness(ws: seq<Worker>, p: Ptr) returns (i: nat)
    requires Claims(ws, p) > 0
    ensures i < |ws| && WorkerClaims(ws[i], p) > 0
  {
    i := |ws| - 1;
    if WorkerClaims(ws[i], p) == 0 {
      i := ClaimWitness(ws[..i], p);
    }
  }

  lemma HolderShares(s: State, i: nat, fd: Fd)
    requires Inv(s) && i < |s.workers| && fd in s.items && WorkerClaims(s.workers[i], s.items[fd].ptr) > 0
    ensures s.workers[i].epoll == s.items[fd].epoll && !Apart(s.workers[i], s.items[fd].ptr)
    ensures s.workers[i].pc == Waiting ==> s.workers[i].batch != []
  {
    var p := s.items[fd].ptr;
    assert WorkerOk(s, s.workers[i]);
    if Occurs(s.workers[i].batch, p) > 0 {
      var k := OccursWitness(s.workers[i].batch, p);
    }
  }
}
