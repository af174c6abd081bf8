// Why hard read errors matter: handleConnectionEvent rearms the connection before
// it resets the object, so with a shared epoll set a second worker can be handed the
// connection, and even destroy the object, in between.
module SharedSetRace {
  import opened Sockets
  import opened EchoConnection
  import opened Workers
  import opened Ownership
  import opened Conservation
  import opened Serialisation
  import opened EchoServer

  // A worker is about to use an object that no longer exists.
  ghost predicate Dangling(s: State) {
    exists i :: 0 <= i < |s.workers| && s.workers[i].pc.Handling? && s.workers[i].pc.ptr !in s.heap
  }

  const BROKEN := Flags(true, false, false)

  ghost predicate Extends(s: State, acts: seq<Action>, t: State) {
    Runs(s, acts) && After(s, acts) == t
  }

  lemma Extend(s: State, acts: seq<Action>, t: State, a: Action) returns (acts': seq<Action>)
    requires Extends(s, acts, t) && Enabled(t, a)
    ensures Extends(s, acts', Step(t, a))
  {
    acts' := acts + [a];
    RunsSnoc(s, acts, a);
  }

  ghost predicate Idle(w: Worker, l: Fd) {
    w == Worker(0, l, [], Waiting)
  }

  // Two workers wait on set 0, in which connection p is armed for read.
  ghost predicate Accepted(s: State, l: Fd, fd: Fd, p: Ptr) {
    && |s.workers| >= 2 && Idle(s.workers[0], l) && Idle(s.workers[1], l) && l != fd
    && |s.listeners| < p && p in s.heap && s.heap[p] == NewConn(fd) && fd in s.data && s.data[fd] == p
    && fd in s.open && s.open[fd] in s.sockets && s.sockets[s.open[fd]] == NewSocket()
    && fd in s.items && s.items[fd] == Item(0, p, Armed(In))
  }

  lemma InitialShared(c: Config)
    requires c.Valid() && !c.Private()
    ensures |c.listeners| == 1 && |Initial(c).workers| >= 2
    ensures Idle(Initial(c).workers[0], c.listeners[0]) && Idle(Initial(c).workers[1], c.listeners[0])
    ensures Initial(c).data == map[c.listeners[0] := 1] && Initial(c).heap == map[1 := NewConn(c.listeners[0])]
  {
    assert c.listeners == [c.listeners[0]];
    assert c.listeners[..0] == [];
  }

  lemma ReachAccepting(c: Config) returns (acts: seq<Action>, s: State, l: Fd)
    requires c.Valid() && !c.Private()
    ensures Extends(Initial(c), acts, s) && c.listeners == [l] && s.listeners == [l] && |s.workers| >= 2
    ensures s.workers[0] == Worker(0, l, [], Accepting) && Idle(s.workers[1], l)
    ensures s == Initial(c).(workers := s.workers)
  {
    InitialShared(c);
    l := c.listeners[0];
    acts, s := TakeListener(Initial(c), [], Initial(c), l);
  }

  lemma TakeListener(s0: State, acts0: seq<Action>, s1: State, l: Fd) returns (acts: seq<Action>, s: State)
    requires Extends(s0, acts0, s1) && |s1.workers| >= 2 && Idle(s1.workers[0], l)
    requires l in s1.data && s1.data[l] in s1.heap && s1.heap[s1.data[l]].connFd == l
    ensures Extends(s0, acts, s) && s == s1.(workers := s1.workers[0 := Worker(0, l, [], Accepting)])
  {
    s := s1;
    acts := Extend(s0, acts0, s, ReportListener(0, CALM)); s := Step(s, ReportListener(0, CALM));
    acts := Extend(s0, acts, s, Return(0)); s := Step(s, Return(0));
    assert s.workers[0].batch == [Event(s1.data[l], CALM)];
    acts := Extend(s0, acts, s, Take(0, EOther)); s := Step(s, Take(0, EOther));
    assert [Event(s1.data[l], CALM)][1..] == [];
    assert s.workers[0] == Worker(0, l, [], Accepting);
    assert s.workers == s1.workers[0 := Worker(0, l, [], Accepting)];
  }

  lemma AcceptOne(s0: State, acts0: seq<Action>, s1: State, l: Fd, fd: Fd) returns (acts: seq<Action>, s: State)
    requires Extends(s0, acts0, s1) && s1.listeners == [l] && |s1.workers| >= 2 && 0 <= fd && fd != l
    requires s1.workers[0] == Worker(0, l, [], Accepting) && Idle(s1.workers[1], l)
    requires fd !in s1.open && fd !in s1.data && 1 < s1.nextPtr
    ensures Extends(s0, acts, s) && |s.workers| >= 2 && s.workers[0] == Worker(0, l, [], Accepting)
    ensures Accepted(s.(workers := s.workers[0 := Worker(0, l, [], Waiting)]), l, fd, s1.nextPtr)
  {
    s := s1;
    acts := Extend(s0, acts0, s, Accept(0, fd)); s := Step(s, Accept(0, fd));
    acts := Extend(s0, acts, s, Insert(0)); s := Step(s, Insert(0));
    acts := Extend(s0, acts, s, Add(0, true)); s := Step(s, Add(0, true));
  }

  lemma ReachAccepted(c: Config) returns (acts: seq<Action>, s: State, l: Fd, fd: Fd, p: Ptr)
    requires c.Valid() && !c.Private()
    ensures Extends(Initial(c), acts, s) && Accepted(s, l, fd, p)
  {
    acts, s, l := ReachAccepting(c);
    fd := if l == 0 then 1 else 0;
    p := s.nextPtr;
    acts, s := AcceptOne(Initial(c), acts, s, l, fd);
    acts := Extend(Initial(c), acts, s, AcceptStops(0)); s := Step(s, AcceptStops(0));
    acts := Extend(Initial(c), acts, s, Wait(0)); s := Step(s, Wait(0));
  }

  // Worker w takes the event of p out of epoll_wait.
  lemma TakeEvent(s0: State, acts0: seq<Action>, s1: State, w: nat, l: Fd, fd: Fd, p: Ptr, flags: Flags)
    returns (acts: seq<Action>, s: State)
    requires Extends(s0, acts0, s1) && w < |s1.workers| && Idle(s1.workers[w], l) && l != fd
    requires fd in s1.items && s1.items[fd] == Item(0, p, Armed(In))
    requires p in s1.heap && s1.heap[p].connFd == fd && !s1.heap[p].readyForWrite && (flags == CALM || flags == BROKEN)
    ensures Extends(s0, acts, s) && |s.workers| == |s1.workers|
    ensures s.workers[w] == Worker(0, l, [], if flags == CALM then Handling(p, Reading(EOther)) else Removing(p, fd))
    ensures forall j :: 0 <= j < |s.workers| && j != w ==> s.workers[j] == s1.workers[j]
    ensures s == s1.(workers := s.workers, items := s1.items[fd := Item(0, p, Disarmed)])
  {
    s := s1;
    acts := Extend(s0, acts0, s, Report(w, fd, flags)); s := Step(s, Report(w, fd, flags));
    acts := Extend(s0, acts, s, Return(w)); s := Step(s, Return(w));
    assert s.workers[w].batch == [Event(p, flags)];
    acts := Extend(s0, acts, s, Take(w, EOther)); s := Step(s, Take(w, EOther));
  }

  // Worker 0 meets a hard read error and rearms p before resetting it.
  lemma RearmBeforeReset(s0: State, acts0: seq<Action>, s1: State, l: Fd, fd: Fd, p: Ptr)
    returns (acts: seq<Action>, s: State)
    requires Extends(s0, acts0, s1) && |s1.workers| >= 2 && Idle(s1.workers[1], l)
    requires s1.workers[0] == Worker(0, l, [], Handling(p, Reading(EOther))) && l != fd
    requires p in s1.heap && s1.heap[p] == NewConn(fd) && fd in s1.data && s1.data[fd] == p
    requires fd in s1.open && s1.open[fd] in s1.sockets && s1.sockets[s1.open[fd]] == NewSocket()
    requires fd in s1.items && s1.items[fd] == Item(0, p, Disarmed)
    ensures Extends(s0, acts, s) && |s.workers| >= 2 && Idle(s.workers[1], l) && s.listeners == s1.listeners
    ensures s.workers[0] == Worker(0, l, [], Handling(p, Resetting))
    ensures p in s.heap && s.heap[p] == NewConn(fd) && fd in s.data && s.data[fd] == p
    ensures fd in s.items && s.items[fd] == Item(0, p, Armed(In))
  {
    s := s1;
    acts := Extend(s0, acts0, s, Handle(0, Read(ReadFailed))); s := Step(s, Handle(0, Read(ReadFailed)));
    acts := Extend(s0, acts, s, Handle(0, Mod(true))); s := Step(s, Handle(0, Mod(true)));
  }

  /** With a shared set and two workers there is a run in which both are at work on one
      connection and the first is about to reset an object the second has destroyed. */
  lemma {:induction false} SharedSetRaces(c: Config) returns (acts: seq<Action>)
    requires c.Valid() && !c.Private()
    ensures Runs(Initial(c), acts)
    ensures !Exclusive(After(Initial(c), acts)) && Dangling(After(Initial(c), acts))
  {
    var s, l, fd, p;
    acts, s, l, fd, p := ReachAccepted(c);
    acts, s := TakeEvent(Initial(c), acts, s, 0, l, fd, p, CALM);
    acts, s := RearmBeforeReset(Initial(c), acts, s, l, fd, p);
    acts, s := TakeEvent(Initial(c), acts, s, 1, l, fd, p, BROKEN);
    acts := Extend(Initial(c), acts, s, Remove(1)); s := Step(s, Remove(1));
    assert s.workers[0].pc.ptr !in s.heap;
    assert !Apart(s.workers[0], p) && !Apart(s.workers[1], p);
  }

  ghost predicate RunsSafely(c: Config, acts: seq<Action>)
    requires c.Valid()
  {
    Runs(Initial(c), acts) ==> Exclusive(After(Initial(c), acts)) && !Dangling(After(Initial(c), acts))
  }

  /** All runs, hard read errors included, keep workers apart and objects alive exactly
      when no two workers share an epoll set. */
  lemma {:induction false} SafeExactlyWhenPrivate(c: Config)
    requires c.Valid()
    ensures (forall acts :: RunsSafely(c, acts)) <==> c.Private()
  {
    if c.Private() {
      forall acts ensures RunsSafely(c, acts) {
        if Runs(Initial(c), acts) {
          WorkersExclude(c, acts);
          LivePointers(c, acts);
          assert forall i :: 0 <= i < |After(Initial(c), acts).workers| ==>
              PointersLive(After(Initial(c), acts), After(Initial(c), acts).workers[i]);
        }
      }
    } else {
      var acts := SharedSetRaces(c);
      assert !RunsSafely(c, acts);
    }
  }
}
