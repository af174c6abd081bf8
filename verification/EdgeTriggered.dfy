// The edge-triggered epoll loop: events name descriptors, the listener's edge is
// consumed when it is reported, clients are one-shot.  Connections may arrive at the
// accept queue before every call of the loop.
module EdgeTriggered {
  import opened Sockets

  // The event bits the loop acts on; the others it only logs.
  datatype Bits = Bits(rdhup: bool, readable: bool)

  datatype Event = Event(fd: int, bits: Bits) {
    predicate Acted() { bits.rdhup || bits.readable }
  }

  const MAX_EVENTS := 10000

  // The events among `batch` that the loop makes calls for, with the connection each was
  // reported for, if `at` is the table when it was reported; the listener denotes none.
  function Reported(batch: seq<Event>, at: map<int, nat>): seq<Handled> {
    if batch == [] then []
    else
      var e := batch[|batch| - 1];
      Reported(batch[..|batch| - 1], at)
      + if e.Acted() then [Handled(e.fd, if e.fd in at then Some(at[e.fd]) else None)] else []
  }

  lemma {:induction false} ReportedNames(batch: seq<Event>, at: map<int, nat>)
    ensures forall h :: h in Reported(batch, at) ==> exists k :: 0 <= k < |batch| && batch[k].fd == h.fd
  {
    if batch == [] {
    } else {
      var front := batch[..|batch| - 1];
      ReportedNames(front, at);
      forall h | h in Reported(batch, at) ensures exists k :: 0 <= k < |batch| && batch[k].fd == h.fd {
        if h in Reported(front, at) {
          var k :| 0 <= k < |front| && front[k].fd == h.fd;
          assert batch[k].fd == h.fd;
        } else {
          assert batch[|batch| - 1].fd == h.fd;
        }
      }
    }
  }

  // The first answer that is not data ends a read loop; after all of them read() returns
  // EAGAIN.
  function Drained(answers: seq<ReadResult>): (r: ReadResult)
    ensures !r.Got?
    ensures (forall k :: 0 <= k < |answers| ==> answers[k].Got?) ==> r.ReadAgain?
  {
    if answers == [] then ReadAgain else if answers[0].Got? then Drained(answers[1..]) else answers[0]
  }

  // The answers the loop leaves for later.
  function Rest(answers: seq<ReadResult>): seq<ReadResult> {
    if answers == [] then [] else if answers[0].Got? then Rest(answers[1..]) else answers[1..]
  }

  /** In terms of the answers: data goes on, and the first other answer decides. */
  lemma {:induction false} DrainedMeans(answers: seq<ReadResult>, k: nat)
    requires k < |answers| && !answers[k].Got? && forall j :: 0 <= j < k ==> answers[j].Got?
    ensures Drained(answers) == answers[k] && Rest(answers) == answers[k + 1..]
  {
    if k == 0 {
    } else {
      DrainedMeans(answers[1..], k - 1);
    }
  }

  // ---- The kernel ----

  /** What the kernel holds for the loop.  `answers` is what read() will be answered on each
      connection, fixed beforehand; `reported` is the batch of the last epoll_wait and
      `waits` counts them; `touched` lists the descriptors that calls have been made on
      since; `failed` says that a call has failed in a way that is an exception. */
  datatype World = World(
    open: map<int, nat>,     // client descriptors and their connections
    items: map<int, bool>,   // client entries: armed or not
    answers: map<nat, seq<ReadResult>>,
    nextConn: nat,
    queue: nat,              // connections waiting in the accept queue
    edge: bool,              // the listener is on the ready list
    future: nat,             // connections that will still arrive
    reported: seq<Event>,
    waits: nat,
    touched: seq<Handled>,
    failed: bool)
  {
    ghost predicate Sane(listener: int) {
      && 0 <= listener && listener !in open && items.Keys <= open.Keys
      && (forall fd :: fd in open ==> open[fd] < nextConn && open[fd] in answers)
      && (forall fd, fd' :: fd in open && fd' in open && fd != fd' ==> open[fd] != open[fd'])
    }

    function Touch(h: Handled): World {
      if touched != [] && touched[|touched| - 1] == h then this else this.(touched := touched + [h])
    }
  }

  // Connections arrive, each raising an edge, or give up waiting.
  ghost predicate Arrives(s: World, t: World) {
    && t == s.(queue := t.queue, edge := t.edge, future := t.future)
    && (s.edge ==> t.edge) && t.queue + t.future <= s.queue + s.future && (t.queue > s.queue ==> t.edge)
  }

  // From u to t nothing has changed but the listener's queue and the record of calls.
  ghost predicate Quietly(u: World, t: World) {
    t == u.(queue := t.queue, edge := t.edge, future := t.future, touched := t.touched)
  }

  // A connection that has come has raised an edge, and no edge has gone.
  ghost predicate EdgeKept(s: World, t: World) {
    (s.edge ==> t.edge) && (t.queue > s.queue ==> t.edge)
  }

  class Kernel {
    const listener: int
    var now: World

    constructor (listener: int, now: World)
      ensures this.listener == listener && this.now == now
    {
      this.listener, this.now := listener, now;
    }

    method Environment()
      modifies this
      ensures Arrives(old(now), now)
    {
      var come: int, go: int := *, *;
      if 0 < come <= now.future {
        now := now.(queue := now.queue + come, future := now.future - come, edge := true);
      }
      if 0 <= go <= now.queue {
        now := now.(queue := now.queue - go);
      }
    }

    // epoll_wait: the listener's edge and the arms of the reported clients are consumed.
    method EpollWait() returns (nfds: int, batch: seq<Event>)
      requires now.Sane(listener) && !now.failed
      modifies this
      ensures now.reported == batch && now.failed == (nfds == -1)
      ensures if nfds == -1 then batch == [] else nfds == |batch| <= MAX_EVENTS
      ensures exists u :: Arrives(old(now), u) && Deliverable(listener, u, batch)
                          && now == Delivered(listener, u, batch, nfds == -1)
    {
      Environment();
      ghost var u := now;
      var fails: bool, chosen: seq<Event> := *, *;
      if fails || !Deliverable(listener, now, chosen) {
        chosen := [];
      }
      now := Delivered(listener, now, chosen, fails);
      assert Arrives(old(now), u);
      batch := chosen;
      nfds := if fails then -1 else |batch|;
    }

    // accept4 on the listener: a connection of the queue, EAGAIN when it is empty, or a
    // hard error.
    method Accept4() returns (fd: int, errno: Errno)
      requires now.Sane(listener) && !now.failed
      modifies this
      ensures now.Sane(listener)
      ensures exists u :: Arrives(old(now), u) &&
                var t := u.Touch(Handled(listener, None));
                if fd >= 0
                then && u.queue > 0 && fd !in u.open && fd != listener && u.nextConn in now.answers
                     && now == Joined(t, fd, now.answers[u.nextConn])
                else now == t.(failed := errno != EAgain) && (errno == EAgain ==> u.queue == 0)
    {
      Environment();
      ghost var u := now;
      var answers: seq<ReadResult> := *;
      fd, errno := *, *;
      if fd in now.open || fd == listener || now.queue == 0 {
        fd := -1;
      }
      now := now.Touch(Handled(listener, None));
      if fd >= 0 {
        now := Joined(now, fd, answers);
      } else {
        errno := if now.queue > 0 then EOther else errno;
        now := now.(failed := errno != EAgain);
      }
      assert Arrives(old(now), u);
    }

    // EPOLL_CTL_ADD and EPOLL_CTL_MOD of a client; a failure is an exception.
    method Arm(fd: int) returns (ok: bool)
      requires fd in now.open
      modifies this
      ensures exists u :: Arrives(old(now), u)
                          && now == if ok then u.(items := u.items[fd := true]) else u.(failed := true)
    {
      Environment();
      ghost var u := now;
      ok := *;
      now := if ok then now.(items := now.items[fd := true]) else now.(failed := true);
      assert Arrives(old(now), u);
    }

    // EPOLL_CTL_DEL.
    method Disregard(fd: int)
      requires fd in now.open
      modifies this
      ensures Quietly(old(now).(items := old(now).items - {fd}), now) && EdgeKept(old(now), now)
      ensures now.touched == old(now).Touch(Handled(fd, Some(old(now).open[fd]))).touched
    {
      Environment();
      now := now.Touch(Handled(fd, Some(now.open[fd]))).(items := now.items - {fd});
    }

    method Close(fd: int)
      requires fd in now.open
      modifies this
      ensures Quietly(old(now).(open := old(now).open - {fd}, items := old(now).items - {fd}), now)
      ensures EdgeKept(old(now), now)
      ensures now.touched == old(now).Touch(Handled(fd, Some(old(now).open[fd]))).touched
    {
      Environment();
      now := now.Touch(Handled(fd, Some(now.open[fd]))).(open := now.open - {fd}, items := now.items - {fd});
    }

    // read(): the connection's next answer.
    method Read(fd: int) returns (r: ReadResult)
      requires fd in now.open && now.open[fd] in now.answers
      modifies this
      ensures exists u :: Arrives(old(now), u)
                && var c := u.open[fd];
                   var a := u.answers[c];
                   && r == (if a == [] then ReadAgain else a[0])
                   && now == u.Touch(Handled(fd, Some(c))).(answers := u.answers[c := if a == [] then [] else a[1..]])
    {
      Environment();
      ghost var u := now;
      var c := now.open[fd];
      var a := now.answers[c];
      r := if a == [] then ReadAgain else a[0];
      now := now.Touch(Handled(fd, Some(c))).(answers := now.answers[c := if a == [] then [] else a[1..]]);
      assert Arrives(old(now), u);
    }
  }

  // A connection of the queue has got descriptor fd.
  function Joined(s: World, fd: int, answers: seq<ReadResult>): World
    requires s.queue > 0
  {
    s.(open := s.open[fd := s.nextConn], answers := s.answers[s.nextConn := answers], nextConn := s.nextConn + 1,
       queue := s.queue - 1)
  }

  // Is a readable event of the listener left in the batch from k on?
  ghost predicate ListenerReadable(listener: int, batch: seq<Event>, k: nat) {
    exists j :: k <= j < |batch| && batch[j].fd == listener && batch[j].bits.readable
  }

  // A batch names distinct descriptors: clients that are armed, and the listener only if
  // it has an edge.  The listener, registered without EPOLLRDHUP, is readable while its
  // queue is not empty.
  predicate Deliverable(listener: int, s: World, batch: seq<Event>) {
    && |batch| <= MAX_EVENTS
    && (forall i, j :: 0 <= i < j < |batch| ==> batch[i].fd != batch[j].fd)
    && (forall k :: 0 <= k < |batch| ==>
          if batch[k].fd == listener then s.edge && batch[k].bits == Bits(false, s.queue > 0)
          else batch[k].fd in s.items && s.items[batch[k].fd])
  }

  function Delivered(listener: int, s: World, batch: seq<Event>, fails: bool): World {
    s.(items := map fd | fd in s.items :: s.items[fd] && !Names(batch, fd), edge := s.edge && !Names(batch, listener),
       reported := batch, waits := s.waits + 1, touched := [], failed := fails)
  }

  predicate Names(batch: seq<Event>, fd: int) {
    exists k :: 0 <= k < |batch| && batch[k].fd == fd
  }

  // ---- What the loop makes of it ----

  /** Client event e of u has been handled by v: on EPOLLRDHUP its descriptor is closed; when
      readable it has been read until there was no more data, and is armed again exactly if
      that ended in EAGAIN; otherwise it is left disarmed. */
  ghost predicate Settled(s: World, t: World, e: Event)
    requires e.fd in s.open && s.open[e.fd] in s.answers
  {
    var c := s.open[e.fd];
    && c in t.answers
    && if e.bits.rdhup then (e.fd in t.open ==> t.open[e.fd] >= s.nextConn) && t.answers[c] == s.answers[c]
       else && e.fd in t.open && t.open[e.fd] == c && e.fd in t.items
            && if e.bits.readable
               then t.items[e.fd] == Drained(s.answers[c]).ReadAgain? && t.answers[c] == Rest(s.answers[c])
               else !t.items[e.fd] && t.answers[c] == s.answers[c]
  }

  // The client of fd is, in t, what it was in s, with its entry in state `armed`.
  ghost predicate Kept(s: World, t: World, fd: int)
    requires fd in s.open && s.open[fd] in s.answers
  {
    && fd in t.open && t.open[fd] == s.open[fd]
    && s.open[fd] in t.answers && t.answers[s.open[fd]] == s.answers[s.open[fd]]
  }

  // Its event has been reported and is still to be handled.
  ghost predicate Pends(s: World, t: World, e: Event)
    requires e.fd in s.open && s.open[e.fd] in s.answers
  {
    Kept(s, t, e.fd) && e.fd in t.items && !t.items[e.fd]
  }

  // Its entry is what it was.
  ghost predicate Left(s: World, t: World, fd: int)
    requires fd in s.open && s.open[fd] in s.answers
  {
    Kept(s, t, fd) && (fd in t.items <==> fd in s.items) && (fd in s.items ==> t.items[fd] == s.items[fd])
  }

  // Every descriptor of t denotes what it did in s, or a new connection, which is armed.
  ghost predicate Grown(s: World, t: World) {
    && s.nextConn <= t.nextConn
    && (forall fd :: fd in t.open ==>
          (fd in s.open && t.open[fd] == s.open[fd])
          || (t.open[fd] >= s.nextConn && (!t.failed ==> fd in t.items && t.items[fd])))
    && (forall n :: s.nextConn <= n < t.nextConn ==> IsOpen(t, n))
  }

  ghost predicate IsOpen(t: World, n: nat) {
    exists fd :: fd in t.open && t.open[fd] == n
  }

  // The handling of event e has led from u to v.
  ghost predicate Handles(listener: int, u: World, v: World, e: Event)
    requires u.Sane(listener)
  {
    && v.Sane(listener) && v.reported == u.reported && v.waits == u.waits && Grown(u, v)
    && (forall fd :: fd in u.open && fd != e.fd ==> Left(u, v, fd))
    && (forall c :: c in u.answers && c < u.nextConn && !(e.fd in u.open && u.open[e.fd] == c) ==>
          c in v.answers && v.answers[c] == u.answers[c])
    && (e.fd != listener && e.fd in u.open && !v.failed ==> Settled(u, v, e))
    && v.touched == (if e.Acted()
                     then u.Touch(Handled(e.fd, if e.fd in u.open then Some(u.open[e.fd]) else None)).touched
                     else u.touched)
  }

  /** The turn has come to event i of its batch.  From s to t, the client events before it
      have been settled against the connections they were reported for, those from it on
      still denote theirs, every other client has been left alone, new connections are open
      and armed, and calls have been made for the acted events only, in this order. */
  ghost predicate TurnTo(listener: int, s: World, t: World, batch: seq<Event>, i: nat)
    requires s.Sane(listener) && i <= |batch|
    requires forall k :: 0 <= k < |batch| ==> batch[k].fd == listener || batch[k].fd in s.open
  {
    && t.Sane(listener) && Grown(s, t)
    && (forall k :: 0 <= k < i && batch[k].fd != listener ==> Settled(s, t, batch[k]))
    && (forall k :: i <= k < |batch| && batch[k].fd != listener ==> Pends(s, t, batch[k]))
    && (forall fd :: fd in s.open && !Names(batch, fd) ==> Left(s, t, fd))
    && t.touched == Reported(batch[..i], s.open)
  }

  lemma TurnStarts(listener: int, s: World, u: World, batch: seq<Event>)
    requires s.Sane(listener) && Arrives(s, u) && Deliverable(listener, u, batch)
    ensures BatchOf(listener, s, batch)
    ensures TurnTo(listener, s, Delivered(listener, u, batch, false), batch, 0)
  {
    var t := Delivered(listener, u, batch, false);
    forall fd | fd in s.open && !Names(batch, fd) ensures Left(s, t, fd) {
    }
    forall k | 0 <= k < |batch| && batch[k].fd != listener ensures Pends(s, t, batch[k]) {
      assert Names(batch, batch[k].fd);
    }
  }

  // What has been settled stays settled, what pends still does, what was left is left.
  lemma SettledStays(listener: int, s: World, t: World, v: World, e: Event, other: Event)
    requires s.Sane(listener) && t.Sane(listener) && Grown(s, t) && Handles(listener, t, v, e)
    requires other.fd in s.open && other.fd != e.fd && Settled(s, t, other)
    requires e.fd in s.open ==> e.fd in t.open && t.open[e.fd] == s.open[e.fd]
    requires e.fd in t.open ==> e.fd in s.open
    ensures Settled(s, v, other)
  {
    if other.fd in t.open {
      assert Left(t, v, other.fd);
    }
  }

  lemma GrownMore(listener: int, s: World, t: World, v: World, e: Event)
    requires s.Sane(listener) && t.Sane(listener) && Grown(s, t) && !t.failed && Handles(listener, t, v, e)
    requires e.fd in t.open ==> e.fd in s.open && t.open[e.fd] == s.open[e.fd]
    ensures Grown(s, v)
  {
    forall fd | fd in v.open
      ensures (fd in s.open && v.open[fd] == s.open[fd])
              || (v.open[fd] >= s.nextConn && (!v.failed ==> fd in v.items && v.items[fd]))
    {
      if fd in t.open && v.open[fd] == t.open[fd] && fd != e.fd {
        assert Left(t, v, fd);
      }
    }
    forall n | s.nextConn <= n < v.nextConn ensures IsOpen(v, n) {
      if n < t.nextConn {
        assert IsOpen(t, n);
        var fd :| fd in t.open && t.open[fd] == n;
        assert fd != e.fd;
        assert Left(t, v, fd);
      } else {
        assert IsOpen(v, n);
      }
    }
  }

  // A batch reported in s: distinct descriptors, the listener's without EPOLLRDHUP, and
  // those of clients that were armed.
  ghost predicate BatchOf(listener: int, s: World, batch: seq<Event>) {
    && (forall i, j :: 0 <= i < j < |batch| ==> batch[i].fd != batch[j].fd)
    && (forall k :: 0 <= k < |batch| ==>
          if batch[k].fd == listener then !batch[k].bits.rdhup
          else batch[k].fd in s.open && batch[k].fd in s.items && s.items[batch[k].fd])
  }

  // A failing epoll_wait leaves the kernel as it was.
  ghost predicate WaitFailed(s: World, t: World) {
    t == s.(queue := t.queue, edge := t.edge, future := t.future, reported := [], waits := t.waits, touched := [],
            failed := true)
  }

  // Consuming the listener's edge leaves its event in the batch.
  lemma EdgeHandedOver(listener: int, u: World, batch: seq<Event>, fails: bool)
    requires Deliverable(listener, u, batch) && (u.queue > 0 ==> u.edge)
    ensures u.queue > 0 ==> Delivered(listener, u, batch, fails).edge || ListenerReadable(listener, batch, 0)
    ensures batch == [] ==>
              var t := Delivered(listener, u, batch, fails);
              t.items == u.items && t.edge == u.edge
  {
  }

  /** A turn that an exception has cut short at event i: those before it are settled, those
      after it still pend, every other client has been left alone. */
  ghost predicate CutShort(listener: int, s: World, t: World, batch: seq<Event>, i: nat)
    requires s.Sane(listener) && i < |batch|
    requires forall k :: 0 <= k < |batch| ==> batch[k].fd == listener || batch[k].fd in s.open
  {
    && t.Sane(listener) && Grown(s, t)
    && (forall k :: 0 <= k < i && batch[k].fd != listener ==> Settled(s, t, batch[k]))
    && (forall k :: i < k < |batch| && batch[k].fd != listener ==> Pends(s, t, batch[k]))
    && (forall fd :: fd in s.open && !Names(batch, fd) ==> Left(s, t, fd))
    && t.touched == Reported(batch[..i + 1], s.open)
  }

  lemma TurnMore(listener: int, s: World, t: World, v: World, batch: seq<Event>, i: nat)
    requires s.Sane(listener) && i < |batch| && BatchOf(listener, s, batch) && !t.failed
    requires TurnTo(listener, s, t, batch, i) && Handles(listener, t, v, batch[i])
    ensures CutShort(listener, s, v, batch, i)
    ensures !v.failed ==> TurnTo(listener, s, v, batch, i + 1)
  {
    var e := batch[i];
    EventIsCurrent(listener, s, t, batch, i);
    GrownMore(listener, s, t, v, e);
    TouchedMore(listener, s, t, batch, i);
    forall k | 0 <= k < i && batch[k].fd != listener ensures Settled(s, v, batch[k]) {
      SettledStays(listener, s, t, v, e, batch[k]);
    }
    forall k | i < k < |batch| && batch[k].fd != listener ensures Pends(s, v, batch[k]) {
      assert Pends(s, t, batch[k]);
      assert Left(t, v, batch[k].fd);
    }
    forall fd | fd in s.open && !Names(batch, fd) ensures Left(s, v, fd) {
      assert Left(s, t, fd);
      assert Left(t, v, fd);
    }
  }

  // The event at hand is the listener's, or names a client as it was reported.
  lemma EventIsCurrent(listener: int, s: World, t: World, batch: seq<Event>, i: nat)
    requires s.Sane(listener) && i < |batch| && BatchOf(listener, s, batch) && TurnTo(listener, s, t, batch, i)
    ensures batch[i].fd == listener ==> batch[i].fd !in s.open && batch[i].fd !in t.open
    ensures batch[i].fd != listener ==>
              Pends(s, t, batch[i]) && batch[i].fd in t.open && t.open[batch[i].fd] == s.open[batch[i].fd]
  {
    assert batch[i].fd != listener ==> Pends(s, t, batch[i]);
  }

  lemma TouchedMore(listener: int, s: World, t: World, batch: seq<Event>, i: nat)
    requires s.Sane(listener) && i < |batch| && BatchOf(listener, s, batch) && t.touched == Reported(batch[..i], s.open)
    ensures var h := Handled(batch[i].fd, if batch[i].fd in s.open then Some(s.open[batch[i].fd]) else None);
            Reported(batch[..i + 1], s.open) == if batch[i].Acted() then t.Touch(h).touched else t.touched
  {
    assert batch[..i + 1][..i] == batch[..i];
    ReportedNames(batch[..i], s.open);
  }

  // ---- The calls of one event ----

  lemma {:induction false} IdleHandles(listener: int, u: World, e: Event)
    requires u.Sane(listener) && !e.Acted() && !u.failed
    requires e.fd != listener && e.fd in u.open ==> e.fd in u.items && !u.items[e.fd]
    ensures Handles(listener, u, u, e)
  {
  }

  lemma {:induction false} CloseHandles(listener: int, u: World, v: World, e: Event)
    requires u.Sane(listener) && !u.failed && e.fd in u.open && e.bits.rdhup
    requires Quietly(u.(open := u.open - {e.fd}, items := u.items - {e.fd}), v)
    requires v.touched == u.Touch(Handled(e.fd, Some(u.open[e.fd]))).touched
    ensures Handles(listener, u, v, e)
  {
  }

  lemma {:induction false} ReadHandles(listener: int, u: World, v: World, e: Event)
    requires u.Sane(listener) && !u.failed && e.fd in u.items && !u.items[e.fd] && !e.bits.rdhup && e.bits.readable
    requires var c := u.open[e.fd];
             Quietly(u.(answers := u.answers[c := Rest(u.answers[c])], items := v.items, failed := v.failed), v)
    requires !v.failed ==>
               v.items == if Drained(u.answers[u.open[e.fd]]).ReadAgain? then u.items[e.fd := true] else u.items
    requires v.failed ==> v.items == u.items
    requires v.touched == u.Touch(Handled(e.fd, Some(u.open[e.fd]))).touched
    ensures Handles(listener, u, v, e)
  {
  }

  // The accept drain has led from u to t: what was open is left alone, and what is new is
  // armed, unless a call has failed.
  ghost predicate Taking(listener: int, u: World, t: World) {
    && t.Sane(listener) && t.reported == u.reported && t.waits == u.waits && Grown(u, t)
    && (forall fd :: fd in u.open ==> u.open[fd] in u.answers && Left(u, t, fd))
    && (forall c :: c in u.answers && c < u.nextConn ==> c in t.answers && t.answers[c] == u.answers[c])
  }

  lemma {:induction false} TakingHandles(listener: int, u: World, t: World, e: Event)
    requires u.Sane(listener) && Taking(listener, u, t) && e == Event(listener, Bits(false, true))
    requires t.touched == u.Touch(Handled(listener, None)).touched
    ensures Handles(listener, u, t, e)
  {
  }

  lemma {:induction false} TakingStarts(listener: int, u: World)
    requires u.Sane(listener) && !u.failed
    ensures Taking(listener, u, u)
  {
  }

  // Nothing that the drain is about has changed from t to v.
  lemma {:induction false} TakingGoesOn(listener: int, u: World, t: World, v: World)
    requires Taking(listener, u, t) && !t.failed && Quietly(t.(failed := v.failed), v)
    ensures Taking(listener, u, v)
  {
    forall n | u.nextConn <= n < v.nextConn ensures IsOpen(v, n) {
      assert IsOpen(t, n);
    }
    forall fd | fd in u.open ensures Left(u, v, fd) {
      assert Left(u, t, fd);
    }
  }

  // v is t after a connection has been accepted under fd and armed, or after arming failed.
  ghost predicate Takes(listener: int, t: World, v: World, fd: int) {
    && fd !in t.open && fd != listener
    && v.open == t.open[fd := t.nextConn] && v.nextConn == t.nextConn + 1
    && t.nextConn in v.answers && v.answers == t.answers[t.nextConn := v.answers[t.nextConn]]
    && v.items == (if v.failed then t.items else t.items[fd := true])
    && v.reported == t.reported && v.waits == t.waits
  }

  lemma {:induction false} TakingMore(listener: int, u: World, t: World, v: World, fd: int)
    requires Taking(listener, u, t) && !t.failed && Takes(listener, t, v, fd)
    ensures Taking(listener, u, v)
  {
    TakenIsOpen(listener, u, t, v, fd);
    forall f | f in u.open ensures Left(u, v, f) {
      assert Left(u, t, f);
    }
    forall f | f in v.open
      ensures (f in u.open && v.open[f] == u.open[f])
              || (v.open[f] >= u.nextConn && (!v.failed ==> f in v.items && v.items[f]))
    {
      assert f != fd ==> f in t.open && v.open[f] == t.open[f];
    }
  }

  lemma {:induction false} TakenIsOpen(listener: int, u: World, t: World, v: World, fd: int)
    requires Taking(listener, u, t) && Takes(listener, t, v, fd)
    ensures forall n :: u.nextConn <= n < v.nextConn ==> IsOpen(v, n)
  {
    forall n | u.nextConn <= n < v.nextConn ensures IsOpen(v, n) {
      if n < t.nextConn {
        assert IsOpen(t, n);
        var f :| f in t.open && t.open[f] == n;
        assert v.open[f] == n;
      } else {
        assert v.open[fd] == n;
      }
    }
  }

  // ---- The loop ----

  class EventLoop {
    const listener: int
    const kernel: Kernel

    // Where the loop stands with respect to the listener.
    ghost var pending: bool     // a readable listener event of the batch is not handled yet
    ghost var draining: bool    // the accept loop is running

    /** A waiting connection is never forgotten. */
    ghost predicate NoLostEdge()
      reads this, kernel
    {
      kernel.now.queue > 0 ==> kernel.now.edge || pending || draining
    }

    ghost predicate Valid()
      reads this, kernel
    {
      kernel.listener == listener && kernel.now.Sane(listener) && NoLostEdge()
    }

    constructor (kernel: Kernel)
      requires kernel.now.Sane(kernel.listener) && (kernel.now.queue > 0 ==> kernel.now.edge)
      ensures Valid() && this.kernel == kernel && !pending && !draining
    {
      listener, this.kernel := kernel.listener, kernel;
      pending, draining := false, false;
    }

    // EPOLLRDHUP: the client's entry and its descriptor go.
    method CloseClient(ghost e: Event, fd: int)
      requires Valid() && fd in kernel.now.open && !kernel.now.failed && e.fd == fd && e.bits.rdhup
      modifies kernel
      ensures Valid() && !kernel.now.failed && Handles(listener, old(kernel.now), kernel.now, e)
    {
      kernel.Disregard(fd);
      kernel.Close(fd);
      CloseHandles(listener, old(kernel.now), kernel.now, e);
    }

    // One read of the loop, with EPOLL_CTL_MOD when it finds no more data.
    method ReadOnce(fd: int) returns (more: bool, thrown: bool)
      requires kernel.listener == listener && NoLostEdge() && !kernel.now.failed
      requires fd in kernel.now.open && kernel.now.open[fd] in kernel.now.answers
      modifies kernel
      ensures NoLostEdge() && thrown == kernel.now.failed && (more ==> !thrown)
      ensures var u, v, c := old(kernel.now), kernel.now, old(kernel.now).open[fd];
              var a := u.answers[c];
              && Quietly(u.(answers := u.answers[c := if a == [] then [] else a[1..]],
                            items := v.items, failed := v.failed), v)
              && v.touched == u.Touch(Handled(fd, Some(c))).touched
              && more == (a != [] && a[0].Got?)
              && (thrown ==> a == [] || a[0].ReadAgain?)
              && v.items == if !thrown && (a == [] || a[0].ReadAgain?) then u.items[fd := true] else u.items
    {
      more, thrown := false, false;
      var r := kernel.Read(fd);
      match r {
        case Got(_) => more := true;
        case ReadAgain =>
          var ok := kernel.Arm(fd);
          thrown := !ok;
        case _ =>
      }
    }

    /** Read until EAGAIN, which rearms the client, or until end of file or a hard error,
        which leave it disarmed. */
    method ReadAll(ghost e: Event, fd: int) returns (thrown: bool)
      requires Valid() && fd in kernel.now.items && !kernel.now.items[fd] && !kernel.now.failed
      requires e.fd == fd && e.bits.readable && !e.bits.rdhup
      modifies kernel
      ensures Valid() && thrown == kernel.now.failed && Handles(listener, old(kernel.now), kernel.now, e)
    {
      ghost var u := kernel.now;
      ghost var c := u.open[fd];
      thrown := false;
      assert u.answers[c := u.answers[c]] == u.answers;
      var more := true;
      while more
        invariant NoLostEdge() && thrown == kernel.now.failed && (more ==> !thrown) && c in kernel.now.answers
        invariant Quietly(u.(answers := u.answers[c := kernel.now.answers[c]],
                             items := kernel.now.items, failed := thrown), kernel.now)
        invariant if more
                  then && Drained(kernel.now.answers[c]) == Drained(u.answers[c])
                       && Rest(kernel.now.answers[c]) == Rest(u.answers[c]) && kernel.now.items == u.items
                       && (kernel.now.touched == u.touched
                           || kernel.now.touched == u.Touch(Handled(fd, Some(c))).touched)
                  else && kernel.now.answers[c] == Rest(u.answers[c])
                       && kernel.now.touched == u.Touch(Handled(fd, Some(c))).touched
                       && kernel.now.items == if !thrown && Drained(u.answers[c]).ReadAgain?
                                              then u.items[fd := true]
                                              else u.items
        decreases more, |kernel.now.answers[c]|
      {
        more, thrown := ReadOnce(fd);
      }
      ReadHandles(listener, u, kernel.now, e);
    }

    // One round of the accept drain of u: accept4 and, for a connection, EPOLL_CTL_ADD.
    method AcceptOne(ghost u: World) returns (more: bool, thrown: bool)
      requires Valid() && draining && !kernel.now.failed && Taking(listener, u, kernel.now)
      modifies kernel
      ensures kernel.now.Sane(listener) && NoLostEdge() && Taking(listener, u, kernel.now)
      ensures thrown == kernel.now.failed && (more ==> !thrown) && (!more && !thrown ==> kernel.now.queue == 0)
      ensures kernel.now.touched == old(kernel.now).Touch(Handled(listener, None)).touched
      ensures more ==> kernel.now.queue + kernel.now.future < old(kernel.now).queue + old(kernel.now).future
    {
      ghost var t := kernel.now;
      var fd, errno := kernel.Accept4();
      if fd < 0 {
        more, thrown := false, errno != EAgain;
        TakingGoesOn(listener, u, t, kernel.now);
        return;
      }
      var ok := kernel.Arm(fd);
      more, thrown := ok, !ok;
      TakingMore(listener, u, t, kernel.now, fd);
    }

    /** Accept until accept4 finds the queue empty; a failing accept4 or EPOLL_CTL_ADD is an
        exception. */
    method AcceptAll(ghost e: Event) returns (thrown: bool)
      requires Valid() && draining && !kernel.now.failed && e == Event(listener, Bits(false, true))
      modifies kernel, this`draining
      ensures Valid() && thrown == kernel.now.failed && Handles(listener, old(kernel.now), kernel.now, e)
      ensures !thrown ==> !draining && kernel.now.queue == 0
    {
      ghost var u := kernel.now;
      TakingStarts(listener, u);
      thrown := false;
      var more := true;
      while more
        invariant Valid() && draining && thrown == kernel.now.failed && (more ==> !thrown)
        invariant Taking(listener, u, kernel.now) && (!more && !thrown ==> kernel.now.queue == 0)
        invariant || kernel.now.touched == u.Touch(Handled(listener, None)).touched
                  || (more && kernel.now.touched == u.touched)
        decreases more, kernel.now.queue + kernel.now.future
      {
        more, thrown := AcceptOne(u);
      }
      draining := thrown;
      TakingHandles(listener, u, kernel.now, e);
    }

    /** One event of the batch.  Only its own descriptor may be closed, and never the
        listener's; connections accepted meanwhile take descriptors that were free. */
    method HandleEvent(e: Event) returns (thrown: bool)
      requires Valid() && !draining && !kernel.now.failed
      requires if e.fd == listener then !e.bits.rdhup && (e.bits.readable ==> pending)
               else e.fd in kernel.now.items && !kernel.now.items[e.fd]
      modifies kernel, this`draining, this`pending
      ensures Valid() && thrown == kernel.now.failed && (!thrown ==> !draining)
      ensures Handles(listener, old(kernel.now), kernel.now, e)
      ensures pending == (old(pending) && !(e.fd == listener && e.bits.readable))
    {
      thrown := false;
      if e.bits.rdhup {
        CloseClient(e, e.fd);
        return;
      }
      if e.bits.readable {
        if e.fd == listener {
          pending, draining := false, true;
          thrown := AcceptAll(e);
        } else {
          thrown := ReadAll(e, e.fd);
        }
      } else {
        IdleHandles(listener, kernel.now, e);
      }
    }

    // epoll_wait, which hands the listener's edge over to the batch.
    method Wait() returns (nfds: int, batch: seq<Event>)
      requires Valid() && !pending && !draining && !kernel.now.failed
      modifies kernel, this`pending
      ensures Valid() && kernel.now.reported == batch && kernel.now.waits == old(kernel.now).waits + 1
      ensures kernel.now.failed == (nfds == -1) && (nfds != -1 ==> nfds == |batch|)
      ensures BatchOf(listener, old(kernel.now), batch) && pending == ListenerReadable(listener, batch, 0)
      ensures if nfds == -1 then batch == [] && WaitFailed(old(kernel.now), kernel.now)
              else TurnTo(listener, old(kernel.now), kernel.now, batch, 0)
    {
      ghost var s := kernel.now;
      nfds, batch := kernel.EpollWait();
      ghost var u :| Arrives(s, u) && Deliverable(listener, u, batch)
                     && kernel.now == Delivered(listener, u, batch, nfds == -1);
      TurnStarts(listener, s, u, batch);
      EdgeHandedOver(listener, u, batch, nfds == -1);
      pending := ListenerReadable(listener, batch, 0);
    }

    /** One turn of the loop, on the batch that epoll_wait reports.  Unless a call fails hard,
        every client event is settled against the connection it was reported for: closed on
        EPOLLRDHUP, else read until there is no more data and armed again exactly if that
        ended in EAGAIN; every other client is left alone; new connections are open and
        armed; and no waiting connection is forgotten, at any call and at the end. */
    method Turn() returns (thrown: bool)
      requires Valid() && !pending && !draining && !kernel.now.failed
      modifies this, kernel
      ensures Valid() && thrown == kernel.now.failed && kernel.now.waits == old(kernel.now).waits + 1
      ensures BatchOf(listener, old(kernel.now), kernel.now.reported)
      ensures var s, t, batch := old(kernel.now), kernel.now, kernel.now.reported;
              if !thrown then !pending && !draining && TurnTo(listener, s, t, batch, |batch|)
              else WaitFailed(s, t) || exists i: nat :: i < |batch| && CutShort(listener, s, t, batch, i)
    {
      ghost var s := kernel.now;
      var nfds, events := Wait();
      thrown := nfds == -1;
      if thrown {
        return;
      }
      var i := 0;
      while i < nfds
        invariant 0 <= i <= nfds == |events| && !thrown && Valid() && !draining && !kernel.now.failed
        invariant kernel.now.reported == events && kernel.now.waits == s.waits + 1
        invariant TurnTo(listener, s, kernel.now, events, i)
        invariant pending == ListenerReadable(listener, events, i)
      {
        ghost var t := kernel.now;
        EventIsCurrent(listener, s, t, events, i);
        thrown := HandleEvent(events[i]);
        TurnMore(listener, s, t, kernel.now, events, i);
        i := i + 1;
        if thrown {
          return;
        }
      }
    }

    /** Any number of turns. */
    method Run(turns: nat) returns (thrown: bool)
      requires Valid() && !pending && !draining && !kernel.now.failed
      modifies this, kernel
      ensures Valid() && thrown == kernel.now.failed
      ensures !thrown ==>
                && !pending && !draining && (kernel.now.queue > 0 ==> kernel.now.edge)
                && kernel.now.waits == old(kernel.now).waits + turns
    {
      thrown := false;
      var k := 0;
      while k < turns && !thrown
        invariant Valid() && thrown == kernel.now.failed && (!thrown ==> !pending && !draining) && k <= turns
        invariant kernel.now.waits == old(kernel.now).waits + k
      {
        thrown := Turn();
        k := k + 1;
      }
    }
  }
}
