// The select() server: one thread scans a snapshot of its descriptor set while it
// closes and accepts descriptors, keeps the highest one by hand, and stops early when
// its count of unprocessed descriptors reaches zero.
module SelectServer {
  import opened Sockets

  // ---- The order in which a scan meets a set ----

  // The members of s below n, in ascending order.
  function Below(s: set<int>, n: nat): seq<int> {
    if n == 0 then [] else Below(s, n - 1) + if n - 1 in s then [n - 1] else []
  }

  // Exactly the members, each once, in ascending order.
  lemma {:induction false} BelowIsTheSet(s: set<int>, n: nat)
    ensures forall fd :: fd in Below(s, n) <==> fd in s && 0 <= fd < n
    ensures forall i, j :: 0 <= i < j < |Below(s, n)| ==> Below(s, n)[i] < Below(s, n)[j]
  {
    if n == 0 {
    } else {
      BelowIsTheSet(s, n - 1);
      var front := Below(s, n - 1);
      forall i | 0 <= i < |front| ensures front[i] < n - 1 {
        assert front[i] in front;
      }
    }
  }

  lemma BelowStops(s: set<int>, i: nat, n: nat)
    requires i <= n && forall fd :: fd in s ==> !(i <= fd < n)
    ensures Below(s, i) == Below(s, n)
  {
  }

  lemma BelowStep(s: set<int>, i: nat)
    ensures Below(s, i + 1) == if i in s then Below(s, i) + [i] else Below(s, i)
  {
    assert Below(s, i) + [] == Below(s, i);
  }

  // The members the scan has still to meet at position i.
  function From(s: set<int>, i: int): set<int> {
    set fd | fd in s && fd >= i
  }

  lemma FromStep(s: set<int>, i: int)
    ensures |From(s, i)| == |From(s, i + 1)| + if i in s then 1 else 0
  {
    if i in s {
      assert From(s, i) == From(s, i + 1) + {i};
    } else {
      assert From(s, i) == From(s, i + 1);
    }
  }

  lemma FromAll(s: set<int>)
    requires forall fd :: fd in s ==> 0 <= fd
    ensures From(s, 0) == s
  {
  }

  // What a scan over `fds` should have handled, if `at` is the descriptor table
  // select() saw; the listener denotes no connection.
  function Served(fds: seq<int>, at: map<int, nat>): seq<Handled> {
    if fds == [] then []
    else
      var fd := fds[|fds| - 1];
      Served(fds[..|fds| - 1], at) + [Handled(fd, if fd in at then Some(at[fd]) else None)]
  }

  lemma ServedStep(fds: seq<int>, fd: int, at: map<int, nat>)
    ensures Served(fds + [fd], at) == Served(fds, at) + [Handled(fd, if fd in at then Some(at[fd]) else None)]
  {
    assert (fds + [fd])[..|fds|] == fds;
  }

  // The descriptor table after connections first, first + 1, ... got descriptors `fds`.
  function Opened(open: map<int, nat>, fds: seq<int>, first: nat): map<int, nat> {
    if fds == [] then open else Opened(open, fds[..|fds| - 1], first)[fds[|fds| - 1] := first + |fds| - 1]
  }

  lemma OpenedKeeps(open: map<int, nat>, fds: seq<int>, first: nat)
    ensures forall fd :: fd in open ==> fd in Opened(open, fds, first)
    ensures forall fd :: fd in open && fd !in fds ==> Opened(open, fds, first)[fd] == open[fd]
  {
  }

  const BUFF_SIZE := 1000

  // What the kernel answers in one round of a client's echo loop; `data` is what read()
  // stores in the buffer, `w` only matters after data.
  datatype Exchange = Exchange(r: ReadResult, data: seq<byte>, w: WriteResult) {
    predicate Possible() {
      (if r.Got? then 1 <= r.n <= BUFF_SIZE && |data| == r.n else data == []) && MayWrite(|data|, w)
    }

    // Does the loop go on after it?
    predicate GoesOn() { r.Got? && (w.Wrote? || w.WroteNothing?) }

    // Does the server give the client up?
    predicate Ends() { r.Eof? || r.ReadFailed? || (r.Got? && w.WriteFailed?) }

    // The bytes write() takes.
    function Accepted(): seq<byte>
      requires Possible()
    {
      if r.Got? && w.Wrote? then data[..w.k] else []
    }

    // Has write() taken all that was read, if anything was?
    predicate Whole() { r.Got? ==> w == Wrote(r.n) }
  }

  predicate Possible(script: seq<Exchange>) {
    forall k :: 0 <= k < |script| ==> script[k].Possible()
  }

  // The exchanges a loop makes of those the kernel will grant: up to the first that stops
  // it.  After all of them read() returns EAGAIN.
  function Made(script: seq<Exchange>): (made: seq<Exchange>)
    ensures Possible(script) ==> Possible(made)
    ensures made <= script
  {
    if script == [] then []
    else if script[0].GoesOn() then [script[0]] + Made(script[1..])
    else [script[0]]
  }

  function Rest(script: seq<Exchange>): seq<Exchange> {
    script[|Made(script)|..]
  }

  // The client is given up when the exchange that stops the loop says so.
  predicate GivesUp(script: seq<Exchange>) {
    Made(script) != [] && Made(script)[|Made(script)| - 1].Ends()
  }

  /** In terms of the answers: a loop makes the exchanges in which data is read and the
      write neither fails nor returns EAGAIN, and the first other one; it gives the client
      up exactly at end of file, on a hard read error or on a hard write error. */
  lemma {:induction false} MadeMeans(script: seq<Exchange>)
    ensures forall k :: 0 <= k < |Made(script)| - 1 ==>
              script[k].r.Got? && (script[k].w.Wrote? || script[k].w.WroteNothing?)
    ensures |Made(script)| < |script| ==>
              && 0 < |Made(script)|
              && var e := script[|Made(script)| - 1];
                 !e.r.Got? || e.w.WriteAgain? || e.w.WriteFailed?
    ensures GivesUp(script) <==>
              exists k :: 0 <= k < |script| && k == |Made(script)| - 1
                && (script[k].r.Eof? || script[k].r.ReadFailed? || (script[k].r.Got? && script[k].w.WriteFailed?))
  {
    if script == [] {
    } else if script[0].GoesOn() {
      MadeMeans(script[1..]);
      var n := |Made(script)| - 1;
      assert n > 0 ==> script[n] == script[1..][n - 1];
    } else {
    }
  }

  // What read() delivered in these exchanges.
  function Consumed(es: seq<Exchange>): seq<byte> {
    if es == [] then [] else Consumed(es[..|es| - 1]) + es[|es| - 1].data
  }

  // What write() accepted.
  function Sent(es: seq<Exchange>): seq<byte>
    requires Possible(es)
  {
    if es == [] then []
    else Sent(es[..|es| - 1]) + es[|es| - 1].Accepted()
  }

  lemma {:induction false} WholeByLength(es: seq<Exchange>)
    requires Possible(es)
    ensures |Sent(es)| <= |Consumed(es)|
    ensures |Sent(es)| == |Consumed(es)| <==> forall k :: 0 <= k < |es| ==> es[k].Whole()
    ensures |Sent(es)| == |Consumed(es)| ==> Sent(es) == Consumed(es)
  {
    if es == [] {
    } else {
      var front, e := es[..|es| - 1], es[|es| - 1];
      WholeByLength(front);
      assert forall k :: 0 <= k < |es| ==> (es[k].Whole() <==> if k < |front| then front[k].Whole() else e.Whole());
      assert e.Whole() <==> |e.Accepted()| == |e.data|;
    }
  }

  /** The client is sent exactly what was read from it if and only if every write took its
      whole chunk: a short write, a zero write and an EAGAIN all drop the rest. */
  lemma {:induction false} EchoedExactlyWhenWhole(es: seq<Exchange>)
    requires Possible(es)
    ensures Sent(es) == Consumed(es) <==> forall k :: 0 <= k < |es| ==> es[k].Whole()
  {
    WholeByLength(es);
  }

  lemma OneMoreExchange(es: seq<Exchange>, e: Exchange)
    requires Possible(es) && e.Possible()
    ensures Possible(es + [e])
    ensures Consumed(es + [e]) == Consumed(es) + e.data && Sent(es + [e]) == Sent(es) + e.Accepted()
  {
    assert (es + [e])[..|es|] == es;
  }

  /** Such an exchange exists: of two bytes read, one is written and the other lost. */
  lemma ShortWriteDrops(a: byte, b: byte) returns (e: Exchange)
    ensures Possible([e]) && e.GoesOn() && Consumed([e]) == [a, b] && Sent([e]) == [a]
  {
    e := Exchange(Got(2), [a, b], Wrote(1));
    assert [e][..0] == [];
  }

  // ---- The kernel ----

  // One connection: what its calls will be answered, fixed beforehand, and what write()
  // has accepted for it.
  datatype Peer = Peer(answers: seq<Exchange>, out: seq<byte>) {
    // The next answer: read() returns EAGAIN when nothing else is to come.
    function Head(): Exchange {
      if answers == [] then Exchange(ReadAgain, [], WroteNothing) else answers[0]
    }

    function Tail(): seq<Exchange> {
      if answers == [] then [] else answers[1..]
    }

    // After the echo loop.
    function Echoed(): Peer
      requires Possible(answers)
    {
      Peer(Rest(answers), out + Sent(Made(answers)))
    }
  }

  /** What the kernel holds for the server.  `ready` is what the next select() will find;
      `touched` lists the descriptors read or accepted from since select() returned; `failed`
      says that a call has failed in a way that is an exception. */
  datatype World = World(
    open: map<int, nat>,                // client descriptors and their connections
    peers: map<nat, Peer>,
    nextConn: nat,
    backlog: nat,                       // connections waiting to be accepted
    ready: set<int>,
    touched: seq<Handled>,
    failed: bool,
    selects: nat)
  {
    // Each descriptor denotes a connection of its own, and answers are possible ones.
    ghost predicate Sane(listener: int) {
      && 0 <= listener && listener !in open
      && (forall fd :: fd in open ==> 0 <= fd && open[fd] < nextConn && open[fd] in peers)
      && (forall fd, fd' :: fd in open && fd' in open && fd != fd' ==> open[fd] != open[fd'])
      && (forall c :: c in peers ==> Possible(peers[c].answers))
    }

    function Touch(h: Handled): World {
      if touched != [] && touched[|touched| - 1] == h then this else this.(touched := touched + [h])
    }
  }

  class Kernel {
    const listener: int
    var now: World

    constructor (listener: int, now: World)
      ensures this.listener == listener && this.now == now
    {
      this.listener, this.now := listener, now;
    }

    // select(): of the watched descriptors below nfds, those that are ready.
    method Select(nfds: int, watched: set<int>) returns (events: int, readable: set<int>)
      requires !now.failed
      modifies this
      ensures now == old(now).(ready := now.ready, touched := [], failed := events == -1,
                               selects := old(now).selects + 1)
      ensures events == -1 || events == |readable|
      ensures readable == set fd | fd in watched && fd in old(now).ready && fd < nfds
    {
      var fails: bool, next: set<int> := *, *;
      readable := set fd | fd in watched && fd in now.ready && fd < nfds;
      events := if fails then -1 else |readable|;
      now := now.(ready := next, touched := [], failed := fails, selects := now.selects + 1);
    }

    // accept4(): the next connection under a fresh descriptor, or -1; unless the failure is
    // hard, nobody is waiting.
    method Accept4() returns (fd: int, hard: bool)
      requires now.Sane(listener) && !now.failed
      modifies this
      ensures now.Sane(listener)
      ensures fd < 0 ==>
                now == old(now).Touch(Handled(listener, None)).(failed := hard) && (hard || now.backlog == 0)
      ensures fd >= 0 ==>
                && !hard && fd !in old(now).open && fd != listener && old(now).backlog > 0
                && old(now).nextConn in now.peers
                && now == Joined(old(now).Touch(Handled(listener, None)), fd, now.peers[old(now).nextConn])
    {
      var answers: seq<Exchange> := *;
      if !Possible(answers) {
        answers := [];
      }
      fd, hard := *, *;
      if hard || now.backlog == 0 || fd in now.open || fd == listener {
        fd := -1;
      }
      now := now.Touch(Handled(listener, None));
      if fd >= 0 {
        now := Joined(now, fd, Peer(answers, []));
      } else {
        hard := hard || now.backlog > 0;
        now := now.(failed := hard);
      }
    }

    // read(): the connection's next answer.  Data keeps it there for the write.
    method Read(fd: int) returns (r: ReadResult, buffer: seq<byte>)
      requires fd in now.open && now.open[fd] in now.peers
      modifies this
      ensures var c := old(now).open[fd];
              var t, p := old(now).Touch(Handled(fd, Some(c))), old(now).peers[c];
              && r == p.Head().r && buffer == p.Head().data
              && now == if r.Got? then t else t.(peers := t.peers[c := Peer(p.Tail(), p.out)])
    {
      var c := now.open[fd];
      var p := now.peers[c];
      now := now.Touch(Handled(fd, Some(c)));
      r, buffer := p.Head().r, p.Head().data;
      if !r.Got? {
        now := now.(peers := now.peers[c := Peer(p.Tail(), p.out)]);
      }
    }

    // write() of as many bytes as the last read() gave.
    method Write(fd: int, buffer: seq<byte>) returns (w: WriteResult)
      requires fd in now.open && now.open[fd] in now.peers
      requires now.peers[now.open[fd]].Head().Possible() && |buffer| == |now.peers[now.open[fd]].Head().data|
      modifies this
      ensures var c, p := old(now).open[fd], old(now).peers[old(now).open[fd]];
              && w == p.Head().w
              && var took := if w.Wrote? then buffer[..w.k] else [];
                 now == old(now).(peers := old(now).peers[c := Peer(p.Tail(), p.out + took)])
    {
      var c := now.open[fd];
      var p := now.peers[c];
      w := p.Head().w;
      now := now.(peers := now.peers[c := Peer(p.Tail(), p.out + if w.Wrote? then buffer[..w.k] else [])]);
    }

    method Close(fd: int)
      modifies this
      ensures now == old(now).(open := old(now).open - {fd})
    {
      now := now.(open := now.open - {fd});
    }
  }

  // A waiting connection has got descriptor fd.
  function Joined(s: World, fd: int, peer: Peer): World
    requires s.backlog > 0
  {
    s.(open := s.open[fd := s.nextConn], peers := s.peers[s.nextConn := peer], nextConn := s.nextConn + 1,
       backlog := s.backlog - 1)
  }

  // ---- What the server makes of it ----

  /** The loop has sent its client exactly what it has read if and only if every write took
      its whole chunk. */
  lemma EchoedInFull(p: Peer)
    requires Possible(p.answers)
    ensures p.Echoed().out == p.out + Consumed(Made(p.answers))
            <==> forall k :: 0 <= k < |Made(p.answers)| ==> p.answers[k].Whole()
  {
    var made := Made(p.answers);
    EchoedExactlyWhenWhole(made);
    assert forall k :: 0 <= k < |made| ==> made[k] == p.answers[k];
    assert (p.out + Sent(made))[|p.out|..] == Sent(made) && (p.out + Consumed(made))[|p.out|..] == Consumed(made);
  }

  // The connection of fd has been read and echoed until its answers stop the loop.
  function Echoed(s: World, fd: int): World
    requires fd in s.open && s.open[fd] in s.peers && Possible(s.peers[s.open[fd]].answers)
  {
    var c := s.open[fd];
    s.Touch(Handled(fd, Some(c))).(peers := s.peers[c := s.peers[c].Echoed()])
  }

  // The exchanges `done` have been made on fd, and the loop goes on.
  ghost predicate Echoing(s: World, t: World, fd: int, done: seq<Exchange>)
    requires fd in s.open && s.open[fd] in s.peers
  {
    var c := s.open[fd];
    && c in t.peers && Possible(done) && (forall k :: 0 <= k < |done| ==> done[k].GoesOn())
    && s.peers[c].answers == done + t.peers[c].answers && t.peers[c].out == s.peers[c].out + Sent(done)
    && t == s.(peers := s.peers[c := t.peers[c]], touched := t.touched)
    && (t.touched == s.touched || t.touched == s.Touch(Handled(fd, Some(c))).touched)
  }

  lemma HeadIsPossible(p: Peer, done: seq<Exchange>, q: Peer)
    requires Possible(p.answers) && p.answers == done + q.answers
    ensures Possible(q.answers) && q.Head().Possible() && Possible(q.Tail())
    ensures q.answers != [] ==> q.answers == [q.Head()] + q.Tail()
  {
    forall k | 0 <= k < |q.answers| ensures q.answers[k].Possible() {
      assert q.answers[k] == p.answers[|done| + k];
    }
  }

  lemma {:induction false} NextAnswers(all: seq<Exchange>, done: seq<Exchange>, left: seq<Exchange>)
    requires all == done + left && left != []
    ensures all == done + [left[0]] + left[1..]
  {
    assert left == [left[0]] + left[1..];
  }

  lemma {:induction false} NextOut(start: seq<byte>, done: seq<Exchange>, e: Exchange)
    requires Possible(done) && e.Possible()
    ensures Possible(done + [e]) && start + Sent(done) + e.Accepted() == start + Sent(done + [e])
  {
    OneMoreExchange(done, e);
    assert start + Sent(done) + e.Accepted() == start + (Sent(done) + e.Accepted());
  }

  lemma {:induction false} MadeEnds(done: seq<Exchange>, e: Exchange, tail: seq<Exchange>)
    requires (forall k :: 0 <= k < |done| ==> done[k].GoesOn()) && !e.GoesOn()
    ensures Made(done + [e] + tail) == done + [e] && Rest(done + [e] + tail) == tail
    ensures GivesUp(done + [e] + tail) <==> e.Ends()
  {
    assert done + [e] + tail == done + ([e] + tail);
    MadeAfter(done, [e] + tail);
  }

  lemma {:induction false} MadeExhausted(done: seq<Exchange>)
    requires forall k :: 0 <= k < |done| ==> done[k].GoesOn()
    ensures Made(done) == done && Rest(done) == [] && !GivesUp(done)
  {
    MadeAfter(done, []);
    assert done + [] == done;
  }

  // The exchange e is the last that is made.
  lemma {:induction false} LastExchange(p: Peer, done: seq<Exchange>, e: Exchange, tail: seq<Exchange>)
    requires p.answers == done + [e] + tail && Possible(p.answers) && Possible(done) && e.Possible() && !e.GoesOn()
    requires forall k :: 0 <= k < |done| ==> done[k].GoesOn()
    ensures p.Echoed() == Peer(tail, p.out + Sent(done) + e.Accepted()) && (GivesUp(p.answers) <==> e.Ends())
  {
    MadeEnds(done, e, tail);
    OneMoreExchange(done, e);
    assert p.out + Sent(done) + e.Accepted() == p.out + (Sent(done) + e.Accepted());
  }

  // All that the kernel will grant has been made.
  lemma {:induction false} NoExchange(p: Peer, done: seq<Exchange>)
    requires p.answers == done && Possible(done) && forall k :: 0 <= k < |done| ==> done[k].GoesOn()
    ensures p.Echoed() == Peer([], p.out + Sent(done)) && !GivesUp(p.answers)
  {
    MadeExhausted(done);
  }

  lemma EchoingNothing(s: World, fd: int)
    requires fd in s.open && s.open[fd] in s.peers
    ensures Echoing(s, s, fd, [])
  {
    assert s.peers[s.open[fd] := s.peers[s.open[fd]]] == s.peers;
  }

  // The next exchange has been made on fd.
  function OneTaken(t: World, fd: int): World
    requires fd in t.open && t.open[fd] in t.peers && t.peers[t.open[fd]].Head().Possible()
  {
    var c := t.open[fd];
    var q := t.peers[c];
    var t' := t.Touch(Handled(fd, Some(c)));
    t'.(peers := t'.peers[c := Peer(q.Tail(), q.out + q.Head().Accepted())])
  }

  lemma {:induction false} PeerEnds(p: Peer, done: seq<Exchange>, q: Peer)
    requires Possible(p.answers) && p.answers == done + q.answers && Possible(done) && q.out == p.out + Sent(done)
    requires (forall k :: 0 <= k < |done| ==> done[k].GoesOn()) && q.Head().Possible() && !q.Head().GoesOn()
    ensures p.Echoed() == Peer(q.Tail(), q.out + q.Head().Accepted()) && (GivesUp(p.answers) <==> q.Head().Ends())
  {
    if q.answers == [] {
      assert done + [] == done;
      NoExchange(p, done);
      assert q.out + [] == q.out;
    } else {
      NextAnswers(p.answers, done, q.answers);
      LastExchange(p, done, q.answers[0], q.answers[1..]);
    }
  }

  lemma {:induction false} EchoEnds(s: World, t: World, fd: int, done: seq<Exchange>)
    requires fd in s.open && s.open[fd] in s.peers && Possible(s.peers[s.open[fd]].answers) && Echoing(s, t, fd, done)
    requires var e := t.peers[s.open[fd]].Head(); e.Possible() && !e.GoesOn()
    ensures OneTaken(t, fd) == Echoed(s, fd)
    ensures GivesUp(s.peers[s.open[fd]].answers) <==> t.peers[s.open[fd]].Head().Ends()
  {
    var c := s.open[fd];
    PeerEnds(s.peers[c], done, t.peers[c]);
    assert t.peers[c := s.peers[c].Echoed()] == s.peers[c := s.peers[c].Echoed()];
  }

  lemma EchoGoesOn(s: World, t: World, fd: int, done: seq<Exchange>)
    requires fd in s.open && s.open[fd] in s.peers && Echoing(s, t, fd, done)
    requires var e := t.peers[s.open[fd]].Head(); e.Possible() && e.GoesOn()
    ensures Echoing(s, OneTaken(t, fd), fd, done + [t.peers[s.open[fd]].Head()])
  {
    var c := s.open[fd];
    var q := t.peers[c];
    NextAnswers(s.peers[c].answers, done, q.answers);
    NextOut(s.peers[c].out, done, q.Head());
    var q' := Peer(q.Tail(), q.out + q.Head().Accepted());
    assert t.peers[c := q'] == s.peers[c := q'];
  }

  lemma EchoedIsSane(s: World, fd: int, listener: int)
    requires s.Sane(listener) && fd in s.open
    ensures Echoed(s, fd).Sane(listener)
  {
  }

  // So far the accept drain has taken connections `accepted`.
  ghost predicate Taking(s: World, t: World, listener: int, accepted: seq<int>) {
    && |accepted| <= s.backlog && Distinct(accepted)
    && t == s.(open := Opened(s.open, accepted, s.nextConn), peers := t.peers, nextConn := s.nextConn + |accepted|,
               backlog := s.backlog - |accepted|, touched := t.touched, failed := t.failed)
    && (forall fd :: fd in accepted ==> fd !in s.open && fd in t.open && fd != listener)
    && (forall c :: c in s.peers && c < s.nextConn ==> c in t.peers && t.peers[c] == s.peers[c])
  }

  lemma TakeMore(s: World, t: World, listener: int, accepted: seq<int>, fd: int, peer: Peer)
    requires Taking(s, t, listener, accepted) && fd !in t.open && fd != listener && t.backlog > 0
    ensures Taking(s, Joined(t.Touch(Handled(listener, None)), fd, peer), listener, accepted + [fd])
  {
    assert (accepted + [fd])[..|accepted|] == accepted;
    OpenedKeeps(s.open, accepted, s.nextConn);
  }

  // The accept drain has taken connections `accepted`, and was not cut short unless failed.
  ghost predicate Admits(s: World, t: World, listener: int, accepted: seq<int>) {
    && Taking(s, t, listener, accepted)
    && t.touched == s.Touch(Handled(listener, None)).touched && (!t.failed ==> t.backlog == 0)
  }

  ghost predicate IsOpen(t: World, n: nat) {
    exists fd :: fd in t.open && t.open[fd] == n
  }

  // Client fd of s has had its loop by t.
  ghost predicate ClientServed(s: World, t: World, fd: int)
    requires fd in s.open && s.open[fd] in s.peers && Possible(s.peers[s.open[fd]].answers)
  {
    var c := s.open[fd];
    && c in t.peers && t.peers[c] == s.peers[c].Echoed()
    && if GivesUp(s.peers[c].answers) then fd in t.open ==> t.open[fd] >= s.nextConn
       else fd in t.open && t.open[fd] == c
  }

  ghost predicate ClientKept(s: World, t: World, fd: int)
    requires fd in s.open && s.open[fd] in s.peers
  {
    var c := s.open[fd];
    fd in t.open && t.open[fd] == c && c in t.peers && t.peers[c] == s.peers[c]
  }

  /** The ready descriptors below i have been served, and nothing else has happened.  From s
      to t, each ready client below i has had its loop, and is closed exactly if its answers
      give it up; a ready listener below i has left nobody waiting, unless accept4 failed;
      every other client is what it was; all new connections are open. */
  ghost predicate Progressed(ready: set<int>, listener: int, i: int, s: World, t: World)
    requires s.Sane(listener)
  {
    && (forall fd :: fd in s.open && fd in ready && fd < i ==> ClientServed(s, t, fd))
    && (forall fd :: fd in s.open && !(fd in ready && fd < i) ==> ClientKept(s, t, fd))
    && (forall fd :: fd in t.open ==> t.open[fd] >= s.nextConn || (fd in s.open && t.open[fd] == s.open[fd]))
    && t.nextConn == s.nextConn + s.backlog - t.backlog && t.backlog <= s.backlog
    && (forall n :: s.nextConn <= n < t.nextConn ==> IsOpen(t, n))
    && (if listener in ready && listener < i then t.failed || t.backlog == 0
        else t.backlog == s.backlog && !t.failed)
  }

  lemma NoneProgressed(ready: set<int>, listener: int, s: World, t: World)
    requires s.Sane(listener) && forall fd :: fd in ready ==> 0 <= fd
    requires t == s.(ready := t.ready, touched := t.touched, failed := false, selects := t.selects)
    ensures Progressed(ready, listener, 0, s, t)
  {
  }

  lemma SkipProgresses(ready: set<int>, listener: int, i: int, s: World, t: World)
    requires s.Sane(listener) && Progressed(ready, listener, i, s, t) && i !in ready
    ensures Progressed(ready, listener, i + 1, s, t)
  {
  }

  // What the scan makes of a ready client.
  function Visited(t: World, i: int): World
    requires i in t.open && t.open[i] in t.peers && Possible(t.peers[t.open[i]].answers)
  {
    var u := Echoed(t, i);
    if GivesUp(t.peers[t.open[i]].answers) then u.(open := u.open - {i}) else u
  }

  // u is t after the loop on client fd of s.
  ghost predicate Visits(s: World, t: World, u: World, fd: int)
    requires fd in s.open && s.open[fd] in s.peers && Possible(s.peers[s.open[fd]].answers)
  {
    var c := s.open[fd];
    && u.nextConn == t.nextConn && u.backlog == t.backlog && u.failed == t.failed
    && u.peers == t.peers[c := s.peers[c].Echoed()]
    && u.open == if GivesUp(s.peers[c].answers) then t.open - {fd} else t.open
  }

  lemma ClientProgresses(ready: set<int>, listener: int, i: int, s: World, t: World, u: World)
    requires s.Sane(listener) && Progressed(ready, listener, i, s, t) && i in ready && i in s.open && Visits(s, t, u, i)
    ensures Progressed(ready, listener, i + 1, s, u)
  {
    assert ClientKept(s, t, i);
    forall fd | fd in s.open && fd in ready && fd < i + 1 ensures ClientServed(s, u, fd) {
      assert fd < i ==> ClientServed(s, t, fd);
    }
    forall fd | fd in s.open && !(fd in ready && fd < i + 1) ensures ClientKept(s, u, fd) {
      assert ClientKept(s, t, fd);
    }
    forall n | s.nextConn <= n < u.nextConn ensures IsOpen(u, n) {
      assert IsOpen(t, n);
      var fd :| fd in t.open && t.open[fd] == n;
      assert fd in u.open;
    }
  }

  lemma ListenerProgresses(ready: set<int>, listener: int, s: World, t: World, u: World, accepted: seq<int>)
    requires s.Sane(listener) && t.Sane(listener) && Progressed(ready, listener, listener, s, t) && listener in ready
    requires Admits(t, u, listener, accepted)
    ensures Progressed(ready, listener, listener + 1, s, u)
  {
    OpenedKeeps(t.open, accepted, t.nextConn);
    OpenedNames(t.open, accepted, t.nextConn);
    forall n | s.nextConn <= n < u.nextConn ensures IsOpen(u, n) {
      assert accepted[n - t.nextConn] in accepted;
    }
  }

  /** The round has come to position i: everything ready below has been served, and the
      kernel has been asked about nothing else, in this order. */
  ghost predicate RoundTo(ready: set<int>, listener: int, i: nat, s: World, t: World)
    requires s.Sane(listener)
  {
    Progressed(ready, listener, i, s, t) && t.touched == Served(Below(ready, i), s.open)
  }

  lemma VisitProgresses(ready: set<int>, listener: int, i: int, s: World, t: World)
    requires s.Sane(listener) && t.Sane(listener) && Progressed(ready, listener, i, s, t) && i in ready
    requires i in s.open && i in t.open && t.open[i] == s.open[i] && ClientKept(s, t, i)
    requires forall h :: h in t.touched ==> h.fd < i
    ensures Progressed(ready, listener, i + 1, s, Visited(t, i))
    ensures Visited(t, i).touched == t.touched + [Handled(i, Some(s.open[i]))]
    ensures Visited(t, i).selects == t.selects && Visited(t, i).failed == t.failed
  {
    ClientProgresses(ready, listener, i, s, t, Visited(t, i));
  }

  // select() has changed nothing that the round is about.
  lemma SameStart(ready: set<int>, listener: int, i: nat, s: World, begun: World, t: World)
    requires s.Sane(listener) && begun == s.(ready := begun.ready, touched := begun.touched, selects := begun.selects)
    requires begun.Sane(listener) && RoundTo(ready, listener, i, begun, t)
    ensures RoundTo(ready, listener, i, s, t)
  {
    forall fd | fd in s.open && fd in ready && fd < i ensures ClientServed(s, t, fd) {
      assert ClientServed(begun, t, fd);
    }
    forall fd | fd in s.open && !(fd in ready && fd < i) ensures ClientKept(s, t, fd) {
      assert ClientKept(begun, t, fd);
    }
  }

  lemma NothingBetween(ready: set<int>, listener: int, i: nat, j: nat, s: World, t: World)
    requires s.Sane(listener) && RoundTo(ready, listener, i, s, t)
    requires forall fd :: fd in ready ==> fd < i && fd < j
    ensures RoundTo(ready, listener, j, s, t)
  {
    BelowStops(ready, if i <= j then i else j, if i <= j then j else i);
  }

  // A failing select() leaves the kernel as it was.
  ghost predicate SelectFailed(s: World, t: World) {
    t == s.(ready := t.ready, touched := [], failed := true, selects := t.selects)
  }

  // What is ready at or above the scan is still watched, as the connection it denoted.
  lemma StillWatched(ready: set<int>, listener: int, i: int, fd: int, s: World, t: World)
    requires s.Sane(listener) && Progressed(ready, listener, i, s, t) && ready <= s.open.Keys + {listener}
    requires fd in ready && fd >= i
    ensures fd != listener ==> fd in s.open && fd in t.open && t.open[fd] == s.open[fd] && ClientKept(s, t, fd)
  {
    assert fd != listener ==> ClientKept(s, t, fd);
  }

  // Past the maximum, or with a countdown of zero, nothing ready is left.
  lemma {:induction false} ScanMeetsAll(ready: set<int>, listener: int, i: int, s: World, t: World,
                                        backup: set<int>, maxSfd: int)
    requires s.Sane(listener) && Progressed(ready, listener, i, s, t) && ready <= s.open.Keys + {listener}
    requires Watched(listener, t.open, backup, maxSfd) && (i > maxSfd || |From(ready, i)| == 0)
    ensures |From(ready, i)| == 0 && forall fd :: fd in ready ==> fd < i
  {
    forall fd | fd in ready ensures fd < i {
      if fd >= i {
        assert fd in From(ready, i);
        StillWatched(ready, listener, i, fd, s, t);
      }
    }
    assert From(ready, i) == {};
  }

  lemma {:induction false} ServedBelow(ready: set<int>, i: nat, at: map<int, nat>)
    ensures forall h :: h in Served(Below(ready, i), at) ==> h.fd < i
    ensures Served(Below(ready, i + 1), at)
            == Served(Below(ready, i), at)
               + if i in ready then [Handled(i, if i in at then Some(at[i]) else None)] else []
  {
    BelowIsTheSet(ready, i);
    ServedNames(Below(ready, i), at);
    BelowStep(ready, i);
    ServedStep(Below(ready, i), i, at);
  }

  lemma ServedNames(fds: seq<int>, at: map<int, nat>)
    ensures forall h :: h in Served(fds, at) ==> h.fd in fds
  {
  }

  predicate Distinct(fds: seq<int>) {
    forall i, j :: 0 <= i < j < |fds| ==> fds[i] != fds[j]
  }

  lemma OpenedNames(open: map<int, nat>, fds: seq<int>, first: nat)
    requires Distinct(fds)
    ensures forall k :: 0 <= k < |fds| ==>
              fds[k] in Opened(open, fds, first) && Opened(open, fds, first)[fds[k]] == first + k
    ensures forall fd :: fd in Opened(open, fds, first) ==>
              fd in fds || (fd in open && Opened(open, fds, first)[fd] == open[fd])
    ensures forall fd :: fd in fds ==> fd in Opened(open, fds, first) && Opened(open, fds, first)[fd] >= first
  {
    if fds == [] {
    } else {
      OpenedNames(open, fds[..|fds| - 1], first);
    }
  }

  lemma {:induction false} MadeAfter(done: seq<Exchange>, rest: seq<Exchange>)
    requires forall k :: 0 <= k < |done| ==> done[k].GoesOn()
    ensures Made(done + rest) == done + Made(rest)
  {
    if done == [] {
      assert done + rest == rest;
    } else {
      assert (done + rest)[1..] == done[1..] + rest;
      MadeAfter(done[1..], rest);
    }
  }

  // The backup set is the listener and the open clients, and max_sfd is its maximum.
  ghost predicate Watched(listener: int, open: map<int, nat>, backup: set<int>, maxSfd: int) {
    && backup == open.Keys + {listener}
    && maxSfd in backup && forall fd :: fd in backup ==> 0 <= fd <= maxSfd
  }

  lemma WatchMore(listener: int, open: map<int, nat>, backup: set<int>, maxSfd: int, fd: int, n: nat)
    requires Watched(listener, open, backup, maxSfd) && 0 <= fd
    ensures Watched(listener, open[fd := n], backup + {fd}, if maxSfd < fd then fd else maxSfd)
  {
  }

  // Of the watched descriptors below max_sfd + 1, those that are ready.
  lemma ReadyOfWatched(listener: int, open: map<int, nat>, backup: set<int>, maxSfd: int, found: set<int>)
    requires Watched(listener, open, backup, maxSfd)
    ensures (set fd | fd in backup && fd in found && fd < maxSfd + 1) == backup * found
  {
  }

  // ---- The server ----

  class Server {
    const listener: int
    const kernel: Kernel
    var maxSfd: int
    var readBackup: set<int>    // read_fd_backup_set
    var readSet: set<int>       // read_fd_set

    /** The backup set is the listener and the open clients, and max_sfd is its maximum. */
    ghost predicate Valid()
      reads this, kernel
    {
      && kernel.listener == listener && kernel.now.Sane(listener)
      && Watched(listener, kernel.now.open, readBackup, maxSfd)
    }

    constructor (kernel: Kernel)
      requires kernel.now.Sane(kernel.listener) && kernel.now.open == map[]
      ensures Valid() && this.kernel == kernel
    {
      listener, this.kernel := kernel.listener, kernel;
      maxSfd := kernel.listener;
      readBackup, readSet := {kernel.listener}, {};
    }

    // One round of the drain, after connections `accepted`.
    method AcceptOne(ghost s: World, ghost accepted: seq<int>) returns (fd: int, hard: bool)
      requires Valid() && !kernel.now.failed && Taking(s, kernel.now, listener, accepted)
      modifies kernel, this`readBackup, this`maxSfd
      ensures Valid() && old(maxSfd) <= maxSfd
      ensures kernel.now.touched == old(kernel.now).Touch(Handled(listener, None)).touched
      ensures fd < 0 ==>
                && Taking(s, kernel.now, listener, accepted)
                && kernel.now.failed == hard && (hard || kernel.now.backlog == 0)
      ensures fd >= 0 ==>
                && Taking(s, kernel.now, listener, accepted + [fd]) && !kernel.now.failed
                && kernel.now.backlog < old(kernel.now).backlog
    {
      ghost var t := kernel.now;
      fd, hard := kernel.Accept4();
      if fd >= 0 {
        TakeMore(s, t, listener, accepted, fd, kernel.now.peers[t.nextConn]);
        WatchMore(listener, t.open, readBackup, maxSfd, fd, t.nextConn);
        readBackup := readBackup + {fd};
        maxSfd := if maxSfd < fd then fd else maxSfd;
      }
    }

    /** The accept drain of one scan; a hard error is an exception.  Otherwise every waiting
        connection has been accepted, in order, and is watched. */
    method AcceptAll() returns (thrown: bool, ghost accepted: seq<int>)
      requires Valid() && !kernel.now.failed
      modifies kernel, this`readBackup, this`maxSfd
      ensures Valid() && old(maxSfd) <= maxSfd
      ensures Admits(old(kernel.now), kernel.now, listener, accepted)
      ensures thrown == kernel.now.failed
    {
      ghost var s := kernel.now;
      ghost var h := s.Touch(Handled(listener, None)).touched;
      thrown, accepted := false, [];
      while true
        invariant Valid() && old(maxSfd) <= maxSfd && !kernel.now.failed
        invariant Taking(s, kernel.now, listener, accepted)
        invariant kernel.now.Touch(Handled(listener, None)).touched == h
        decreases kernel.now.backlog
      {
        var fd, hard := AcceptOne(s, accepted);
        if fd < 0 {
          thrown := hard;
          break;
        }
        accepted := accepted + [fd];
      }
    }

    // One round of the echo loop: the next exchange of the client.
    method EchoOnce(i: int) returns (goesOn: bool, connectionIsClosed: bool)
      requires i in kernel.now.open && kernel.now.open[i] in kernel.now.peers
      requires kernel.now.peers[kernel.now.open[i]].Head().Possible()
      modifies kernel
      ensures kernel.now == OneTaken(old(kernel.now), i)
      ensures var e := old(kernel.now).peers[old(kernel.now).open[i]].Head();
              goesOn == e.GoesOn() && connectionIsClosed == e.Ends()
    {
      ghost var q := kernel.now.peers[kernel.now.open[i]];
      assert !q.Head().r.Got? || !q.Head().w.Wrote? ==> q.out + [] == q.out;
      goesOn, connectionIsClosed := false, false;
      var r, buffer := kernel.Read(i);
      if r.ReadFailed? {
        connectionIsClosed := true;
        return;
      }
      if r.ReadAgain? {
        return;
      }
      if r.Eof? {
        connectionIsClosed := true;
        return;
      }
      var w := kernel.Write(i, buffer);
      if w.WriteFailed? {
        connectionIsClosed := true;
        return;
      }
      if w.WriteAgain? {
        return;
      }
      goesOn := true;
    }

    /** The echo loop of a client: exactly the exchanges up to the first that stops it. */
    method EchoAll(i: int) returns (connectionIsClosed: bool)
      requires kernel.now.Sane(listener) && i in kernel.now.open
      modifies kernel
      ensures kernel.now == Echoed(old(kernel.now), i)
      ensures connectionIsClosed == GivesUp(old(kernel.now).peers[old(kernel.now).open[i]].answers)
    {
      ghost var s := kernel.now;
      ghost var c, done := s.open[i], [];
      var goesOn := true;
      connectionIsClosed := false;
      EchoingNothing(s, i);
      while goesOn
        invariant i in kernel.now.open
        invariant if goesOn then Echoing(s, kernel.now, i, done) && !connectionIsClosed
                  else kernel.now == Echoed(s, i) && connectionIsClosed == GivesUp(s.peers[c].answers)
        decreases goesOn, |kernel.now.peers[c].answers|
      {
        ghost var t := kernel.now;
        HeadIsPossible(s.peers[c], done, t.peers[c]);
        goesOn, connectionIsClosed := EchoOnce(i);
        if goesOn {
          EchoGoesOn(s, t, i, done);
        } else {
          EchoEnds(s, t, i, done);
        }
        done := done + [t.peers[c].Head()];
      }
    }

    /** Close a client; if it was the highest descriptor, walk down to the new one.  The
        walk stops at a member, at or above the listener. */
    method CloseClient(fd: int)
      requires Valid() && fd in kernel.now.open
      modifies kernel, this`readBackup, this`maxSfd
      ensures Valid() && kernel.now == old(kernel.now).(open := old(kernel.now).open - {fd})
      ensures listener <= maxSfd && (fd != old(maxSfd) ==> maxSfd == old(maxSfd))
    {
      kernel.Close(fd);
      readBackup := readBackup - {fd};
      if fd == maxSfd {
        maxSfd := maxSfd - 1;
        while maxSfd >= 0 && maxSfd !in readBackup
          invariant forall f :: f in readBackup ==> 0 <= f <= maxSfd
          invariant kernel.now == old(kernel.now).(open := old(kernel.now).open - {fd})
          invariant readBackup == old(readBackup) - {fd}
        {
          maxSfd := maxSfd - 1;
        }
      }
    }

    /** What the scan does at a ready descriptor: accept all waiting connections, or echo, and
        close the client exactly when its answers give it up. */
    method HandleReady(i: int) returns (thrown: bool, ghost accepted: seq<int>)
      requires Valid() && i in readBackup && !kernel.now.failed
      modifies kernel, this`readBackup, this`maxSfd
      ensures Valid() && thrown == kernel.now.failed
      ensures i == listener ==> Admits(old(kernel.now), kernel.now, listener, accepted)
      ensures i != listener ==> kernel.now == Visited(old(kernel.now), i) && !thrown
      ensures maxSfd < old(maxSfd) ==> i == old(maxSfd)
    {
      thrown, accepted := false, [];
      if listener == i {
        thrown, accepted := AcceptAll();
      } else {
        EchoedIsSane(kernel.now, i, listener);
        var connectionIsClosed := EchoAll(i);
        if connectionIsClosed {
          CloseClient(i);
        }
      }
    }

    /** Position i of the scan.  The countdown is the number of ready descriptors at or above
        the position, before and after; and the position is served. */
    method Visit(i: int, sfdReadyNo: int, ghost ready: set<int>, ghost s: World) returns (thrown: bool, left: int)
      requires Valid() && 0 <= i && readSet == ready && ready <= s.open.Keys + {listener}
      requires s.Sane(listener) && !kernel.now.failed && Progressed(ready, listener, i, s, kernel.now)
      requires sfdReadyNo == |From(readSet, i)| && (forall h :: h in kernel.now.touched ==> h.fd < i)
      modifies kernel, this`readBackup, this`maxSfd
      ensures Valid() && Progressed(ready, listener, i + 1, s, kernel.now) && thrown == kernel.now.failed
      ensures kernel.now.selects == old(kernel.now).selects
      ensures left == |From(readSet, i + 1)| && (i !in ready ==> maxSfd == old(maxSfd))
      ensures thrown ==> i == listener && i in ready
      ensures kernel.now.touched == old(kernel.now).touched
                + if i in ready then [Handled(i, if i in s.open then Some(s.open[i]) else None)] else []
    {
      FromStep(readSet, i);
      left, thrown := sfdReadyNo, false;
      if i in readSet {
        left := left - 1;
        ghost var t, accepted := kernel.now, [];
        StillWatched(ready, listener, i, i, s, t);
        if i != listener {
          VisitProgresses(ready, listener, i, s, t);
        }
        thrown, accepted := HandleReady(i);
        if i == listener {
          ListenerProgresses(ready, listener, s, t, kernel.now, accepted);
        }
      } else {
        SkipProgresses(ready, listener, i, s, kernel.now);
      }
    }

    /** The scan over the snapshot.  Wherever it stops, the countdown is the number of ready
        descriptors from there on; without an exception that is none, and all are served. */
    method Scan(events: int, ghost ready: set<int>) returns (thrown: bool, i: nat, sfdReadyNo: int)
      requires Valid() && readSet == ready && ready <= readBackup && events == |ready|
      requires !kernel.now.failed && kernel.now.touched == []
      modifies kernel, this`readBackup, this`maxSfd
      ensures Valid() && thrown == kernel.now.failed
      ensures RoundTo(ready, listener, i, old(kernel.now), kernel.now)
      ensures kernel.now.selects == old(kernel.now).selects
      ensures sfdReadyNo == |From(ready, i)|
      ensures if thrown then i == listener + 1 && listener in ready
              else sfdReadyNo == 0 && forall fd :: fd in ready ==> fd < i
    {
      ghost var s := kernel.now;
      i, sfdReadyNo, thrown := 0, events, false;
      FromAll(ready);
      NoneProgressed(ready, listener, s, s);
      while i <= maxSfd && sfdReadyNo > 0 && !thrown
        invariant Valid() && thrown == kernel.now.failed && (thrown ==> i == listener + 1 && listener in ready)
        invariant RoundTo(ready, listener, i, s, kernel.now) && kernel.now.selects == s.selects
        invariant sfdReadyNo == |From(ready, i)|
        decreases |From(ready, i)|, maxSfd - i, !thrown
      {
        FromStep(ready, i);
        ServedBelow(ready, i, s.open);
        thrown, sfdReadyNo := Visit(i, sfdReadyNo, ready, s);
        i := i + 1;
      }
      if !thrown {
        ScanMeetsAll(ready, listener, i, s, kernel.now, readBackup, maxSfd);
      }
    }

    /** One round of the server.  With `ready` the watched descriptors that select() finds
        ready: unless it or accept4() fails hard, each is read or accepted from exactly
        once, in ascending order, as the connection it denoted when select() returned; each
        ready client has had its whole loop and is closed exactly if that gives it up; if
        the listener was ready nobody is left waiting; and max_sfd is again the maximum of
        the backup set.  When accept4() fails this holds of the descriptors up to the
        listener; when select() does, nothing has happened. */
    method Round() returns (thrown: bool)
      requires Valid() && !kernel.now.failed
      modifies this, kernel
      ensures Valid() && kernel.now.selects == old(kernel.now).selects + 1 && thrown == kernel.now.failed
      ensures var ready, s, t := old(readBackup) * old(kernel.now).ready, old(kernel.now), kernel.now;
              if !thrown
              then RoundTo(ready, listener, old(maxSfd) + 1, s, t)
              else SelectFailed(s, t) || (listener in ready && RoundTo(ready, listener, listener + 1, s, t))
    {
      ghost var ready, s := readBackup * kernel.now.ready, kernel.now;
      ghost var bound := maxSfd + 1;
      ReadyOfWatched(listener, s.open, readBackup, maxSfd, s.ready);
      var events;
      readSet := readBackup;
      events, readSet := kernel.Select(maxSfd + 1, readSet);
      thrown := events == -1;
      if thrown {
        return;
      }
      thrown := Serve(events, ready, s, bound);
    }

    // The scan, seen from before select().
    method Serve(events: int, ghost ready: set<int>, ghost s: World, ghost bound: nat) returns (thrown: bool)
      requires Valid() && readSet == ready && ready <= readBackup && events == |ready| && s.Sane(listener)
      requires !kernel.now.failed && kernel.now.touched == [] && (forall fd :: fd in ready ==> fd < bound)
      requires kernel.now == s.(ready := kernel.now.ready, touched := [], selects := kernel.now.selects)
      modifies kernel, this`readBackup, this`maxSfd
      ensures Valid() && thrown == kernel.now.failed && kernel.now.selects == old(kernel.now).selects
      ensures if !thrown then RoundTo(ready, listener, bound, s, kernel.now)
              else listener in ready && RoundTo(ready, listener, listener + 1, s, kernel.now)
    {
      var i, sfdReadyNo;
      ghost var begun := kernel.now;
      thrown, i, sfdReadyNo := Scan(events, ready);
      SameStart(ready, listener, i, s, begun, kernel.now);
      if !thrown {
        NothingBetween(ready, listener, i, bound, s, kernel.now);
      }
    }

    /** Any number of rounds keeps the bookkeeping. */
    method Run(rounds: nat) returns (thrown: bool)
      requires Valid() && !kernel.now.failed
      modifies this, kernel
      ensures Valid() && thrown == kernel.now.failed
      ensures !thrown ==> kernel.now.selects == old(kernel.now).selects + rounds
    {
      thrown := false;
      var k := 0;
      while k < rounds && !thrown
        invariant Valid() && thrown == kernel.now.failed && k <= rounds
        invariant kernel.now.selects == old(kernel.now).selects + k
      {
        thrown := Round();
        k := k + 1;
      }
    }
  }
}
