// The multi-worker server's classes, as one thread executes them: the connection
// objects and their manager, and the worker's methods against a kernel that
// chooses every answer.  The kernel and the manager write down every call made of
// them; the calls of handleConnectionEvent are proved to be a run of the sequential
// automaton of EchoConnection.
module MultiWorkerServer {
  import opened Sockets
  import opened EchoConnection
  import Echo

  // What the client does between two calls on its connection.
  datatype Client = Client(bytes: seq<byte>, shuts: bool)

  function Moved(k: Socket, client: Client): Socket {
    var k' := k.Arrive(client.bytes);
    if client.shuts then k'.Shut() else k'
  }

  function ClientEvents(client: Client): seq<SoloEvent> {
    if client.shuts then [ClientSends(client.bytes), ClientShuts] else [ClientSends(client.bytes)]
  }

  // A call with its arguments and its answer, as the callee writes it down.
  datatype Made =
    | ReadMade(fd: int, at: int, request: int, client: Client, r: ReadResult)
    | WriteMade(fd: int, bytes: seq<byte>, client: Client, w: WriteResult)
    | ModMade(fd: int, interest: Interest, ok: bool)
    | Rewound(fd: int)
    | AcceptMade(listener: int, fd: int, hard: bool)
    | InsertMade(fd: int)
    | AddMade(fd: int, ok: bool)
    | RemoveMade(fd: int)
    | DelMade(fd: int)
    | CloseMade(fd: int)

  /** The calls of one thread, oldest first. */
  class History {
    ghost var calls: seq<Made>

    constructor ()
      ensures calls == []
    {
      calls := [];
    }

    ghost method Note(c: Made)
      modifies this
      ensures calls == old(calls) + [c]
    {
      calls := calls + [c];
    }
  }

  class ConnectionData {
    var connFd: int
    var buffer: array<byte>   // buffer_ and the cell after it
    var readIndex: int
    var writeIndex: int
    var readyForWrite: bool

    constructor (fd: int)
      ensures fresh(buffer) && Value() == NewConn(fd)
    {
      connFd := fd;
      buffer := new byte[CAPACITY + 1](_ => 0);
      readIndex, writeIndex, readyForWrite := 0, 0, false;
      new;
      assert buffer[..] == seq(CAPACITY + 1, _ => 0);
    }

    function Value(): Conn
      reads this, buffer
    {
      Conn(connFd, buffer[..], readIndex, writeIndex, readyForWrite)
    }

    method ResetIndices()
      modifies `readIndex, `writeIndex, `readyForWrite
      ensures Value() == old(Value()).Reset() && buffer == old(buffer)
    {
      readIndex := 0;
      writeIndex := 0;
      readyForWrite := false;
    }
  }

  class ConnectionDataManager {
    const history: History
    var data: map<int, ConnectionData>

    constructor (history: History)
      ensures this.history == history && data == map[]
    {
      this.history, data := history, map[];
    }

    method Get(fd: int) returns (conn: ConnectionData?)
      ensures conn == if fd in data then data[fd] else null
    {
      if fd in data {
        conn := data[fd];
      } else {
        conn := null;
      }
    }

    /** A taken key is left alone and reported by null. */
    method Insert(fd: int) returns (conn: ConnectionData?)
      modifies this`data, history
      ensures history.calls == old(history.calls) + [InsertMade(fd)]
      ensures fd in old(data) ==> conn == null && data == old(data)
      ensures fd !in old(data) ==>
                && conn != null && fresh(conn) && fresh(conn.buffer) && conn.Value() == NewConn(fd)
                && data == old(data)[fd := conn]
    {
      history.Note(InsertMade(fd));
      if fd in data {
        conn := null;
      } else {
        conn := new ConnectionData(fd);
        data := data[fd := conn];
      }
    }

    method Remove(fd: int)
      modifies this`data, history
      ensures history.calls == old(history.calls) + [RemoveMade(fd)]
      ensures data == old(data) - {fd}
    {
      history.Note(RemoveMade(fd));
      data := data - {fd};
    }
  }

  /** The kernel, as one thread sees it: descriptors, epoll entries and the thread's errno.
      A willing kernel answers as `Echo.Willing` says. */
  class Kernel {
    const history: History
    const willing: bool
    var open: map<int, Socket>
    var items: map<int, Registration>
    var errno: Errno
    var backlog: nat   // connections waiting to be accepted

    constructor (history: History, willing: bool)
      ensures this.history == history && this.willing == willing && open == map[] && items == map[]
    {
      this.history, this.willing := history, willing;
      open, items, errno, backlog := map[], map[], EOther, 0;
    }

    // What a willing kernel answers to read().
    function WillingRead(k: Socket, request: nat): (r: ReadResult)
      requires k.taken <= |k.received|
      ensures MayRead(k, request, r) && !r.ReadFailed? && (r.ReadAgain? ==> k.Unread() == 0)
    {
      if request == 0 then Eof else if k.Unread() > 0 then Got(1) else if k.eof then Eof else ReadAgain
    }

    method Read(fd: int, buffer: array<byte>, at: int, request: int)
      returns (rlen: int, ghost client: Client, ghost r: ReadResult)
      requires fd in open && open[fd].WellFormed() && 0 <= at && 0 <= request && at + request <= buffer.Length
      modifies this`open, this`errno, buffer, history
      ensures history.calls == old(history.calls) + [ReadMade(fd, at, request, client, r)]
      ensures MayRead(Moved(old(open)[fd], client), request, r)
      ensures willing ==> !r.ReadFailed? && (r.ReadAgain? ==> Moved(old(open)[fd], client).Unread() == 0)
      ensures var k := Moved(old(open)[fd], client);
              match r
              case Got(n) =>
                && rlen == n && errno == old(errno) && open == old(open)[fd := k.(taken := k.taken + n)]
                && buffer[..] == Store(old(buffer[..]), at, k.received[k.taken..k.taken + n])
              case Eof =>
                rlen == 0 && errno == old(errno) && open == old(open)[fd := k] && buffer[..] == old(buffer[..])
              case ReadAgain =>
                rlen < 0 && errno == EAgain && open == old(open)[fd := k] && buffer[..] == old(buffer[..])
              case ReadFailed =>
                && rlen < 0 && errno == EOther && open == old(open)[fd := k.(readError := true)]
                && buffer[..] == old(buffer[..])
    {
      var c: Client := *;
      var result: ReadResult := *;
      var k := Moved(open[fd], c);
      if willing && (result.ReadFailed? || (result.ReadAgain? && k.Unread() > 0)) {
        result := WillingRead(k, request);
      }
      if !MayRead(k, request, result) {
        result := if willing then WillingRead(k, request) else ReadFailed;
      }
      client, r := c, result;
      history.Note(ReadMade(fd, at, request, client, r));
      match result
      case Got(n) =>
        forall i | 0 <= i < n {
          buffer[at + i] := k.received[k.taken + i];
        }
        assert buffer[..] == Store(old(buffer[..]), at, k.received[k.taken..k.taken + n]);
        rlen, open := n, open[fd := k.(taken := k.taken + n)];
      case Eof => rlen, open := 0, open[fd := k];
      case ReadAgain => rlen, errno, open := -1, EAgain, open[fd := k];
      case ReadFailed => rlen, errno, open := -1, EOther, open[fd := k.(readError := true)];
    }

    method Write(fd: int, buffer: array<byte>, at: int, request: int)
      returns (wlen: int, ghost client: Client, ghost w: WriteResult)
      requires fd in open && 0 <= at && 0 <= request && at + request <= buffer.Length
      modifies this`open, this`errno, history
      ensures history.calls == old(history.calls) + [WriteMade(fd, buffer[at..at + request], client, w)]
      ensures MayWrite(request, w)
      ensures willing ==> w.Wrote? || (w.WroteNothing? && request == 0)
      ensures var k := Moved(old(open)[fd], client);
              match w
              case Wrote(n) =>
                wlen == n && errno == old(errno) && open == old(open)[fd := k.(sent := k.sent + buffer[at..at + n])]
              case WroteNothing => wlen == 0 && errno == old(errno) && open == old(open)[fd := k]
              case WriteAgain => wlen < 0 && errno == EAgain && open == old(open)[fd := k]
              case WriteFailed => wlen < 0 && errno == EOther && open == old(open)[fd := k.(writeError := true)]
    {
      var c: Client := *;
      var result: WriteResult := *;
      var k := Moved(open[fd], c);
      if willing && !result.Wrote? {
        result := if request > 0 then Wrote(1) else WroteNothing;
      }
      if !MayWrite(request, result) {
        result := if !willing then WriteFailed else if request > 0 then Wrote(1) else WroteNothing;
      }
      client, w := c, result;
      history.Note(WriteMade(fd, buffer[at..at + request], client, w));
      match result
      case Wrote(n) => wlen, open := n, open[fd := k.(sent := k.sent + buffer[at..at + n])];
      case WroteNothing => wlen, open := 0, open[fd := k];
      case WriteAgain => wlen, errno, open := -1, EAgain, open[fd := k];
      case WriteFailed => wlen, errno, open := -1, EOther, open[fd := k.(writeError := true)];
    }

    // EPOLL_CTL_MOD.
    method Rearm(fd: int, interest: Interest) returns (ok: bool)
      requires fd in items
      modifies this`items, history
      ensures history.calls == old(history.calls) + [ModMade(fd, interest, ok)] && (willing ==> ok)
      ensures items == if ok then old(items)[fd := Armed(interest)] else old(items)
    {
      var succeeds: bool := *;
      ok := willing || succeeds;
      history.Note(ModMade(fd, interest, ok));
      if ok {
        items := items[fd := Armed(interest)];
      }
    }

    // EPOLL_CTL_ADD with read interest.
    method Register(fd: int) returns (ok: bool)
      modifies this`items, history
      ensures history.calls == old(history.calls) + [AddMade(fd, ok)] && (willing ==> ok)
      ensures items == if ok then old(items)[fd := Armed(In)] else old(items)
    {
      var succeeds: bool := *;
      ok := willing || succeeds;
      history.Note(AddMade(fd, ok));
      if ok {
        items := items[fd := Armed(In)];
      }
    }

    // EPOLL_CTL_DEL.
    method Unregister(fd: int)
      modifies this`items, history
      ensures history.calls == old(history.calls) + [DelMade(fd)] && items == old(items) - {fd}
    {
      history.Note(DelMade(fd));
      items := items - {fd};
    }

    // A fresh descriptor for the next waiting connection, or -1; unless the failure is
    // hard, nobody is waiting.
    method Accept4(listener: int) returns (fd: int, ghost hard: bool)
      modifies this`open, this`backlog, history
      ensures history.calls == old(history.calls) + [AcceptMade(listener, fd, hard)]
      ensures willing ==> !hard
      ensures fd < 0 ==> fd == -1 && open == old(open) && backlog == old(backlog) && (hard || backlog == 0)
      ensures fd >= 0 ==>
                && !hard && fd !in old(open) && fd != listener
                && open == old(open)[fd := NewSocket()] && backlog == old(backlog) - 1
    {
      var fails: bool := *;
      var next := Unused(open.Keys + {listener});
      fails := fails && !willing;
      hard := fails;
      fd := if fails || backlog == 0 then -1 else next;
      history.Note(AcceptMade(listener, fd, hard));
      if fd >= 0 {
        open := open[fd := NewSocket()];
        backlog := backlog - 1;
      }
    }

    // Book-keeping of the model, no call: the connection's buffer has been rewound.
    method NoteRewind(fd: int)
      requires fd in open
      modifies this`open, history
      ensures history.calls == old(history.calls) + [Rewound(fd)]
      ensures open == old(open)[fd := old(open)[fd].(base := old(open)[fd].taken, sentBase := |old(open)[fd].sent|)]
    {
      history.Note(Rewound(fd));
      open := open[fd := open[fd].(base := open[fd].taken, sentBase := |open[fd].sent|)];
    }

    method Close(fd: int)
      modifies this`open, this`items, history
      ensures history.calls == old(history.calls) + [CloseMade(fd)]
      ensures open == old(open) - {fd} && items == old(items) - {fd}
    {
      history.Note(CloseMade(fd));
      open, items := open - {fd}, items - {fd};
    }
  }

  // Some descriptor that is not in use.
  method Unused(used: set<int>) returns (fd: nat)
    ensures fd !in used
  {
    fd := 0;
    var rest := used;
    while fd in used
      invariant forall f :: f in used && f >= fd ==> f in rest
      decreases rest
    {
      rest := rest - {fd};
      fd := fd + 1;
    }
    var choice: int := *;
    if choice >= 0 && choice !in used {
      fd := choice;
    }
  }

  // ---- Traces ----

  // The events of the connection that the calls of its handler are.
  function EventsOf(c: Made): seq<SoloEvent> {
    match c
    case ReadMade(_, _, _, client, r) => ClientEvents(client) + [Called(Read(r))]
    case WriteMade(_, _, client, w) => ClientEvents(client) + [Called(Write(w))]
    case ModMade(_, _, ok) => [Called(Mod(ok))]
    case Rewound(_) => [Called(Reset)]
    case _ => []
  }

  function Trace(d: SoloEvent, calls: seq<Made>): seq<SoloEvent> {
    if calls == [] then [d] else Trace(d, calls[..|calls| - 1]) + EventsOf(calls[|calls| - 1])
  }

  // The call asks for what the handler of connection y has to ask for: read() for the
  // room in the buffer, write() for what is unsent, MOD for the interest it has chosen.
  ghost predicate Asks(y: Solo, c: Made) {
    match c
    case ReadMade(fd, at, request, _, _) =>
      && fd == y.obj.connFd && y.work.Busy? && y.work.pc.Reading?
      && at == y.obj.readIndex && request == CAPACITY + 1 - y.obj.readIndex
    case WriteMade(fd, bytes, _, _) =>
      && fd == y.obj.connFd && y.work.Busy? && y.work.pc.Writing?
      && y.obj.WellFormed() && bytes == y.obj.buffer[y.obj.writeIndex..y.obj.readIndex]
    case ModMade(fd, interest, _) =>
      fd == y.obj.connFd && y.work.Busy? && y.work.pc.Rearming? && y.work.pc.interest == interest
    case Rewound(fd) => fd == y.obj.connFd && y.work == Busy(Resetting)
    case _ => false
  }

  // The calls, after the dispatch d, are (a beginning of) one handling of connection x.
  ghost predicate Serves(x: Solo, d: SoloEvent, calls: seq<Made>)
    ensures Serves(x, d, calls) ==> Echo.OneHandling(x, Trace(d, calls))
  {
    && Echo.OneHandling(x, Trace(d, calls))
    && (calls != [] ==>
          && Serves(x, d, calls[..|calls| - 1])
          && Asks(SoloFinal(x, Trace(d, calls[..|calls| - 1])), calls[|calls| - 1]))
  }

  /** They lead from x to y; and if the kernel is willing, so are its answers. */
  ghost predicate Traced(willing: bool, x: Solo, d: SoloEvent, calls: seq<Made>, y: Solo) {
    && Serves(x, d, calls) && SoloFinal(x, Trace(d, calls)) == y && SoloInv(y)
    && (willing ==> Echo.WillingRun(x, Trace(d, calls)))
  }

  // The state from which the handler makes the call: its client may have moved.
  function Before(y: Solo, c: Made): Solo {
    if c.ReadMade? || c.WriteMade? then y.(sock := Moved(y.sock, c.client)) else y
  }

  function CallOf(c: Made): Call {
    match c
    case ReadMade(_, _, _, _, r) => Read(r)
    case WriteMade(_, _, _, w) => Write(w)
    case ModMade(_, _, ok) => Mod(ok)
    case _ => Reset
  }

  // One call of the handler leads from y to z.
  ghost predicate Hop(willing: bool, y: Solo, c: Made, z: Solo) {
    && Asks(y, c) && SoloEnabled(Before(y, c), Called(CallOf(c))) && z == SoloApply(Before(y, c), Called(CallOf(c)))
    && (willing ==> Echo.Willing(Before(y, c), Called(CallOf(c))))
  }

  // Call k leads from station k to the next.
  ghost predicate HopAt(willing: bool, stations: seq<Solo>, calls: seq<Made>, k: nat)
    requires k < |calls| && |stations| == |calls| + 1
  {
    Hop(willing, stations[k], calls[k], stations[k + 1])
  }

  // From x, the dispatch d of a calm event and then the calls lead through the stations.
  ghost predicate Passes(willing: bool, x: Solo, d: SoloEvent, calls: seq<Made>, stations: seq<Solo>) {
    && |stations| == |calls| + 1
    && SoloInv(x) && d.Dispatched? && d.flags == CALM && SoloEnabled(x, d) && stations[0] == SoloApply(x, d)
    && forall k {:trigger HopAt(willing, stations, calls, k)} :: 0 <= k < |calls| ==> HopAt(willing, stations, calls, k)
  }

  ghost predicate Chain(willing: bool, x: Solo, d: SoloEvent, calls: seq<Made>, y: Solo) {
    exists stations :: Passes(willing, x, d, calls, stations) && stations[|calls|] == y
  }

  lemma ChainStarts(willing: bool, x: Solo, d: SoloEvent, y: Solo)
    requires SoloInv(x) && d.Dispatched? && d.flags == CALM && SoloEnabled(x, d) && y == SoloApply(x, d)
    ensures Chain(willing, x, d, [], y)
  {
    assert Passes(willing, x, d, [], [y]);
  }

  lemma ChainMore(willing: bool, x: Solo, d: SoloEvent, calls: seq<Made>, y: Solo, c: Made, z: Solo)
    requires Chain(willing, x, d, calls, y) && Hop(willing, y, c, z)
    ensures Chain(willing, x, d, calls + [c], z)
  {
    var stations :| Passes(willing, x, d, calls, stations) && stations[|calls|] == y;
    forall k | 0 <= k < |calls + [c]| ensures HopAt(willing, stations + [z], calls + [c], k) {
      if k < |calls| {
        assert HopAt(willing, stations, calls, k);
      }
    }
    assert Passes(willing, x, d, calls + [c], stations + [z]);
  }

  // es leads from x to y, in one handling.
  ghost predicate Reaches(willing: bool, x: Solo, es: seq<SoloEvent>, y: Solo) {
    && Echo.OneHandling(x, es) && SoloFinal(x, es) == y && SoloInv(y)
    && (willing ==> Echo.WillingRun(x, es))
  }

  lemma ReachMore(willing: bool, x: Solo, es: seq<SoloEvent>, y: Solo, e: SoloEvent)
    requires Reaches(willing, x, es, y) && SoloEnabled(y, e) && (y.work == Queued || y.work.Busy?)
    requires (e.Dispatched? ==> e.flags == CALM) && (willing ==> Echo.Willing(y, e))
    ensures Reaches(willing, x, es + [e], SoloApply(y, e))
  {
    SoloSnoc(x, es, e);
    StepInv(y, e);
    assert (es + [e])[..|es|] == es;
  }

  lemma ReachClient(willing: bool, x: Solo, es: seq<SoloEvent>, y: Solo, client: Client)
    requires Reaches(willing, x, es, y) && (y.work == Queued || y.work.Busy?)
    ensures Reaches(willing, x, es + ClientEvents(client), y.(sock := Moved(y.sock, client)))
  {
    ReachMore(willing, x, es, y, ClientSends(client.bytes));
    if client.shuts {
      var es1 := es + [ClientSends(client.bytes)];
      ReachMore(willing, x, es1, y.(sock := y.sock.Arrive(client.bytes)), ClientShuts);
      assert es + ClientEvents(client) == es1 + [ClientShuts];
    }
  }

  lemma ReachHop(willing: bool, x: Solo, es: seq<SoloEvent>, y: Solo, c: Made, z: Solo)
    requires Reaches(willing, x, es, y) && Hop(willing, y, c, z)
    ensures Reaches(willing, x, es + EventsOf(c), z)
  {
    if c.ReadMade? || c.WriteMade? {
      ReachClient(willing, x, es, y, c.client);
      ReachMore(willing, x, es + ClientEvents(c.client), Before(y, c), Called(CallOf(c)));
      assert es + EventsOf(c) == es + ClientEvents(c.client) + [Called(CallOf(c))];
    } else {
      ReachMore(willing, x, es, y, Called(CallOf(c)));
    }
  }

  lemma {:induction false} PassingReaches(willing: bool, x: Solo, d: SoloEvent, calls: seq<Made>, stations: seq<Solo>)
    requires Passes(willing, x, d, calls, stations)
    ensures Serves(x, d, calls) && Reaches(willing, x, Trace(d, calls), stations[|calls|])
  {
    if calls == [] {
      assert Reaches(willing, x, [], x);
      ReachMore(willing, x, [], x, d);
      assert [] + [d] == [d];
    } else {
      var n := |calls| - 1;
      var before, passed := calls[..n], stations[..n + 1];
      forall k | 0 <= k < n ensures HopAt(willing, passed, before, k) {
        assert HopAt(willing, stations, calls, k);
      }
      PassingReaches(willing, x, d, before, passed);
      assert HopAt(willing, stations, calls, n);
      ReachHop(willing, x, Trace(d, calls[..n]), stations[n], calls[n], stations[n + 1]);
    }
  }

  /** A chain of calls is one handling by the automaton. */
  lemma ChainReaches(willing: bool, x: Solo, d: SoloEvent, calls: seq<Made>, y: Solo)
    requires Chain(willing, x, d, calls, y)
    ensures Serves(x, d, calls) && Reaches(willing, x, Trace(d, calls), y)
  {
    var stations :| Passes(willing, x, d, calls, stations) && stations[|calls|] == y;
    PassingReaches(willing, x, d, calls, stations);
  }

  // What a read() that returned r makes of the object and the socket.
  ghost predicate ReadChanges(obj: Conn, sock: Socket, r: ReadResult, obj': Conn, sock': Socket)
    requires obj.WellFormed() && sock.WellFormed() && MayRead(sock, obj.ReadRequest(), r)
  {
    match r
    case Got(n) =>
      && obj' == obj.(buffer := Store(obj.buffer, obj.readIndex, sock.received[sock.taken..sock.taken + n]),
                      readIndex := obj.readIndex + n)
      && sock' == sock.(taken := sock.taken + n)
    case Eof => obj' == obj && sock' == sock
    case ReadAgain => obj' == obj.(readyForWrite := true) && sock' == sock
    case ReadFailed => obj' == obj && sock' == sock.(readError := true)
  }

  // Where the handler stands after it.
  function ReadWork(r: ReadResult, e: Errno): Work {
    match r
    case Got(_) => Busy(Reading(e))
    case Eof => Free
    case ReadAgain => Busy(Writing(EAgain))
    case ReadFailed => Busy(Rearming(In, true))
  }

  lemma ReadHop(willing: bool, y: Solo, c: Made, e: Errno, obj': Conn, sock': Socket) returns (z: Solo)
    requires y.work == Busy(Reading(e)) && y.parked == None
    requires y.obj.WellFormed() && y.sock.WellFormed() && !y.obj.readyForWrite
    requires c.ReadMade? && Asks(y, c) && MayRead(Moved(y.sock, c.client), y.obj.ReadRequest(), c.r)
    requires willing ==> !c.r.ReadFailed? && (c.r.ReadAgain? ==> Moved(y.sock, c.client).Unread() == 0)
    requires ReadChanges(y.obj, Moved(y.sock, c.client), c.r, obj', sock')
    ensures Hop(willing, y, c, z)
    ensures z == Solo(obj', sock', y.reg, ReadWork(c.r, e), if c.r == Eof then Some(EndOfFile) else None)
  {
    ReadEffect(Before(y, c), c.r, e, obj', sock');
    z := SoloApply(Before(y, c), Called(Call.Read(c.r)));
  }

  lemma ReadEffect(y: Solo, r: ReadResult, e: Errno, obj': Conn, sock': Socket)
    requires y.obj.WellFormed() && y.sock.WellFormed() && MayRead(y.sock, y.obj.ReadRequest(), r)
    requires y.work == Busy(Reading(e)) && y.parked == None && !y.obj.readyForWrite
    requires ReadChanges(y.obj, y.sock, r, obj', sock')
    ensures SoloEnabled(y, Called(Call.Read(r)))
    ensures SoloApply(y, Called(Call.Read(r)))
            == Solo(obj', sock', y.reg, ReadWork(r, e), if r == Eof then Some(EndOfFile) else None)
  {
  }

  // What a write() that returned w makes of the object and the socket.
  ghost predicate WriteChanges(obj: Conn, sock: Socket, w: WriteResult, obj': Conn, sock': Socket)
    requires obj.WellFormed() && MayWrite(obj.WriteRequest(), w)
  {
    match w
    case Wrote(k) =>
      && obj' == obj.(writeIndex := obj.writeIndex + k,
                      readyForWrite := obj.readyForWrite && obj.writeIndex + k < obj.readIndex)
      && sock' == sock.(sent := sock.sent + obj.buffer[obj.writeIndex..obj.writeIndex + k])
    case WriteFailed => obj' == obj.(readyForWrite := false) && sock' == sock.(writeError := true)
    case _ => obj' == obj.(readyForWrite := false) && sock' == sock
  }

  // Where the handler stands after it; errno is still the EAGAIN of the read phase.
  function WriteWork(obj: Conn, w: WriteResult): Work {
    match w
    case Wrote(k) => if obj.writeIndex + k < obj.readIndex then Busy(Writing(EAgain)) else Busy(Rearming(In, false))
    case WriteFailed => Busy(Rearming(In, false))
    case _ => Busy(Rearming(Out, false))
  }

  lemma WriteEffect(y: Solo, w: WriteResult, obj': Conn, sock': Socket)
    requires y.obj.WellFormed() && y.sock.WellFormed() && MayWrite(y.obj.WriteRequest(), w)
    requires y.work == Busy(Writing(EAgain)) && y.parked == None && y.obj.readyForWrite
    requires WriteChanges(y.obj, y.sock, w, obj', sock')
    ensures SoloEnabled(y, Called(Call.Write(w)))
    ensures SoloApply(y, Called(Call.Write(w))) == Solo(obj', sock', y.reg, WriteWork(y.obj, w), None)
  {
  }

  lemma WriteHop(willing: bool, y: Solo, c: Made, obj': Conn, sock': Socket) returns (z: Solo)
    requires y.work == Busy(Writing(EAgain)) && y.parked == None
    requires y.obj.WellFormed() && y.sock.WellFormed() && y.obj.readyForWrite
    requires c.WriteMade? && Asks(y, c) && MayWrite(y.obj.WriteRequest(), c.w)
    requires willing ==> c.w.Wrote? || (c.w.WroteNothing? && y.obj.WriteRequest() == 0)
    requires WriteChanges(y.obj, Moved(y.sock, c.client), c.w, obj', sock')
    ensures Hop(willing, y, c, z)
    ensures z == Solo(obj', sock', y.reg, WriteWork(y.obj, c.w), None)
  {
    WriteEffect(Before(y, c), c.w, obj', sock');
    z := SoloApply(Before(y, c), Called(Call.Write(c.w)));
  }

  lemma ChainFacts(willing: bool, x: Solo, d: SoloEvent, calls: seq<Made>, y: Solo)
    requires Chain(willing, x, d, calls, y)
    ensures y.obj.WellFormed() && y.sock.WellFormed()
    ensures y.obj.readyForWrite <==> y.work.Busy? && y.work.pc.Writing?
    ensures y.work.Busy? ==> y.reg != Unregistered
  {
    ChainReaches(willing, x, d, calls, y);
  }

  lemma ReadyToRead(x: Solo, d: SoloEvent)
    requires SoloInv(x) && d.Dispatched? && d.flags == CALM && x.work == Queued
    ensures forall willing :: Chain(willing, x, d, [], x.(work := Busy(Reading(d.stale))))
    ensures !x.obj.readyForWrite && x.parked == None
  {
    forall willing ensures Chain(willing, x, d, [], x.(work := Busy(Reading(d.stale)))) {
      ChainStarts(willing, x, d, x.(work := Busy(Reading(d.stale))));
    }
  }

  // What a handling that is over has spent, and what a willing kernel makes of it.
  lemma WholeHandling(willing: bool, x: Solo, d: SoloEvent, calls: seq<Made>, y: Solo)
    requires Chain(willing, x, d, calls, y) && SoloInv(x) && y.work == Free
    ensures Traced(willing, x, d, calls, y)
    ensures var es := Trace(d, calls);
            && 1 <= Echo.Count(es, Echo.ReadsOf) <= CAPACITY + 1 - x.obj.readIndex + 1
            && Echo.Count(es, Echo.WritesOf) <= x.obj.readIndex + (y.sock.taken - x.sock.taken) - x.obj.writeIndex + 1
            && Echo.Count(es, Echo.ModsOf) == if y.parked == Some(EndOfFile) then 0 else 1
    ensures willing && Echo.Fits(y.sock) && !y.sock.eof ==>
              && |x.sock.received| <= y.sock.taken <= |y.sock.received| && y.sock.WellFormed()
              && y.sock.sent[y.sock.sentBase..] == y.sock.received[y.sock.base..y.sock.taken]
              && y.reg == Armed(if x.obj.WriteRequest() == 0 && y.sock.taken == x.sock.taken then Out else In)
  {
    var es := Trace(d, calls);
    ChainReaches(willing, x, d, calls, y);
    Echo.HandlingIsBounded(x, es);
    if willing && Echo.Fits(y.sock) && !y.sock.eof {
      Echo.WillingHandlingEchoes(x, es);
    }
  }

  // The descriptor table after connections `fds` have been accepted in turn.
  function Opened(open: map<int, Socket>, fds: seq<int>): map<int, Socket> {
    if fds == [] then open else Opened(open, fds[..|fds| - 1])[fds[|fds| - 1] := NewSocket()]
  }

  lemma OpenedKeys(open: map<int, Socket>, fds: seq<int>)
    ensures forall fd :: fd in Opened(open, fds) <==> fd in open || fd in fds
    ensures forall fd :: fd in open && fd !in fds ==> Opened(open, fds)[fd] == open[fd]
  {
  }

  // The epoll set after connections `fds` have been added to it in turn.
  function ArmedForRead(items: map<int, Registration>, fds: seq<int>): map<int, Registration> {
    if fds == [] then items else ArmedForRead(items, fds[..|fds| - 1])[fds[|fds| - 1] := Armed(In)]
  }

  // Nothing but the entry of fd has changed.
  ghost predicate Only<T(!new)>(before: map<int, T>, after: map<int, T>, fd: int) {
    after.Keys == before.Keys && forall f :: f in before && f != fd ==> after[f] == before[f]
  }

  // The calls of the rounds of the accept loop that took connections `fds`.
  function Rounds(listener: int, fds: seq<int>): seq<Made> {
    if fds == [] then [] else Rounds(listener, fds[..|fds| - 1]) + Round(listener, fds[|fds| - 1], true)
  }

  function Round(listener: int, fd: int, added: bool): seq<Made> {
    [AcceptMade(listener, fd, false), InsertMade(fd), AddMade(fd, added)]
  }

  // Those calls, when the last registration may have failed.
  function Taken(listener: int, accepted: seq<int>, failed: bool): seq<Made>
    requires failed ==> accepted != []
  {
    if failed
    then Rounds(listener, accepted[..|accepted| - 1]) + Round(listener, accepted[|accepted| - 1], false)
    else Rounds(listener, accepted)
  }

  // What accepting changes.
  datatype Tables = Tables(
    open: map<int, Socket>,
    items: map<int, Registration>,
    data: map<int, ConnectionData>,
    backlog: nat,
    calls: seq<Made>)

  // Connection fd has been taken and mapped, and registered if `added`.
  ghost predicate Entered(s: Tables, t: Tables, listener: int, fd: int, added: bool) {
    && fd !in s.open && fd !in s.data && t.backlog == s.backlog - 1
    && t.open == s.open[fd := NewSocket()]
    && fd in t.data && t.data == s.data[fd := t.data[fd]]
    && t.items == (if added then s.items[fd := Armed(In)] else s.items)
    && t.calls == s.calls + Round(listener, fd, added)
  }

  // So have all of `accepted`, in turn; the last one is unregistered if `failed`.
  ghost predicate Admitted(s: Tables, t: Tables, listener: int, accepted: seq<int>, failed: bool) {
    && (failed ==> accepted != [])
    && t.backlog == s.backlog - |accepted|
    && t.open == Opened(s.open, accepted)
    && t.items == ArmedForRead(s.items, if failed then accepted[..|accepted| - 1] else accepted)
    && (forall fd :: fd in accepted ==> fd !in s.open && fd !in s.data)
    && (forall fd :: fd in t.data <==> fd in s.data || fd in accepted)
    && (forall fd :: fd in s.data ==> t.data[fd] == s.data[fd])
    && t.calls == s.calls + Taken(listener, accepted, failed)
  }

  lemma AdmittedNone(s: Tables, listener: int)
    ensures Admitted(s, s, listener, [], false)
  {
  }

  lemma AdmittedMore(s: Tables, t: Tables, u: Tables, listener: int, accepted: seq<int>, fd: int, added: bool)
    requires Admitted(s, t, listener, accepted, false) && Entered(t, u, listener, fd, added)
    ensures Admitted(s, u, listener, accepted + [fd], !added)
    ensures forall f :: f in accepted ==> f != fd && f in t.data && u.data[f] == t.data[f]
  {
    assert (accepted + [fd])[..|accepted|] == accepted;
    OpenedKeys(s.open, accepted);
  }

  // The accept loop is over: a registration has failed, or accept4 has, and unless that
  // was hard nobody is waiting any more.
  ghost predicate Drained(s: Tables, t: Tables, listener: int, accepted: seq<int>, failed: bool) {
    if failed then Admitted(s, t, listener, accepted, true)
    else exists hard :: AcceptFails(s, t, listener, accepted, hard)
  }

  ghost predicate AcceptFails(s: Tables, t: Tables, listener: int, accepted: seq<int>, hard: bool) {
    && t.calls != [] && t.calls[|t.calls| - 1] == AcceptMade(listener, -1, hard) && (hard || t.backlog == 0)
    && Admitted(s, t.(calls := t.calls[..|t.calls| - 1]), listener, accepted, false)
  }

  lemma DrainEnds(s: Tables, t: Tables, u: Tables, listener: int, accepted: seq<int>, hard: bool)
    requires Admitted(s, t, listener, accepted, false) && (hard || t.backlog == 0)
    requires u == t.(calls := t.calls + [AcceptMade(listener, -1, hard)])
    ensures Drained(s, u, listener, accepted, false)
  {
    assert u.calls[..|u.calls| - 1] == t.calls;
    assert AcceptFails(s, u, listener, accepted, hard);
  }

  class Worker {
    const serverSfd: int
    const kernel: Kernel
    const manager: ConnectionDataManager

    constructor (serverSfd: int, kernel: Kernel, manager: ConnectionDataManager)
      ensures this.serverSfd == serverSfd && this.kernel == kernel && this.manager == manager
    {
      this.serverSfd, this.kernel, this.manager := serverSfd, kernel, manager;
    }

    // The connection as the sequential automaton has it.
    ghost function State(conn: ConnectionData, work: Work, parked: Option<ParkReason>): Solo
      requires conn.connFd in kernel.open && conn.connFd in kernel.items
      reads this, conn, conn.buffer, kernel
    {
      Solo(conn.Value(), kernel.open[conn.connFd], kernel.items[conn.connFd], work, parked)
    }

    ghost predicate Has(conn: ConnectionData)
      reads this, conn, kernel
    {
      conn.connFd in kernel.open && conn.connFd in kernel.items
    }

    // Rearming is the last thing a worker does with a connection it has served.
    method RearmEpoll(conn: ConnectionData, isRead: bool) returns (ok: bool)
      requires conn.connFd in kernel.items
      modifies kernel`items, kernel.history
      ensures kernel.history.calls == old(kernel.history.calls) + [ModMade(conn.connFd, if isRead then In else Out, ok)]
      ensures kernel.willing ==> ok
      ensures kernel.items == if ok
                              then old(kernel.items)[conn.connFd := Armed(if isRead then In else Out)]
                              else old(kernel.items)
    {
      ok := kernel.Rearm(conn.connFd, if isRead then In else Out);
    }

    // One read() of the read loop, and what the loop's body does with its result.
    method ReadOnce(conn: ConnectionData) returns (rlen: int, ghost client: Client, ghost r: ReadResult)
      requires Has(conn) && conn.Value().WellFormed() && kernel.open[conn.connFd].WellFormed() && !conn.readyForWrite
      modifies conn`readIndex, conn`readyForWrite, conn.buffer, kernel`open, kernel`errno, kernel.history
      ensures kernel.history.calls == old(kernel.history.calls)
                + [ReadMade(conn.connFd, old(conn.readIndex), CAPACITY + 1 - old(conn.readIndex), client, r)]
      ensures Only(old(kernel.open), kernel.open, conn.connFd)
      ensures var k := Moved(old(kernel.open[conn.connFd]), client);
              && MayRead(k, old(conn.Value()).ReadRequest(), r)
              && (kernel.willing ==> !r.ReadFailed? && (r.ReadAgain? ==> k.Unread() == 0))
              && ReadChanges(old(conn.Value()), k, r, conn.Value(), kernel.open[conn.connFd])
      ensures match r
              case Got(n) => rlen == n && kernel.errno == old(kernel.errno)
              case Eof => rlen == 0 && kernel.errno == old(kernel.errno)
              case ReadAgain => rlen < 0 && kernel.errno == EAgain
              case ReadFailed => rlen < 0 && kernel.errno == EOther
    {
      rlen, client, r := kernel.Read(conn.connFd, conn.buffer, conn.readIndex, CAPACITY - conn.readIndex + 1);
      if rlen > 0 {
        conn.readIndex := conn.readIndex + rlen;
      } else if rlen < 0 {
        if kernel.errno == EAgain {
          conn.readyForWrite := true;
        }
      }
    }

    method ReadTraced(conn: ConnectionData, ghost x: Solo, ghost d: SoloEvent, ghost before: seq<Made>, ghost y: Solo)
      returns (rlen: int, ghost made: seq<Made>, ghost z: Solo)
      requires Has(conn) && Chain(kernel.willing, x, d, before, y)
      requires y == State(conn, Busy(Reading(kernel.errno)), None)
      modifies conn`readIndex, conn`readyForWrite, conn.buffer, kernel`open, kernel`errno, kernel.history
      ensures kernel.history.calls == old(kernel.history.calls) + made && Chain(kernel.willing, x, d, before + made, z)
      ensures Only(old(kernel.open), kernel.open, conn.connFd)
      ensures conn.readIndex == old(conn.readIndex) + if rlen > 0 then rlen else 0
      ensures rlen > 0 ==> z == State(conn, Busy(Reading(kernel.errno)), None)
      ensures rlen == 0 ==> z == State(conn, Free, Some(EndOfFile))
      ensures rlen < 0 && kernel.errno == EAgain ==> z == State(conn, Busy(Writing(EAgain)), None)
      ensures rlen < 0 && kernel.errno != EAgain ==> z == State(conn, Busy(Rearming(In, true)), None)
    {
      ChainFacts(kernel.willing, x, d, before, y);
      ghost var client, r;
      rlen, client, r := ReadOnce(conn);
      ghost var c := ReadMade(conn.connFd, old(conn.readIndex), CAPACITY + 1 - old(conn.readIndex), client, r);
      z := ReadHop(kernel.willing, y, c, old(kernel.errno), conn.Value(), kernel.open[conn.connFd]);
      ChainMore(kernel.willing, x, d, before, y, c, z);
      made := [c];
    }

    // The read loop: until zero bytes, EAGAIN or a hard error.
    method ReadAll(conn: ConnectionData, ghost x: Solo, ghost d: SoloEvent, ghost before: seq<Made>, ghost y: Solo)
      returns (rlen: int, ghost made: seq<Made>, ghost z: Solo)
      requires Has(conn) && Chain(kernel.willing, x, d, before, y)
      requires y == State(conn, Busy(Reading(kernel.errno)), None)
      modifies conn`readIndex, conn`readyForWrite, conn.buffer, kernel`open, kernel`errno, kernel.history
      ensures kernel.history.calls == old(kernel.history.calls) + made && Chain(kernel.willing, x, d, before + made, z)
      ensures Only(old(kernel.open), kernel.open, conn.connFd)
      ensures rlen <= 0
      ensures rlen == 0 ==> z == State(conn, Free, Some(EndOfFile))
      ensures rlen < 0 && kernel.errno == EAgain ==> z == State(conn, Busy(Writing(EAgain)), None)
      ensures rlen < 0 && kernel.errno != EAgain ==> z == State(conn, Busy(Rearming(In, true)), None)
    {
      rlen, made, z := 1, [], y;
      assert before + [] == before;
      ChainFacts(kernel.willing, x, d, before, y);
      while rlen > 0
        invariant kernel.history.calls == old(kernel.history.calls) + made
        invariant Chain(kernel.willing, x, d, before + made, z)
        invariant Only(old(kernel.open), kernel.open, conn.connFd) && Has(conn)
        invariant rlen > 0 ==> z == State(conn, Busy(Reading(kernel.errno)), None)
        invariant rlen == 0 ==> z == State(conn, Free, Some(EndOfFile))
        invariant rlen < 0 && kernel.errno == EAgain ==> z == State(conn, Busy(Writing(EAgain)), None)
        invariant rlen < 0 && kernel.errno != EAgain ==> z == State(conn, Busy(Rearming(In, true)), None)
        invariant conn.readIndex <= CAPACITY + 1
        decreases rlen > 0, CAPACITY + 1 - conn.readIndex
      {
        ghost var one;
        rlen, one, z := ReadTraced(conn, x, d, before + made, z);
        assert before + made + one == before + (made + one);
        made := made + one;
        ChainFacts(kernel.willing, x, d, before + made, z);
      }
    }

    // One write() of the write loop, and what the loop's body does with its result;
    // `more` says that the loop goes on.
    method WriteOnce(conn: ConnectionData)
      returns (more: bool, interest: Interest, ghost client: Client, ghost w: WriteResult)
      requires Has(conn) && conn.Value().WellFormed() && conn.readyForWrite && kernel.errno == EAgain
      modifies conn`writeIndex, conn`readyForWrite, kernel`open, kernel`errno, kernel.history
      ensures kernel.history.calls == old(kernel.history.calls)
                + [WriteMade(conn.connFd, conn.buffer[old(conn.writeIndex)..conn.readIndex], client, w)]
      ensures Only(old(kernel.open), kernel.open, conn.connFd)
      ensures MayWrite(old(conn.Value()).WriteRequest(), w)
      ensures kernel.willing ==> w.Wrote? || (w.WroteNothing? && old(conn.Value()).WriteRequest() == 0)
      ensures WriteChanges(old(conn.Value()), Moved(old(kernel.open[conn.connFd]), client), w,
                           conn.Value(), kernel.open[conn.connFd])
      ensures WriteWork(old(conn.Value()), w) == Busy(if more then Writing(EAgain) else Rearming(interest, false))
      ensures more ==> kernel.errno == EAgain && conn.writeIndex > old(conn.writeIndex)
    {
      var wlen;
      wlen, client, w := kernel.Write(conn.connFd, conn.buffer, conn.writeIndex, conn.readIndex - conn.writeIndex);
      more, interest := false, In;
      if wlen > 0 {
        conn.writeIndex := conn.writeIndex + wlen;
        if conn.writeIndex >= conn.readIndex {
          conn.readyForWrite := false;
        } else {
          more := true;
        }
      } else {
        conn.readyForWrite := false;
        interest := if kernel.errno == EAgain then Out else In;
      }
    }

    method WriteTraced(conn: ConnectionData, ghost x: Solo, ghost d: SoloEvent, ghost before: seq<Made>, ghost y: Solo)
      returns (more: bool, interest: Interest, ghost made: seq<Made>, ghost z: Solo)
      requires Has(conn) && Chain(kernel.willing, x, d, before, y)
      requires kernel.errno == EAgain && y == State(conn, Busy(Writing(EAgain)), None)
      modifies conn`writeIndex, conn`readyForWrite, kernel`open, kernel`errno, kernel.history
      ensures kernel.history.calls == old(kernel.history.calls) + made && Chain(kernel.willing, x, d, before + made, z)
      ensures Only(old(kernel.open), kernel.open, conn.connFd)
      ensures if more
              then && kernel.errno == EAgain && z == State(conn, Busy(Writing(EAgain)), None)
                   && conn.writeIndex > old(conn.writeIndex)
              else z == State(conn, Busy(Rearming(interest, false)), None)
    {
      ChainFacts(kernel.willing, x, d, before, y);
      ghost var client, w;
      more, interest, client, w := WriteOnce(conn);
      ghost var c := WriteMade(conn.connFd, conn.buffer[old(conn.writeIndex)..conn.readIndex], client, w);
      z := WriteHop(kernel.willing, y, c, conn.Value(), kernel.open[conn.connFd]);
      ChainMore(kernel.willing, x, d, before, y, c, z);
      made := [c];
    }

    // The write loop: until everything is sent or a call returns nothing.
    method WriteAll(conn: ConnectionData, ghost x: Solo, ghost d: SoloEvent, ghost before: seq<Made>, ghost y: Solo)
      returns (interest: Interest, ghost made: seq<Made>, ghost z: Solo)
      requires Has(conn) && Chain(kernel.willing, x, d, before, y)
      requires kernel.errno == EAgain && y == State(conn, Busy(Writing(EAgain)), None)
      modifies conn`writeIndex, conn`readyForWrite, kernel`open, kernel`errno, kernel.history
      ensures kernel.history.calls == old(kernel.history.calls) + made && Chain(kernel.willing, x, d, before + made, z)
      ensures Only(old(kernel.open), kernel.open, conn.connFd)
      ensures z == State(conn, Busy(Rearming(interest, false)), None)
    {
      var more := true;
      interest, made, z := In, [], y;
      assert before + [] == before;
      while more
        invariant kernel.history.calls == old(kernel.history.calls) + made
        invariant Chain(kernel.willing, x, d, before + made, z)
        invariant Only(old(kernel.open), kernel.open, conn.connFd) && Has(conn)
        invariant if more then kernel.errno == EAgain && z == State(conn, Busy(Writing(EAgain)), None)
                  else z == State(conn, Busy(Rearming(interest, false)), None)
        decreases more, conn.readIndex - conn.writeIndex
      {
        ChainFacts(kernel.willing, x, d, before + made, z);
        ghost var one;
        more, interest, one, z := WriteTraced(conn, x, d, before + made, z);
        assert before + made + one == before + (made + one);
        made := made + one;
      }
    }

    /** One event of a connection.  Started on a connection x whose token this worker
        holds, the calls it makes are one handling of x by the sequential automaton, from
        Queued back to Free, at y, each asking for what the automaton asks for.  It rearms
        once, or not at all exactly when reading ended with a zero-length read, and its
        calls are bounded by the free cells and by the bytes to send.  A willing kernel
        and a client that fits and stays get the whole echo. */
    method HandleConnectionEvent(conn: ConnectionData, flags: Flags, ghost x: Solo)
      returns (ghost made: seq<Made>, ghost y: Solo)
      requires Has(conn) && flags == CALM && x == State(conn, Queued, None) && SoloInv(x)
      modifies conn`readIndex, conn`writeIndex, conn`readyForWrite, conn.buffer,
               kernel`open, kernel`items, kernel`errno, kernel.history
      ensures kernel.history.calls == old(kernel.history.calls) + made
      ensures Only(old(kernel.open), kernel.open, conn.connFd)
      ensures Has(conn) && Only(old(kernel.items), kernel.items, conn.connFd)
      ensures Traced(kernel.willing, x, Dispatched(flags, old(kernel.errno)), made, y)
      ensures y == State(conn, Free, y.parked)
      ensures var es := Trace(Dispatched(flags, old(kernel.errno)), made);
              && 1 <= Echo.Count(es, Echo.ReadsOf) <= CAPACITY + 1 - x.obj.readIndex + 1
              && Echo.Count(es, Echo.WritesOf)
                 <= x.obj.readIndex + (y.sock.taken - x.sock.taken) - x.obj.writeIndex + 1
              && Echo.Count(es, Echo.ModsOf) == if y.parked == Some(EndOfFile) then 0 else 1
      ensures var k := kernel.open[conn.connFd];
              kernel.willing && Echo.Fits(k) && !k.eof ==>
                && |x.sock.received| <= k.taken <= |k.received| && k.WellFormed()
                && k.sent[k.sentBase..] == k.received[k.base..k.taken]
                && kernel.items[conn.connFd]
                   == Armed(if x.obj.WriteRequest() == 0 && k.taken == x.sock.taken then Out else In)
    {
      ghost var d := Dispatched(flags, kernel.errno);
      ReadyToRead(x, d);
      made, y := ReadThenEcho(conn, x, d);
      WholeHandling(kernel.willing, x, d, made, y);
    }

    // The two phases of the handler, and the way out after a hard read error.
    method ReadThenEcho(conn: ConnectionData, ghost x: Solo, ghost d: SoloEvent)
      returns (ghost made: seq<Made>, ghost y: Solo)
      requires Has(conn) && !conn.readyForWrite
      requires Chain(kernel.willing, x, d, [], State(conn, Busy(Reading(kernel.errno)), None))
      modifies conn`readIndex, conn`writeIndex, conn`readyForWrite, conn.buffer,
               kernel`open, kernel`items, kernel`errno, kernel.history
      ensures kernel.history.calls == old(kernel.history.calls) + made && Chain(kernel.willing, x, d, made, y)
      ensures Only(old(kernel.open), kernel.open, conn.connFd)
      ensures Has(conn) && Only(old(kernel.items), kernel.items, conn.connFd)
      ensures y == State(conn, Free, y.parked)
    {
      var rlen;
      ghost var more;
      made, y := [], State(conn, Busy(Reading(kernel.errno)), None);
      if !conn.readyForWrite {
        rlen, made, y := ReadAll(conn, x, d, [], y);
        assert [] + made == made;
        if rlen < 0 && kernel.errno != EAgain {
          more, y := RearmThenReset(conn, x, d, made, y);
          made := made + more;
          return;
        }
      }
      ChainFacts(kernel.willing, x, d, made, y);
      if conn.readyForWrite {
        more, y := EchoBack(conn, x, d, made, y);
        made := made + more;
      }
    }

    method RearmThenReset(conn: ConnectionData,
                          ghost x: Solo, ghost d: SoloEvent, ghost before: seq<Made>, ghost y: Solo)
      returns (ghost made: seq<Made>, ghost z: Solo)
      requires Has(conn) && Chain(kernel.willing, x, d, before, y)
      requires y == State(conn, Busy(Rearming(In, true)), None)
      modifies conn`readIndex, conn`writeIndex, conn`readyForWrite, kernel`open, kernel`items, kernel.history
      ensures kernel.history.calls == old(kernel.history.calls) + made && Chain(kernel.willing, x, d, before + made, z)
      ensures Only(old(kernel.open), kernel.open, conn.connFd)
      ensures Has(conn) && Only(old(kernel.items), kernel.items, conn.connFd)
      ensures z == State(conn, Free, z.parked)
    {
      var ok;
      ghost var more;
      ok, made, z := RearmTraced(conn, In, x, d, before, y);
      more, z := ResetTraced(conn, x, d, before + made, z);
      assert before + made + more == before + (made + more);
      made := made + more;
    }

    // The write phase: echo what is buffered, then ask for the fitting interest.
    method EchoBack(conn: ConnectionData, ghost x: Solo, ghost d: SoloEvent, ghost before: seq<Made>, ghost y: Solo)
      returns (ghost made: seq<Made>, ghost z: Solo)
      requires Has(conn) && Chain(kernel.willing, x, d, before, y)
      requires kernel.errno == EAgain && y == State(conn, Busy(Writing(EAgain)), None)
      modifies conn`writeIndex, conn`readyForWrite, kernel`open, kernel`items, kernel`errno, kernel.history
      ensures kernel.history.calls == old(kernel.history.calls) + made && Chain(kernel.willing, x, d, before + made, z)
      ensures Only(old(kernel.open), kernel.open, conn.connFd)
      ensures Has(conn) && Only(old(kernel.items), kernel.items, conn.connFd)
      ensures z == State(conn, Free, z.parked)
    {
      var interest, ok;
      ghost var more;
      interest, made, z := WriteAll(conn, x, d, before, y);
      ok, more, z := RearmTraced(conn, interest, x, d, before + made, z);
      assert before + made + more == before + (made + more);
      made := made + more;
    }

    method RearmTraced(conn: ConnectionData, interest: Interest,
                       ghost x: Solo, ghost d: SoloEvent, ghost before: seq<Made>, ghost y: Solo)
      returns (ok: bool, ghost made: seq<Made>, ghost z: Solo)
      requires Has(conn) && Chain(kernel.willing, x, d, before, y)
      requires y.work.Busy? && y.work.pc.Rearming? && y.work.pc.interest == interest
      requires y == State(conn, y.work, None)
      modifies kernel`items, kernel.history
      ensures kernel.history.calls == old(kernel.history.calls) + made && Chain(kernel.willing, x, d, before + made, z)
      ensures Has(conn) && Only(old(kernel.items), kernel.items, conn.connFd)
      ensures z == State(conn, if y.work.pc.thenReset then Busy(Resetting) else Free,
                         if ok then None else Some(RearmFailed))
    {
      ChainFacts(kernel.willing, x, d, before, y);
      ok := RearmEpoll(conn, interest == In);
      ghost var c := ModMade(conn.connFd, interest, ok);
      z := SoloApply(y, Called(Mod(ok)));
      ChainMore(kernel.willing, x, d, before, y, c, z);
      made := [c];
    }

    method ResetTraced(conn: ConnectionData, ghost x: Solo, ghost d: SoloEvent, ghost before: seq<Made>, ghost y: Solo)
      returns (ghost made: seq<Made>, ghost z: Solo)
      requires Has(conn) && Chain(kernel.willing, x, d, before, y) && y == State(conn, Busy(Resetting), y.parked)
      modifies conn`readIndex, conn`writeIndex, conn`readyForWrite, kernel`open, kernel.history
      ensures kernel.history.calls == old(kernel.history.calls) + made && Chain(kernel.willing, x, d, before + made, z)
      ensures Only(old(kernel.open), kernel.open, conn.connFd)
      ensures z == State(conn, Free, y.parked)
    {
      ChainFacts(kernel.willing, x, d, before, y);
      z := SoloApply(y, Called(Reset));
      ChainMore(kernel.willing, x, d, before, y, Rewound(conn.connFd), z);
      conn.ResetIndices();
      kernel.NoteRewind(conn.connFd);
      made := [Rewound(conn.connFd)];
    }

    // ---- The shared tables ----

    /** Map keys are open descriptors (or the listener), each object knows its key, and
        only open descriptors are registered. */
    ghost predicate Agreement()
      reads this, manager, kernel, manager.data.Values
    {
      && manager.history == kernel.history
      && serverSfd in manager.data && serverSfd !in kernel.open
      && (forall fd :: fd in manager.data ==> fd in kernel.open || fd == serverSfd)
      && (forall fd :: fd in manager.data ==> manager.data[fd].connFd == fd)
      && (forall fd :: fd in kernel.items ==> fd in kernel.open)
      && (forall fd :: fd in kernel.open ==> 0 <= fd)
    }

    ghost function Now(): Tables
      reads this, kernel, manager, kernel.history
    {
      Tables(kernel.open, kernel.items, manager.data, kernel.backlog, kernel.history.calls)
    }

    // One round of the accept loop: accept4, insert, EPOLL_CTL_ADD.
    method AcceptOne() returns (connFd: int, added: bool, ghost hard: bool)
      requires Agreement()
      modifies kernel`open, kernel`items, kernel`backlog, kernel.history, manager`data
      ensures Agreement()
      ensures connFd < 0 ==>
                && connFd == -1 && (hard || kernel.backlog == 0)
                && Now() == old(Now()).(calls := old(Now()).calls + [AcceptMade(serverSfd, -1, hard)])
      ensures connFd >= 0 ==>
                && Entered(old(Now()), Now(), serverSfd, connFd, added)
                && fresh(manager.data[connFd]) && fresh(manager.data[connFd].buffer)
                && manager.data[connFd].Value() == NewConn(connFd)
    {
      added := false;
      connFd, hard := kernel.Accept4(serverSfd);
      if connFd >= 0 {
        var conn := manager.Insert(connFd);
        assert conn != null;
        added := kernel.Register(connFd);
      }
    }

    /** Accept until accept4 fails.  Every new connection gets a fresh object under its own
        descriptor, is never refused by the map, and is armed for read; if its
        registration fails it stays open and mapped, and accepting stops.  Unless that
        happens, or accept4 fails hard, nobody is left waiting. */
    method AcceptConnections() returns (accepted: seq<int>, failed: bool)
      requires Agreement()
      modifies kernel`open, kernel`items, kernel`backlog, kernel.history, manager`data
      ensures Agreement()
      ensures Drained(old(Now()), Now(), serverSfd, accepted, failed)
      ensures forall fd :: fd in accepted ==>
                && fd in manager.data && fresh(manager.data[fd]) && fresh(manager.data[fd].buffer)
                && manager.data[fd].Value() == NewConn(fd)
    {
      accepted, failed := [], false;
      AdmittedNone(Now(), serverSfd);
      while true
        invariant Agreement() && !failed
        invariant Admitted(old(Now()), Now(), serverSfd, accepted, false)
        invariant forall fd :: fd in accepted ==>
                    && fd in manager.data && fresh(manager.data[fd]) && fresh(manager.data[fd].buffer)
                    && manager.data[fd].Value() == NewConn(fd)
        decreases kernel.backlog
      {
        ghost var before, hard := Now(), false;
        var connFd, added;
        connFd, added, hard := AcceptOne();
        if connFd < 0 {
          DrainEnds(old(Now()), before, Now(), serverSfd, accepted, hard);
          break;
        }
        AdmittedMore(old(Now()), before, Now(), serverSfd, accepted, connFd, added);
        accepted := accepted + [connFd];
        if !added {
          failed := true;
          break;
        }
      }
    }

    /** Remove the object, then the registration, then the descriptor: in that order the
        tables agree after every call.  A negative descriptor is left alone. */
    method CloseConnection(connFd: int)
      requires Agreement() && connFd != serverSfd
      modifies kernel`open, kernel`items, kernel.history, manager`data
      ensures Agreement()
      ensures connFd < 0 ==>
                && kernel.history.calls == old(kernel.history.calls) && manager.data == old(manager.data)
                && kernel.items == old(kernel.items) && kernel.open == old(kernel.open)
      ensures connFd >= 0 ==>
                && kernel.history.calls
                   == old(kernel.history.calls) + [RemoveMade(connFd), DelMade(connFd), CloseMade(connFd)]
                && manager.data == old(manager.data) - {connFd}
                && kernel.items == old(kernel.items) - {connFd} && kernel.open == old(kernel.open) - {connFd}
    {
      if connFd < 0 {
        return;
      }
      manager.Remove(connFd);
      assert Agreement();
      kernel.Unregister(connFd);
      assert Agreement();
      kernel.Close(connFd);
    }

    // ---- Worker::start, on one event ----

    /** What the loop of the worker does with one event, depending on whose it is and on
        its error bits; `x` is the connection as it was when its event was taken. */
    method HandleEvent(conn: ConnectionData, flags: Flags, ghost x: Solo)
      returns (ghost made: seq<Made>, ghost y: Solo, ghost accepted: seq<int>, ghost failed: bool)
      requires Agreement() && conn.connFd in manager.data && manager.data[conn.connFd] == conn
      requires conn.connFd != serverSfd ==> Has(conn) && x == State(conn, Queued, None) && SoloInv(x)
      modifies kernel, kernel.history, manager`data,
               conn`readIndex, conn`writeIndex, conn`readyForWrite, conn.buffer
      ensures Agreement() && (conn.connFd != serverSfd ==> kernel.history.calls == old(kernel.history.calls) + made)
      ensures conn.connFd == serverSfd ==>
                && conn.Value() == old(conn.Value())
                && Drained(old(Now()), Now(), serverSfd, accepted, failed)
                && (forall fd :: fd in accepted ==> fd in manager.data && manager.data[fd].Value() == NewConn(fd))
      ensures conn.connFd != serverSfd && (flags.err || flags.rdhup) ==>
                && made == [RemoveMade(conn.connFd), DelMade(conn.connFd), CloseMade(conn.connFd)]
                && manager.data == old(manager.data) - {conn.connFd}
                && kernel.items == old(kernel.items) - {conn.connFd} && kernel.open == old(kernel.open) - {conn.connFd}
      ensures conn.connFd != serverSfd && flags.hup && !flags.err && !flags.rdhup ==>
                && made == [] && manager.data == old(manager.data)
                && kernel.items == old(kernel.items) && kernel.open == old(kernel.open)
                && conn.Value() == old(conn.Value())
      ensures conn.connFd != serverSfd && flags == CALM ==>
                && manager.data == old(manager.data) && Has(conn)
                && Only(old(kernel.open), kernel.open, conn.connFd)
                && Only(old(kernel.items), kernel.items, conn.connFd)
                && Traced(kernel.willing, x, Dispatched(flags, old(kernel.errno)), made, y)
                && y == State(conn, Free, y.parked)
    {
      made, y, accepted, failed := [], x, [], false;
      if conn.connFd == serverSfd {
        var fds, stopped;
        fds, stopped := AcceptConnections();
        accepted, failed := fds, stopped;
      } else if flags.err {
        CloseConnection(conn.connFd);
        made := [RemoveMade(conn.connFd), DelMade(conn.connFd), CloseMade(conn.connFd)];
      } else if flags.rdhup {
        CloseConnection(conn.connFd);
        made := [RemoveMade(conn.connFd), DelMade(conn.connFd), CloseMade(conn.connFd)];
      } else if !flags.hup {
        made, y := HandleConnectionEvent(conn, flags, x);
      }
    }
  }
}
