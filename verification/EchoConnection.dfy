// One connection of the multi-worker echo server: the ConnectionData object, the
// code of handleConnectionEvent cut at its system calls, and the sequential life
// of a connection that owns one registration and is handled by one worker at a time.
module EchoConnection {
  import opened Sockets

  const CAPACITY := 1024   // size of ConnectionData::buffer_

  /** The value of a ConnectionData object.  `buffer` has one cell more than buffer_:
      read() is asked for size - read_index_ + 1 bytes, so it may fill the cell after
      the vector.  That cell is only reached by a connection that does not fit. */
  datatype Conn = Conn(connFd: int, buffer: seq<byte>, readIndex: int, writeIndex: int, readyForWrite: bool)
  {
    ghost predicate WellFormed() {
      |buffer| == CAPACITY + 1 && 0 <= writeIndex <= readIndex <= CAPACITY + 1
    }

    function ReadRequest(): int { CAPACITY - readIndex + 1 }

    function WriteRequest(): int { readIndex - writeIndex }

    function Reset(): Conn {
      this.(readIndex := 0, writeIndex := 0, readyForWrite := false)
    }
  }

  function NewConn(fd: int): Conn {
    Conn(fd, seq(CAPACITY + 1, _ => 0), 0, 0, false)
  }

  // Where a worker stands inside handleConnectionEvent: at the next system call.
  datatype HandlerPc =
    | Reading(errno: Errno)   // errno as the last failing call of the thread left it
    | Writing(errno: Errno)
    | Rearming(interest: Interest, thenReset: bool)
    | Resetting
    | Done

  datatype Call = Read(r: ReadResult) | Write(w: WriteResult) | Mod(ok: bool) | Reset

  datatype Local = Local(obj: Conn, sock: Socket, pc: HandlerPc)

  // handleConnectionEvent begins by looking at ready_for_write_.
  function StartPc(obj: Conn, stale: Errno): HandlerPc {
    if !obj.readyForWrite then Reading(stale) else Writing(stale)
  }

  ghost predicate CallEnabled(obj: Conn, sock: Socket, pc: HandlerPc, c: Call) {
    && obj.WellFormed() && sock.WellFormed()
    && match pc
       case Reading(_) => c.Read? && MayRead(sock, obj.ReadRequest(), c.r)
       case Writing(_) => c.Write? && MayWrite(obj.WriteRequest(), c.w)
       case Rearming(_, _) => c.Mod?
       case Resetting => c.Reset?
       case Done => false
  }

  // The buffer after read() has stored `bytes` from cell `at` on.
  function Store(buffer: seq<byte>, at: int, bytes: seq<byte>): seq<byte>
    requires 0 <= at && at + |bytes| <= |buffer|
  {
    buffer[..at] + bytes + buffer[at + |bytes|..]
  }

  /** One system call of handleConnectionEvent, with everything the thread does
      on the object up to its next call. */
  function Advance(obj: Conn, sock: Socket, pc: HandlerPc, c: Call): Local
    requires CallEnabled(obj, sock, pc, c)
  {
    match c
    case Read(Got(n)) =>
      var bytes := sock.received[sock.taken..sock.taken + n];
      Local(obj.(buffer := Store(obj.buffer, obj.readIndex, bytes), readIndex := obj.readIndex + n),
            sock.(taken := sock.taken + n), pc)
    case Read(Eof) => Local(obj, sock, if obj.readyForWrite then Writing(pc.errno) else Done)
    case Read(ReadAgain) => Local(obj.(readyForWrite := true), sock, Writing(EAgain))
    case Read(ReadFailed) => Local(obj, sock.(readError := true), Rearming(In, true))
    case Write(Wrote(k)) =>
      var w := obj.writeIndex + k;
      var sock' := sock.(sent := sock.sent + obj.buffer[obj.writeIndex..w]);
      if w >= obj.readIndex
      then Local(obj.(writeIndex := w, readyForWrite := false), sock', Rearming(In, false))
      else Local(obj.(writeIndex := w), sock', pc)
    case Write(WroteNothing) =>
      Local(obj.(readyForWrite := false), sock,
            Rearming(if pc.errno == EAgain then Out else In, false))
    case Write(WriteAgain) => Local(obj.(readyForWrite := false), sock, Rearming(Out, false))
    case Write(WriteFailed) =>
      Local(obj.(readyForWrite := false), sock.(writeError := true), Rearming(In, false))
    case Mod(_) => Local(obj, sock, if pc.thenReset then Resetting else Done)
    case Reset => Local(obj.Reset(), sock.(base := sock.taken, sentBase := |sock.sent|), Done)
  }

  // The epoll registration of the connection; EPOLLONESHOT disarms it on delivery.
  datatype Registration = Unregistered | Disarmed | Armed(interest: Interest)

  // How a connection can end up registered, disarmed and owned by nobody.
  datatype ParkReason = EndOfFile | Hangup | RearmFailed

  // epoll_wait's error bits, and what Worker::start does about them.
  datatype Flags = Flags(err: bool, rdhup: bool, hup: bool)
  datatype Route = ToClose | ToSkip | ToHandle

  const CALM := Flags(false, false, false)

  function RouteOf(f: Flags): (r: Route)
    ensures r.ToClose? <==> f.err || f.rdhup
    ensures r.ToSkip? <==> f.hup && !f.err && !f.rdhup
    ensures r.ToHandle? <==> f == CALM
  {
    if f.err then ToClose else if f.rdhup then ToClose else if f.hup then ToSkip else ToHandle
  }

  // Who is working on the connection, and where.
  datatype Work =
    | Starting            // inserted in the map, not yet added to the epoll set
    | Free
    | Queued              // its event lies in the batch of a worker
    | Busy(pc: HandlerPc)
    | Ending              // its worker is about to remove it

  /** The sequential automaton: one connection, one thread of handling. */
  datatype Solo = Solo(obj: Conn, sock: Socket, reg: Registration, work: Work, parked: Option<ParkReason>)

  datatype SoloEvent =
    | ClientSends(bytes: seq<byte>)
    | ClientShuts
    | Registers(added: bool)
    | Delivered
    | Dispatched(flags: Flags, stale: Errno)
    | Called(call: Call)

  ghost predicate SoloEnabled(x: Solo, e: SoloEvent) {
    match e
    case ClientSends(_) => true
    case ClientShuts => true
    case Registers(_) => x.work == Starting
    case Delivered => x.reg.Armed? && x.work == Free
    case Dispatched(_, _) => x.work == Queued
    case Called(c) =>
      x.work.Busy? && CallEnabled(x.obj, x.sock, x.work.pc, c) && (c == Mod(true) ==> x.reg != Unregistered)
  }

  // The registration after call `c` made at `pc`: EPOLL_CTL_MOD arms it.
  function RegAfter(reg: Registration, pc: HandlerPc, c: Call): Registration {
    if c == Mod(true) && pc.Rearming? then Armed(pc.interest) else reg
  }

  // The calls after which nobody will hold the connection again.
  function ParkedAfter(parked: Option<ParkReason>, pc: HandlerPc, c: Call): Option<ParkReason> {
    if c == Read(Eof) && pc == Done then Some(EndOfFile)
    else if c == Mod(false) then Some(RearmFailed)
    else parked
  }

  function WorkAfter(pc: HandlerPc): Work {
    if pc == Done then Free else Busy(pc)
  }

  ghost function SoloApply(x: Solo, e: SoloEvent): Solo
    requires SoloEnabled(x, e)
  {
    match e
    case ClientSends(bytes) => x.(sock := x.sock.Arrive(bytes))
    case ClientShuts => x.(sock := x.sock.Shut())
    case Registers(added) => x.(reg := if added then Armed(In) else x.reg, work := Free)
    case Delivered => x.(reg := Disarmed, work := Queued)
    case Dispatched(flags, stale) =>
      (match RouteOf(flags)
       case ToClose => x.(work := Ending)
       case ToSkip => x.(work := Free, parked := Some(Hangup))
       case ToHandle => x.(work := Busy(StartPc(x.obj, stale))))
    case Called(c) =>
      var l := Advance(x.obj, x.sock, x.work.pc, c);
      Solo(l.obj, l.sock, RegAfter(x.reg, x.work.pc, c), WorkAfter(l.pc), ParkedAfter(x.parked, l.pc, c))
  }

  // A run, read from its last event backwards; it stops at a disabled event.
  ghost predicate SoloRuns(x: Solo, es: seq<SoloEvent>)
    decreases |es|, 0
  {
    es == [] || (SoloRuns(x, es[..|es| - 1]) && SoloEnabled(SoloFinal(x, es[..|es| - 1]), es[|es| - 1]))
  }

  ghost function SoloFinal(x: Solo, es: seq<SoloEvent>): Solo
    requires SoloRuns(x, es)
    decreases |es|, 1
  {
    if es == [] then x else SoloApply(SoloFinal(x, es[..|es| - 1]), es[|es| - 1])
  }

  lemma SoloSnoc(x: Solo, es: seq<SoloEvent>, e: SoloEvent)
    requires SoloRuns(x, es) && SoloEnabled(SoloFinal(x, es), e)
    ensures SoloRuns(x, es + [e]) && SoloFinal(x, es + [e]) == SoloApply(SoloFinal(x, es), e)
  {
    assert (es + [e])[..|es|] == es;
  }

  // A connection as insert() leaves it; its client may have sent bytes already.
  ghost predicate Newborn(x: Solo) {
    && x.obj == NewConn(x.obj.connFd)
    && x.sock.taken == 0 && x.sock.sent == [] && x.sock.base == 0 && x.sock.sentBase == 0
    && !x.sock.readError && !x.sock.writeError
    && x.reg == Unregistered && x.work == Starting && x.parked == None
  }

  // ---- What every state of a connection satisfies ----

  /** Cursors in range, and the buffer holds exactly the bytes of the current conversation. */
  ghost predicate Streams(x: Solo) {
    && x.obj.WellFormed() && x.sock.WellFormed()
    && x.obj.readIndex == x.sock.taken - x.sock.base
    && x.obj.buffer[..x.obj.readIndex] == x.sock.received[x.sock.base..x.sock.taken]
    && x.obj.writeIndex == |x.sock.sent| - x.sock.sentBase
    && x.obj.buffer[..x.obj.writeIndex] == x.sock.sent[x.sock.sentBase..]
    && x.obj.writeIndex <= CAPACITY
    && (!x.sock.readError ==> x.sock.base == 0 && x.sock.sentBase == 0)
  }

  /** ready_for_write_ is set exactly inside the write phase, which is entered only
      after EAGAIN on reading; the cell after the vector is never echoed. */
  ghost predicate Phases(x: Solo) {
    && (x.obj.readyForWrite <==> x.work.Busy? && x.work.pc.Writing?)
    && (x.work.Busy? ==> x.work.pc != Done)
    && (x.work.Busy? && x.work.pc.Writing? ==> x.work.pc.errno == EAgain)
    && (x.work.Busy? && (x.work.pc == Resetting || (x.work.pc.Rearming? && x.work.pc.thenReset)) ==> x.sock.readError)
    && (x.obj.readIndex <= CAPACITY
        || (x.work.Busy? && x.work.pc.Reading?)
        || (x.work == Busy(Resetting))
        || (x.work.Busy? && x.work.pc.Rearming? && x.work.pc.thenReset)
        || x.parked == Some(EndOfFile))
  }

  /** One token: the registration is armed, or one worker has the connection, or it is parked. */
  ghost predicate Token(x: Solo) {
    match x.work
    case Starting => x.reg == Unregistered && x.parked == None
    case Free => (x.reg == Disarmed <==> x.parked.Some?)
    case Queued => x.reg == Disarmed && x.parked == None
    case Ending => x.reg == Disarmed && x.parked == None
    case Busy(pc) =>
      if pc == Resetting
      then x.reg != Unregistered && x.parked == if x.reg == Disarmed then Some(RearmFailed) else None
      else x.reg == Disarmed && x.parked == None
  }

  /** Read interest is only asked for when nothing is left to send. */
  ghost predicate Backlog(x: Solo) {
    && (!x.sock.writeError && x.reg == Armed(In) && x.work != Busy(Resetting) ==> x.obj.writeIndex == x.obj.readIndex)
    && (!x.sock.writeError && x.work == Busy(Rearming(In, false)) ==> x.obj.writeIndex == x.obj.readIndex)
    && (x.reg == Unregistered ==> x.obj.readIndex == 0)
    && (x.parked == Some(EndOfFile) ==> x.sock.eof || x.obj.readIndex == CAPACITY + 1)
  }

  ghost predicate SoloInv(x: Solo) {
    Streams(x) && Phases(x) && Token(x) && Backlog(x)
  }

  lemma NewbornInv(x: Solo)
    requires Newborn(x)
    ensures SoloInv(x)
  {
    assert x.obj.buffer[..0] == x.sock.received[0..0];
    assert x.obj.buffer[..0] == x.sock.sent[0..];
  }

  // What read() stored extends the filled part of the buffer and leaves its start alone.
  lemma StoreExtends(buffer: seq<byte>, at: int, bytes: seq<byte>, w: int)
    requires 0 <= w <= at && at + |bytes| <= |buffer|
    ensures Store(buffer, at, bytes)[..at + |bytes|] == buffer[..at] + bytes
    ensures Store(buffer, at, bytes)[..w] == buffer[..w]
    ensures |Store(buffer, at, bytes)| == |buffer|
  {
  }

  lemma ReadStreams(x: Solo, n: nat)
    requires SoloInv(x) && SoloEnabled(x, Called(Read(Got(n))))
    ensures Streams(SoloApply(x, Called(Read(Got(n)))))
  {
    var t := x.sock.taken;
    var bytes := x.sock.received[t..t + n];
    StoreExtends(x.obj.buffer, x.obj.readIndex, bytes, x.obj.writeIndex);
    assert x.sock.received[x.sock.base..t + n] == x.sock.received[x.sock.base..t] + bytes;
  }

  lemma WriteStreams(x: Solo, k: nat)
    requires SoloInv(x) && SoloEnabled(x, Called(Write(Wrote(k))))
    ensures Streams(SoloApply(x, Called(Write(Wrote(k)))))
  {
    var y := SoloApply(x, Called(Write(Wrote(k))));
    var w, b := x.obj.writeIndex, x.sock.sentBase;
    var chunk := x.obj.buffer[w..w + k];
    assert x.obj.buffer[..w + k] == x.obj.buffer[..w] + chunk;
    assert (x.sock.sent + chunk)[b..] == x.sock.sent[b..] + chunk;
  }

  lemma StreamsOfSlices(x: Solo, y: Solo)
    requires Streams(x) && y.obj.buffer == x.obj.buffer
    requires y.obj.readIndex == x.obj.readIndex && y.obj.writeIndex == x.obj.writeIndex
    requires y.sock == x.sock || y.sock == x.sock.(readError := true) || y.sock == x.sock.(writeError := true)
    requires x.sock.readError ==> y.sock.readError
    ensures Streams(y)
  {
  }

  lemma CallStreams(x: Solo, c: Call)
    requires SoloInv(x) && SoloEnabled(x, Called(c))
    ensures Streams(SoloApply(x, Called(c)))
  {
    var y := SoloApply(x, Called(c));
    match c
    case Read(Got(n)) => ReadStreams(x, n);
    case Write(Wrote(k)) => WriteStreams(x, k);
    case Reset =>
      assert y.obj.buffer[..0] == y.sock.received[y.sock.base..y.sock.taken];
      assert y.obj.buffer[..0] == y.sock.sent[y.sock.sentBase..];
    case _ => StreamsOfSlices(x, y);
  }

  lemma CallPhases(x: Solo, c: Call)
    requires SoloInv(x) && SoloEnabled(x, Called(c))
    ensures Phases(SoloApply(x, Called(c))) && Token(SoloApply(x, Called(c)))
  {
  }

  lemma CallBacklog(x: Solo, c: Call)
    requires SoloInv(x) && SoloEnabled(x, Called(c))
    ensures Backlog(SoloApply(x, Called(c)))
  {
  }

  lemma ArrivalStreams(x: Solo, bytes: seq<byte>)
    requires Streams(x)
    ensures Streams(x.(sock := x.sock.Arrive(bytes)))
  {
    assert x.sock.Arrive(bytes).received[x.sock.base..x.sock.taken] == x.sock.received[x.sock.base..x.sock.taken];
  }

  /** The invariant of a connection, over any one event. */
  lemma {:induction false} StepInv(x: Solo, e: SoloEvent)
    requires SoloInv(x) && SoloEnabled(x, e)
    ensures SoloInv(SoloApply(x, e))
  {
    match e
    case ClientSends(bytes) => ArrivalStreams(x, bytes);
    case Called(c) =>
      CallStreams(x, c);
      CallPhases(x, c);
      CallBacklog(x, c);
    case _ =>
  }

  lemma {:induction false} RunInv(x: Solo, es: seq<SoloEvent>)
    requires SoloInv(x) && SoloRuns(x, es)
    ensures SoloInv(SoloFinal(x, es))
  {
    if es == [] {
    } else {
      RunInv(x, es[..|es| - 1]);
      StepInv(SoloFinal(x, es[..|es| - 1]), es[|es| - 1]);
    }
  }
}
