// What the sequential life of a connection gives its client: a faithful echo,
// interest that matches the backlog, bounded completion, and the two ways in
// which the echo stays incomplete (too much input, shutdown by the client).
module Echo {
  import opened Sockets
  import opened EchoConnection

  // ---- Safety ----

  /** Output is a prefix of input, however reads and writes are split. */
  lemma {:induction false} EchoFidelity(x: Solo, es: seq<SoloEvent>)
    requires Newborn(x) && SoloRuns(x, es)
    ensures var y := SoloFinal(x, es);
            && y.sock.Faithful() && y.obj.WellFormed()
            && y.obj.writeIndex <= y.obj.readIndex == y.sock.taken - y.sock.base
            && y.obj.buffer[..y.obj.readIndex] == y.sock.received[y.sock.base..y.sock.taken]
            && y.sock.received[y.sock.base..][..y.obj.writeIndex] == y.sock.sent[y.sock.sentBase..]
    ensures var y := SoloFinal(x, es);
            !y.sock.readError ==>
              && y.obj.buffer[..y.obj.readIndex] == y.sock.received[..y.sock.taken]
              && y.sock.sent == y.sock.received[..y.obj.writeIndex]
  {
    NewbornInv(x);
    RunInv(x, es);
    InvFaithful(SoloFinal(x, es));
  }

  lemma InvFaithful(y: Solo)
    requires SoloInv(y)
    ensures y.sock.Faithful()
    ensures y.sock.received[y.sock.base..][..y.obj.writeIndex] == y.sock.sent[y.sock.sentBase..]
    ensures !y.sock.readError ==> y.sock.sent == y.sock.received[..y.obj.writeIndex]
                                  && y.obj.buffer[..y.obj.readIndex] == y.sock.received[..y.sock.taken]
  {
    var b, t, w := y.sock.base, y.sock.taken, y.obj.writeIndex;
    assert y.obj.buffer[..w] == y.obj.buffer[..y.obj.readIndex][..w] == y.sock.received[b..t][..w];
    assert y.sock.received[b..][..w] == y.sock.received[b..t][..w];
    assert y.sock.sent[y.sock.sentBase..] <= y.sock.received[b..t];
    if !y.sock.readError {
      assert y.sock.sent[0..] == y.sock.sent;
      assert y.sock.received[0..] == y.sock.received;
    }
  }

  // The conversation so far fits the buffer.
  ghost predicate Fits(s: Socket) {
    |s.received| - s.base <= CAPACITY
  }

  /** Cursors, request lengths and the phase flag, in every state of every run. */
  lemma {:induction false} CursorsAndPhase(x: Solo, es: seq<SoloEvent>)
    requires Newborn(x) && SoloRuns(x, es)
    ensures var y := SoloFinal(x, es);
            && 0 <= y.obj.writeIndex <= y.obj.readIndex <= CAPACITY + 1
            && 0 <= y.obj.ReadRequest() && 0 <= y.obj.WriteRequest()
            && (Fits(y.sock) ==> y.obj.readIndex <= CAPACITY)
            && (y.obj.readIndex <= CAPACITY <==> y.sock.taken - y.sock.base <= CAPACITY)
            && (!y.work.Busy? ==> !y.obj.readyForWrite)
            && (y.work.Busy? && y.work.pc.Writing? ==> y.work.pc.errno == EAgain)
  {
    NewbornInv(x);
    RunInv(x, es);
  }

  /** A connection armed for read has nothing left to send; with nothing unread the
      echo is complete. */
  lemma {:induction false} InterestMatchesBacklog(x: Solo, es: seq<SoloEvent>)
    requires Newborn(x) && SoloRuns(x, es)
    ensures var y := SoloFinal(x, es);
            !y.sock.writeError && y.obj.writeIndex < y.obj.readIndex ==>
              y.reg == Armed(Out) || y.work == Queued || y.work.Busy? || y.work == Ending || y.parked.Some?
    ensures var y := SoloFinal(x, es);
            !y.sock.writeError && !y.sock.readError && y.reg == Armed(In) && y.sock.Unread() == 0 ==>
              y.sock.sent == y.sock.received
  {
    NewbornInv(x);
    RunInv(x, es);
    var y := SoloFinal(x, es);
    InvFaithful(y);
    match y.reg {
      case Armed(In) =>
      case Armed(Out) =>
      case Disarmed =>
      case Unregistered =>
    }
    if !y.sock.readError && y.sock.Unread() == 0 {
      assert y.sock.received[..y.sock.taken] == y.sock.received;
    }
  }

  /** The converse of read interest fails: a spurious event makes the server write zero
      bytes, read a stale EAGAIN, and ask for write interest with nothing to send. */
  lemma {:induction false} WriteInterestWithoutBacklog(fd: int) returns (x: Solo, es: seq<SoloEvent>)
    ensures Newborn(x) && SoloRuns(x, es) && SoloFinal(x, es).reg == Armed(Out) && SoloFinal(x, es).sock.received == []
  {
    x := Solo(NewConn(fd), NewSocket(), Unregistered, Starting, None);
    NewbornInv(x);
    var calm := Dispatched(CALM, EOther);
    es := [];
    SoloSnoc(x, es, Registers(true)); es := es + [Registers(true)];
    SoloSnoc(x, es, Delivered); es := es + [Delivered];
    SoloSnoc(x, es, calm); es := es + [calm];
    SoloSnoc(x, es, Called(Read(ReadAgain))); es := es + [Called(Read(ReadAgain))];
    SoloSnoc(x, es, Called(Write(WroteNothing))); es := es + [Called(Write(WroteNothing))];
    SoloSnoc(x, es, Called(Mod(true))); es := es + [Called(Mod(true))];
  }

  // ---- How much work an echo takes ----

  function SuccessOf(e: SoloEvent): nat {
    match e
    case Called(Read(Got(_))) => 1
    case Called(Write(Wrote(_))) => 1
    case _ => 0
  }

  function BytesOf(e: SoloEvent): nat {
    if e.ClientSends? then |e.bytes| else 0
  }

  // Successful read() and write() calls of a run.
  function Successes(es: seq<SoloEvent>): nat {
    if es == [] then 0 else Successes(es[..|es| - 1]) + SuccessOf(es[|es| - 1])
  }

  // Bytes the client sends during a run.
  function BytesSent(es: seq<SoloEvent>): nat {
    if es == [] then 0 else BytesSent(es[..|es| - 1]) + BytesOf(es[|es| - 1])
  }

  function Owed(x: Solo): int {
    2 * x.sock.Unread() + x.obj.WriteRequest()
  }

  lemma SuccessIsPaid(x: Solo, e: SoloEvent)
    requires SoloInv(x) && SoloEnabled(x, e)
    ensures SuccessOf(e) + Owed(SoloApply(x, e)) <= Owed(x) + 2 * BytesOf(e)
  {
  }

  /** Every successful call is paid for by the input: at most two per byte, on all runs. */
  lemma {:induction false} SuccessesAreBounded(x: Solo, es: seq<SoloEvent>)
    requires SoloInv(x) && SoloRuns(x, es)
    ensures Successes(es) + Owed(SoloFinal(x, es)) <= Owed(x) + 2 * BytesSent(es)
    ensures 0 <= Owed(SoloFinal(x, es))
  {
    RunInv(x, es);
    if es == [] {
    } else {
      SuccessesAreBounded(x, es[..|es| - 1]);
      RunInv(x, es[..|es| - 1]);
      SuccessIsPaid(SoloFinal(x, es[..|es| - 1]), es[|es| - 1]);
    }
  }

  lemma {:induction false} Arrivals(x: Solo, es: seq<SoloEvent>)
    requires SoloRuns(x, es)
    ensures |SoloFinal(x, es).sock.received| == |x.sock.received| + BytesSent(es)
  {
    if es == [] {
    } else {
      Arrivals(x, es[..|es| - 1]);
    }
  }

  /** The state of a connection in service: nothing failed, nothing closed, no event error. */
  ghost predicate InService(x: Solo) {
    && SoloInv(x)
    && !x.sock.eof && !x.sock.readError && !x.sock.writeError
    && x.parked == None && x.work != Ending && x.work != Starting && x.reg != Unregistered
  }

  ghost predicate Quiet(x: Solo) {
    x.sock.Unread() == 0 && x.obj.WriteRequest() == 0
  }

  /** A server step against a kernel that answers truthfully and a writable socket: an
      armed entry is reported when ready, EAGAIN means empty, MOD succeeds. */
  ghost predicate Responsive(x: Solo, e: SoloEvent) {
    match e
    case Delivered => x.reg == Armed(In) ==> x.sock.Unread() > 0
    case Dispatched(flags, _) => flags == CALM
    case Called(Read(Got(_))) => true
    case Called(Read(Eof)) => x.obj.ReadRequest() == 0
    case Called(Read(ReadAgain)) => x.sock.Unread() == 0
    case Called(Write(Wrote(_))) => true
    case Called(Write(WroteNothing)) => x.obj.WriteRequest() == 0
    case Called(Mod(ok)) => ok
    case _ => false
  }

  // A responsive run goes on until the connection is quiet.
  ghost predicate Serves(x: Solo, es: seq<SoloEvent>)
    ensures Serves(x, es) ==> SoloRuns(x, es)
  {
    es == [] || (
      && Serves(x, es[..|es| - 1])
      && !Quiet(SoloFinal(x, es[..|es| - 1]))
      && SoloEnabled(SoloFinal(x, es[..|es| - 1]), es[|es| - 1])
      && Responsive(SoloFinal(x, es[..|es| - 1]), es[|es| - 1]))
  }

  // Distance to the next successful call.
  function Rank(x: Solo): nat {
    match x.work
    case Busy(Writing(_)) => if x.obj.WriteRequest() == 0 then 6 else 1
    case Busy(Reading(_)) => 2
    case Queued => 3
    case Free => 4
    case _ => 5
  }

  ghost function Measure(x: Solo): int {
    6 * Owed(x) + Rank(x)
  }

  lemma ServiceStep(x: Solo, e: SoloEvent)
    requires InService(x) && Fits(x.sock) && !Quiet(x) && SoloEnabled(x, e) && Responsive(x, e)
    ensures InService(SoloApply(x, e)) && Fits(SoloApply(x, e).sock)
    ensures Measure(SoloApply(x, e)) < Measure(x)
    ensures SoloApply(x, e).sock.received == x.sock.received
  {
    StepInv(x, e);
  }

  /** While anything is unread or unsent, the server has a step to take. */
  lemma ServiceIsEnabled(x: Solo) returns (e: SoloEvent)
    requires InService(x) && Fits(x.sock) && !Quiet(x)
    ensures SoloEnabled(x, e) && Responsive(x, e)
  {
    match x.work
    case Free => e := Delivered;
    case Queued => e := Dispatched(CALM, EAgain);
    case Busy(Reading(_)) => e := Called(Read(if x.sock.Unread() > 0 then Got(1) else ReadAgain));
    case Busy(Writing(_)) => e := Called(Write(if x.obj.WriteRequest() > 0 then Wrote(1) else WroteNothing));
    case Busy(Rearming(_, _)) => e := Called(Mod(true));
  }

  /** No responsive run can go on for longer than the measure, and its successful
      calls are at most 2 * unread + unsent. */
  lemma {:induction false} ServiceIsBounded(x: Solo, es: seq<SoloEvent>)
    requires InService(x) && Fits(x.sock) && Serves(x, es)
    ensures InService(SoloFinal(x, es)) && Fits(SoloFinal(x, es).sock)
    ensures SoloFinal(x, es).sock.received == x.sock.received
    ensures |es| + Measure(SoloFinal(x, es)) <= Measure(x) && 0 <= Owed(SoloFinal(x, es))
    ensures Successes(es) + Owed(SoloFinal(x, es)) <= Owed(x)
  {
    if es == [] {
    } else {
      ServiceIsBounded(x, es[..|es| - 1]);
      ServiceStep(SoloFinal(x, es[..|es| - 1]), es[|es| - 1]);
    }
  }

  /** Every responsive run that cannot be prolonged has echoed everything. */
  lemma MaximalServiceCompletes(x: Solo, es: seq<SoloEvent>)
    requires InService(x) && Fits(x.sock) && Serves(x, es)
    requires forall e :: !Serves(x, es + [e])
    ensures SoloFinal(x, es).sock.sent == x.sock.received
    ensures Successes(es) <= 2 * x.sock.Unread() + x.obj.WriteRequest()
  {
    ServiceIsBounded(x, es);
    if !Quiet(SoloFinal(x, es)) {
      var e := ProlongService(x, es);
    }
    QuietIsEchoed(SoloFinal(x, es));
  }

  lemma ProlongService(x: Solo, es: seq<SoloEvent>) returns (e: SoloEvent)
    requires InService(x) && Fits(x.sock) && Serves(x, es) && !Quiet(SoloFinal(x, es))
    ensures Serves(x, es + [e])
  {
    ServiceIsBounded(x, es);
    e := ServiceIsEnabled(SoloFinal(x, es));
    assert (es + [e])[..|es|] == es;
  }

  lemma QuietIsEchoed(y: Solo)
    requires SoloInv(y) && Quiet(y) && !y.sock.readError
    ensures y.sock.sent == y.sock.received
  {
    InvFaithful(y);
    assert y.sock.received[..y.sock.taken] == y.sock.received;
  }

  lemma CompleteService(x: Solo) returns (es: seq<SoloEvent>)
    requires InService(x) && Fits(x.sock)
    ensures Serves(x, es) && SoloFinal(x, es).sock.sent == x.sock.received
    decreases Measure(x)
  {
    es := [];
    while !Quiet(SoloFinal(x, es))
      invariant Serves(x, es)
      decreases Measure(x) - |es|
    {
      ServiceIsBounded(x, es);
      var e := ProlongService(x, es);
      es := es + [e];
      ServiceIsBounded(x, es);
    }
    ServiceIsBounded(x, es);
    QuietIsEchoed(SoloFinal(x, es));
  }

  ghost predicate Completes(x: Solo, es: seq<SoloEvent>) {
    Serves(x, es) && SoloFinal(x, es).sock.sent == x.sock.received
  }

  /** The echo can be completed exactly when the conversation fits the buffer: cell 1025
      parks the connection with its last bytes unsent. */
  lemma CompletesExactlyWhenItFits(x: Solo)
    requires InService(x)
    ensures (exists es :: Completes(x, es)) <==> Fits(x.sock)
  {
    if Fits(x.sock) {
      var es := CompleteService(x);
      assert Completes(x, es);
    }
    if es :| Completes(x, es) {
      ServesKeepsErrors(x, es);
      assert |SoloFinal(x, es).sock.sent| <= CAPACITY;
    }
  }

  lemma {:induction false} ServesKeepsErrors(x: Solo, es: seq<SoloEvent>)
    requires SoloInv(x) && !x.sock.readError && Serves(x, es)
    ensures SoloInv(SoloFinal(x, es)) && !SoloFinal(x, es).sock.readError
    ensures SoloFinal(x, es).sock.received == x.sock.received
  {
    if es == [] {
    } else {
      ServesKeepsErrors(x, es[..|es| - 1]);
      StepInv(SoloFinal(x, es[..|es| - 1]), es[|es| - 1]);
    }
  }

  /** A connection whose conversation has outgrown the buffer, up to and including its end. */
  ghost predicate Overlong(x: Solo) {
    && SoloInv(x) && !Fits(x.sock)
    && !x.sock.eof && !x.sock.readError && !x.sock.writeError
    && x.work != Ending && x.work != Starting && x.reg != Unregistered
    && (x.parked == None || Overflowed(x))
  }

  // Cell 1025 is full, read() has returned 0, and bytes are left unsent for ever.
  predicate Overflowed(x: Solo) {
    && x.parked == Some(EndOfFile) && x.work == Free && x.reg == Disarmed
    && x.obj.readIndex == CAPACITY + 1 && x.obj.writeIndex < x.obj.readIndex
  }

  ghost function Distance(x: Solo): int {
    if x.parked.Some? then 0 else Measure(x)
  }

  lemma OverlongStep(x: Solo, e: SoloEvent)
    requires Overlong(x) && SoloEnabled(x, e) && Responsive(x, e)
    ensures Overlong(SoloApply(x, e)) && 0 <= Distance(SoloApply(x, e)) < Distance(x)
  {
    StepInv(x, e);
  }

  lemma OverlongIsEnabled(x: Solo) returns (e: SoloEvent)
    requires Overlong(x) && !Overflowed(x)
    ensures !Quiet(x) && SoloEnabled(x, e) && Responsive(x, e)
  {
    match x.work
    case Free => e := Delivered;
    case Queued => e := Dispatched(CALM, EAgain);
    case Busy(Reading(_)) =>
      e := Called(Read(if x.obj.ReadRequest() == 0 then Eof else if x.sock.Unread() > 0 then Got(1) else ReadAgain));
    case Busy(Writing(_)) => e := Called(Write(if x.obj.WriteRequest() > 0 then Wrote(1) else WroteNothing));
    case Busy(Rearming(_, _)) => e := Called(Mod(true));
  }

  lemma {:induction false} OverlongIsBounded(x: Solo, es: seq<SoloEvent>)
    requires Overlong(x) && Serves(x, es)
    ensures Overlong(SoloFinal(x, es)) && |es| + Distance(SoloFinal(x, es)) <= Distance(x)
  {
    if es == [] {
    } else {
      OverlongIsBounded(x, es[..|es| - 1]);
      OverlongStep(SoloFinal(x, es[..|es| - 1]), es[|es| - 1]);
    }
  }

  /** With more input than the buffer holds, every responsive run is finite, and when it
      cannot be prolonged cell 1025 is full, read() has returned 0, the connection is
      parked, and its last bytes are unsent. */
  lemma {:induction false} OverlongIsParked(x: Solo, es: seq<SoloEvent>)
    requires InService(x) && !Fits(x.sock) && Serves(x, es)
    ensures |es| <= Measure(x)
    ensures (forall e :: !Serves(x, es + [e])) ==> Overflowed(SoloFinal(x, es))
  {
    OverlongIsBounded(x, es);
    if !Overflowed(SoloFinal(x, es)) {
      var e := OverlongIsEnabled(SoloFinal(x, es));
      assert (es + [e])[..|es|] == es;
      assert Serves(x, es + [e]);
    }
  }

  // A connection that has just been added to the epoll set, with `bytes` sent to it.
  function Accepted(fd: int, bytes: seq<byte>): Solo {
    Solo(NewConn(fd), NewSocket().Arrive(bytes), Armed(In), Free, None)
  }

  lemma AcceptedIsReached(fd: int, bytes: seq<byte>) returns (x: Solo, es: seq<SoloEvent>)
    ensures Newborn(x) && x.sock == NewSocket() && SoloRuns(x, es)
    ensures SoloFinal(x, es) == Accepted(fd, bytes) && InService(Accepted(fd, bytes))
  {
    x, es := Solo(NewConn(fd), NewSocket(), Unregistered, Starting, None), [];
    NewbornInv(x);
    SoloSnoc(x, es, Registers(true));
    es := es + [Registers(true)];
    SoloSnoc(x, es, ClientSends(bytes));
    es := es + [ClientSends(bytes)];
    RunInv(x, es);
  }

  /** Such input exists: 1025 bytes sent to a new connection are never all echoed. */
  lemma {:induction false} OverlongInput(fd: int) returns (x: Solo, es: seq<SoloEvent>)
    ensures Newborn(x) && SoloRuns(x, es) && BytesSent(es) == CAPACITY + 1 && InService(SoloFinal(x, es))
    ensures forall more :: !Completes(SoloFinal(x, es), more)
  {
    x, es := AcceptedIsReached(fd, seq(CAPACITY + 1, _ => 0));
    Arrivals(x, es);
    CompletesExactlyWhenItFits(SoloFinal(x, es));
  }

  // ---- One event handling ----

  function ReadsOf(e: SoloEvent): nat { if e.Called? && e.call.Read? then 1 else 0 }

  function WritesOf(e: SoloEvent): nat { if e.Called? && e.call.Write? then 1 else 0 }

  function ModsOf(e: SoloEvent): nat { if e.Called? && e.call.Mod? then 1 else 0 }

  function Count(es: seq<SoloEvent>, of: SoloEvent -> nat): nat {
    if es == [] then 0 else Count(es[..|es| - 1], of) + of(es[|es| - 1])
  }

  // A run from taking one event out of a batch up to, at most, the end of its handling.
  ghost predicate OneHandling(x: Solo, es: seq<SoloEvent>)
    ensures OneHandling(x, es) ==> SoloRuns(x, es)
  {
    if es == [] then x.work == Queued
    else
      var front, e := es[..|es| - 1], es[|es| - 1];
      && OneHandling(x, front)
      && (SoloFinal(x, front).work == Queued || SoloFinal(x, front).work.Busy?)
      && SoloEnabled(SoloFinal(x, front), e)
      && (e.Dispatched? ==> e.flags == CALM)
  }

  // What has been spent between x and y on reads, writes and rearms.
  ghost predicate Spent(x: Solo, y: Solo, reads': nat, writes': nat, mods': nat) {
    var got, put := y.sock.taken - x.sock.taken, |y.sock.sent| - |x.sock.sent|;
    && 0 <= got && x.obj.readIndex + got <= CAPACITY + 1
    && 0 <= put <= x.obj.readIndex + got - x.obj.writeIndex
    && match y.work
       case Queued => reads' == 0 && writes' == 0 && mods' == 0 && got == 0 && put == 0 && y.obj == x.obj
       case Busy(Reading(_)) =>
         reads' <= got && writes' == 0 && mods' == 0 && put == 0
         && y.obj.readIndex == x.obj.readIndex + got && y.obj.writeIndex == x.obj.writeIndex
       case Busy(Writing(_)) =>
         1 <= reads' <= got + 1 && writes' <= put && mods' == 0
         && y.obj.readIndex == x.obj.readIndex + got && y.obj.writeIndex == x.obj.writeIndex + put
       case Busy(Rearming(_, _)) => 1 <= reads' <= got + 1 && writes' <= put + 1 && mods' == 0
       case Busy(Resetting) => 1 <= reads' <= got + 1 && writes' <= put + 1 && mods' == 1
       case Free =>
         1 <= reads' <= got + 1 && writes' <= put + 1 && mods' == if y.parked == Some(EndOfFile) then 0 else 1
       case _ => false
  }

  lemma SpentStep(x: Solo, y: Solo, reads': nat, writes': nat, mods': nat, e: SoloEvent)
    requires SoloInv(x) && SoloInv(y) && Spent(x, y, reads', writes', mods') && SoloEnabled(y, e)
    requires (y.work == Queued || y.work.Busy?) && (e.Dispatched? ==> e.flags == CALM)
    ensures Spent(x, SoloApply(y, e), reads' + ReadsOf(e), writes' + WritesOf(e), mods' + ModsOf(e))
  {
  }

  lemma {:induction false} HandlingSpends(x: Solo, es: seq<SoloEvent>)
    requires SoloInv(x) && OneHandling(x, es)
    ensures Spent(x, SoloFinal(x, es), Count(es, ReadsOf), Count(es, WritesOf), Count(es, ModsOf))
  {
    if es == [] {
    } else {
      var front := es[..|es| - 1];
      HandlingSpends(x, front);
      RunInv(x, front);
      var reads', writes', mods' := Count(front, ReadsOf), Count(front, WritesOf), Count(front, ModsOf);
      SpentStep(x, SoloFinal(x, front), reads', writes', mods', es[|es| - 1]);
    }
  }

  /** Every handling, however interleaved with its client, makes at most one more read
      than there were free cells and at most one more write than there were bytes to
      send; when it ends it has rearmed once, or not at all exactly at end of file. */
  lemma {:induction false} HandlingIsBounded(x: Solo, es: seq<SoloEvent>)
    requires SoloInv(x) && OneHandling(x, es)
    ensures Count(es, ReadsOf) <= CAPACITY + 1 - x.obj.readIndex + 1
    ensures Count(es, WritesOf) <= x.obj.readIndex + (SoloFinal(x, es).sock.taken - x.sock.taken) - x.obj.writeIndex + 1
    ensures SoloFinal(x, es).work == Free ==>
              && 1 <= Count(es, ReadsOf)
              && Count(es, ModsOf) == if SoloFinal(x, es).parked == Some(EndOfFile) then 0 else 1
  {
    HandlingSpends(x, es);
  }

  // ---- Which interest a handling ends with ----

  // Nothing was unsent when x's handling began, and nothing has been read in it.
  ghost predicate Idle(x: Solo, y: Solo) {
    x.obj.WriteRequest() == 0 && y.sock.taken == x.sock.taken
  }

  ghost predicate Backlogged(x: Solo, y: Solo) {
    && x.sock.taken <= y.sock.taken
    && match y.work
       case Queued => y.obj == x.obj && y.sock.taken == x.sock.taken && y.reg == Disarmed
       case Busy(Reading(_)) =>
         y.obj.WriteRequest() == x.obj.WriteRequest() + (y.sock.taken - x.sock.taken) && y.reg == Disarmed
       case Busy(Writing(_)) => (y.obj.WriteRequest() == 0 <==> Idle(x, y)) && y.reg == Disarmed
       case Busy(Rearming(Out, thenReset)) =>
         !thenReset && (y.obj.WriteRequest() == 0 <==> Idle(x, y)) && y.reg == Disarmed
       case Busy(Rearming(In, _)) => y.reg == Disarmed
       case Busy(Resetting) => y.reg != Armed(Out)
       case _ => y.reg == Armed(Out) ==> (y.obj.WriteRequest() == 0 <==> Idle(x, y))
  }

  lemma BackloggedStep(x: Solo, y: Solo, e: SoloEvent)
    requires SoloInv(x) && SoloInv(y) && Backlogged(x, y) && SoloEnabled(y, e)
    requires (y.work == Queued || y.work.Busy?) && (e.Dispatched? ==> e.flags == CALM)
    ensures Backlogged(x, SoloApply(y, e))
  {
  }

  lemma {:induction false} HandlingBacklogs(x: Solo, es: seq<SoloEvent>)
    requires SoloInv(x) && OneHandling(x, es)
    ensures SoloInv(SoloFinal(x, es)) && Backlogged(x, SoloFinal(x, es))
  {
    if es == [] {
    } else {
      var front := es[..|es| - 1];
      HandlingBacklogs(x, front);
      RunInv(x, es);
      BackloggedStep(x, SoloFinal(x, front), es[|es| - 1]);
    }
  }

  /** When a handling ends with write interest, nothing is unsent exactly if nothing was
      unsent when it began and it read nothing: a spurious event. */
  lemma {:induction false} WriteInterestExactly(x: Solo, es: seq<SoloEvent>)
    requires SoloInv(x) && OneHandling(x, es)
    requires SoloFinal(x, es).work == Free && SoloFinal(x, es).reg == Armed(Out)
    ensures SoloFinal(x, es).obj.WriteRequest() == 0
            <==> x.obj.WriteRequest() == 0 && SoloFinal(x, es).sock.taken == x.sock.taken
  {
    HandlingBacklogs(x, es);
  }

  // ---- A handling against a willing kernel ----

  /** EAGAIN on reading means nothing is unread, a write of some bytes takes some, MOD
      succeeds, and nothing fails hard. */
  predicate Willing(x: Solo, e: SoloEvent) {
    match e
    case Called(Read(ReadAgain)) => x.sock.Unread() == 0
    case Called(Read(ReadFailed)) => false
    case Called(Write(WroteNothing)) => x.obj.WriteRequest() == 0
    case Called(Write(WriteAgain)) => false
    case Called(Write(WriteFailed)) => false
    case Called(Mod(ok)) => ok
    case _ => true
  }

  ghost predicate WillingRun(x: Solo, es: seq<SoloEvent>)
    requires SoloRuns(x, es)
  {
    es == [] || (WillingRun(x, es[..|es| - 1]) && Willing(SoloFinal(x, es[..|es| - 1]), es[|es| - 1]))
  }

  // What holds in the course of such a handling, as long as the conversation fits and the
  // client has not shut down.
  ghost predicate Echoing(x: Solo, y: Solo) {
    && y.sock.base == x.sock.base && |x.sock.received| <= |y.sock.received|
    && (Fits(y.sock) && !y.sock.eof ==>
          match y.work
          case Queued => y.parked == None
          case Busy(Reading(_)) => y.parked == None
          case Busy(Writing(_)) => y.parked == None && |x.sock.received| <= y.sock.taken
          case Busy(Rearming(interest, thenReset)) =>
            && y.parked == None && |x.sock.received| <= y.sock.taken && !thenReset && y.obj.WriteRequest() == 0
            && interest == if Idle(x, y) then Out else In
          case Free =>
            && y.parked == None && |x.sock.received| <= y.sock.taken && y.obj.WriteRequest() == 0
            && y.reg == Armed(if Idle(x, y) then Out else In)
          case _ => false)
    && y.work != Busy(Resetting) && !(y.work.Busy? && y.work.pc.Rearming? && y.work.pc.thenReset)
  }

  lemma EchoingStep(x: Solo, y: Solo, e: SoloEvent)
    requires SoloInv(x) && SoloInv(y) && Backlogged(x, y) && Echoing(x, y) && SoloEnabled(y, e) && Willing(y, e)
    requires (y.work == Queued || y.work.Busy?) && (e.Dispatched? ==> e.flags == CALM)
    ensures Echoing(x, SoloApply(y, e))
  {
  }

  lemma {:induction false} WillingKeepsEchoing(x: Solo, es: seq<SoloEvent>)
    requires SoloInv(x) && OneHandling(x, es) && WillingRun(x, es)
    ensures Echoing(x, SoloFinal(x, es))
  {
    if es == [] {
    } else {
      var front := es[..|es| - 1];
      WillingKeepsEchoing(x, front);
      HandlingBacklogs(x, front);
      EchoingStep(x, SoloFinal(x, front), es[|es| - 1]);
    }
  }

  /** One handling against a willing kernel echoes everything that had arrived when it
      began, and all it has read since the last rewind; it ends armed for read, or for
      write exactly when there was nothing to do. */
  lemma {:induction false} WillingHandlingEchoes(x: Solo, es: seq<SoloEvent>)
    requires SoloInv(x) && OneHandling(x, es) && WillingRun(x, es)
    requires SoloFinal(x, es).work == Free && Fits(SoloFinal(x, es).sock) && !SoloFinal(x, es).sock.eof
    ensures var y := SoloFinal(x, es);
            && |x.sock.received| <= y.sock.taken <= |y.sock.received|
            && y.sock.sent[y.sock.sentBase..] == y.sock.received[y.sock.base..y.sock.taken]
            && y.parked == None
            && y.reg == Armed(if x.obj.WriteRequest() == 0 && y.sock.taken == x.sock.taken then Out else In)
  {
    WillingKeepsEchoing(x, es);
    HandlingBacklogs(x, es);
  }

  // ---- Shutdown by the client ----

  // The kernel answers EAGAIN only when the socket is empty and still open.
  ghost predicate Truthful(x: Solo, e: SoloEvent) {
    e == Called(Read(ReadAgain)) ==> x.sock.Unread() == 0 && !x.sock.eof
  }

  ghost predicate TruthfulRun(x: Solo, es: seq<SoloEvent>)
    ensures TruthfulRun(x, es) ==> SoloRuns(x, es)
  {
    es == [] || (
      && TruthfulRun(x, es[..|es| - 1])
      && SoloEnabled(SoloFinal(x, es[..|es| - 1]), es[|es| - 1])
      && Truthful(SoloFinal(x, es[..|es| - 1]), es[|es| - 1]))
  }

  /** Once the client has shut down, only a write phase already under way still sends:
      whatever was not yet in it is never echoed. */
  lemma {:induction false} NothingIsEchoedAfterShutdown(x: Solo, es: seq<SoloEvent>)
    requires SoloInv(x) && x.sock.eof && !(x.work.Busy? && x.work.pc.Writing?) && TruthfulRun(x, es)
    ensures var y := SoloFinal(x, es);
            SoloInv(y) && y.sock.eof && y.sock.sent == x.sock.sent && !(y.work.Busy? && y.work.pc.Writing?)
  {
    if es == [] {
    } else {
      NothingIsEchoedAfterShutdown(x, es[..|es| - 1]);
      StepInv(SoloFinal(x, es[..|es| - 1]), es[|es| - 1]);
    }
  }

  predicate InWritePhase(x: Solo) {
    x.work.Busy? && x.work.pc.Writing?
  }

  // What has gone out or will go out of the current write phase.
  function Committed(x: Solo): int {
    |x.sock.sent| + if InWritePhase(x) then x.obj.WriteRequest() else 0
  }

  lemma CommittedStep(x: Solo, e: SoloEvent)
    requires SoloInv(x) && x.sock.eof && SoloEnabled(x, e) && Truthful(x, e)
    ensures Committed(SoloApply(x, e)) <= Committed(x) && SoloApply(x, e).sock.eof
  {
  }

  // A write phase under way at the shutdown sends what it had read, and no more.
  lemma {:induction false} WritePhaseIsTheLast(x: Solo, es: seq<SoloEvent>)
    requires SoloInv(x) && x.sock.eof && TruthfulRun(x, es)
    ensures SoloInv(SoloFinal(x, es)) && SoloFinal(x, es).sock.eof && Committed(SoloFinal(x, es)) <= Committed(x)
  {
    if es == [] {
    } else {
      WritePhaseIsTheLast(x, es[..|es| - 1]);
      StepInv(SoloFinal(x, es[..|es| - 1]), es[|es| - 1]);
      CommittedStep(SoloFinal(x, es[..|es| - 1]), es[|es| - 1]);
    }
  }

  ghost predicate CompletesAfterShutdown(x: Solo, es: seq<SoloEvent>) {
    TruthfulRun(x, es) && BytesSent(es) == 0 && SoloFinal(x, es).sock.sent == x.sock.received
  }

  /** A client that has shut down still gets its full echo exactly when nothing is unread
      and either nothing is unsent or the server was already in its write phase. */
  lemma ShutdownCompletesExactly(x: Solo)
    requires SoloInv(x) && x.sock.eof && !x.sock.readError
    ensures (exists es :: CompletesAfterShutdown(x, es))
            <==> x.sock.Unread() == 0 && (x.obj.WriteRequest() == 0 || InWritePhase(x))
  {
    InvFaithful(x);
    if x.sock.Unread() == 0 && x.obj.WriteRequest() == 0 {
      QuietIsEchoed(x);
      assert CompletesAfterShutdown(x, []);
    } else if x.sock.Unread() == 0 && InWritePhase(x) {
      var e := Called(Write(Wrote(x.obj.WriteRequest())));
      assert SoloEnabled(x, e);
      StepInv(x, e);
      QuietIsEchoed(SoloApply(x, e));
      assert [e][..0] == [];
      assert TruthfulRun(x, []) && SoloFinal(x, []) == x;
      assert TruthfulRun(x, [e]);
      assert SoloFinal(x, [e]) == SoloApply(x, e);
      assert BytesSent([e]) == BytesSent([]) + BytesOf(e);
      assert CompletesAfterShutdown(x, [e]);
    }
    if es :| CompletesAfterShutdown(x, es) {
      WritePhaseIsTheLast(x, es);
      assert |x.sock.received| <= Committed(x);
    }
  }

  /** Such a shutdown exists: a byte sent to a new connection just before the client shuts
      down is never echoed, whatever happens then. */
  lemma {:induction false} ShutdownLosesTheEcho(fd: int, b: byte) returns (x: Solo, es: seq<SoloEvent>)
    ensures Newborn(x) && SoloRuns(x, es) && SoloFinal(x, es).sock.received == [b]
    ensures forall more :: TruthfulRun(SoloFinal(x, es), more) ==> SoloFinal(SoloFinal(x, es), more).sock.sent == []
  {
    x, es := AcceptedIsReached(fd, [b]);
    SoloSnoc(x, es, ClientShuts);
    es := es + [ClientShuts];
    NewbornInv(x);
    RunInv(x, es);
    var y := SoloFinal(x, es);
    forall more | TruthfulRun(y, more) ensures SoloFinal(y, more).sock.sent == [] {
      NothingIsEchoedAfterShutdown(y, more);
    }
  }
}
