// What the kernel keeps for one TCP connection, and what it may answer to the
// read() and write() calls of the servers.  Every choice of the kernel and of
// the client is a parameter: a call may be short, may return EAGAIN, may fail.
module Sockets {

  newtype byte = x: int | 0 <= x < 256

  datatype Option<+T> = None | Some(value: T)

  // The two one-shot interests a connection is armed with.
  datatype Interest = In | Out

  // errno, as far as the servers look at it.
  datatype Errno = EAgain | EOther

  datatype ReadResult =
    | Got(n: nat)      // rlen > 0
    | Eof              // rlen == 0
    | ReadAgain        // rlen < 0, EAGAIN or EWOULDBLOCK
    | ReadFailed       // rlen < 0, any other errno

  datatype WriteResult =
    | Wrote(k: nat)    // wlen > 0
    | WroteNothing     // wlen == 0, errno left as it was
    | WriteAgain       // wlen < 0, EAGAIN or EWOULDBLOCK
    | WriteFailed      // wlen < 0, any other errno

  /** One connection, seen from the kernel.  `received` and `sent` only grow.  The last
      four fields are history: `base` and `sentBase` mark where the server's buffer
      was last rewound, the flags record hard errors. */
  datatype Socket = Socket(
    received: seq<byte>,  // all bytes that arrived from the client
    taken: nat,           // how many of them read() has handed over
    sent: seq<byte>,      // all bytes write() has accepted for the client
    eof: bool,            // the client has shut down its sending side
    base: nat,
    sentBase: nat,
    readError: bool,
    writeError: bool)
  {
    ghost predicate WellFormed() {
      base <= taken <= |received| && sentBase <= |sent|
    }

    function Unread(): int { |received| - taken }

    function Arrive(bytes: seq<byte>): Socket {
      this.(received := received + bytes)
    }

    function Shut(): Socket {
      this.(eof := true)
    }

    /** Since the last rewind, what went out is a prefix of what came in. */
    ghost predicate Faithful() {
      WellFormed() && sent[sentBase..] <= received[base..taken]
    }
  }

  function NewSocket(): Socket {
    Socket([], 0, [], false, 0, 0, false, false)
  }

  // A read() of `request` bytes.  EAGAIN may be spurious; a zero-length request
  // returns 0 at once.
  predicate MayRead(s: Socket, request: int, r: ReadResult) {
    match r
    case Got(n) => 1 <= n <= request && s.taken + n <= |s.received|
    case Eof => request == 0 || (s.eof && s.taken == |s.received|)
    case ReadAgain => request > 0
    case ReadFailed => true
  }

  // A write() of `request` bytes.
  predicate MayWrite(request: int, w: WriteResult) {
    w.Wrote? ==> 1 <= w.k <= request
  }

  // A descriptor that an event loop handled, and the connection it then denoted; a
  // listener denotes none.
  datatype Handled = Handled(fd: int, conn: Option<nat>)
}
