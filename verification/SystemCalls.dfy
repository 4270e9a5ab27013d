/** The kernel's answers, which the model takes as given: any answer within the call's contract may come. */
module SystemCalls {

  datatype Option<+T> = None | Some(value: T)

  datatype Errno = WouldBlock | BrokenPipe | ConnectionReset | OtherError

  /** What write and sendfile return: a byte count, or an error number. */
  datatype IoResult = Wrote(n: nat) | Failed(errno: Errno)

  /** What readv returns: the bytes delivered (none at end of stream), or an error. */
  datatype ReadResult = Received(bytes: seq<char>) | ReadFailed

  /** A call never reports more bytes than it was asked to move. */
  predicate Fits(r: IoResult, asked: nat) {
    r.Wrote? ==> r.n <= asked
  }

  /** The errors after which the connection gives a payload up. */
  predicate IsFault(r: IoResult) {
    r.Failed? && (r.errno.BrokenPipe? || r.errno.ConnectionReset?)
  }

  /** The low byte of an epoll event word: the library neither sets nor tests a higher bit. */
  type Mask = bv8

  const EPOLLIN: Mask := 0x01
  const EPOLLPRI: Mask := 0x02
  const EPOLLOUT: Mask := 0x04
  const EPOLLERR: Mask := 0x08
  const EPOLLHUP: Mask := 0x10

  const NONE_EVENT: Mask := 0
  const READ_EVENT: Mask := EPOLLIN | EPOLLPRI
  const WRITE_EVENT: Mask := EPOLLOUT

  predicate Has(m: Mask, flag: Mask) {
    m & flag != 0
  }

  /** epoll_wait reports only what was asked for, and errors and hang-ups, which need no asking. */
  predicate Reportable(revents: Mask, asked: Mask) {
    revents & !(asked | EPOLLERR | EPOLLHUP) == 0
  }
}
