/** One connection as a value: what each handler of the connection does to it, for any answer of the kernel.
    The class in TcpConnection.dfy is proved to follow these functions. */
module ConnectionSpec {
  import opened SystemCalls
  import opened Links

  datatype State = Connecting | Connected | Disconnecting | Disconnected

  /** What reached the socket, in order: bytes of sends, bytes of files (by request and file position), and
      the end of the write side. */
  datatype WireEvent = SendByte(b: char) | FileByte(req: nat, pos: int) | Fin

  datatype Note = WriteComplete | HighWater(size: nat)

  /** The connection's tasks in its loop's queue. */
  datatype Task =
    | RunSend(payload: seq<char>)
    | RunShutdown
    | RunSendFile(req: nat, offset: int, count: nat)
    | Notify(note: Note)

  datatype FileRequest = FileRequest(offset: int, count: nat)

  /** What the outside has seen of the connection: a record no handler reads. */
  datatype History = History(
    wire: seq<WireEvent>,           // everything that reached the socket
    notes: seq<Note>,               // every notification queued
    requests: seq<FileRequest>,     // every file request taken on
    ups: nat,                       // connection callbacks run on establishing
    downs: nat,                     // connection callbacks run on going down
    closed: bool,                   // the close handler has run
    destroyed: bool)                // the channel has been removed for good

  datatype Conn = Conn(
    state: State,
    link: Link,
    out: seq<char>,                 // the output buffer
    input: seq<char>,               // the input buffer
    tasks: seq<Task>,
    onWriteComplete: bool,          // whether the callback is set
    onHighWater: bool,
    mark: nat,
    h: History)

  ghost predicate IsNew(c: Conn) {
    && c.state == Connecting && c.link == UNUSED && c.out == [] && c.input == [] && c.tasks == []
    && c.h == History([], [], [], 0, 0, false, false)
  }

  function SendBytes(data: seq<char>): (r: seq<WireEvent>)
    ensures |r| == |data|
  {
    seq(|data|, i requires 0 <= i < |data| => SendByte(data[i]))
  }

  function FileBytes(req: nat, offset: int, n: nat): (r: seq<WireEvent>)
    ensures |r| == n
  {
    seq(n, i => FileByte(req, offset + i))
  }

  // ---- Small changes

  function Emit(c: Conn, events: seq<WireEvent>): Conn {
    c.(h := c.h.(wire := c.h.wire + events))
  }

  function QueueTask(c: Conn, t: Task): Conn {
    c.(tasks := c.tasks + [t])
  }

  function QueueNote(c: Conn, n: Note): Conn {
    c.(tasks := c.tasks + [Notify(n)], h := c.h.(notes := c.h.notes + [n]))
  }

  function QueueWriteComplete(c: Conn): Conn {
    if c.onWriteComplete then QueueNote(c, WriteComplete) else c
  }

  // ---- Sending

  /** Nothing is waiting to be written, so a send may go straight to the socket. */
  predicate Direct(c: Conn) {
    !IsWriting(c.link) && c.out == []
  }

  /** The high-water check before more bytes are buffered. */
  function Noted(c: Conn, more: nat): Conn {
    if |c.out| < c.mark <= |c.out| + more && c.onHighWater then QueueNote(c, HighWater(|c.out| + more)) else c
  }

  /** Bytes are put behind those waiting, and write interest is switched on unless it is on already. */
  function Waiting(c: Conn, rest: seq<char>): Conn {
    c.(out := c.out + rest, link := if IsWriting(c.link) then c.link else EnableWriting(c.link))
  }

  /** Keeping the rest of a payload for later. */
  function Buffered(c: Conn, rest: seq<char>): Conn {
    Waiting(Noted(c, |rest|), rest)
  }

  function BufferedIfAny(c: Conn, rest: seq<char>): Conn {
    if rest == [] then c else Buffered(c, rest)
  }

  function SendInLoop(c: Conn, data: seq<char>, r: IoResult): Conn
    requires Fits(r, |data|)
  {
    if !Direct(c) then BufferedIfAny(c, data)
    else if r.Wrote? then
      var sent := Emit(c, SendBytes(data[..r.n]));
      if r.n == |data| then QueueWriteComplete(sent) else Buffered(sent, data[r.n..])
    else if IsFault(r) then c
    else BufferedIfAny(c, data)
  }

  /** send, called on the loop's thread. */
  function Send(c: Conn, data: seq<char>, r: IoResult): Conn
    requires Fits(r, |data|)
  {
    if c.state == Connected then SendInLoop(c, data, r) else c
  }

  // ---- Shutting the write side down

  function ShutdownInLoop(c: Conn): Conn {
    if IsWriting(c.link) then c else Emit(c, [Fin])
  }

  /** shutdown, called on the loop's thread. */
  function Shutdown(c: Conn): Conn {
    if c.state == Connected then ShutdownInLoop(c.(state := Disconnecting)) else c
  }

  // ---- Handlers

  /** The output buffer has just run empty. */
  function Drained(c: Conn): Conn {
    var quiet := QueueWriteComplete(c.(link := DisableWriting(c.link)));
    if c.state == Disconnecting then ShutdownInLoop(quiet) else quiet
  }

  /** The socket has taken the first n buffered bytes. */
  function Written(c: Conn, n: nat): Conn
    requires n <= |c.out|
  {
    var sent := Emit(c, SendBytes(c.out[..n])).(out := c.out[n..]);
    if sent.out == [] then Drained(sent) else sent
  }

  function HandleWrite(c: Conn, r: IoResult): Conn
    requires Fits(r, |c.out|)
  {
    if IsWriting(c.link) && r.Wrote? && r.n > 0 then Written(c, r.n) else c
  }

  function HandleClose(c: Conn): Conn {
    c.(state := Disconnected, link := DisableAll(c.link), h := c.h.(downs := c.h.downs + 1, closed := true))
  }

  function HandleRead(c: Conn, r: ReadResult): Conn {
    match r
    case ReadFailed => c
    case Received(bytes) => if bytes == [] then HandleClose(c) else c.(input := c.input + bytes)
  }

  function ConnectEstablished(c: Conn): Conn {
    c.(state := Connected, link := EnableReading(c.link), h := c.h.(ups := c.h.ups + 1))
  }

  function ConnectDestroyed(c: Conn): Conn {
    var down :=
      if c.state == Connected then
        c.(state := Disconnected, link := DisableAll(c.link), h := c.h.(downs := c.h.downs + 1))
      else c;
    down.(link := Removed(down.link), h := down.h.(destroyed := true))
  }

  // ---- Files

  /** Trying again later with what is left of a file request. */
  function RequeuedIfAny(c: Conn, req: nat, offset: int, count: nat): Conn {
    if count == 0 then c else QueueTask(c, RunSendFile(req, offset, count))
  }

  function SendFileInLoop(c: Conn, req: nat, offset: int, count: nat, r: IoResult): Conn
    requires Fits(r, count)
  {
    if c.state == Disconnecting then c
    else if !Direct(c) then RequeuedIfAny(c, req, offset, count)
    else if r.Wrote? then
      var sent := Emit(c, FileBytes(req, offset, r.n));
      if r.n == count then QueueWriteComplete(sent)
      else RequeuedIfAny(sent, req, offset + r.n, count - r.n)
    else if IsFault(r) then c
    else RequeuedIfAny(c, req, offset, count)
  }

  /** Taking on a file request; its number is its place in the record. */
  function Request(c: Conn, offset: int, count: nat): Conn {
    c.(h := c.h.(requests := c.h.requests + [FileRequest(offset, count)]))
  }

  /** sendFile, called on the loop's thread. */
  function SendFile(c: Conn, offset: int, count: nat, r: IoResult): Conn
    requires Fits(r, count)
  {
    if c.state == Connected then SendFileInLoop(Request(c, offset, count), |c.h.requests|, offset, count, r) else c
  }
}
