/** What every step of every run keeps, whoever calls from whichever thread and whatever the kernel answers. */
module ConnectionInvariants {
  import opened SystemCalls
  import opened Links
  import opened Dispatch
  import opened ConnectionSpec
  import opened ConnectionMachine

  /** Established, and neither closed nor destroyed. */
  ghost predicate Live(c: Conn) {
    c.h.ups > 0 && !c.h.closed && !c.h.destroyed
  }

  /** While the connection is live its channel is watched, for reading always and for writing exactly while
      bytes are waiting. */
  ghost predicate Watching(c: Conn) {
    && c.link.index == Added
    && c.link.events == (if c.out == [] then READ_EVENT else READ_EVENT | WRITE_EVENT)
  }

  ghost predicate ConnInv(c: Conn) {
    && Coherent(c.link)
    && (Live(c) ==> Watching(c))
    && (c.state == Connected ==> Live(c))
    && c.h.ups <= 1
    && (c.h.ups == 0 <==> c.state == Connecting)
    && (c.h.ups == 0 ==> IsNew(c.(onWriteComplete := false, onHighWater := false, mark := 0)))
  }

  ghost predicate Inv(m: Machine) {
    && ConnInv(m.c)
    && (m.c.h.ups == 0 ==> m.todo == [] && m.posting == multiset{} && m.setting == 0)
  }

  lemma MaskFacts()
    ensures !Has(NONE_EVENT, WRITE_EVENT) && !Has(READ_EVENT, WRITE_EVENT) && Has(READ_EVENT | WRITE_EVENT, WRITE_EVENT)
    ensures READ_EVENT | WRITE_EVENT != NONE_EVENT && READ_EVENT != NONE_EVENT
    ensures (READ_EVENT | WRITE_EVENT) & !WRITE_EVENT == READ_EVENT
    ensures NONE_EVENT | READ_EVENT == READ_EVENT
    ensures Has(READ_EVENT, READ_EVENT) && Has(READ_EVENT | WRITE_EVENT, READ_EVENT)
  {
  }

  lemma WritingFacts(events: Mask)
    ensures Has(events | WRITE_EVENT, WRITE_EVENT)
    ensures !Has(events & !WRITE_EVENT, WRITE_EVENT)
  {
  }

  lemma BufferedKeeps(c: Conn, rest: seq<char>)
    requires ConnInv(c) && c.h.ups > 0 && rest != []
    ensures ConnInv(Buffered(c, rest))
  {
  }

  lemma SendInLoopKeeps(c: Conn, data: seq<char>, r: IoResult)
    requires ConnInv(c) && c.h.ups > 0 && Fits(r, |data|)
    ensures ConnInv(SendInLoop(c, data, r))
  {
    if Direct(c) && r.Wrote? {
      var sent := Emit(c, SendBytes(data[..r.n]));
      if r.n < |data| {
        BufferedKeeps(sent, data[r.n..]);
      }
    } else if data != [] {
      BufferedKeeps(c, data);
    }
  }

  lemma DrainedFields(c: Conn)
    ensures var d := Drained(c);
            d.link == DisableWriting(c.link) && d.out == c.out && d.state == c.state &&
            d.h.ups == c.h.ups && d.h.closed == c.h.closed && d.h.destroyed == c.h.destroyed
  {
  }

  /** The drained connection, before its buffer is taken note of: write interest still on. */
  lemma DrainedKeeps(c: Conn)
    requires c.out == [] && Coherent(c.link) && c.h.ups == 1 && c.state != Connecting
    requires Live(c) ==> c.link.index == Added && c.link.events == READ_EVENT | WRITE_EVENT
    requires c.state == Connected ==> Live(c)
    ensures ConnInv(Drained(c))
  {
    var quiet := c.(link := DisableWriting(c.link));
    QuietKeeps(c);
    DrainedFields(c);
    SameFieldsKeep(quiet, Drained(c));
  }

  lemma QuietKeeps(c: Conn)
    requires c.out == [] && Coherent(c.link) && c.h.ups == 1 && c.state != Connecting
    requires Live(c) ==> c.link.index == Added && c.link.events == READ_EVENT | WRITE_EVENT
    requires c.state == Connected ==> Live(c)
    ensures ConnInv(c.(link := DisableWriting(c.link)))
  {
    MaskFacts();
    WithEventsCoherent(c.link, c.link.events & !WRITE_EVENT);
  }

  /** What the invariant speaks of once the connection has come up. */
  lemma SameFieldsKeep(c: Conn, d: Conn)
    requires ConnInv(c) && c.h.ups == 1 && d.link == c.link && d.out == c.out && d.state == c.state
    requires d.h.ups == c.h.ups && d.h.closed == c.h.closed && d.h.destroyed == c.h.destroyed
    ensures ConnInv(d)
  {
  }

  lemma HandleWriteKeeps(c: Conn, r: IoResult)
    requires ConnInv(c) && c.h.ups > 0 && Fits(r, |c.out|)
    ensures ConnInv(HandleWrite(c, r))
  {
    if IsWriting(c.link) && r.Wrote? && r.n > 0 {
      var sent := Emit(c, SendBytes(c.out[..r.n])).(out := c.out[r.n..]);
      if sent.out == [] {
        DrainedKeeps(sent);
      }
    }
  }

  lemma HandleCloseKeeps(c: Conn)
    requires ConnInv(c) && c.h.ups > 0
    ensures ConnInv(HandleClose(c))
  {
  }

  lemma EstablishKeeps(c: Conn)
    requires ConnInv(c) && c.h.ups == 0
    ensures ConnInv(ConnectEstablished(c))
  {
  }

  lemma DestroyKeeps(c: Conn)
    requires ConnInv(c) && c.h.ups > 0
    ensures ConnInv(ConnectDestroyed(c))
  {
  }

  lemma SendFileInLoopKeeps(c: Conn, req: nat, offset: int, count: nat, r: IoResult)
    requires ConnInv(c) && c.h.ups > 0 && Fits(r, count)
    ensures ConnInv(SendFileInLoop(c, req, offset, count, r))
  {
  }

  lemma HandlerKeeps(c: Conn, h: Handler, read: ReadResult, io: IoResult)
    requires ConnInv(c) && c.h.ups > 0 && Fits(io, |c.out|)
    ensures ConnInv(RunHandler(c, h, read, io))
  {
    HandleCloseKeeps(c);
    HandleWriteKeeps(c, io);
  }

  lemma TaskKeeps(c: Conn, t: Task, io: IoResult)
    requires ConnInv(c) && c.h.ups > 0 && Fits(io, Asked(t))
    ensures ConnInv(RunHead(c, t, io))
  {
    match t
    case RunSend(payload) => SendInLoopKeeps(c, payload, io);
    case RunSendFile(req, offset, count) => SendFileInLoopKeeps(c, req, offset, count, io);
    case _ =>
  }

  lemma UserKeeps(m: Machine, step: Step)
    requires Inv(m) && Enabled(m, step) && (step.UserSend? || step.UserSendFile?)
    ensures Inv(Apply(m, step))
  {
    if m.c.state == Connected {
      match step
      case UserSend(data, io) => SendInLoopKeeps(m.c, data, io);
      case UserSendFile(offset, count, io) =>
        SendFileInLoopKeeps(Request(m.c, offset, count), |m.c.h.requests|, offset, count, io);
    }
  }

  lemma ConnectKeeps(m: Machine, step: Step)
    requires Inv(m) && Enabled(m, step) && (step.Establish? || step.Destroy?)
    ensures Inv(Apply(m, step))
  {
    match step
    case Establish => EstablishKeeps(m.c);
    case Destroy(_) => DestroyKeeps(m.c);
  }

  lemma DispatchKeeps(m: Machine, read: ReadResult, io: IoResult)
    requires Inv(m) && Enabled(m, Handle(read, io))
    ensures Inv(Apply(m, Handle(read, io)))
  {
    HandlerKeeps(m.c, m.todo[0], read, io);
  }

  lemma RunTaskKeeps(m: Machine, io: IoResult)
    requires Inv(m) && Enabled(m, RunTask(io))
    ensures Inv(Apply(m, RunTask(io)))
  {
    TaskKeeps(Popped(m.c), m.c.tasks[0], io);
  }

  lemma StepKeeps(m: Machine, step: Step)
    requires Inv(m) && Enabled(m, step)
    ensures Inv(Apply(m, step))
  {
    match step
    case UserSend(_, _) => UserKeeps(m, step);
    case UserSendFile(_, _, _) => UserKeeps(m, step);
    case Establish => ConnectKeeps(m, step);
    case Destroy(_) => ConnectKeeps(m, step);
    case Handle(read, io) => DispatchKeeps(m, read, io);
    case RunTask(io) => RunTaskKeeps(m, io);
    case _ =>
  }

  lemma InitialKeeps(m: Machine)
    requires Initial(m)
    ensures Inv(m)
  {
  }

  lemma KeepsAt(ms: seq<Machine>, steps: seq<Step>, k: nat)
    requires IsRun(ms, steps) && k < |steps| && Inv(ms[k])
    ensures Inv(ms[k + 1])
  {
    StepKeeps(ms[k], steps[k]);
  }

  lemma {:induction false} RunKeeps(ms: seq<Machine>, steps: seq<Step>, k: nat)
    requires IsRun(ms, steps) && k <= |steps|
    ensures Inv(ms[k])
  {
    if k == 0 {
      InitialKeeps(ms[0]);
    } else {
      RunKeeps(ms, steps, k - 1);
      KeepsAt(ms, steps, k - 1);
    }
  }

  // ---- Nothing is stranded, and nothing wakes the loop for nothing

  /** In every reachable live state: bytes are waiting exactly when write interest is on, exactly when the
      kernel watches the descriptor for writability; and the kernel watches with the channel's own mask, in
      which read interest is always on. */
  lemma {:induction false} NeverStranded(ms: seq<Machine>, steps: seq<Step>, k: nat)
    requires IsRun(ms, steps) && k <= |steps|
    ensures var c := ms[k].c;
            Live(c) ==>
              && c.link.index == Added && c.link.registered
              && c.link.kernel == Some(c.link.events)
              && (c.out != [] <==> IsWriting(c.link))
              && (c.out != [] <==> Has(c.link.kernel.value, EPOLLOUT))
              && IsReading(c.link)
  {
    RunKeeps(ms, steps, k);
    MaskFacts();
  }

  // ---- Every accepted byte is on the wire or in the buffer, in order

  /** The bytes of sends among the events of a wire, in order. */
  ghost function SentBytes(wire: seq<WireEvent>): seq<char> {
    if wire == [] then []
    else SentBytes(wire[..|wire| - 1]) + (match wire[|wire| - 1] case SendByte(b) => [b] case _ => [])
  }

  lemma {:induction false} SentBytesSplit(a: seq<WireEvent>, b: seq<WireEvent>)
    ensures SentBytes(a + b) == SentBytes(a) + SentBytes(b)
  {
    if b == [] {
      assert a + b == a;
    } else {
      SentBytesSplit(a, b[..|b| - 1]);
      assert (a + b)[..|a + b| - 1] == a + b[..|b| - 1];
    }
  }

  lemma {:induction false} SentBytesOfSend(data: seq<char>)
    ensures SentBytes(SendBytes(data)) == data
  {
    if data != [] {
      var init := data[..|data| - 1];
      SentBytesOfSend(init);
      assert SendBytes(data)[..|data| - 1] == SendBytes(init);
    }
  }

  lemma {:induction false} SentBytesOfOthers(events: seq<WireEvent>)
    requires forall e | e in events :: !e.SendByte?
    ensures SentBytes(events) == []
  {
    if events != [] {
      SentBytesOfOthers(events[..|events| - 1]);
    }
  }

  /** All a connection has been given to send and has not dropped. */
  ghost function Holding(c: Conn): seq<char> {
    SentBytes(c.h.wire) + c.out
  }

  lemma EmitSend(c: Conn, data: seq<char>)
    ensures Holding(Emit(c, SendBytes(data))) == SentBytes(c.h.wire) + data + c.out
  {
    SentBytesSplit(c.h.wire, SendBytes(data));
    SentBytesOfSend(data);
  }

  lemma EmitOther(c: Conn, events: seq<WireEvent>)
    requires forall e | e in events :: !e.SendByte?
    ensures Holding(Emit(c, events)) == Holding(c)
  {
    SentBytesSplit(c.h.wire, events);
    SentBytesOfOthers(events);
  }

  lemma BufferedHolds(c: Conn, rest: seq<char>)
    ensures Holding(BufferedIfAny(c, rest)) == Holding(c) + rest
    ensures rest != [] ==> Holding(Buffered(c, rest)) == Holding(c) + rest
  {
  }

  /** A direct write of the first n bytes, with the rest kept. */
  lemma DirectHolds(c: Conn, data: seq<char>, n: nat)
    requires n <= |data| && c.out == []
    ensures Holding(BufferedIfAny(Emit(c, SendBytes(data[..n])), data[n..])) == Holding(c) + data
  {
    EmitSend(c, data[..n]);
    BufferedHolds(Emit(c, SendBytes(data[..n])), data[n..]);
    assert Holding(c) + data[..n] + data[n..] == Holding(c) + (data[..n] + data[n..]);
    assert data[..n] + data[n..] == data;
  }

  lemma SendInLoopHolds(c: Conn, data: seq<char>, r: IoResult)
    requires Fits(r, |data|)
    ensures var dropped := Direct(c) && IsFault(r);
            Holding(SendInLoop(c, data, r)) == Holding(c) + (if dropped then [] else data)
  {
    if Direct(c) && r.Wrote? {
      DirectHolds(c, data, r.n);
    } else {
      BufferedHolds(c, data);
    }
  }

  lemma HandleWriteHolds(c: Conn, r: IoResult)
    requires Fits(r, |c.out|)
    ensures Holding(HandleWrite(c, r)) == Holding(c)
  {
    if IsWriting(c.link) && r.Wrote? && r.n > 0 {
      var sent := Emit(c, SendBytes(c.out[..r.n])).(out := c.out[r.n..]);
      SentBytesSplit(c.h.wire, SendBytes(c.out[..r.n]));
      SentBytesOfSend(c.out[..r.n]);
      assert SentBytes(c.h.wire) + c.out[..r.n] + c.out[r.n..] == Holding(c);
      if sent.out == [] {
        var quiet := QueueWriteComplete(sent.(link := DisableWriting(sent.link)));
        EmitOther(quiet, [Fin]);
      }
    }
  }

  lemma SendFileInLoopHolds(c: Conn, req: nat, offset: int, count: nat, r: IoResult)
    requires Fits(r, count)
    ensures Holding(SendFileInLoop(c, req, offset, count, r)) == Holding(c)
  {
    if r.Wrote? {
      EmitOther(c, FileBytes(req, offset, r.n));
    }
  }

  lemma HandlerHolds(c: Conn, h: Handler, read: ReadResult, io: IoResult)
    requires Fits(io, |c.out|)
    ensures Holding(RunHandler(c, h, read, io)) == Holding(c)
  {
    HandleWriteHolds(c, io);
  }

  /** One step adds to what is held exactly the payload it accepts. */
  lemma StepHolds(m: Machine, step: Step)
    requires Enabled(m, step)
    ensures Holding(Apply(m, step).c) == Holding(m.c) + AcceptedBy(m, step)
  {
    match step
    case UserSend(data, io) => SendInLoopHolds(m.c, data, io);
    case UserSendFile(offset, count, io) =>
      SendFileInLoopHolds(Request(m.c, offset, count), |m.c.h.requests|, offset, count, io);
    case UserShutdown => EmitOther(m.c.(state := Disconnecting), [Fin]);
    case Handle(read, io) => HandlerHolds(m.c, m.todo[0], read, io);
    case RunTask(io) =>
      var c, t := Popped(m.c), m.c.tasks[0];
      match t {
        case RunSend(payload) => SendInLoopHolds(c, payload, io);
        case RunShutdown => EmitOther(c, [Fin]);
        case RunSendFile(req, offset, count) => SendFileInLoopHolds(c, req, offset, count, io);
        case Notify(_) =>
      }
    case _ =>
  }

  /** Over every run, with any partial writes and errors and with calls from any thread: the sends' bytes on
      the wire followed by the output buffer are the payloads of the sends that did not end in a fault,
      whole and in the order in which they were executed. */
  lemma {:induction false} NothingLostOrReordered(ms: seq<Machine>, steps: seq<Step>, k: nat)
    requires IsRun(ms, steps) && k <= |steps|
    ensures SentBytes(ms[k].c.h.wire) + ms[k].c.out == Accepted(ms, steps, k)
  {
    if k > 0 {
      NothingLostOrReordered(ms, steps, k - 1);
      StepHolds(ms[k - 1], steps[k - 1]);
    }
  }

  /** A send that ends in a fault leaves wire, buffer, mask and queue as they were: it drops its whole payload
      and nothing else. */
  lemma FaultDropsWholePayload(m: Machine, step: Step)
    requires Enabled(m, step) && Faults(m, ExecutedSend(m, step))
    ensures Apply(m, step).c == if step.RunTask? then Popped(m.c) else m.c
  {
  }

  // ---- What the kernel's answer to a send means

  /** The connection as a step's send finds it: its own task is off the queue. */
  function Found(m: Machine, step: Step): Conn
    requires Enabled(m, step)
  {
    if step.RunTask? then Popped(m.c) else m.c
  }

  /** A send with nothing waiting before it goes to the socket, and by the answer: a broken pipe or a reset drops it
      and changes nothing; with any other error it all waits; and what is taken is on the wire while the rest waits. */
  lemma DirectSendByAnswer(m: Machine, step: Step)
    requires Enabled(m, step) && ExecutedSend(m, step).Payload?
    requires m.c.out == [] && !IsWriting(m.c.link)
    ensures var data, c, d := ExecutedSend(m, step).data, Found(m, step), Apply(m, step).c;
            match ExecutedSend(m, step).io
            case Failed(BrokenPipe) => d == c
            case Failed(ConnectionReset) => d == c
            case Failed(_) => d.h.wire == c.h.wire && d.out == data && (IsWriting(d.link) <==> data != [])
            case Wrote(n) =>
              && d.h.wire == c.h.wire + SendBytes(data[..n])
              && d.out == data[n..] && (IsWriting(d.link) <==> n < |data|)
  {
    var e, c := ExecutedSend(m, step), Found(m, step);
    SendByAnswer(c, e.data, e.io);
  }

  lemma SendByAnswer(c: Conn, data: seq<char>, r: IoResult)
    requires Fits(r, |data|) && c.out == [] && !IsWriting(c.link)
    ensures var d := SendInLoop(c, data, r);
            match r
            case Failed(BrokenPipe) => d == c
            case Failed(ConnectionReset) => d == c
            case Failed(_) => d.h.wire == c.h.wire && d.out == data && (IsWriting(d.link) <==> data != [])
            case Wrote(n) =>
              && d.h.wire == c.h.wire + SendBytes(data[..n])
              && d.out == data[n..] && (IsWriting(d.link) <==> n < |data|)
  {
    match r
    case Wrote(n) =>
      if n < |data| {
        BufferedFields(Emit(c, SendBytes(data[..n])), data[n..]);
      }
    case Failed(_) =>
      if data != [] {
        BufferedFields(c, data);
      }
  }

  lemma BufferedFields(c: Conn, rest: seq<char>)
    ensures var d := Buffered(c, rest);
            d.h.wire == c.h.wire && d.out == c.out + rest && IsWriting(d.link) && d.h.requests == c.h.requests
  {
    WritingFacts(c.link.events);
  }

  /** A send behind waiting bytes does not touch the socket: it all waits, whatever the answer would have been. */
  lemma WaitingSend(m: Machine, step: Step)
    requires Enabled(m, step) && ExecutedSend(m, step).Payload? && (m.c.out != [] || IsWriting(m.c.link))
    ensures var data, c, d := ExecutedSend(m, step).data, Found(m, step), Apply(m, step).c;
            d.h.wire == c.h.wire && d.out == c.out + data && (data != [] ==> IsWriting(d.link))
  {
    var data, c := ExecutedSend(m, step).data, Found(m, step);
    assert Apply(m, step).c == SendInLoop(c, data, ExecutedSend(m, step).io) == BufferedIfAny(c, data);
    if data != [] {
      BufferedFields(c, data);
    }
  }

  // ---- Every callback of an event is run

  /** The callback that a step runs. */
  function HandledBy(m: Machine, step: Step): seq<Handler> {
    if step.Handle? && m.todo != [] then [m.todo[0]] else []
  }

  /** The callbacks that steps a to b run, in order. */
  ghost function Handled(ms: seq<Machine>, steps: seq<Step>, a: nat, b: nat): seq<Handler>
    requires b <= |steps| <= |ms|
  {
    if b <= a then [] else Handled(ms, steps, a, b - 1) + HandledBy(ms[b - 1], steps[b - 1])
  }

  predicate NoPoll(steps: seq<Step>, a: nat, b: nat)
    requires b <= |steps|
  {
    a < b ==> NoPoll(steps, a, b - 1) && !steps[b - 1].Poll?
  }

  lemma StepTodo(m: Machine, step: Step)
    requires Enabled(m, step) && !step.Poll?
    ensures HandledBy(m, step) + Apply(m, step).todo == m.todo
  {
  }

  lemma TodoAt(ms: seq<Machine>, steps: seq<Step>, k: nat)
    requires IsRun(ms, steps) && k < |steps|
    ensures if steps[k].Poll? then ms[k + 1].todo == Handlers(steps[k].revents)
            else HandledBy(ms[k], steps[k]) + ms[k + 1].todo == ms[k].todo
  {
    if !steps[k].Poll? {
      StepTodo(ms[k], steps[k]);
    }
  }

  lemma Rejoin<T>(ran: seq<T>, todo: seq<T>, more: seq<T>, left: seq<T>)
    requires more + left == todo
    ensures ran + todo == ran + more + left
  {
  }

  lemma {:induction false} HandledSoFar(ms: seq<Machine>, steps: seq<Step>, j: nat, k: nat)
    requires IsRun(ms, steps) && j < k <= |steps| && steps[j].Poll? && NoPoll(steps, j + 1, k)
    ensures Handled(ms, steps, j + 1, k) + ms[k].todo == Handlers(steps[j].revents)
  {
    TodoAt(ms, steps, k - 1);
    if k > j + 1 {
      HandledSoFar(ms, steps, j, k - 1);
      Rejoin(Handled(ms, steps, j + 1, k - 1), ms[k - 1].todo, HandledBy(ms[k - 1], steps[k - 1]), ms[k].todo);
    } else {
      assert [] + ms[k].todo == ms[k].todo;
    }
  }

  /** In every run, before the loop polls again it has run exactly the callbacks that the last reported events call
      for, in order; a reported EPOLLOUT, whatever comes with it, has had the write callback run. */
  lemma EveryCallbackRuns(ms: seq<Machine>, steps: seq<Step>, j: nat, k: nat)
    requires IsRun(ms, steps) && j < k < |steps| && steps[j].Poll? && NoPoll(steps, j + 1, k) && steps[k].Poll?
    ensures Handled(ms, steps, j + 1, k) == Handlers(steps[j].revents)
    ensures Has(steps[j].revents, EPOLLOUT) ==> OnWrite in Handled(ms, steps, j + 1, k)
  {
    HandledSoFar(ms, steps, j, k);
    HandlersExact(steps[j].revents);
  }

  // ---- Input

  /** The bytes a step reads from the socket. */
  function ReadBy(m: Machine, step: Step): seq<char> {
    if step.Handle? && m.todo != [] && m.todo[0] == OnRead && step.read.Received? then step.read.bytes else []
  }

  /** The bytes a step's user takes from the input buffer. */
  function ConsumedBy(m: Machine, step: Step): seq<char> {
    if !step.UserConsume? then [] else if step.len < |m.c.input| then m.c.input[..step.len] else m.c.input
  }

  ghost function ReadSoFar(ms: seq<Machine>, steps: seq<Step>, k: nat): seq<char>
    requires k <= |steps| <= |ms|
  {
    if k == 0 then [] else ReadSoFar(ms, steps, k - 1) + ReadBy(ms[k - 1], steps[k - 1])
  }

  ghost function ConsumedSoFar(ms: seq<Machine>, steps: seq<Step>, k: nat): seq<char>
    requires k <= |steps| <= |ms|
  {
    if k == 0 then [] else ConsumedSoFar(ms, steps, k - 1) + ConsumedBy(ms[k - 1], steps[k - 1])
  }

  lemma SendKeepsInput(c: Conn, data: seq<char>, r: IoResult)
    requires Fits(r, |data|)
    ensures SendInLoop(c, data, r).input == c.input
  {
  }

  lemma WriteKeepsInput(c: Conn, r: IoResult)
    requires Fits(r, |c.out|)
    ensures HandleWrite(c, r).input == c.input
  {
  }

  lemma StepInput(m: Machine, step: Step)
    requires Enabled(m, step)
    ensures ConsumedBy(m, step) + Apply(m, step).c.input == m.c.input + ReadBy(m, step)
  {
    match step
    case UserSend(data, io) => SendKeepsInput(m.c, data, io);
    case Handle(read, io) => WriteKeepsInput(m.c, io);
    case RunTask(io) =>
      if m.c.tasks[0].RunSend? {
        SendKeepsInput(Popped(m.c), m.c.tasks[0].payload, io);
      }
    case _ =>
  }

  /** Over every run the user receives what was read from the socket, in order: the bytes consumed followed by
      the input buffer are the bytes read. */
  lemma {:induction false} InputInOrder(ms: seq<Machine>, steps: seq<Step>, k: nat)
    requires IsRun(ms, steps) && k <= |steps|
    ensures ConsumedSoFar(ms, steps, k) + ms[k].c.input == ReadSoFar(ms, steps, k)
  {
    if k > 0 {
      InputInOrder(ms, steps, k - 1);
      var m, step := ms[k - 1], steps[k - 1];
      StepInput(m, step);
      Regroup(ConsumedSoFar(ms, steps, k - 1), ConsumedBy(m, step), ms[k].c.input, m.c.input, ReadBy(m, step));
    }
  }

  lemma Regroup(taken: seq<char>, more: seq<char>, left: seq<char>, before: seq<char>, put: seq<char>)
    requires more + left == before + put
    ensures taken + more + left == taken + before + put
  {
    assert taken + more + left == taken + (more + left);
  }
}
