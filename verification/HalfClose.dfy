/** The half-close: when the end of the write side goes out, and what can never follow it. */
module HalfClose {
  import opened SystemCalls
  import opened Links
  import opened Dispatch
  import opened ConnectionSpec
  import opened ConnectionMachine
  import opened ConnectionInvariants

  /** No shutdown is on its way from another thread. */
  ghost predicate NoForeignShutdown(m: Machine) {
    && m.setting == 0
    && (forall t | t in m.posting :: !t.RunShutdown?)
    && NoneQueued(m.c)
  }

  ghost predicate NoneQueued(c: Conn) {
    forall t | t in c.tasks :: !t.RunShutdown?
  }

  ghost predicate EndsInFin(wire: seq<WireEvent>) {
    wire != [] && wire[|wire| - 1] == Fin && Fin !in wire[..|wire| - 1]
  }

  /** The write side is shut exactly when a shutdown has been accepted and nothing is waiting to be written;
      once it is shut the end is the last thing on the wire and the buffer stays empty. */
  ghost predicate FinInv(c: Conn) {
    && (c.state == Connecting || c.state == Connected ==> !Finished(c))
    && (c.state == Disconnecting ==> (Finished(c) <==> !IsWriting(c.link)))
    && (Finished(c) ==> c.out == [] && !IsWriting(c.link) && EndsInFin(c.h.wire))
  }

  lemma SendInLoopFin(c: Conn, data: seq<char>, r: IoResult)
    requires FinInv(c) && Answers(c, |data|, r)
    ensures FinInv(SendInLoop(c, data, r))
    ensures Finished(c) ==> SendInLoop(c, data, r) == c
  {
  }

  lemma HandleWriteFin(c: Conn, r: IoResult)
    requires FinInv(c) && Answers(c, |c.out|, r)
    ensures FinInv(HandleWrite(c, r))
    ensures Finished(c) ==> HandleWrite(c, r) == c
  {
  }

  lemma CloseFin(c: Conn)
    requires FinInv(c)
    ensures FinInv(HandleClose(c)) && FinInv(ConnectDestroyed(c))
    ensures HandleClose(c).h.wire == c.h.wire && ConnectDestroyed(c).h.wire == c.h.wire
  {
  }

  lemma SendFileInLoopFin(c: Conn, req: nat, offset: int, count: nat, r: IoResult)
    requires FinInv(c) && Answers(c, count, r)
    ensures FinInv(SendFileInLoop(c, req, offset, count, r))
    ensures Finished(c) ==> SendFileInLoop(c, req, offset, count, r).h.wire == c.h.wire
  {
  }

  lemma UserShutdownFin(c: Conn)
    requires ConnInv(c) && FinInv(c)
    ensures FinInv(Shutdown(c))
    ensures Finished(c) ==> Shutdown(c) == c
  {
  }

  lemma HandlerFin(c: Conn, h: Handler, read: ReadResult, io: IoResult)
    requires FinInv(c) && Answers(c, |c.out|, io)
    ensures FinInv(RunHandler(c, h, read, io))
    ensures Finished(c) ==> RunHandler(c, h, read, io).h.wire == c.h.wire
  {
    CloseFin(c);
    HandleWriteFin(c, io);
  }

  lemma TaskFin(c: Conn, t: Task, io: IoResult)
    requires FinInv(c) && Answers(c, Asked(t), io) && !t.RunShutdown?
    ensures FinInv(RunHead(c, t, io))
    ensures Finished(c) ==> RunHead(c, t, io).h.wire == c.h.wire
  {
    match t
    case RunSend(payload) => SendInLoopFin(c, payload, io);
    case RunSendFile(req, offset, count) => SendFileInLoopFin(c, req, offset, count, io);
    case _ =>
  }

  lemma StepFin(m: Machine, step: Step)
    requires Inv(m) && FinInv(m.c) && NoForeignShutdown(m) && Enabled(m, step)
    ensures FinInv(Apply(m, step).c)
    ensures Finished(m.c) ==> Apply(m, step).c.h.wire == m.c.h.wire
  {
    match step
    case UserSend(data, io) => SendInLoopFin(m.c, data, io);
    case UserSendFile(offset, count, io) =>
      SendFileInLoopFin(Request(m.c, offset, count), |m.c.h.requests|, offset, count, io);
    case UserShutdown => UserShutdownFin(m.c);
    case Destroy(_) => CloseFin(m.c);
    case Handle(read, io) => HandlerFin(m.c, m.todo[0], read, io);
    case RunTask(io) => TaskFin(Popped(m.c), m.c.tasks[0], io);
    case _ =>
  }

  lemma SendInLoopTasks(c: Conn, data: seq<char>, r: IoResult)
    requires Fits(r, |data|)
    ensures var t := SendInLoop(c, data, r).tasks; t == c.tasks || exists n :: t == c.tasks + [Notify(n)]
  {
  }

  lemma HandleWriteTasks(c: Conn, r: IoResult)
    requires Fits(r, |c.out|)
    ensures var t := HandleWrite(c, r).tasks; t == c.tasks || exists n :: t == c.tasks + [Notify(n)]
  {
  }

  lemma HandlerNoneQueued(c: Conn, h: Handler, read: ReadResult, io: IoResult)
    requires NoneQueued(c) && Fits(io, |c.out|)
    ensures NoneQueued(RunHandler(c, h, read, io))
  {
  }

  lemma TaskNoneQueued(c: Conn, t: Task, io: IoResult)
    requires NoneQueued(c) && Fits(io, Asked(t))
    ensures NoneQueued(RunHead(c, t, io))
  {
  }

  lemma StepNoForeignShutdown(m: Machine, step: Step)
    requires NoForeignShutdown(m) && Enabled(m, step) && !step.ForeignShutdown?
    ensures NoForeignShutdown(Apply(m, step))
  {
    match step
    case UserSend(data, io) => SendInLoopTasks(m.c, data, io);
    case Handle(read, io) => HandlerNoneQueued(m.c, m.todo[0], read, io);
    case RunTask(io) => TaskNoneQueued(Popped(m.c), m.c.tasks[0], io);
    case _ =>
  }

  lemma {:induction false} RunFin(ms: seq<Machine>, steps: seq<Step>, k: nat)
    requires IsRun(ms, steps) && LoopShutdowns(steps) && k <= |steps|
    ensures FinInv(ms[k].c) && NoForeignShutdown(ms[k])
  {
    if k > 0 {
      RunFin(ms, steps, k - 1);
      RunKeeps(ms, steps, k - 1);
      StepFin(ms[k - 1], steps[k - 1]);
      StepNoForeignShutdown(ms[k - 1], steps[k - 1]);
    }
  }

  /** With shutdown called on the loop's thread: once the write side is shut, every accepted byte stands
      before the end, the end is there once and is the last thing on the wire, nothing is left in the buffer,
      and write interest is off. */
  lemma FlushedBeforeFin(ms: seq<Machine>, steps: seq<Step>, k: nat)
    requires IsRun(ms, steps) && LoopShutdowns(steps) && k <= |steps| && Finished(ms[k].c)
    ensures SentBytes(ms[k].c.h.wire) == Accepted(ms, steps, k)
    ensures EndsInFin(ms[k].c.h.wire)
    ensures ms[k].c.out == [] && !IsWriting(ms[k].c.link)
  {
    RunFin(ms, steps, k);
    NothingLostOrReordered(ms, steps, k);
  }

  /** Nothing reaches the wire after the end: neither a byte of a send or file, nor a second end. */
  lemma {:induction false} NothingAfterFin(ms: seq<Machine>, steps: seq<Step>, j: nat, k: nat)
    requires IsRun(ms, steps) && LoopShutdowns(steps) && j <= k <= |steps| && Finished(ms[j].c)
    ensures ms[k].c.h.wire == ms[j].c.h.wire
  {
    if j < k {
      NothingAfterFin(ms, steps, j, k - 1);
      RunFin(ms, steps, k - 1);
      RunKeeps(ms, steps, k - 1);
      StepFin(ms[k - 1], steps[k - 1]);
    }
  }

  ghost predicate AcceptsShutdown(ms: seq<Machine>, steps: seq<Step>, j: nat)
    requires j < |steps| && |ms| == |steps| + 1
  {
    steps[j].UserShutdown? && ms[j].c.state == Connected
  }

  /** A shutdown accepted on the loop's thread takes the state on at once; it shuts the write side at once if
      nothing is waiting, and otherwise leaves wire and buffer alone. */
  lemma ShutdownTakesEffect(ms: seq<Machine>, steps: seq<Step>, k: nat)
    requires IsRun(ms, steps) && k < |steps| && AcceptsShutdown(ms, steps, k)
    ensures var c, d := ms[k].c, ms[k + 1].c;
            && d.state == Disconnecting && Live(d) && d.out == c.out && d.tasks == c.tasks
            && d.h.wire == c.h.wire + (if c.out == [] then [Fin] else [])
  {
    RunKeeps(ms, steps, k);
    MaskFacts();
  }

  /** Neither shut nor on the way to it. */
  ghost predicate Open(c: Conn) {
    !Finished(c) && c.state != Disconnecting
  }

  lemma FinNeedsDisconnecting(m: Machine, step: Step)
    requires NoForeignShutdown(m) && Enabled(m, step) && Open(m.c)
    requires !(step.UserShutdown? && m.c.state == Connected)
    ensures Open(Apply(m, step).c)
  {
    match step
    case UserSend(data, io) => SendInLoopStaysOpen(m.c, data, io);
    case UserSendFile(offset, count, io) =>
      SendFileStaysOpen(Request(m.c, offset, count), |m.c.h.requests|, offset, count, io);
    case Handle(read, io) => HandlerStaysOpen(m.c, m.todo[0], read, io);
    case RunTask(io) => TaskStaysOpen(Popped(m.c), m.c.tasks[0], io);
    case _ =>
  }

  lemma TaskStaysOpen(c: Conn, t: Task, io: IoResult)
    requires Open(c) && Fits(io, Asked(t)) && !t.RunShutdown?
    ensures Open(RunHead(c, t, io))
  {
  }

  lemma SendFileStaysOpen(c: Conn, req: nat, offset: int, count: nat, r: IoResult)
    requires Open(c) && Fits(r, count)
    ensures Open(SendFileInLoop(c, req, offset, count, r))
  {
  }

  lemma SendInLoopStaysOpen(c: Conn, data: seq<char>, r: IoResult)
    requires Open(c) && Fits(r, |data|)
    ensures Open(SendInLoop(c, data, r))
  {
  }

  lemma HandlerStaysOpen(c: Conn, h: Handler, read: ReadResult, io: IoResult)
    requires Open(c) && Fits(io, |c.out|)
    ensures Open(RunHandler(c, h, read, io))
  {
  }

  /** The write side is shut only after a shutdown was accepted. */
  lemma {:induction false} FinNeedsShutdown(ms: seq<Machine>, steps: seq<Step>, k: nat)
    requires IsRun(ms, steps) && LoopShutdowns(steps) && k <= |steps|
    ensures Finished(ms[k].c) || ms[k].c.state == Disconnecting ==>
              exists j: nat :: j < k && AcceptsShutdown(ms, steps, j)
  {
    if k > 0 {
      FinNeedsShutdown(ms, steps, k - 1);
      RunFin(ms, steps, k - 1);
      var m, step := ms[k - 1], steps[k - 1];
      if AcceptsShutdown(ms, steps, k - 1) {
      } else if Open(m.c) {
        FinNeedsDisconnecting(m, step);
      }
    }
  }

  /** An accepted shutdown is never forgotten: while the connection is live and disconnecting, its write side
      is shut exactly when its buffer is empty. */
  lemma ShutdownNotForgotten(ms: seq<Machine>, steps: seq<Step>, k: nat)
    requires IsRun(ms, steps) && LoopShutdowns(steps) && k <= |steps|
    requires Live(ms[k].c) && ms[k].c.state == Disconnecting
    ensures Finished(ms[k].c) <==> ms[k].c.out == []
  {
    RunFin(ms, steps, k);
    NeverStranded(ms, steps, k);
  }
}
