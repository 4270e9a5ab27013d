/** The connection's life: its state only moves forward, it comes up once and goes down at most once, and a
    dead connection's descriptor stays out of the kernel's set; and exactly what breaks each of these. */
module Lifecycle {
  import opened SystemCalls
  import opened Links
  import opened Dispatch
  import opened ConnectionSpec
  import opened ConnectionMachine
  import opened ConnectionInvariants
  import HalfClose

  function Rank(s: State): nat {
    match s
    case Connecting => 0
    case Connected => 1
    case Disconnecting => 2
    case Disconnected => 3
  }

  lemma HandlerRank(c: Conn, h: Handler, read: ReadResult, io: IoResult)
    requires Fits(io, |c.out|)
    ensures var d := RunHandler(c, h, read, io); d.state == c.state || d.state == Disconnected
  {
  }

  lemma TaskRank(c: Conn, t: Task, io: IoResult)
    requires Fits(io, Asked(t))
    ensures RunHead(c, t, io).state == c.state
  {
  }

  /** The state moves back exactly when a shutdown from another thread, having found it Connected earlier, sets
      it after the connection has gone down. */
  lemma StateBackIff(m: Machine, step: Step)
    requires Inv(m) && Enabled(m, step)
    ensures Rank(Apply(m, step).c.state) < Rank(m.c.state) <==> step.ForeignSetState? && m.c.state == Disconnected
  {
    match step
    case Handle(read, io) => HandlerRank(m.c, m.todo[0], read, io);
    case RunTask(io) => TaskRank(Popped(m.c), m.c.tasks[0], io);
    case _ =>
  }

  /** With shutdown called on the loop's thread the state only moves forward. */
  lemma {:induction false} StateForward(ms: seq<Machine>, steps: seq<Step>, j: nat, k: nat)
    requires IsRun(ms, steps) && LoopShutdowns(steps) && j <= k <= |steps|
    ensures Rank(ms[j].c.state) <= Rank(ms[k].c.state)
  {
    if j < k {
      StateForward(ms, steps, j, k - 1);
      RunKeeps(ms, steps, k - 1);
      HalfClose.RunFin(ms, steps, k - 1);
      StateBackIff(ms[k - 1], steps[k - 1]);
    }
  }

  /** Closed means Disconnected, and Disconnected means closed or destroyed. */
  ghost predicate ClosedInv(c: Conn) {
    && (c.h.closed ==> c.state == Disconnected)
    && (c.state == Disconnected ==> c.h.closed || c.h.destroyed)
  }

  lemma HandlerClosed(c: Conn, h: Handler, read: ReadResult, io: IoResult)
    requires ClosedInv(c) && Fits(io, |c.out|)
    ensures ClosedInv(RunHandler(c, h, read, io))
  {
  }

  lemma TaskClosed(c: Conn, t: Task, io: IoResult)
    requires ClosedInv(c) && Fits(io, Asked(t))
    ensures ClosedInv(RunHead(c, t, io))
  {
  }

  lemma StepClosed(m: Machine, step: Step)
    requires Inv(m) && ClosedInv(m.c) && Enabled(m, step) && !step.ForeignSetState?
    ensures ClosedInv(Apply(m, step).c)
  {
    match step
    case UserSend(data, io) => TaskClosed(m.c, RunSend(data), io);
    case UserSendFile(offset, count, io) =>
      TaskClosed(Request(m.c, offset, count), RunSendFile(|m.c.h.requests|, offset, count), io);
    case Handle(read, io) => HandlerClosed(m.c, m.todo[0], read, io);
    case RunTask(io) => TaskClosed(Popped(m.c), m.c.tasks[0], io);
    case _ =>
  }

  lemma {:induction false} RunClosed(ms: seq<Machine>, steps: seq<Step>, k: nat)
    requires IsRun(ms, steps) && LoopShutdowns(steps) && k <= |steps|
    ensures ClosedInv(ms[k].c)
  {
    if k > 0 {
      RunClosed(ms, steps, k - 1);
      RunKeeps(ms, steps, k - 1);
      HalfClose.RunFin(ms, steps, k - 1);
      StepClosed(ms[k - 1], steps[k - 1]);
    }
  }

  /** With shutdown called on the loop's thread the state alone tells whether a connection that has not been
      destroyed is live, so what holds of live connections holds in Connected and in Disconnecting. */
  lemma LiveByState(ms: seq<Machine>, steps: seq<Step>, k: nat)
    requires IsRun(ms, steps) && LoopShutdowns(steps) && k <= |steps| && !ms[k].c.h.destroyed
    ensures Live(ms[k].c) <==> ms[k].c.state == Connected || ms[k].c.state == Disconnecting
  {
    RunClosed(ms, steps, k);
    RunKeeps(ms, steps, k);
  }

  /** In every run, whoever calls, Disconnected means closed or destroyed. */
  ghost predicate DisconnectedInv(c: Conn) {
    c.state == Disconnected ==> c.h.closed || c.h.destroyed
  }

  lemma HandlerDisconnected(c: Conn, h: Handler, read: ReadResult, io: IoResult)
    requires DisconnectedInv(c) && Fits(io, |c.out|)
    ensures DisconnectedInv(RunHandler(c, h, read, io))
  {
  }

  lemma StepDisconnected(m: Machine, step: Step)
    requires DisconnectedInv(m.c) && Enabled(m, step)
    ensures DisconnectedInv(Apply(m, step).c)
  {
    match step
    case Handle(read, io) => HandlerDisconnected(m.c, m.todo[0], read, io);
    case RunTask(io) =>
      TaskRank(Popped(m.c), m.c.tasks[0], io);
      TaskDowns(Popped(m.c), m.c.tasks[0], io);
    case _ =>
  }

  lemma {:induction false} RunDisconnected(ms: seq<Machine>, steps: seq<Step>, k: nat)
    requires IsRun(ms, steps) && k <= |steps|
    ensures DisconnectedInv(ms[k].c)
  {
    if k > 0 {
      RunDisconnected(ms, steps, k - 1);
      StepDisconnected(ms[k - 1], steps[k - 1]);
    }
  }

  // ---- One up, one down

  /** What has happened so far is on record: a closed connection has gone down, and one that has gone down is
      closed or destroyed. */
  ghost predicate DownsRecorded(c: Conn) {
    && (c.h.closed ==> c.h.downs > 0)
    && (c.h.downs > 0 ==> c.h.closed || c.h.destroyed)
  }

  /** The close handler runs, by the close callback or by reading the end of the stream. */
  predicate Closes(m: Machine, step: Step) {
    step.Handle? && m.todo != [] && (m.todo[0].OnClose? || ReadsEnd(m, step))
  }

  /** The read callback finds the end of the stream. */
  predicate ReadsEnd(m: Machine, step: Step) {
    step.Handle? && m.todo != [] && m.todo[0].OnRead? && step.read == Received([])
  }

  lemma HandlerDowns(c: Conn, h: Handler, read: ReadResult, io: IoResult)
    requires Fits(io, |c.out|)
    ensures var d, closes := RunHandler(c, h, read, io), h.OnClose? || (h.OnRead? && read == Received([]));
            && d.h.downs == c.h.downs + (if closes then 1 else 0)
            && d.h.closed == (c.h.closed || closes) && d.h.destroyed == c.h.destroyed
  {
  }

  lemma TaskDowns(c: Conn, t: Task, io: IoResult)
    requires Fits(io, Asked(t))
    ensures var d := RunHead(c, t, io);
            d.h.downs == c.h.downs && d.h.closed == c.h.closed && d.h.destroyed == c.h.destroyed
  {
  }

  lemma StepDowns(m: Machine, step: Step)
    requires Enabled(m, step)
    ensures var d, goesDown := Apply(m, step).c, Closes(m, step) || (step.Destroy? && m.c.state == Connected);
            && d.h.downs == m.c.h.downs + (if goesDown then 1 else 0)
            && d.h.closed == (m.c.h.closed || Closes(m, step))
            && d.h.destroyed == (m.c.h.destroyed || step.Destroy?)
  {
    match step
    case UserSend(data, io) => TaskDowns(m.c, RunSend(data), io);
    case UserSendFile(offset, count, io) =>
      TaskDowns(Request(m.c, offset, count), RunSendFile(|m.c.h.requests|, offset, count), io);
    case Handle(read, io) => HandlerDowns(m.c, m.todo[0], read, io);
    case RunTask(io) => TaskDowns(Popped(m.c), m.c.tasks[0], io);
    case _ =>
  }

  lemma {:induction false} RunDowns(ms: seq<Machine>, steps: seq<Step>, k: nat)
    requires IsRun(ms, steps) && k <= |steps|
    ensures DownsRecorded(ms[k].c)
  {
    if k > 0 {
      RunDowns(ms, steps, k - 1);
      StepDowns(ms[k - 1], steps[k - 1]);
    }
  }

  /** In every run, whoever calls: a connection that has gone down goes down once more exactly when its close
      handler runs again. */
  lemma DownAgainIff(ms: seq<Machine>, steps: seq<Step>, k: nat)
    requires IsRun(ms, steps) && k < |steps| && ms[k].c.h.downs > 0
    ensures ms[k + 1].c.h.downs > ms[k].c.h.downs <==> Closes(ms[k], steps[k])
  {
    RunDowns(ms, steps, k);
    RunKeeps(ms, steps, k);
    StepDowns(ms[k], steps[k]);
  }

  /** Coming up, closing and destruction, by what they leave: input, output, wire and queue as they were, and a
      channel that is watched for reading, or no longer watched, or unknown to the poller. */
  lemma LifeSteps(m: Machine, step: Step)
    requires Inv(m) && Enabled(m, step) && (step.Establish? || step.Destroy? || Closes(m, step))
    ensures var c, d := m.c, Apply(m, step).c;
            && d.out == c.out && d.input == c.input && d.tasks == c.tasks && d.h.wire == c.h.wire
            && d.onWriteComplete == c.onWriteComplete && d.onHighWater == c.onHighWater && d.mark == c.mark
            && (step.Establish? ==> d.state == Connected && d.h.ups == 1 && d.link.kernel == Some(READ_EVENT))
            && (Closes(m, step) ==> d.state == Disconnected && d.link.events == NONE_EVENT)
            && (step.Destroy? ==> !d.link.registered && d.link.kernel == None && d.link.index == New)
            && (step.Destroy? && c.state == Connected ==> d.state == Disconnected && d.link.events == NONE_EVENT)
            && (step.Destroy? && c.state != Connected ==> d.state == c.state && d.link.events == c.link.events)
  {
    MaskFacts();
  }

  // ---- With send called on the loop's thread

  /** The event mask last reported before step k. */
  function LastPolled(steps: seq<Step>, k: nat): Mask
    requires k <= |steps|
  {
    if k == 0 then NONE_EVENT else if steps[k - 1].Poll? then steps[k - 1].revents else LastPolled(steps, k - 1)
  }

  /** A hang-up was reported together with urgent data and without EPOLLIN, and its read callback finds the end
      of the stream. */
  ghost predicate EndsAfterHangUp(ms: seq<Machine>, steps: seq<Step>, i: nat)
    requires i < |steps| <= |ms|
  {
    ClosesAndReads(LastPolled(steps, i)) && ReadsEnd(ms[i], steps[i])
  }

  /** None of the first k steps is such an end. */
  ghost predicate NoEndAfterHangUp(ms: seq<Machine>, steps: seq<Step>, k: nat)
    requires k <= |steps| <= |ms|
  {
    k > 0 ==> NoEndAfterHangUp(ms, steps, k - 1) && !EndsAfterHangUp(ms, steps, k - 1)
  }

  lemma {:induction false} NoEndEarlier(ms: seq<Machine>, steps: seq<Step>, j: nat, k: nat)
    requires j <= k <= |steps| <= |ms| && NoEndAfterHangUp(ms, steps, k)
    ensures NoEndAfterHangUp(ms, steps, j)
  {
    if j < k {
      NoEndEarlier(ms, steps, j, k - 1);
    }
  }

  ghost predicate NoForeignSend(m: Machine) {
    && (forall t | t in m.posting :: !t.RunSend?)
    && NoSendQueued(m.c)
  }

  ghost predicate NoSendQueued(c: Conn) {
    forall t | t in c.tasks :: !t.RunSend?
  }

  lemma HandlerNoSendQueued(c: Conn, h: Handler, read: ReadResult, io: IoResult)
    requires NoSendQueued(c) && Fits(io, |c.out|)
    ensures NoSendQueued(RunHandler(c, h, read, io))
  {
  }

  lemma TaskNoSendQueued(c: Conn, t: Task, io: IoResult)
    requires NoSendQueued(c) && Fits(io, Asked(t)) && !t.RunSend?
    ensures NoSendQueued(RunHead(c, t, io))
  {
  }

  lemma UserNoSendQueued(c: Conn, data: seq<char>, io: IoResult)
    requires NoSendQueued(c) && Fits(io, |data|)
    ensures NoSendQueued(Send(c, data, io))
  {
  }

  lemma StepNoForeignSend(m: Machine, step: Step)
    requires NoForeignSend(m) && Enabled(m, step) && !step.ForeignSend?
    ensures NoForeignSend(Apply(m, step))
  {
    match step
    case UserSend(data, io) => UserNoSendQueued(m.c, data, io);
    case Handle(read, io) => HandlerNoSendQueued(m.c, m.todo[0], read, io);
    case RunTask(io) => TaskNoSendQueued(Popped(m.c), m.c.tasks[0], io);
    case _ =>
  }

  /** A connection that has gone down is out of the kernel's set. Of the callbacks left to run, which all belong
      to the mask, only a read callback could close it again, and only behind a hang-up with urgent data. */
  ghost predicate DownInv(c: Conn, todo: seq<Handler>, mask: Mask) {
    && InOrder(todo) && (forall h | h in todo :: Runs(mask, h))
    && (c.h.closed ==> OnClose !in todo && (OnRead in todo ==> ClosesAndReads(mask)) && c.link.events == NONE_EVENT)
    && (ClosesAndReads(mask) && OnRead in todo && OnClose !in todo ==> c.h.closed)
    && (c.h.destroyed ==> todo == [])
    && (c.h.closed || c.h.destroyed ==> c.link.kernel == None)
    && (c.state == Disconnected ==> c.h.closed || c.h.destroyed)
    && c.h.downs <= 1
    && (!c.h.closed && !c.h.destroyed ==> c.h.downs == 0)
  }

  lemma TodoTail(todo: seq<Handler>)
    requires todo != [] && InOrder(todo)
    ensures InOrder(todo[1..]) && todo[0] !in todo[1..]
    ensures forall h | h in todo[1..] :: h in todo
  {
  }

  /** Everything but its output and its queue is as it was, except that a live connection may have changed its
      write interest. */
  ghost predicate SameLife(c: Conn, d: Conn) {
    && d.state == c.state
    && d.h.ups == c.h.ups && d.h.downs == c.h.downs && d.h.closed == c.h.closed && d.h.destroyed == c.h.destroyed
    && (!Live(c) ==> d.link == c.link)
  }

  lemma LiveSend(c: Conn, data: seq<char>, r: IoResult)
    requires Live(c) && Fits(r, |data|)
    ensures SameLife(c, SendInLoop(c, data, r))
  {
  }

  lemma LiveWrite(c: Conn, r: IoResult)
    requires Fits(r, |c.out|) && (c.h.closed ==> c.link.events == NONE_EVENT) && !c.h.destroyed && c.h.ups > 0
    ensures SameLife(c, HandleWrite(c, r))
  {
  }

  lemma FileSameLife(c: Conn, req: nat, offset: int, count: nat, r: IoResult)
    requires Fits(r, count)
    ensures SameLife(c, SendFileInLoop(c, req, offset, count, r))
  {
  }

  lemma CloseDown(c: Conn, todo: seq<Handler>, h: Handler, mask: Mask)
    requires ConnInv(c) && c.h.ups > 0 && !c.h.closed && DownInv(c, [h] + todo, mask) && (h.OnClose? || h.OnRead?)
    ensures DownInv(HandleClose(c), todo, mask)
  {
    TodoTail([h] + todo);
    assert ([h] + todo)[1..] == todo && ([h] + todo)[0] == h;
    if h.OnClose? && OnRead in todo {
      assert Runs(mask, ([h] + todo)[0]);
      BothRun(mask);
    }
  }

  lemma BothRun(mask: Mask)
    requires Runs(mask, OnClose) && Runs(mask, OnRead)
    ensures ClosesAndReads(mask)
  {
  }

  lemma HandlerDown(m: Machine, read: ReadResult, io: IoResult, mask: Mask)
    requires Inv(m) && DownInv(m.c, m.todo, mask) && m.todo != [] && Fits(io, |m.c.out|)
    requires !(ClosesAndReads(mask) && ReadsEnd(m, Handle(read, io)))
    ensures DownInv(RunHandler(m.c, m.todo[0], read, io), m.todo[1..], mask)
  {
    var h, rest := m.todo[0], m.todo[1..];
    assert m.todo == [h] + rest;
    TodoTail(m.todo);
    if h.OnClose? || (h.OnRead? && read == Received([])) {
      CloseDown(m.c, rest, h, mask);
    } else if h.OnWrite? {
      LiveWrite(m.c, io);
    }
  }

  lemma PollDown(m: Machine, revents: Mask, mask: Mask)
    requires Inv(m) && DownInv(m.c, m.todo, mask) && Enabled(m, Poll(revents))
    ensures DownInv(m.c, Handlers(revents), revents)
  {
    forall h ensures h in Handlers(revents) <==> Runs(revents, h) {
      RunsExact(revents, h);
    }
    HandlersExact(revents);
    ClosesAndReadsIff(revents);
  }

  lemma TaskDown(c: Conn, t: Task, io: IoResult, mask: Mask)
    requires DownInv(c, [], mask) && Fits(io, Asked(t)) && !t.RunSend?
    ensures DownInv(RunHead(c, t, io), [], mask)
  {
  }

  lemma StepDown(m: Machine, step: Step, mask: Mask)
    requires Inv(m) && NoForeignSend(m) && DownInv(m.c, m.todo, mask) && Enabled(m, step)
    requires !(ClosesAndReads(mask) && ReadsEnd(m, step))
    ensures DownInv(Apply(m, step).c, Apply(m, step).todo, if step.Poll? then step.revents else mask)
  {
    match step
    case UserSend(data, io) =>
      if m.c.state == Connected {
        LiveSend(m.c, data, io);
      }
    case UserSendFile(offset, count, io) =>
      FileSameLife(Request(m.c, offset, count), |m.c.h.requests|, offset, count, io);
    case Poll(revents) => PollDown(m, revents, mask);
    case Handle(read, io) => HandlerDown(m, read, io, mask);
    case RunTask(io) => TaskDown(Popped(m.c), m.c.tasks[0], io, mask);
    case _ =>
  }

  lemma {:induction false} RunDown(ms: seq<Machine>, steps: seq<Step>, k: nat)
    requires IsRun(ms, steps) && LoopSends(steps) && k <= |steps| && NoEndAfterHangUp(ms, steps, k)
    ensures NoForeignSend(ms[k]) && DownInv(ms[k].c, ms[k].todo, LastPolled(steps, k))
  {
    if k > 0 {
      RunDown(ms, steps, k - 1);
      RunKeeps(ms, steps, k - 1);
      StepNoForeignSend(ms[k - 1], steps[k - 1]);
      StepDown(ms[k - 1], steps[k - 1], LastPolled(steps, k - 1));
    }
  }

  /** Closed or destroyed, and watched by the kernel. */
  ghost predicate DeadButWatched(c: Conn) {
    (c.h.closed || c.h.destroyed) && c.link.kernel.Some?
  }

  /** In none of the machines up to ms[k] does the kernel watch a dead descriptor. */
  ghost predicate DeadStaysOut(ms: seq<Machine>, k: nat)
    requires k < |ms|
  {
    !DeadButWatched(ms[k].c) && (k > 0 ==> DeadStaysOut(ms, k - 1))
  }

  lemma EndTakesDownAgain(m: Machine, step: Step, mask: Mask)
    requires Inv(m) && DownInv(m.c, m.todo, mask) && DownsRecorded(m.c) && Enabled(m, step)
    requires ClosesAndReads(mask) && ReadsEnd(m, step)
    ensures Apply(m, step).c.h.downs == 2 && DeadButWatched(Apply(m, step).c)
  {
    TodoTail(m.todo);
    assert m.todo == [m.todo[0]] + m.todo[1..];
  }

  lemma FirstEnd(ms: seq<Machine>, steps: seq<Step>, k: nat)
    requires IsRun(ms, steps) && LoopSends(steps) && k < |steps|
    requires NoEndAfterHangUp(ms, steps, k) && EndsAfterHangUp(ms, steps, k)
    ensures ms[k + 1].c.h.downs == 2 && DeadButWatched(ms[k + 1].c)
  {
    RunDown(ms, steps, k);
    RunDowns(ms, steps, k);
    RunKeeps(ms, steps, k);
    EndTakesDownAgain(ms[k], steps[k], LastPolled(steps, k));
  }

  /** With send called on the loop's thread: a connection has gone down more than once exactly when, behind a
      hang-up with urgent data and without EPOLLIN, a read callback has found the end of the stream; and that is
      also exactly when the kernel has ever watched its dead descriptor. */
  lemma {:induction false} OneDownIff(ms: seq<Machine>, steps: seq<Step>, k: nat)
    requires IsRun(ms, steps) && LoopSends(steps) && k <= |steps|
    ensures ms[k].c.h.downs <= 1 <==> NoEndAfterHangUp(ms, steps, k)
    ensures DeadStaysOut(ms, k) <==> NoEndAfterHangUp(ms, steps, k)
  {
    if k > 0 {
      OneDownIff(ms, steps, k - 1);
      DownsGrow(ms, steps, k - 1);
      if NoEndAfterHangUp(ms, steps, k) {
        OutWhenDown(ms, steps, k);
      } else if NoEndAfterHangUp(ms, steps, k - 1) {
        FirstEnd(ms, steps, k - 1);
      }
    } else {
      OutWhenDown(ms, steps, 0);
    }
  }

  lemma DownsGrow(ms: seq<Machine>, steps: seq<Step>, k: nat)
    requires IsRun(ms, steps) && k < |steps|
    ensures ms[k].c.h.downs <= ms[k + 1].c.h.downs
  {
    StepDowns(ms[k], steps[k]);
  }

  lemma OutWhenDown(ms: seq<Machine>, steps: seq<Step>, k: nat)
    requires IsRun(ms, steps) && LoopSends(steps) && k <= |steps| && NoEndAfterHangUp(ms, steps, k)
    ensures ms[k].c.h.downs <= 1 && !DeadButWatched(ms[k].c)
  {
    RunDown(ms, steps, k);
  }

  /** With send called on the loop's thread, and no end of stream read behind a hang-up with urgent data: one up
      notification and at most one down notification, and a connection that is down is not in the kernel's set,
      so no event reaches it. */
  lemma OneUpOneDown(ms: seq<Machine>, steps: seq<Step>, k: nat)
    requires IsRun(ms, steps) && LoopSends(steps) && k <= |steps| && NoEndAfterHangUp(ms, steps, k)
    ensures ms[k].c.h.ups == (if ms[k].c.state == Connecting then 0 else 1)
    ensures ms[k].c.h.downs <= 1
    ensures ms[k].c.state == Disconnected ==> ms[k].c.link.kernel == None && forall r :: !Enabled(ms[k], Poll(r))
  {
    RunDown(ms, steps, k);
    RunKeeps(ms, steps, k);
  }

  lemma HandlerDownStays(c: Conn, h: Handler, read: ReadResult, io: IoResult)
    requires Fits(io, |c.out|) && (c.h.closed || c.h.destroyed)
    ensures var d := RunHandler(c, h, read, io); d.h.closed || d.h.destroyed
  {
  }

  lemma TaskDownStays(c: Conn, t: Task, io: IoResult)
    requires Fits(io, Asked(t)) && (c.h.closed || c.h.destroyed)
    ensures var d := RunHead(c, t, io); d.h.closed || d.h.destroyed
  {
  }

  lemma DownStays(m: Machine, step: Step)
    requires Inv(m) && Enabled(m, step) && (m.c.h.closed || m.c.h.destroyed)
    ensures Apply(m, step).c.h.closed || Apply(m, step).c.h.destroyed
  {
    match step
    case Handle(read, io) => HandlerDownStays(m.c, m.todo[0], read, io);
    case RunTask(io) => TaskDownStays(Popped(m.c), m.c.tasks[0], io);
    case _ =>
  }

  lemma DownStaysAt(ms: seq<Machine>, steps: seq<Step>, k: nat)
    requires IsRun(ms, steps) && k < |steps| && (ms[k].c.h.closed || ms[k].c.h.destroyed)
    ensures ms[k + 1].c.h.closed || ms[k + 1].c.h.destroyed
  {
    RunKeeps(ms, steps, k);
    DownStays(ms[k], steps[k]);
  }

  lemma {:induction false} DownForGood(ms: seq<Machine>, steps: seq<Step>, j: nat, k: nat)
    requires IsRun(ms, steps) && j <= k <= |steps| && (ms[j].c.h.closed || ms[j].c.h.destroyed)
    ensures ms[k].c.h.closed || ms[k].c.h.destroyed
  {
    if j < k {
      DownForGood(ms, steps, j, k - 1);
      DownStaysAt(ms, steps, k - 1);
    }
  }

  /** Once Disconnected, never registered again. */
  lemma NeverRegisteredAgain(ms: seq<Machine>, steps: seq<Step>, j: nat, k: nat)
    requires IsRun(ms, steps) && LoopSends(steps) && j <= k <= |steps| && NoEndAfterHangUp(ms, steps, k)
    requires ms[j].c.state == Disconnected
    ensures ms[k].c.link.kernel == None && (ms[k].c.h.closed || ms[k].c.h.destroyed)
  {
    NoEndEarlier(ms, steps, j, k);
    RunDown(ms, steps, j);
    DownForGood(ms, steps, j, k);
    RunDown(ms, steps, k);
  }

  // ---- What puts a dead connection back into the kernel's set

  /** Some of a send's payload has to wait. */
  predicate HasToWait(c: Conn, data: seq<char>, r: IoResult) {
    if Direct(c) && r.Wrote? then r.n < |data| else data != [] && !(Direct(c) && IsFault(r))
  }

  lemma SendLink(c: Conn, data: seq<char>, r: IoResult)
    requires Fits(r, |data|)
    ensures SendInLoop(c, data, r).link ==
            if HasToWait(c, data, r) && !IsWriting(c.link) then EnableWriting(c.link) else c.link
  {
    if HasToWait(c, data, r) {
      if Direct(c) && r.Wrote? {
        BufferedLink(Emit(c, SendBytes(data[..r.n])), data[r.n..]);
      } else {
        BufferedLink(c, data);
      }
    }
  }

  lemma BufferedLink(c: Conn, rest: seq<char>)
    ensures Buffered(c, rest).link == if IsWriting(c.link) then c.link else EnableWriting(c.link)
  {
  }

  /** A queued send runs, and some of its payload has to wait. */
  predicate Rearms(m: Machine, step: Step) {
    && step.RunTask? && m.c.tasks != [] && m.c.tasks[0].RunSend? && !IsWriting(m.c.link)
    && HasToWait(m.c, m.c.tasks[0].payload, step.io)
  }

  ghost predicate IdleWhenNew(m: Machine) {
    m.c.link.index == New ==> m.todo == []
  }

  lemma HandlerIndex(c: Conn, h: Handler, read: ReadResult, io: IoResult)
    requires Fits(io, |c.out|)
    ensures RunHandler(c, h, read, io).link.index == New ==> c.link.index == New
  {
  }

  lemma TaskLink(c: Conn, t: Task, io: IoResult)
    requires Fits(io, Asked(t))
    ensures var waits := t.RunSend? && HasToWait(c, t.payload, io) && !IsWriting(c.link);
            RunHead(c, t, io).link == if waits then EnableWriting(c.link) else c.link
  {
    if t.RunSend? {
      SendLink(c, t.payload, io);
    }
  }

  lemma StepIdleWhenNew(m: Machine, step: Step)
    requires Inv(m) && IdleWhenNew(m) && Enabled(m, step)
    ensures IdleWhenNew(Apply(m, step))
  {
    match step
    case UserSend(data, io) => SendLink(m.c, data, io);
    case Handle(read, io) => HandlerIndex(m.c, m.todo[0], read, io);
    case RunTask(io) => TaskLink(Popped(m.c), m.c.tasks[0], io);
    case _ =>
  }

  lemma {:induction false} RunIdleWhenNew(ms: seq<Machine>, steps: seq<Step>, k: nat)
    requires IsRun(ms, steps) && k <= |steps|
    ensures IdleWhenNew(ms[k])
  {
    if k > 0 {
      RunIdleWhenNew(ms, steps, k - 1);
      RunKeeps(ms, steps, k - 1);
      StepIdleWhenNew(ms[k - 1], steps[k - 1]);
    }
  }

  lemma HandlerPutsBackIff(m: Machine, read: ReadResult, io: IoResult)
    requires Inv(m) && Enabled(m, Handle(read, io)) && m.c.link.index == Deleted
    ensures RunHandler(m.c, m.todo[0], read, io).link.kernel.Some? <==> Closes(m, Handle(read, io))
  {
  }

  lemma TaskPutsBackIff(m: Machine, io: IoResult)
    requires Inv(m) && Enabled(m, RunTask(io)) && m.c.link.kernel == None
    ensures RunHead(Popped(m.c), m.c.tasks[0], io).link.kernel.Some? <==> Rearms(m, RunTask(io))
  {
    TaskLink(Popped(m.c), m.c.tasks[0], io);
  }

  lemma OthersStayOut(m: Machine, step: Step)
    requires Inv(m) && Enabled(m, step) && m.c.h.ups > 0 && m.c.link.kernel == None
    requires !step.Handle? && !step.RunTask?
    ensures Apply(m, step).c.link.kernel == None
  {
  }

  /** In every run, whoever calls: a connection that has come up and is out of the kernel's set is put back
      exactly when a queued send has to wait, or when the close handler runs again. */
  lemma PutBackIff(ms: seq<Machine>, steps: seq<Step>, k: nat)
    requires IsRun(ms, steps) && k < |steps| && ms[k].c.h.ups > 0 && ms[k].c.link.kernel == None
    ensures ms[k + 1].c.link.kernel.Some? <==> Rearms(ms[k], steps[k]) || Closes(ms[k], steps[k])
  {
    RunKeeps(ms, steps, k);
    RunIdleWhenNew(ms, steps, k);
    match steps[k] {
      case Handle(read, io) => HandlerPutsBackIff(ms[k], read, io);
      case RunTask(io) => TaskPutsBackIff(ms[k], io);
      case _ => OthersStayOut(ms[k], steps[k]);
    }
  }
}
