/** Every run of the machine is a run of the object: a connection made of real parts, taken through the steps of
    a run, has at every point the value that the run's machine has. */
module Simulation {
  import opened SystemCalls
  import opened Dispatch
  import BufferLayout
  import Registries
  import opened ConnectionSpec
  import opened ConnectionMachine
  import opened TcpConnections

  // ---- The room for reading

  predicate Reads(m: Machine, step: Step) {
    step.Handle? && m.todo != [] && m.todo[0] == OnRead
  }

  /** The input buffer's layout after a step. */
  function LayoutAfter(l: BufferLayout.Layout, m: Machine, step: Step): (r: BufferLayout.Layout)
    requires l.Valid()
    ensures r.Valid()
  {
    if step.UserConsume? then BufferLayout.Retrieved(l, step.len)
    else if Reads(m, step) then Refilled(l, step.read)
    else l
  }

  ghost function LayoutAt(l: BufferLayout.Layout, ms: seq<Machine>, steps: seq<Step>, k: nat): (r: BufferLayout.Layout)
    requires l.Valid() && k <= |steps| <= |ms|
    ensures r.Valid()
  {
    if k == 0 then l else LayoutAfter(LayoutAt(l, ms, steps, k - 1), ms[k - 1], steps[k - 1])
  }

  /** A read delivers no more than the input buffer offers room for. */
  predicate ReadFits(l: BufferLayout.Layout, m: Machine, step: Step)
    requires l.Valid()
  {
    Reads(m, step) && step.read.Received? ==> |step.read.bytes| <= BufferLayout.Offered(l)
  }

  ghost predicate ReadFitsAt(l: BufferLayout.Layout, ms: seq<Machine>, steps: seq<Step>, i: nat)
    requires l.Valid() && i < |steps| <= |ms|
  {
    ReadFits(LayoutAt(l, ms, steps, i), ms[i], steps[i])
  }

  // ---- One step

  /** A user's calls on the loop's thread that go to the output side. */
  method PerformSend(conn: TcpConnection, step: Step, ghost m: Machine)
    requires conn.Valid() && conn.View() == m.c && Enabled(m, step)
    requires step.UserSend? || step.UserSendFile? || step.UserShutdown?
    modifies conn`state, conn`requests, conn`history, conn.loop, conn.outputBuffer, conn.outputBuffer.buffer
    modifies conn.channel`events, conn.channel`index
    modifies conn.channel.poller`channels, conn.channel.poller`kernel, conn.channel.poller`refused
    ensures conn.Valid() && conn.View() == Apply(m, step).c
    ensures conn.outputBuffer.buffer == old(conn.outputBuffer.buffer) || fresh(conn.outputBuffer.buffer)
    ensures Registries.OthersKept(old(conn.Registry()), conn.Registry(), conn.channel)
  {
    match step
    case UserSend(data, io) => conn.Send(data, true, io);
    case UserSendFile(offset, count, io) => conn.SendFile(offset, count, true, io);
    case UserShutdown => conn.Shutdown(true);
  }

  /** A user's other calls. */
  method PerformSetting(conn: TcpConnection, step: Step, ghost m: Machine)
    requires conn.Valid() && conn.View() == m.c && Enabled(m, step)
    requires step.UserConsume? || step.UserSetWriteComplete? || step.UserSetHighWater?
    modifies conn`onWriteComplete, conn`onHighWater, conn`highWaterMark
    modifies conn.inputBuffer`readerIndex, conn.inputBuffer`writerIndex
    ensures conn.Valid() && conn.View() == Apply(m, step).c && conn.Registry() == old(conn.Registry())
    ensures conn.inputBuffer.Shape() == LayoutAfter(old(conn.inputBuffer.Shape()), m, step)
  {
    match step
    case UserConsume(len) => conn.Consume(len);
    case UserSetWriteComplete(on) => conn.SetWriteCompleteCallback(on);
    case UserSetHighWater(on, mark) => conn.SetHighWaterMarkCallback(on, mark);
  }

  /** What another thread does to the object: its tests of the state leave no trace in it. */
  method PerformForeign(conn: TcpConnection, step: Step, ghost m: Machine)
    requires conn.Valid() && conn.View() == m.c && Enabled(m, step)
    requires step.ForeignSend? || step.ForeignSendFile? || step.ForeignShutdown? || step.ForeignSetState? ||
             step.ForeignPost?
    modifies conn`state, conn`requests, conn`history, conn.loop
    ensures conn.Valid() && conn.View() == Apply(m, step).c && conn.Registry() == old(conn.Registry())
  {
    match step
    case ForeignSendFile(offset, count) =>
      if conn.IsConnected() {
        var req := conn.TakeOn(offset, count);
      }
    case ForeignSetState => conn.SetState(Disconnecting);
    case ForeignPost(task) => conn.Queue(task);
    case _ =>
  }

  /** The loop brings the connection up or takes it away. */
  method PerformLife(conn: TcpConnection, step: Step, ghost m: Machine)
    requires conn.Valid() && conn.View() == m.c && Enabled(m, step)
    requires step.Establish? || step.Destroy?
    modifies conn`state, conn`history, conn.channel`events, conn.channel`index, conn.channel`tied
    modifies conn.channel.poller`channels, conn.channel.poller`kernel, conn.channel.poller`refused
    ensures conn.Valid() && conn.View() == Apply(m, step).c
    ensures conn.inputBuffer.Shape() == LayoutAfter(old(conn.inputBuffer.Shape()), m, step)
    ensures Registries.OthersKept(old(conn.Registry()), conn.Registry(), conn.channel)
  {
    match step
    case Establish => conn.ConnectEstablished();
    case Destroy(_) => conn.ConnectDestroyed();
  }

  /** The loop runs a callback or a task; todo holds the callbacks left of the event being dispatched. */
  method PerformWork(conn: TcpConnection, step: Step, todo: seq<Handler>, ghost m: Machine)
    requires conn.Valid() && conn.View() == m.c && todo == m.todo && Enabled(m, step)
    requires (step.Handle? && ReadFits(conn.inputBuffer.Shape(), m, step)) || step.RunTask?
    modifies conn`state, conn`history, conn.loop, conn.inputBuffer, conn.inputBuffer.buffer
    modifies conn.outputBuffer, conn.outputBuffer.buffer
    modifies conn.channel`events, conn.channel`index
    modifies conn.channel.poller`channels, conn.channel.poller`kernel, conn.channel.poller`refused
    ensures conn.Valid() && conn.View() == Apply(m, step).c
    ensures conn.inputBuffer.buffer == old(conn.inputBuffer.buffer) || fresh(conn.inputBuffer.buffer)
    ensures conn.outputBuffer.buffer == old(conn.outputBuffer.buffer) || fresh(conn.outputBuffer.buffer)
    ensures conn.inputBuffer.Shape() == LayoutAfter(old(conn.inputBuffer.Shape()), m, step)
    ensures Registries.OthersKept(old(conn.Registry()), conn.Registry(), conn.channel)
  {
    match step
    case Handle(read, io) => conn.RunHandler(todo[0], read, io);
    case RunTask(io) => var called := conn.RunTask(io);
  }

  method PerformPoll(conn: TcpConnection, step: Step, ghost m: Machine) returns (todo: seq<Handler>)
    requires conn.Valid() && conn.View() == m.c && Enabled(m, step) && step.Poll?
    modifies conn.channel`revents
    ensures conn.Valid() && conn.View() == Apply(m, step).c && todo == Apply(m, step).todo
    ensures conn.Registry() == old(conn.Registry())
    ensures conn.inputBuffer.Shape() == LayoutAfter(old(conn.inputBuffer.Shape()), m, step)
  {
    todo := conn.Dispatch(step.revents, true);
  }

  predicate ByCaller(step: Step) {
    !step.Establish? && !step.Destroy? && !step.Poll? && !step.Handle? && !step.RunTask?
  }

  /** A step of a user or of another thread. */
  method PerformCall(conn: TcpConnection, step: Step, ghost m: Machine)
    requires conn.Valid() && conn.View() == m.c && Enabled(m, step) && ByCaller(step)
    modifies conn, conn.loop, conn.inputBuffer`readerIndex, conn.inputBuffer`writerIndex
    modifies conn.outputBuffer, conn.outputBuffer.buffer, conn.channel`events, conn.channel`index
    modifies conn.channel.poller`channels, conn.channel.poller`kernel, conn.channel.poller`refused
    ensures conn.Valid() && conn.View() == Apply(m, step).c
    ensures conn.outputBuffer.buffer == old(conn.outputBuffer.buffer) || fresh(conn.outputBuffer.buffer)
    ensures conn.inputBuffer.Shape() == LayoutAfter(old(conn.inputBuffer.Shape()), m, step)
    ensures Registries.OthersKept(old(conn.Registry()), conn.Registry(), conn.channel)
  {
    if step.UserSend? || step.UserSendFile? || step.UserShutdown? {
      PerformSend(conn, step, m);
    } else if step.UserConsume? || step.UserSetWriteComplete? || step.UserSetHighWater? {
      PerformSetting(conn, step, m);
    } else {
      PerformForeign(conn, step, m);
    }
  }

  /** A step of the loop. */
  method PerformLoop(conn: TcpConnection, step: Step, todo: seq<Handler>, ghost m: Machine)
    returns (rest: seq<Handler>)
    requires conn.Valid() && conn.View() == m.c && todo == m.todo && Enabled(m, step) && !ByCaller(step)
    requires ReadFits(conn.inputBuffer.Shape(), m, step)
    modifies conn, conn.loop, conn.inputBuffer, conn.inputBuffer.buffer, conn.outputBuffer, conn.outputBuffer.buffer
    modifies conn.channel`events, conn.channel`index, conn.channel`revents, conn.channel`tied
    modifies conn.channel.poller`channels, conn.channel.poller`kernel, conn.channel.poller`refused
    ensures conn.Valid() && conn.View() == Apply(m, step).c && rest == Apply(m, step).todo
    ensures conn.inputBuffer.buffer == old(conn.inputBuffer.buffer) || fresh(conn.inputBuffer.buffer)
    ensures conn.outputBuffer.buffer == old(conn.outputBuffer.buffer) || fresh(conn.outputBuffer.buffer)
    ensures conn.inputBuffer.Shape() == LayoutAfter(old(conn.inputBuffer.Shape()), m, step)
    ensures Registries.OthersKept(old(conn.Registry()), conn.Registry(), conn.channel)
  {
    if step.Poll? {
      rest := PerformPoll(conn, step, m);
    } else {
      LoopTodo(m, step);
      rest := if step.Handle? then todo[1..] else todo;
      if step.Establish? || step.Destroy? {
        PerformLife(conn, step, m);
      } else {
        PerformWork(conn, step, todo, m);
      }
    }
  }

  lemma LoopTodo(m: Machine, step: Step)
    requires Enabled(m, step) && !ByCaller(step) && !step.Poll?
    ensures Apply(m, step).todo == if step.Handle? then m.todo[1..] else m.todo
  {
  }

  method Perform(conn: TcpConnection, step: Step, todo: seq<Handler>, ghost m: Machine) returns (rest: seq<Handler>)
    requires conn.Valid() && conn.View() == m.c && todo == m.todo && Enabled(m, step)
    requires ReadFits(conn.inputBuffer.Shape(), m, step)
    modifies conn, conn.loop, conn.inputBuffer, conn.inputBuffer.buffer, conn.outputBuffer, conn.outputBuffer.buffer
    modifies conn.channel`events, conn.channel`index, conn.channel`revents, conn.channel`tied
    modifies conn.channel.poller`channels, conn.channel.poller`kernel, conn.channel.poller`refused
    ensures conn.Valid() && conn.View() == Apply(m, step).c && rest == Apply(m, step).todo
    ensures conn.inputBuffer.buffer == old(conn.inputBuffer.buffer) || fresh(conn.inputBuffer.buffer)
    ensures conn.outputBuffer.buffer == old(conn.outputBuffer.buffer) || fresh(conn.outputBuffer.buffer)
    ensures conn.inputBuffer.Shape() == LayoutAfter(old(conn.inputBuffer.Shape()), m, step)
    ensures Registries.OthersKept(old(conn.Registry()), conn.Registry(), conn.channel)
  {
    if ByCaller(step) {
      PerformCall(conn, step, m);
      CallKeepsTodo(m, step);
      rest := todo;
    } else {
      rest := PerformLoop(conn, step, todo, m);
    }
  }

  lemma CallKeepsTodo(m: Machine, step: Step)
    requires Enabled(m, step) && ByCaller(step)
    ensures Apply(m, step).todo == m.todo
  {
  }

  // ---- Whole runs

  /** The i-th step can be taken, with room for what it reads in an input buffer that starts with this layout. */
  ghost predicate StepFits(l: BufferLayout.Layout, ms: seq<Machine>, steps: seq<Step>, i: nat)
    requires l.Valid() && i < |steps| < |ms|
  {
    && Enabled(ms[i], steps[i]) && ms[i + 1] == Apply(ms[i], steps[i])
    && ReadFits(LayoutAt(l, ms, steps, i), ms[i], steps[i])
  }

  ghost predicate RunFits(l: BufferLayout.Layout, ms: seq<Machine>, steps: seq<Step>)
    requires l.Valid() && |steps| < |ms|
  {
    forall i: nat | i < |steps| :: StepFits(l, ms, steps, i)
  }

  /** The object has the value of the run's machine after k steps, and its input buffer the layout. */
  ghost predicate At(conn: TcpConnection, l: BufferLayout.Layout, ms: seq<Machine>, steps: seq<Step>, k: nat)
    reads conn, conn.loop, conn.channel, conn.channel.poller, conn.channel.poller.known
    reads conn.inputBuffer, conn.inputBuffer.buffer, conn.outputBuffer, conn.outputBuffer.buffer
    requires l.Valid() && k <= |steps| < |ms|
  {
    conn.Valid() && conn.View() == ms[k].c && conn.inputBuffer.Shape() == LayoutAt(l, ms, steps, k)
  }

  method PerformAt(conn: TcpConnection, steps: seq<Step>, k: nat, todo: seq<Handler>,
                   ghost l: BufferLayout.Layout, ghost ms: seq<Machine>)
    returns (rest: seq<Handler>)
    requires l.Valid() && k < |steps| < |ms| && StepFits(l, ms, steps, k)
    requires At(conn, l, ms, steps, k) && todo == ms[k].todo
    modifies conn, conn.loop, conn.inputBuffer, conn.inputBuffer.buffer, conn.outputBuffer, conn.outputBuffer.buffer
    modifies conn.channel`events, conn.channel`index, conn.channel`revents, conn.channel`tied
    modifies conn.channel.poller`channels, conn.channel.poller`kernel, conn.channel.poller`refused
    ensures At(conn, l, ms, steps, k + 1) && rest == ms[k + 1].todo
    ensures conn.inputBuffer.buffer == old(conn.inputBuffer.buffer) || fresh(conn.inputBuffer.buffer)
    ensures conn.outputBuffer.buffer == old(conn.outputBuffer.buffer) || fresh(conn.outputBuffer.buffer)
    ensures Registries.OthersKept(old(conn.Registry()), conn.Registry(), conn.channel)
  {
    rest := Perform(conn, steps[k], todo, ms[k]);
  }

  method PerformFirst(conn: TcpConnection, steps: seq<Step>, k: nat, ghost l: BufferLayout.Layout,
                      ghost ms: seq<Machine>)
    returns (todo: seq<Handler>)
    requires l.Valid() && k <= |steps| < |ms| && RunFits(l, ms, steps)
    requires At(conn, l, ms, steps, 0) && ms[0].todo == []
    modifies conn, conn.loop, conn.inputBuffer, conn.inputBuffer.buffer, conn.outputBuffer, conn.outputBuffer.buffer
    modifies conn.channel`events, conn.channel`index, conn.channel`revents, conn.channel`tied
    modifies conn.channel.poller`channels, conn.channel.poller`kernel, conn.channel.poller`refused
    ensures At(conn, l, ms, steps, k) && todo == ms[k].todo
    ensures conn.inputBuffer.buffer == old(conn.inputBuffer.buffer) || fresh(conn.inputBuffer.buffer)
    ensures conn.outputBuffer.buffer == old(conn.outputBuffer.buffer) || fresh(conn.outputBuffer.buffer)
    ensures Registries.OthersKept(old(conn.Registry()), conn.Registry(), conn.channel)
    decreases k
  {
    todo := [];
    if k > 0 {
      ghost var before := conn.Registry();
      todo := PerformFirst(conn, steps, k - 1, l, ms);
      ghost var now := conn.Registry();
      todo := PerformAt(conn, steps, k - 1, todo, l, ms);
      Registries.OthersKeptTwice(before, now, conn.Registry(), conn.channel);
    }
  }

  /** A new connection, taken through the first k steps of any run, has the value of the run's machine there, and
      no other channel of its poller has been touched. The run's reads are such as the input buffer offers room for. */
  method PerformAll(conn: TcpConnection, steps: seq<Step>, k: nat, ghost ms: seq<Machine>)
    returns (todo: seq<Handler>)
    requires conn.Valid() && k <= |steps| && IsRun(ms, steps) && conn.View() == ms[0].c
    requires forall i: nat | i < |steps| :: ReadFitsAt(conn.inputBuffer.Shape(), ms, steps, i)
    modifies conn, conn.loop, conn.inputBuffer, conn.inputBuffer.buffer, conn.outputBuffer, conn.outputBuffer.buffer
    modifies conn.channel`events, conn.channel`index, conn.channel`revents, conn.channel`tied
    modifies conn.channel.poller`channels, conn.channel.poller`kernel, conn.channel.poller`refused
    ensures conn.Valid() && conn.View() == ms[k].c && todo == ms[k].todo
    ensures Registries.OthersKept(old(conn.Registry()), conn.Registry(), conn.channel)
  {
    ghost var l := conn.inputBuffer.Shape();
    RunIsFitting(l, ms, steps);
    todo := PerformFirst(conn, steps, k, l, ms);
  }

  lemma RunIsFitting(l: BufferLayout.Layout, ms: seq<Machine>, steps: seq<Step>)
    requires l.Valid() && IsRun(ms, steps)
    requires forall i: nat | i < |steps| :: ReadFitsAt(l, ms, steps, i)
    ensures RunFits(l, ms, steps) && ms[0].todo == []
  {
    forall i: nat | i < |steps| ensures StepFits(l, ms, steps, i) {
      assert ReadFitsAt(l, ms, steps, i);
    }
  }
}
