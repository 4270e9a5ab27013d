/** Shutdown and send called from other threads: what still holds in every run. Runs that show what does not are in
    Witnesses.dfy. */
module ForeignCalls {
  import opened SystemCalls
  import opened Links
  import opened Dispatch
  import opened ConnectionSpec
  import opened ConnectionMachine
  import opened ConnectionInvariants
  import HalfClose
  import Lifecycle
  import FileTransfer

  predicate PastConnected(c: Conn) {
    c.state == Disconnecting || c.state == Disconnected
  }

  ghost predicate ShutdownInv(c: Conn, posting: multiset<Task>) {
    Finished(c) || RunShutdown in c.tasks || RunShutdown in posting ==> PastConnected(c)
  }

  lemma SendShutdownInv(c: Conn, data: seq<char>, r: IoResult, posting: multiset<Task>)
    requires ShutdownInv(c, posting) && Fits(r, |data|)
    ensures ShutdownInv(SendInLoop(c, data, r), posting)
  {
  }

  lemma FileShutdownInv(c: Conn, req: nat, offset: int, count: nat, r: IoResult, posting: multiset<Task>)
    requires ShutdownInv(c, posting) && Fits(r, count)
    ensures ShutdownInv(SendFileInLoop(c, req, offset, count, r), posting)
  {
  }

  lemma HandlerShutdownInv(c: Conn, h: Handler, read: ReadResult, io: IoResult, posting: multiset<Task>)
    requires ShutdownInv(c, posting) && Fits(io, |c.out|)
    ensures ShutdownInv(RunHandler(c, h, read, io), posting)
  {
  }

  lemma TaskShutdownInv(c: Conn, io: IoResult, posting: multiset<Task>)
    requires ShutdownInv(c, posting) && c.tasks != [] && Fits(io, Asked(c.tasks[0]))
    ensures ShutdownInv(RunHead(Popped(c), c.tasks[0], io), posting)
  {
    match c.tasks[0]
    case RunSend(payload) => SendShutdownInv(Popped(c), payload, io, posting);
    case RunSendFile(req, offset, count) => FileShutdownInv(Popped(c), req, offset, count, io, posting);
    case _ =>
  }

  lemma StepShutdownInv(m: Machine, step: Step)
    requires Inv(m) && ShutdownInv(m.c, m.posting) && Enabled(m, step)
    ensures ShutdownInv(Apply(m, step).c, Apply(m, step).posting)
  {
    match step
    case UserSend(data, io) => SendShutdownInv(m.c, data, io, m.posting);
    case UserSendFile(offset, count, io) =>
      FileShutdownInv(Request(m.c, offset, count), |m.c.h.requests|, offset, count, io, m.posting);
    case Handle(read, io) => HandlerShutdownInv(m.c, m.todo[0], read, io, m.posting);
    case RunTask(io) => TaskShutdownInv(m.c, io, m.posting);
    case _ =>
  }

  lemma {:induction false} RunShutdownInv(ms: seq<Machine>, steps: seq<Step>, k: nat)
    requires IsRun(ms, steps) && k <= |steps|
    ensures ShutdownInv(ms[k].c, ms[k].posting)
  {
    if k > 0 {
      RunShutdownInv(ms, steps, k - 1);
      RunKeeps(ms, steps, k - 1);
      StepShutdownInv(ms[k - 1], steps[k - 1]);
    }
  }

  // ---- In every run

  /** The step runs the queued half of a shutdown that came from another thread, and no write is pending. */
  predicate RunsShutdown(m: Machine, step: Step) {
    step.RunTask? && m.c.tasks != [] && m.c.tasks[0] == RunShutdown && !IsWriting(m.c.link)
  }

  /** Once the write side is shut, no byte ever reaches the wire again, from whichever thread it was sent; and
      the write side is shut once more exactly when the queued half of another thread's shutdown runs. */
  lemma AfterFin(ms: seq<Machine>, steps: seq<Step>, k: nat)
    requires IsRun(ms, steps) && k < |steps| && Finished(ms[k].c)
    ensures ms[k + 1].c.h.wire == ms[k].c.h.wire + (if RunsShutdown(ms[k], steps[k]) then [Fin] else [])
  {
    RunShutdownInv(ms, steps, k);
    var m := ms[k];
    match steps[k] {
      case Handle(read, io) => HandlerAfterFin(m.c, m.todo[0], read, io);
      case RunTask(io) => TaskAfterFin(Popped(m.c), m.c.tasks[0], io);
      case _ =>
    }
  }

  lemma HandlerAfterFin(c: Conn, h: Handler, read: ReadResult, io: IoResult)
    requires io.Failed?
    ensures RunHandler(c, h, read, io).h.wire == c.h.wire
  {
  }

  lemma TaskAfterFin(c: Conn, t: Task, io: IoResult)
    requires io.Failed?
    ensures RunHead(c, t, io).h.wire == c.h.wire + (if t == RunShutdown && !IsWriting(c.link) then [Fin] else [])
  {
  }

  /** The step shuts the write side. */
  ghost predicate EmitsFin(m: Machine, step: Step)
    requires Enabled(m, step)
  {
    Fin in FileTransfer.AddedBy(m, step)
  }

  lemma HandlerEmitsFin(c: Conn, h: Handler, read: ReadResult, io: IoResult)
    requires Fits(io, |c.out|)
    ensures var d := RunHandler(c, h, read, io);
            c.h.wire <= d.h.wire && (Fin in d.h.wire[|c.h.wire|..] ==> d.out == [] && !IsWriting(d.link))
  {
    FileTransfer.HandlerAdds(c, h, read, io);
    if h.OnWrite? && IsWriting(c.link) && io.Wrote? && io.n > 0 {
      var sent := Emit(c, SendBytes(c.out[..io.n])).(out := c.out[io.n..]);
      if sent.out == [] {
        WritingFacts(sent.link.events);
        DrainedFields(sent);
      }
    }
  }

  lemma TaskEmitsFin(c: Conn, t: Task, io: IoResult)
    requires Fits(io, Asked(t)) && (c.out == [] <==> !IsWriting(c.link))
    ensures var d := RunHead(c, t, io);
            c.h.wire <= d.h.wire && (Fin in d.h.wire[|c.h.wire|..] ==> d.out == [] && !IsWriting(d.link))
  {
    match t
    case RunSend(payload) => FileTransfer.SendInLoopWire(c, payload, io);
    case RunSendFile(req, offset, count) => FileTransfer.FileAdds(c, req, offset, count, io);
    case _ =>
  }

  lemma StepEmitsFin(m: Machine, step: Step)
    requires Inv(m) && Enabled(m, step) && Live(m.c)
    ensures EmitsFin(m, step) ==> Apply(m, step).c.out == [] && !IsWriting(Apply(m, step).c.link)
  {
    MaskFacts();
    match step
    case Handle(read, io) => HandlerEmitsFin(m.c, m.todo[0], read, io);
    case RunTask(io) => TaskEmitsFin(Popped(m.c), m.c.tasks[0], io);
    case UserSend(data, io) => TaskEmitsFin(m.c, RunSend(data), io);
    case UserSendFile(offset, count, io) =>
      TaskEmitsFin(Request(m.c, offset, count), RunSendFile(|m.c.h.requests|, offset, count), io);
    case _ =>
  }

  /** In every run, while the connection is live: whenever the write side is shut, by whichever thread's
      shutdown, the buffer is empty, write interest is off, and every accepted byte is already on the wire. */
  lemma FlushedBeforeFinWhileLive(ms: seq<Machine>, steps: seq<Step>, k: nat)
    requires IsRun(ms, steps) && k < |steps| && Live(ms[k].c) && EmitsFin(ms[k], steps[k])
    ensures ms[k + 1].c.out == [] && !IsWriting(ms[k + 1].c.link)
    ensures SentBytes(ms[k + 1].c.h.wire) == Accepted(ms, steps, k + 1)
  {
    RunKeeps(ms, steps, k);
    NothingLostOrReordered(ms, steps, k + 1);
    StepEmitsFin(ms[k], steps[k]);
  }

  lemma LiveBackwards(m: Machine, step: Step)
    requires Inv(m) && Enabled(m, step) && Live(Apply(m, step).c) && !step.Establish?
    ensures Live(m.c)
  {
    if m.c.h.closed || m.c.h.destroyed {
      Lifecycle.DownStays(m, step);
    }
  }

  lemma FinishedStaysEmpty(m: Machine, step: Step)
    requires Inv(m) && Enabled(m, step) && Finished(m.c) && Live(m.c) && m.c.out == []
    ensures Apply(m, step).c.out == []
  {
  }

  lemma FinishedByEmitting(m: Machine, step: Step)
    requires Enabled(m, step) && !Finished(m.c) && Finished(Apply(m, step).c)
    ensures EmitsFin(m, step)
  {
    FileTransfer.StepAdds(m, step);
  }

  /** In every run, a live connection whose write side is shut has nothing left in its buffer. */
  lemma {:induction false} FinishedMeansEmpty(ms: seq<Machine>, steps: seq<Step>, k: nat)
    requires IsRun(ms, steps) && k <= |steps| && Finished(ms[k].c) && Live(ms[k].c)
    ensures ms[k].c.out == []
  {
    if k > 0 {
      var m, step := ms[k - 1], steps[k - 1];
      RunKeeps(ms, steps, k - 1);
      if !step.Establish? {
        LiveBackwards(m, step);
        if Finished(m.c) {
          FinishedMeansEmpty(ms, steps, k - 1);
          FinishedStaysEmpty(m, step);
        } else {
          FinishedByEmitting(m, step);
          StepEmitsFin(m, step);
        }
      }
    }
  }

  // ---- Each queued call is run

  /** A send, or the other half of a shutdown, that another thread has queued. */
  function CallOf(t: Task): seq<Task> {
    if t.RunSend? || t.RunShutdown? then [t] else []
  }

  ghost function CallsOf(tasks: seq<Task>): seq<Task> {
    if tasks == [] then [] else CallsOf(tasks[..|tasks| - 1]) + CallOf(tasks[|tasks| - 1])
  }

  lemma {:induction false} CallsOfHead(tasks: seq<Task>)
    requires tasks != []
    ensures CallsOf(tasks) == CallOf(tasks[0]) + CallsOf(tasks[1..])
  {
    var init, rest, last := tasks[..|tasks| - 1], tasks[1..], tasks[|tasks| - 1];
    if init == [] {
      assert CallsOf(init) + CallOf(last) == CallOf(last) + CallsOf(rest);
    } else {
      CallsOfHead(init);
      assert rest[..|rest| - 1] == init[1..] && rest[|rest| - 1] == last;
      var head, middle := CallOf(tasks[0]), CallsOf(init[1..]);
      assert (head + middle) + CallOf(last) == head + (middle + CallOf(last));
    }
  }

  function PostedBy(step: Step): seq<Task> {
    if step.ForeignPost? then CallOf(step.task) else []
  }

  function RanBy(m: Machine, step: Step): seq<Task> {
    if step.RunTask? && m.c.tasks != [] then CallOf(m.c.tasks[0]) else []
  }

  /** The calls that other threads have queued in the first k steps, in order. */
  ghost function Posted(steps: seq<Step>, k: nat): seq<Task>
    requires k <= |steps|
  {
    if k == 0 then [] else Posted(steps, k - 1) + PostedBy(steps[k - 1])
  }

  /** The calls that the loop has run in the first k steps, in order. */
  ghost function Ran(ms: seq<Machine>, steps: seq<Step>, k: nat): seq<Task>
    requires k <= |steps| <= |ms|
  {
    if k == 0 then [] else Ran(ms, steps, k - 1) + RanBy(ms[k - 1], steps[k - 1])
  }

  /** No call is queued, taken or moved. */
  ghost predicate SameCalls(c: Conn, d: Conn) {
    d.tasks == c.tasks || exists t :: d.tasks == c.tasks + [t] && CallOf(t) == []
  }

  lemma SameCallsSame(c: Conn, d: Conn)
    requires SameCalls(c, d)
    ensures CallsOf(d.tasks) == CallsOf(c.tasks)
  {
    if d.tasks != c.tasks {
      var t :| d.tasks == c.tasks + [t] && CallOf(t) == [];
      assert d.tasks[..|d.tasks| - 1] == c.tasks;
    }
  }

  lemma SendSameCalls(c: Conn, data: seq<char>, r: IoResult)
    requires Fits(r, |data|)
    ensures SameCalls(c, SendInLoop(c, data, r))
  {
    HalfClose.SendInLoopTasks(c, data, r);
  }

  lemma FileSameCalls(c: Conn, req: nat, offset: int, count: nat, r: IoResult)
    requires Fits(r, count)
    ensures SameCalls(c, SendFileInLoop(c, req, offset, count, r))
  {
  }

  lemma HandlerSameCalls(c: Conn, h: Handler, read: ReadResult, io: IoResult)
    requires Fits(io, |c.out|)
    ensures SameCalls(c, RunHandler(c, h, read, io))
  {
    HalfClose.HandleWriteTasks(c, io);
  }

  lemma TaskSameCalls(c: Conn, t: Task, io: IoResult)
    requires Fits(io, Asked(t))
    ensures SameCalls(c, RunHead(c, t, io))
  {
    match t
    case RunSend(payload) => SendSameCalls(c, payload, io);
    case RunSendFile(req, offset, count) => FileSameCalls(c, req, offset, count, io);
    case _ =>
  }

  lemma OtherSameCalls(m: Machine, step: Step)
    requires Enabled(m, step) && !step.RunTask? && !step.ForeignPost?
    ensures SameCalls(m.c, Apply(m, step).c)
  {
    match step
    case UserSend(data, io) => SendSameCalls(m.c, data, io);
    case UserSendFile(offset, count, io) =>
      FileSameCalls(Request(m.c, offset, count), |m.c.h.requests|, offset, count, io);
    case Handle(read, io) => HandlerSameCalls(m.c, m.todo[0], read, io);
    case _ =>
  }

  lemma PostCalls(c: Conn, task: Task)
    ensures CallsOf(c.tasks) + CallOf(task) == CallsOf(QueueTask(c, task).tasks)
  {
    assert (c.tasks + [task])[..|c.tasks|] == c.tasks;
  }

  lemma RunCalls(c: Conn, io: IoResult)
    requires c.tasks != [] && Fits(io, Asked(c.tasks[0]))
    ensures CallsOf(c.tasks) == CallOf(c.tasks[0]) + CallsOf(RunHead(Popped(c), c.tasks[0], io).tasks)
  {
    var first := c.tasks[0];
    CallsOfHead(c.tasks);
    TaskSameCalls(Popped(c), first, io);
    SameCallsSame(Popped(c), RunHead(Popped(c), first, io));
  }

  /** The calls queued so far are those run so far and those in the queue. */
  ghost predicate Balanced(posted: seq<Task>, ran: seq<Task>, c: Conn) {
    posted == ran + CallsOf(c.tasks)
  }

  lemma PostBalanced(c: Conn, task: Task, posted: seq<Task>, ran: seq<Task>)
    requires Balanced(posted, ran, c)
    ensures Balanced(posted + CallOf(task), ran, QueueTask(c, task))
  {
    PostCalls(c, task);
    assert ran + CallsOf(c.tasks) + CallOf(task) == ran + (CallsOf(c.tasks) + CallOf(task));
  }

  lemma RunBalanced(c: Conn, io: IoResult, posted: seq<Task>, ran: seq<Task>)
    requires Balanced(posted, ran, c) && c.tasks != [] && Fits(io, Asked(c.tasks[0]))
    ensures Balanced(posted, ran + CallOf(c.tasks[0]), RunHead(Popped(c), c.tasks[0], io))
  {
    RunCalls(c, io);
    var first, left := CallOf(c.tasks[0]), CallsOf(RunHead(Popped(c), c.tasks[0], io).tasks);
    assert ran + (first + left) == ran + first + left;
  }

  lemma StepBalanced(m: Machine, step: Step, posted: seq<Task>, ran: seq<Task>)
    requires Balanced(posted, ran, m.c) && Enabled(m, step)
    ensures Balanced(posted + PostedBy(step), ran + RanBy(m, step), Apply(m, step).c)
  {
    assert posted + [] == posted && ran + [] == ran;
    if step.ForeignPost? {
      PostBalanced(m.c, step.task, posted, ran);
    } else if step.RunTask? {
      RunBalanced(m.c, step.io, posted, ran);
    } else {
      OtherSameCalls(m, step);
      SameCallsSame(m.c, Apply(m, step).c);
    }
  }

  lemma BalancedAt(ms: seq<Machine>, steps: seq<Step>, k: nat)
    requires k < |steps| < |ms| && StepAt(ms, steps, k) && Balanced(Posted(steps, k), Ran(ms, steps, k), ms[k].c)
    ensures Balanced(Posted(steps, k + 1), Ran(ms, steps, k + 1), ms[k + 1].c)
  {
    StepBalanced(ms[k], steps[k], Posted(steps, k), Ran(ms, steps, k));
  }

  lemma BalancedFirst(c: Conn)
    requires c.tasks == []
    ensures Balanced([], [], c)
  {
  }

  lemma {:induction false} BalancedLinked(ms: seq<Machine>, steps: seq<Step>, k: nat)
    requires Linked(ms, steps) && k <= |steps| && ms[0].c.tasks == []
    ensures Balanced(Posted(steps, k), Ran(ms, steps, k), ms[k].c)
  {
    if k == 0 {
      BalancedFirst(ms[0].c);
    } else {
      BalancedLinked(ms, steps, k - 1);
      BalancedAt(ms, steps, k - 1);
    }
  }

  /** In every run each call that another thread has queued is run by the loop, once and in the order of queueing:
      the calls run so far, followed by those in the queue, are the calls queued so far. */
  lemma EachCallRuns(ms: seq<Machine>, steps: seq<Step>, k: nat)
    requires IsRun(ms, steps) && k <= |steps|
    ensures Posted(steps, k) == Ran(ms, steps, k) + CallsOf(ms[k].c.tasks)
  {
    RunLinked(ms, steps);
    BalancedLinked(ms, steps, k);
  }

  // ---- From the call to the queue

  /** The step is this call from another thread, and finds the connection Connected. */
  function Accepts(m: Machine, step: Step, call: Task): nat {
    if m.c.state == Connected &&
       ((step.ForeignSend? && call == RunSend(step.data)) || (step.ForeignShutdown? && call == RunShutdown))
    then 1 else 0
  }

  /** How many of these calls have been accepted in the first k steps. */
  ghost function AcceptedCalls(ms: seq<Machine>, steps: seq<Step>, k: nat, call: Task): nat
    requires k <= |steps| <= |ms|
  {
    if k == 0 then 0 else AcceptedCalls(ms, steps, k - 1, call) + Accepts(ms[k - 1], steps[k - 1], call)
  }

  predicate Queues(step: Step, call: Task) {
    step.ForeignPost? && step.task == call
  }

  /** How many of these calls have been queued in the first k steps. */
  ghost function QueuedCalls(steps: seq<Step>, k: nat, call: Task): nat
    requires k <= |steps|
  {
    if k == 0 then 0 else QueuedCalls(steps, k - 1, call) + if Queues(steps[k - 1], call) then 1 else 0
  }

  /** How many of these calls have been accepted and not queued yet. */
  function OnTheirWay(m: Machine, call: Task): nat {
    m.posting[call] + if call == RunShutdown then m.setting else 0
  }

  lemma PutAndTaken(posting: multiset<Task>, task: Task, call: Task)
    ensures (posting + multiset{task})[call] == posting[call] + if task == call then 1 else 0
    ensures task in posting ==> (posting - multiset{task})[call] == posting[call] - if task == call then 1 else 0
  {
  }

  lemma CallAccepts(m: Machine, step: Step, call: Task)
    requires Enabled(m, step) && (call.RunSend? || call.RunShutdown?)
    requires step.ForeignSend? || step.ForeignSendFile? || step.ForeignShutdown? || step.ForeignSetState?
    ensures OnTheirWay(m, call) + Accepts(m, step, call) == OnTheirWay(Apply(m, step), call)
  {
    match step
    case ForeignSend(data) => PutAndTaken(m.posting, RunSend(data), call);
    case ForeignSendFile(offset, count) =>
      PutAndTaken(m.posting, RunSendFile(|m.c.h.requests|, offset, count), call);
    case ForeignSetState => PutAndTaken(m.posting, RunShutdown, call);
    case _ =>
  }

  lemma PostAccepts(m: Machine, task: Task, call: Task)
    requires Enabled(m, ForeignPost(task))
    ensures OnTheirWay(m, call) == OnTheirWay(Apply(m, ForeignPost(task)), call) + if task == call then 1 else 0
  {
    PutAndTaken(m.posting, task, call);
  }

  lemma OtherAccepts(m: Machine, step: Step, call: Task)
    requires Enabled(m, step) && (call.RunSend? || call.RunShutdown?)
    requires !step.ForeignSend? && !step.ForeignSendFile? && !step.ForeignShutdown? && !step.ForeignSetState?
    requires !step.ForeignPost?
    ensures OnTheirWay(m, call) == OnTheirWay(Apply(m, step), call)
  {
  }

  lemma StepAccepts(m: Machine, step: Step, call: Task)
    requires Enabled(m, step) && (call.RunSend? || call.RunShutdown?)
    ensures OnTheirWay(m, call) + Accepts(m, step, call) ==
            OnTheirWay(Apply(m, step), call) + if Queues(step, call) then 1 else 0
  {
    match step
    case ForeignSend(_) => CallAccepts(m, step, call);
    case ForeignSendFile(_, _) => CallAccepts(m, step, call);
    case ForeignShutdown => CallAccepts(m, step, call);
    case ForeignSetState => CallAccepts(m, step, call);
    case ForeignPost(task) => PostAccepts(m, task, call);
    case _ => OtherAccepts(m, step, call);
  }

  /** Those accepted are those queued so far and those still on their way. */
  ghost predicate Arriving(ms: seq<Machine>, steps: seq<Step>, k: nat, call: Task)
    requires k <= |steps| <= |ms| && k < |ms|
  {
    AcceptedCalls(ms, steps, k, call) == QueuedCalls(steps, k, call) + OnTheirWay(ms[k], call)
  }

  lemma ArrivingAt(ms: seq<Machine>, steps: seq<Step>, k: nat, call: Task)
    requires k < |steps| < |ms| && StepAt(ms, steps, k) && (call.RunSend? || call.RunShutdown?)
    requires Arriving(ms, steps, k, call)
    ensures Arriving(ms, steps, k + 1, call)
  {
    StepAccepts(ms[k], steps[k], call);
  }

  lemma {:induction false} ArrivingLinked(ms: seq<Machine>, steps: seq<Step>, k: nat, call: Task)
    requires Linked(ms, steps) && k <= |steps| && (call.RunSend? || call.RunShutdown?)
    requires Arriving(ms, steps, 0, call)
    ensures Arriving(ms, steps, k, call)
  {
    if k > 0 {
      ArrivingLinked(ms, steps, k - 1, call);
      ArrivingAt(ms, steps, k - 1, call);
    }
  }

  /** In every run each send or shutdown that another thread's call found Connected for is queued once: those
      accepted are those queued so far and those still on their way. */
  lemma EachCallArrives(ms: seq<Machine>, steps: seq<Step>, k: nat, call: Task)
    requires IsRun(ms, steps) && k <= |steps| && (call.RunSend? || call.RunShutdown?)
    ensures AcceptedCalls(ms, steps, k, call) == QueuedCalls(steps, k, call) + OnTheirWay(ms[k], call)
  {
    RunLinked(ms, steps);
    ArrivingLinked(ms, steps, k, call);
  }
}
