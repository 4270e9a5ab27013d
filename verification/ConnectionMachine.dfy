/** Every run of a connection: what users, other threads, the loop and the kernel can do to it, step by step. */
module ConnectionMachine {
  import opened SystemCalls
  import opened Links
  import opened Dispatch
  import opened ConnectionSpec

  /** A connection among its callers. A call from another thread looks at the state in one action and queues
      its loop task in a later one; posting holds the loop tasks between the two. A shutdown from another thread
      sets the state in an action of its own; setting counts those that found Connected but have not set it yet.
      On the loop's thread only connectDestroyed looks at the state and then sets it to something a shutdown does
      not; overtaken counts the settings that fall between the two and are overwritten. */
  datatype Machine = Machine(
    c: Conn,
    todo: seq<Handler>,             // the callbacks left of the event being dispatched
    posting: multiset<Task>,
    setting: nat)

  datatype Step =
    // on the loop's thread, from user callbacks or from outside them
    | UserSend(data: seq<char>, io: IoResult)
    | UserSendFile(offset: int, count: nat, io: IoResult)
    | UserShutdown
    | UserConsume(len: nat)
    | UserSetWriteComplete(on: bool)
    | UserSetHighWater(on: bool, mark: nat)
    // on other threads
    | ForeignSend(data: seq<char>)
    | ForeignSendFile(offset: int, count: nat)
    | ForeignShutdown
    | ForeignSetState
    | ForeignPost(task: Task)
    // the loop
    | Establish
    | Destroy(overtaken: nat)
    | Poll(revents: Mask)
    | Handle(read: ReadResult, io: IoResult)
    | RunTask(io: IoResult)

  ghost predicate Initial(m: Machine) {
    IsNew(m.c) && m.todo == [] && m.posting == multiset{} && m.setting == 0
  }

  predicate Finished(c: Conn) {
    Fin in c.h.wire
  }

  /** The kernel's contract for a write: no more than asked, and always a broken pipe once the write side is shut. */
  predicate Answers(c: Conn, asked: nat, io: IoResult) {
    Fits(io, asked) && (Finished(c) ==> io == Failed(BrokenPipe))
  }

  function Asked(t: Task): nat {
    match t
    case RunSend(payload) => |payload|
    case RunSendFile(_, _, count) => count
    case _ => 0
  }

  /** The loop polls, dispatches one event's callbacks, and only then runs tasks; users may act between any
      two of these, other threads at any time. */
  predicate Enabled(m: Machine, step: Step) {
    match step
    case UserSend(data, io) => Answers(m.c, |data|, io)
    case UserSendFile(_, count, io) => Answers(m.c, count, io)
    case ForeignSetState => m.setting > 0
    case ForeignPost(task) => task in m.posting
    case Establish => m.c.h.ups == 0 && m.c.state == Connecting
    case Destroy(overtaken) =>
      && m.c.h.ups > 0 && !m.c.h.destroyed && m.todo == []
      && overtaken <= m.setting && (overtaken > 0 ==> m.c.state == Connected)
    case Poll(revents) => m.todo == [] && m.c.link.kernel.Some? && Reportable(revents, m.c.link.kernel.value)
    case Handle(_, io) => m.todo != [] && Answers(m.c, |m.c.out|, io)
    case RunTask(io) => m.todo == [] && m.c.tasks != [] && Answers(m.c, Asked(m.c.tasks[0]), io)
    case _ => true
  }

  function RunHandler(c: Conn, h: Handler, read: ReadResult, io: IoResult): Conn
    requires Fits(io, |c.out|)
  {
    match h
    case OnClose => HandleClose(c)
    case OnError => c
    case OnRead => HandleRead(c, read)
    case OnWrite => HandleWrite(c, io)
  }

  function Popped(c: Conn): Conn
    requires c.tasks != []
  {
    c.(tasks := c.tasks[1..])
  }

  function RunHead(c: Conn, t: Task, io: IoResult): Conn
    requires Fits(io, Asked(t))
  {
    match t
    case RunSend(payload) => SendInLoop(c, payload, io)
    case RunShutdown => ShutdownInLoop(c)
    case RunSendFile(req, offset, count) => SendFileInLoop(c, req, offset, count, io)
    case Notify(_) => c
  }

  function Apply(m: Machine, step: Step): Machine
    requires Enabled(m, step)
  {
    match step
    case UserSend(data, io) => m.(c := Send(m.c, data, io))
    case UserSendFile(offset, count, io) => m.(c := SendFile(m.c, offset, count, io))
    case UserShutdown => m.(c := Shutdown(m.c))
    case UserConsume(len) => m.(c := m.c.(input := if len < |m.c.input| then m.c.input[len..] else []))
    case UserSetWriteComplete(on) => m.(c := m.c.(onWriteComplete := on))
    case UserSetHighWater(on, mark) => m.(c := m.c.(onHighWater := on, mark := mark))
    case ForeignSend(data) =>
      if m.c.state == Connected then m.(posting := m.posting + multiset{RunSend(data)}) else m
    case ForeignSendFile(offset, count) =>
      if m.c.state == Connected then
        m.(c := Request(m.c, offset, count),
           posting := m.posting + multiset{RunSendFile(|m.c.h.requests|, offset, count)})
      else m
    case ForeignShutdown => if m.c.state == Connected then m.(setting := m.setting + 1) else m
    case ForeignSetState =>
      m.(c := m.c.(state := Disconnecting), setting := m.setting - 1, posting := m.posting + multiset{RunShutdown})
    case ForeignPost(task) => m.(c := QueueTask(m.c, task), posting := m.posting - multiset{task})
    case Establish => m.(c := ConnectEstablished(m.c))
    case Destroy(overtaken) =>
      m.(c := ConnectDestroyed(m.c), setting := m.setting - overtaken,
         posting := m.posting[RunShutdown := m.posting[RunShutdown] + overtaken])
    case Poll(revents) => m.(todo := Handlers(revents))
    case Handle(read, io) => m.(c := RunHandler(m.c, m.todo[0], read, io), todo := m.todo[1..])
    case RunTask(io) => m.(c := RunHead(Popped(m.c), m.c.tasks[0], io))
  }

  /** A run: machines ms[0], ms[1], ... with steps[i] leading from ms[i] to ms[i + 1]. */
  ghost predicate IsRun(ms: seq<Machine>, steps: seq<Step>) {
    && |ms| == |steps| + 1
    && Initial(ms[0])
    && forall i {:trigger steps[i]} | 0 <= i < |steps| ::
         Enabled(ms[i], steps[i]) && ms[i + 1] == Apply(ms[i], steps[i])
  }

  ghost predicate StepAt(ms: seq<Machine>, steps: seq<Step>, i: nat)
    requires i < |steps| < |ms|
  {
    Enabled(ms[i], steps[i]) && ms[i + 1] == Apply(ms[i], steps[i])
  }

  /** Each machine leads to the next. Proofs by induction on a run that need few of its steps start from this. */
  ghost predicate Linked(ms: seq<Machine>, steps: seq<Step>) {
    |ms| == |steps| + 1 && forall i: nat | i < |steps| :: StepAt(ms, steps, i)
  }

  lemma RunLinked(ms: seq<Machine>, steps: seq<Step>)
    requires IsRun(ms, steps)
    ensures Linked(ms, steps)
  {
  }

  /** A run goes on with any step that is enabled where it ends. */
  lemma Extend(ms: seq<Machine>, steps: seq<Step>, step: Step) returns (ns: seq<Machine>, next: seq<Step>)
    requires IsRun(ms, steps) && Enabled(ms[|steps|], step)
    ensures IsRun(ns, next) && ns == ms + [Apply(ms[|steps|], step)] && next == steps + [step]
    ensures ns[|next|] == Apply(ms[|steps|], step)
  {
    ns, next := ms + [Apply(ms[|steps|], step)], steps + [step];
  }

  /** A send from another thread that is not overtaken amounts to queueing its task. */
  lemma ForeignSendQueues(m: Machine, data: seq<char>)
    requires m.c.state == Connected
    ensures Apply(Apply(m, ForeignSend(data)), ForeignPost(RunSend(data))) == m.(c := QueueTask(m.c, RunSend(data)))
  {
  }

  /** So does a shutdown, after setting the state. */
  lemma ForeignShutdownQueues(m: Machine)
    requires m.c.state == Connected
    ensures Apply(Apply(Apply(m, ForeignShutdown), ForeignSetState), ForeignPost(RunShutdown)) ==
            m.(c := QueueTask(m.c.(state := Disconnecting), RunShutdown))
  {
    var passed := Apply(Apply(m, ForeignShutdown), ForeignSetState);
    assert passed == m.(c := m.c.(state := Disconnecting), posting := m.posting + multiset{RunShutdown});
    assert m.posting + multiset{RunShutdown} - multiset{RunShutdown} == m.posting;
  }

  /** In any state but Connected a call changes nothing, from whichever thread. */
  lemma OnlyWhenConnected(m: Machine, step: Step)
    requires Enabled(m, step) && m.c.state != Connected
    requires step.UserSend? || step.UserSendFile? || step.UserShutdown? ||
             step.ForeignSend? || step.ForeignSendFile? || step.ForeignShutdown?
    ensures Apply(m, step) == m
  {
  }

  /** Shutdown is called on the loop's thread only. */
  ghost predicate LoopShutdowns(steps: seq<Step>) {
    forall i | 0 <= i < |steps| :: !steps[i].ForeignShutdown?
  }

  /** Send is called on the loop's thread only. */
  ghost predicate LoopSends(steps: seq<Step>) {
    forall i | 0 <= i < |steps| :: !steps[i].ForeignSend?
  }

  // ---- What a step sends

  datatype Executed = Nothing | Payload(data: seq<char>, io: IoResult)

  /** The payload that a step brings to sendInLoop, if any, with the kernel's answer. */
  function ExecutedSend(m: Machine, step: Step): Executed {
    match step
    case UserSend(data, io) => if m.c.state == Connected then Payload(data, io) else Nothing
    case RunTask(io) => if m.c.tasks != [] && m.c.tasks[0].RunSend? then Payload(m.c.tasks[0].payload, io) else Nothing
    case _ => Nothing
  }

  /** The send is given up because the socket is broken. */
  predicate Faults(m: Machine, e: Executed) {
    e.Payload? && Direct(m.c) && IsFault(e.io)
  }

  function AcceptedBy(m: Machine, step: Step): seq<char> {
    var e := ExecutedSend(m, step);
    if e.Payload? && !Faults(m, e) then e.data else []
  }

  /** The payloads of the first k steps' sends that did not end in a fault, in the order they were executed. */
  ghost function Accepted(ms: seq<Machine>, steps: seq<Step>, k: nat): seq<char>
    requires k <= |steps| <= |ms|
  {
    if k == 0 then [] else Accepted(ms, steps, k - 1) + AcceptedBy(ms[k - 1], steps[k - 1])
  }
}
