/** Write-complete and high-water notifications: exactly when they are queued, over every run. */
module Notifications {
  import opened SystemCalls
  import opened Links
  import opened Dispatch
  import opened ConnectionSpec
  import opened ConnectionMachine
  import opened ConnectionInvariants
  import FileTransfer

  // ---- The events that call for a notification, seen from outside

  /** A send puts its whole payload on the wire at once. */
  predicate CompletesSend(m: Machine, step: Step) {
    var e := ExecutedSend(m, step);
    e.Payload? && Direct(m.c) && e.io == Wrote(|e.data|)
  }

  /** An attempt at a file request puts all that is left of it on the wire. */
  predicate CompletesFile(m: Machine, step: Step) {
    var a := FileTransfer.Attempted(m, step);
    a.Some? && Direct(m.c) && m.c.state != Disconnecting && step.io == Wrote(a.value.count)
  }

  /** The output buffer runs empty. */
  predicate Drains(m: Machine, step: Step)
    requires Enabled(m, step)
  {
    m.c.out != [] && Apply(m, step).c.out == []
  }

  predicate Completes(m: Machine, step: Step)
    requires Enabled(m, step)
  {
    CompletesSend(m, step) || CompletesFile(m, step) || Drains(m, step)
  }

  /** The buffered length goes from below the mark to the mark or above it. */
  predicate Crosses(m: Machine, step: Step)
    requires Enabled(m, step)
  {
    |m.c.out| < m.c.mark <= |Apply(m, step).c.out|
  }

  /** The notification that each kind of event calls for, if its callback is set. */
  ghost function Due(m: Machine, step: Step): seq<Note>
    requires Enabled(m, step)
  {
    if Completes(m, step) && m.c.onWriteComplete then [WriteComplete]
    else if Crosses(m, step) && m.c.onHighWater then [HighWater(|Apply(m, step).c.out|)]
    else []
  }

  lemma SendNotes(c: Conn, data: seq<char>, r: IoResult)
    requires Fits(r, |data|)
    ensures var d := SendInLoop(c, data, r);
            && d.h.notes == c.h.notes +
                 (if Direct(c) && r == Wrote(|data|) then (if c.onWriteComplete then [WriteComplete] else [])
                  else if |c.out| < c.mark <= |d.out| && c.onHighWater then [HighWater(|d.out|)] else [])
            && |c.out| <= |d.out| && (Direct(c) && r == Wrote(|data|) ==> d.out == c.out)
  {
  }

  lemma FileNotes(c: Conn, req: nat, offset: int, count: nat, r: IoResult)
    requires Fits(r, count)
    ensures var d := SendFileInLoop(c, req, offset, count, r);
            var complete := c.state != Disconnecting && Direct(c) && r == Wrote(count);
            && d.h.notes == c.h.notes + (if complete && c.onWriteComplete then [WriteComplete] else [])
            && d.out == c.out
  {
  }

  lemma WriteNotes(c: Conn, r: IoResult)
    requires Fits(r, |c.out|)
    ensures var d := HandleWrite(c, r);
            var drained := c.out != [] && d.out == [];
            && d.h.notes == c.h.notes + (if drained && c.onWriteComplete then [WriteComplete] else [])
            && |d.out| <= |c.out|
  {
  }

  lemma HandlerOutput(c: Conn, h: Handler, read: ReadResult, io: IoResult)
    requires Fits(io, |c.out|)
    ensures var d := RunHandler(c, h, read, io);
            var drained := c.out != [] && d.out == [];
            && d.h.notes == c.h.notes + (if drained && c.onWriteComplete then [WriteComplete] else [])
            && |d.out| <= |c.out|
  {
    WriteNotes(c, io);
  }

  lemma HandlerNotes(m: Machine, read: ReadResult, io: IoResult)
    requires Enabled(m, Handle(read, io))
    ensures Apply(m, Handle(read, io)).c.h.notes == m.c.h.notes + Due(m, Handle(read, io))
  {
    HandlerOutput(m.c, m.todo[0], read, io);
    assert Apply(m, Handle(read, io)).c == RunHandler(m.c, m.todo[0], read, io);
  }

  lemma TaskNotes(m: Machine, io: IoResult)
    requires Enabled(m, RunTask(io))
    ensures Apply(m, RunTask(io)).c.h.notes == m.c.h.notes + Due(m, RunTask(io))
  {
    match m.c.tasks[0]
    case RunSend(payload) => SendNotes(Popped(m.c), payload, io);
    case RunSendFile(req, offset, count) => FileNotes(Popped(m.c), req, offset, count, io);
    case _ =>
  }

  lemma UserNotes(m: Machine, step: Step)
    requires Enabled(m, step) && (step.UserSend? || step.UserSendFile?)
    ensures Apply(m, step).c.h.notes == m.c.h.notes + Due(m, step)
  {
    match step
    case UserSend(data, io) => SendNotes(m.c, data, io);
    case UserSendFile(offset, count, io) =>
      FileNotes(Request(m.c, offset, count), |m.c.h.requests|, offset, count, io);
  }

  /** One step queues exactly the notification that is due: a write-complete for a send or file that went out
      whole or a buffer that ran empty, a high-water with the new length for an upward crossing of the mark. */
  lemma StepNotes(m: Machine, step: Step)
    requires Enabled(m, step)
    ensures Apply(m, step).c.h.notes == m.c.h.notes + Due(m, step)
  {
    match step
    case UserSend(_, _) => UserNotes(m, step);
    case UserSendFile(_, _, _) => UserNotes(m, step);
    case Handle(read, io) => HandlerNotes(m, read, io);
    case RunTask(io) => TaskNotes(m, io);
    case _ => QuietNotes(m, step);
  }

  ghost predicate TouchesOutput(step: Step) {
    step.UserSend? || step.UserSendFile? || step.Handle? || step.RunTask?
  }

  lemma QuietOutput(m: Machine, step: Step)
    requires Enabled(m, step) && !TouchesOutput(step)
    ensures Apply(m, step).c.h.notes == m.c.h.notes && Apply(m, step).c.out == m.c.out
  {
  }

  lemma QuietIncomplete(m: Machine, step: Step)
    requires !TouchesOutput(step)
    ensures !CompletesSend(m, step) && !CompletesFile(m, step)
  {
  }

  lemma QuietNotes(m: Machine, step: Step)
    requires Enabled(m, step) && !TouchesOutput(step)
    ensures Apply(m, step).c.h.notes == m.c.h.notes + Due(m, step)
  {
    QuietOutput(m, step);
    QuietIncomplete(m, step);
  }

  // ---- From the queue to the callback

  /** The notifications that a queue's tasks will run, in order. */
  ghost function NotesOf(tasks: seq<Task>): seq<Note> {
    if tasks == [] then [] else NotesOf(tasks[..|tasks| - 1]) + NoteOf(tasks[|tasks| - 1])
  }

  function NoteOf(t: Task): seq<Note> {
    if t.Notify? then [t.note] else []
  }

  lemma {:induction false} NotesOfHead(tasks: seq<Task>)
    requires tasks != []
    ensures NotesOf(tasks) == NoteOf(tasks[0]) + NotesOf(tasks[1..])
  {
    var init, rest, last := tasks[..|tasks| - 1], tasks[1..], tasks[|tasks| - 1];
    if init == [] {
      assert NotesOf(init) + NoteOf(last) == NoteOf(last) + NotesOf(rest);
    } else {
      NotesOfHead(init);
      assert rest[..|rest| - 1] == init[1..] && rest[|rest| - 1] == last;
      var head, middle := NoteOf(tasks[0]), NotesOf(init[1..]);
      assert (head + middle) + NoteOf(last) == head + (middle + NoteOf(last));
    }
  }

  /** At most one task is queued, and with it the notification that it carries is put on record. */
  ghost predicate QueuesOne(c: Conn, d: Conn) {
    || (d.tasks == c.tasks && d.h.notes == c.h.notes)
    || (exists t :: d.tasks == c.tasks + [t] && d.h.notes == c.h.notes + NoteOf(t))
  }

  lemma SendQueuesOne(c: Conn, data: seq<char>, r: IoResult)
    requires Fits(r, |data|)
    ensures QueuesOne(c, SendInLoop(c, data, r))
  {
  }

  lemma FileQueuesOne(c: Conn, req: nat, offset: int, count: nat, r: IoResult)
    requires Fits(r, count)
    ensures QueuesOne(c, SendFileInLoop(c, req, offset, count, r))
  {
  }

  lemma HandlerQueuesOne(c: Conn, h: Handler, read: ReadResult, io: IoResult)
    requires Fits(io, |c.out|)
    ensures QueuesOne(c, RunHandler(c, h, read, io))
  {
  }

  lemma TaskQueuesOne(c: Conn, t: Task, io: IoResult)
    requires Fits(io, Asked(t))
    ensures QueuesOne(c, RunHead(c, t, io))
  {
    match t
    case RunSend(payload) => SendQueuesOne(c, payload, io);
    case RunSendFile(req, offset, count) => FileQueuesOne(c, req, offset, count, io);
    case _ =>
  }

  /** The notification callback that a step runs. */
  function NotesRunBy(m: Machine, step: Step): seq<Note> {
    if step.RunTask? && m.c.tasks != [] then NoteOf(m.c.tasks[0]) else []
  }

  ghost function NotesRun(ms: seq<Machine>, steps: seq<Step>, k: nat): seq<Note>
    requires k <= |steps| <= |ms|
  {
    if k == 0 then [] else NotesRun(ms, steps, k - 1) + NotesRunBy(ms[k - 1], steps[k - 1])
  }

  /** What has been put on record is what ran, followed by what is queued. */
  ghost predicate OnRecord(ran: seq<Note>, c: Conn) {
    ran + NotesOf(c.tasks) == c.h.notes
  }

  lemma QueuedOnRecord(ran: seq<Note>, c: Conn, d: Conn)
    requires OnRecord(ran, c) && QueuesOne(c, d)
    ensures OnRecord(ran, d)
  {
    if d.tasks != c.tasks {
      var t :| d.tasks == c.tasks + [t] && d.h.notes == c.h.notes + NoteOf(t);
      assert d.tasks[..|d.tasks| - 1] == c.tasks;
      assert ran + (NotesOf(c.tasks) + NoteOf(t)) == ran + NotesOf(c.tasks) + NoteOf(t);
    }
  }

  lemma PoppedOnRecord(ran: seq<Note>, c: Conn)
    requires OnRecord(ran, c) && c.tasks != []
    ensures OnRecord(ran + NoteOf(c.tasks[0]), Popped(c))
  {
    NotesOfHead(c.tasks);
    assert ran + (NoteOf(c.tasks[0]) + NotesOf(c.tasks[1..])) == ran + NoteOf(c.tasks[0]) + NotesOf(c.tasks[1..]);
  }

  ghost predicate NoNotePosted(m: Machine) {
    forall t | t in m.posting :: !t.Notify?
  }

  lemma StepNoNotePosted(m: Machine, step: Step)
    requires NoNotePosted(m) && Enabled(m, step)
    ensures NoNotePosted(Apply(m, step))
  {
  }

  lemma StepOnRecord(m: Machine, step: Step, ran: seq<Note>)
    requires OnRecord(ran, m.c) && NoNotePosted(m) && Enabled(m, step)
    ensures OnRecord(ran + NotesRunBy(m, step), Apply(m, step).c)
  {
    if step.RunTask? {
      PoppedOnRecord(ran, m.c);
      TaskQueuesOne(Popped(m.c), m.c.tasks[0], step.io);
      QueuedOnRecord(ran + NoteOf(m.c.tasks[0]), Popped(m.c), Apply(m, step).c);
    } else {
      OtherQueuesOne(m, step);
      QueuedOnRecord(ran, m.c, Apply(m, step).c);
      assert ran + [] == ran;
    }
  }

  lemma OtherQueuesOne(m: Machine, step: Step)
    requires NoNotePosted(m) && Enabled(m, step) && !step.RunTask?
    ensures QueuesOne(m.c, Apply(m, step).c)
  {
    match step
    case UserSend(data, io) => SendQueuesOne(m.c, data, io);
    case UserSendFile(offset, count, io) =>
      FileQueuesOne(Request(m.c, offset, count), |m.c.h.requests|, offset, count, io);
    case Handle(read, io) => HandlerQueuesOne(m.c, m.todo[0], read, io);
    case ForeignPost(task) =>
      assert m.c.h.notes + [] == m.c.h.notes;
      assert QueueTask(m.c, task).tasks == m.c.tasks + [task] && NoteOf(task) == [];
    case _ =>
  }

  lemma RecordAt(ms: seq<Machine>, steps: seq<Step>, k: nat)
    requires k < |steps| < |ms| && StepAt(ms, steps, k) && NoNotePosted(ms[k])
    requires OnRecord(NotesRun(ms, steps, k), ms[k].c)
    ensures NoNotePosted(ms[k + 1]) && OnRecord(NotesRun(ms, steps, k + 1), ms[k + 1].c)
  {
    StepNoNotePosted(ms[k], steps[k]);
    StepOnRecord(ms[k], steps[k], NotesRun(ms, steps, k));
  }

  lemma {:induction false} RecordLinked(ms: seq<Machine>, steps: seq<Step>, k: nat)
    requires Linked(ms, steps) && k <= |steps| && Initial(ms[0])
    ensures NoNotePosted(ms[k]) && OnRecord(NotesRun(ms, steps, k), ms[k].c)
  {
    if k > 0 {
      RecordLinked(ms, steps, k - 1);
      RecordAt(ms, steps, k - 1);
    }
  }

  /** In every run each notification reaches its callback through the loop's queue, once and in order: those whose
      callbacks have run, followed by those in the queue, are those on record. */
  lemma EachNoteRuns(ms: seq<Machine>, steps: seq<Step>, k: nat)
    requires IsRun(ms, steps) && k <= |steps|
    ensures NotesRun(ms, steps, k) + NotesOf(ms[k].c.tasks) == ms[k].c.h.notes
  {
    RunLinked(ms, steps);
    RecordLinked(ms, steps, k);
  }

  // ---- Write-complete

  ghost function CountComplete(notes: seq<Note>): nat {
    if notes == [] then 0 else CountComplete(notes[..|notes| - 1]) + if notes[|notes| - 1].WriteComplete? then 1 else 0
  }

  /** The step completes a send, a file or the buffer with the callback set. */
  ghost predicate CompletesNoted(m: Machine, step: Step) {
    Enabled(m, step) && Completes(m, step) && m.c.onWriteComplete
  }

  /** The completions of the first k steps that happened with the callback set. */
  ghost function Completions(ms: seq<Machine>, steps: seq<Step>, k: nat): nat
    requires k <= |steps| < |ms|
  {
    if k == 0 then 0 else Completions(ms, steps, k - 1) + if CompletesNoted(ms[k - 1], steps[k - 1]) then 1 else 0
  }

  lemma CountAppended(notes: seq<Note>, n: Note)
    ensures CountComplete(notes + [n]) == CountComplete(notes) + if n.WriteComplete? then 1 else 0
  {
    assert (notes + [n])[..|notes + [n]| - 1] == notes;
  }

  lemma CountStep(m: Machine, step: Step)
    requires Enabled(m, step)
    ensures CountComplete(Apply(m, step).c.h.notes) ==
            CountComplete(m.c.h.notes) + if CompletesNoted(m, step) then 1 else 0
  {
    StepNotes(m, step);
    if Due(m, step) == [] {
      assert m.c.h.notes + [] == m.c.h.notes;
    } else {
      CountAppended(m.c.h.notes, Due(m, step)[0]);
    }
  }

  lemma CountAt(ms: seq<Machine>, steps: seq<Step>, k: nat)
    requires k < |steps| < |ms| && StepAt(ms, steps, k)
    ensures CountComplete(ms[k + 1].c.h.notes) - CountComplete(ms[k].c.h.notes) ==
            Completions(ms, steps, k + 1) - Completions(ms, steps, k)
  {
    CountStep(ms[k], steps[k]);
  }

  lemma {:induction false} CountLinked(ms: seq<Machine>, steps: seq<Step>, k: nat)
    requires Linked(ms, steps) && k <= |steps| && ms[0].c.h.notes == []
    ensures CountComplete(ms[k].c.h.notes) == Completions(ms, steps, k)
  {
    if k > 0 {
      CountLinked(ms, steps, k - 1);
      CountAt(ms, steps, k - 1);
    }
  }

  /** Over every run, as many write-complete notifications are queued as sends went out whole, files were
      finished, and buffers ran empty. */
  lemma WriteCompletesCounted(ms: seq<Machine>, steps: seq<Step>, k: nat)
    requires IsRun(ms, steps) && k <= |steps|
    ensures CountComplete(ms[k].c.h.notes) == Completions(ms, steps, k)
  {
    RunLinked(ms, steps);
    CountLinked(ms, steps, k);
  }

  /** A write-complete is queued only in a state with an empty buffer and write interest off. */
  lemma WriteCompleteMeansIdle(ms: seq<Machine>, steps: seq<Step>, k: nat)
    requires IsRun(ms, steps) && k < |steps| && ms[k + 1].c.h.notes == ms[k].c.h.notes + [WriteComplete]
    ensures ms[k + 1].c.out == [] && !IsWriting(ms[k + 1].c.link)
  {
    StepNotes(ms[k], steps[k]);
    assert ms[k + 1].c.h.notes[|ms[k].c.h.notes|..] == Due(ms[k], steps[k]);
    CompletesIdle(ms[k], steps[k]);
  }

  lemma WriteIdle(c: Conn, r: IoResult)
    requires Fits(r, |c.out|) && c.out != [] && HandleWrite(c, r).out == []
    ensures !IsWriting(HandleWrite(c, r).link)
  {
  }

  lemma TaskIdle(c: Conn, t: Task, io: IoResult)
    requires Fits(io, Asked(t)) && Direct(c) && io == Wrote(Asked(t))
    ensures var d := RunHead(c, t, io); (t.RunSend? || t.RunSendFile?) ==> d.out == [] && !IsWriting(d.link)
  {
  }

  lemma OnlyWritesDrain(m: Machine, step: Step)
    requires Enabled(m, step) && |Apply(m, step).c.out| < |m.c.out|
    ensures step.Handle? && m.todo[0] == OnWrite
  {
  }

  lemma CompletesIdle(m: Machine, step: Step)
    requires Enabled(m, step) && Completes(m, step)
    ensures Apply(m, step).c.out == [] && !IsWriting(Apply(m, step).c.link)
  {
    if Drains(m, step) {
      OnlyWritesDrain(m, step);
      WriteIdle(m.c, step.io);
    } else {
      match step
      case UserSend(data, io) => TaskIdle(m.c, RunSend(data), io);
      case UserSendFile(offset, count, io) =>
        TaskIdle(Request(m.c, offset, count), RunSendFile(|m.c.h.requests|, offset, count), io);
      case RunTask(io) => TaskIdle(Popped(m.c), m.c.tasks[0], io);
    }
  }

  // ---- High water

  ghost predicate NotifiesHighWater(ms: seq<Machine>, steps: seq<Step>, k: nat)
    requires IsRun(ms, steps) && k < |steps|
  {
    exists size :: ms[k + 1].c.h.notes == ms[k].c.h.notes + [HighWater(size)]
  }

  /** A high-water notification is queued exactly at an upward crossing of the mark, and carries the buffered
      length right after it. */
  lemma HighWaterIffCrossing(ms: seq<Machine>, steps: seq<Step>, k: nat, size: nat)
    requires IsRun(ms, steps) && k < |steps|
    ensures ms[k + 1].c.h.notes == ms[k].c.h.notes + [HighWater(size)] <==>
              ms[k].c.onHighWater && |ms[k].c.out| < ms[k].c.mark <= |ms[k + 1].c.out| && size == |ms[k + 1].c.out|
  {
    StepNotes(ms[k], steps[k]);
    if Completes(ms[k], steps[k]) {
      CompletesIdle(ms[k], steps[k]);
    }
    var before, after := ms[k].c.h.notes, ms[k + 1].c.h.notes;
    assert after[|before|..] == Due(ms[k], steps[k]);
  }

  /** With a fixed mark, between any two high-water notifications a write to the socket brought the buffered
      length from the mark or above it to below it. */
  lemma HighWaterRearms(ms: seq<Machine>, steps: seq<Step>, i: nat, j: nat, mark: nat) returns (l: nat)
    requires IsRun(ms, steps) && i < j < |steps|
    requires NotifiesHighWater(ms, steps, i) && NotifiesHighWater(ms, steps, j)
    requires forall n | i <= n <= j :: ms[n].c.mark == mark
    ensures i < l < j && |ms[l].c.out| >= mark > |ms[l + 1].c.out|
    ensures steps[l].Handle? && ms[l].todo[0] == OnWrite
  {
    var a :| ms[i + 1].c.h.notes == ms[i].c.h.notes + [HighWater(a)];
    HighWaterIffCrossing(ms, steps, i, a);
    var b :| ms[j + 1].c.h.notes == ms[j].c.h.notes + [HighWater(b)];
    HighWaterIffCrossing(ms, steps, j, b);
    l := i + 1;
    while |ms[l + 1].c.out| >= mark
      invariant i < l < j && |ms[l].c.out| >= mark
      decreases j - l
    {
      l := l + 1;
    }
    OnlyWritesDrain(ms[l], steps[l]);
  }
}
