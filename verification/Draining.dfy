/** Progress: buffered bytes reach the wire as long as the socket takes any. */
module Draining {
  import opened SystemCalls
  import opened Links
  import opened Dispatch
  import opened ConnectionSpec
  import opened ConnectionMachine
  import opened ConnectionInvariants
  import Notifications
  import ForeignCalls
  import FileTransfer
  import HalfClose
  import Lifecycle

  /** The step gives the connection nothing more to send. */
  predicate Quiet(m: Machine, step: Step) {
    ExecutedSend(m, step).Nothing?
  }

  /** The step runs the write callback. */
  predicate RunsWrite(m: Machine, step: Step) {
    step.Handle? && m.todo != [] && m.todo[0] == OnWrite
  }

  /** The step writes to the socket, which takes at least one byte. */
  predicate Progresses(m: Machine, step: Step) {
    RunsWrite(m, step) && IsWriting(m.c.link) && step.io.Wrote? && step.io.n > 0
  }

  /** How many write callbacks steps a to b run. */
  ghost function Writes(ms: seq<Machine>, steps: seq<Step>, a: nat, b: nat): nat
    requires a <= b <= |steps| <= |ms|
  {
    if a == b then 0 else Writes(ms, steps, a, b - 1) + if RunsWrite(ms[b - 1], steps[b - 1]) then 1 else 0
  }

  /** No send is executed, and a write callback run while bytes are waiting gets at least one of them taken. */
  ghost predicate OnlyDrains(ms: seq<Machine>, steps: seq<Step>, i: nat)
    requires i < |steps| <= |ms|
  {
    Quiet(ms[i], steps[i]) && (RunsWrite(ms[i], steps[i]) && ms[i].c.out != [] ==> Progresses(ms[i], steps[i]))
  }

  lemma QuietStep(m: Machine, step: Step)
    requires Enabled(m, step) && Quiet(m, step)
    ensures |Apply(m, step).c.out| + (if Progresses(m, step) && m.c.out != [] then 1 else 0) <= |m.c.out|
  {
    match step
    case Handle(read, io) =>
      if Progresses(m, step) && m.c.out != [] {
        var sent := Emit(m.c, SendBytes(m.c.out[..io.n])).(out := m.c.out[io.n..]);
        DrainedFields(sent);
      } else {
        Notifications.WriteNotes(m.c, io);
      }
    case _ =>
  }

  /** A write callback is left to run on a live connection only while bytes are waiting, and only one is. */
  ghost predicate WriteDue(m: Machine) {
    InOrder(m.todo) && (Live(m.c) && OnWrite in m.todo ==> m.c.out != [])
  }

  lemma PollWriteDue(m: Machine, revents: Mask)
    requires Inv(m) && Enabled(m, Poll(revents))
    ensures WriteDue(Apply(m, Poll(revents)))
  {
    HandlersExact(revents);
    MaskFacts();
  }

  lemma HandleWriteDue(m: Machine, read: ReadResult, io: IoResult)
    requires Inv(m) && WriteDue(m) && Enabled(m, Handle(read, io))
    ensures WriteDue(Apply(m, Handle(read, io)))
  {
    var n := Apply(m, Handle(read, io));
    Lifecycle.TodoTail(m.todo);
    if Live(n.c) && OnWrite in n.todo {
      ForeignCalls.LiveBackwards(m, Handle(read, io));
      assert OnWrite in m.todo && m.todo[0] != OnWrite;
      if n.c.out == [] {
        Notifications.OnlyWritesDrain(m, Handle(read, io));
      }
    }
  }

  lemma StepWriteDue(m: Machine, step: Step)
    requires Inv(m) && WriteDue(m) && Enabled(m, step)
    ensures WriteDue(Apply(m, step))
  {
    match step
    case Poll(revents) => PollWriteDue(m, revents);
    case Handle(read, io) => HandleWriteDue(m, read, io);
    case _ =>
      var n := Apply(m, step);
      assert n.todo == m.todo;
      if Live(n.c) && OnWrite in n.todo {
        ForeignCalls.LiveBackwards(m, step);
        if n.c.out == [] {
          Notifications.OnlyWritesDrain(m, step);
        }
      }
  }

  lemma {:induction false} RunWriteDue(ms: seq<Machine>, steps: seq<Step>, k: nat)
    requires IsRun(ms, steps) && k <= |steps|
    ensures WriteDue(ms[k])
  {
    if k > 0 {
      RunWriteDue(ms, steps, k - 1);
      RunKeeps(ms, steps, k - 1);
      StepWriteDue(ms[k - 1], steps[k - 1]);
    }
  }

  /** One step of a live connection that only drains: a write callback takes at least one byte, and no step adds any. */
  lemma DrainingStep(m: Machine, step: Step)
    requires Inv(m) && WriteDue(m) && Enabled(m, step) && Quiet(m, step)
    requires !m.c.h.closed && !m.c.h.destroyed
    requires RunsWrite(m, step) && m.c.out != [] ==> Progresses(m, step)
    ensures |Apply(m, step).c.out| + (if RunsWrite(m, step) then 1 else 0) <= |m.c.out|
    ensures SentBytes(Apply(m, step).c.h.wire) + Apply(m, step).c.out == SentBytes(m.c.h.wire) + m.c.out
  {
    QuietStep(m, step);
    StepHolds(m, step);
    if RunsWrite(m, step) {
      assert Live(m.c) && OnWrite in m.todo;
    }
  }

  lemma {:induction false} WritesCount(ms: seq<Machine>, steps: seq<Step>, a: nat, b: nat)
    requires IsRun(ms, steps) && a <= b <= |steps|
    requires forall i | a <= i < b :: OnlyDrains(ms, steps, i)
    requires !ms[b].c.h.closed && !ms[b].c.h.destroyed
    ensures |ms[b].c.out| + Writes(ms, steps, a, b) <= |ms[a].c.out|
    ensures SentBytes(ms[b].c.h.wire) + ms[b].c.out == SentBytes(ms[a].c.h.wire) + ms[a].c.out
  {
    if a < b {
      NotDownBefore(ms, steps, b - 1, b);
      WritesCount(ms, steps, a, b - 1);
      RunKeeps(ms, steps, b - 1);
      RunWriteDue(ms, steps, b - 1);
      var m, step := ms[b - 1], steps[b - 1];
      assert Enabled(m, step) && ms[b] == Apply(m, step) && OnlyDrains(ms, steps, b - 1);
      DrainingStep(m, step);
    }
  }

  lemma StillDisconnecting(m: Machine, step: Step)
    requires Inv(m) && Enabled(m, step) && m.c.state == Disconnecting
    requires !Apply(m, step).c.h.closed && !Apply(m, step).c.h.destroyed
    ensures Live(m.c) && Live(Apply(m, step).c) && Apply(m, step).c.state == Disconnecting
  {
    Lifecycle.StepDowns(m, step);
    StepKeeps(m, step);
    if !step.ForeignSetState? {
      Lifecycle.StateBackIff(m, step);
      Lifecycle.StepClosed(m, step);
    }
  }

  /** A shutdown has been accepted, and bytes are still to be written before it can take effect. */
  predicate ShutdownWaits(c: Conn) {
    c.state == Disconnecting && c.out != []
  }

  /** A shutdown that waits for a live connection's buffer has shut the write side once the buffer is empty. */
  lemma {:induction false} FinishedWhenEmpty(ms: seq<Machine>, steps: seq<Step>, a: nat, b: nat)
    requires IsRun(ms, steps) && a <= b <= |steps|
    requires ShutdownWaits(ms[a].c) && Live(ms[b].c) && ms[b].c.out == []
    ensures Finished(ms[b].c)
    decreases b - a
  {
    RunKeeps(ms, steps, a);
    NotDownBefore(ms, steps, a + 1, b);
    StillDisconnecting(ms[a], steps[a]);
    if ms[a + 1].c.out == [] {
      LastWrite(ms, steps, a);
      FileTransfer.RecordGrows(ms, steps, a + 1, b);
      assert ms[b].c.h.wire[|ms[a + 1].c.h.wire| - 1] == Fin;
    } else {
      FinishedWhenEmpty(ms, steps, a + 1, b);
    }
  }

  lemma NotDownBefore(ms: seq<Machine>, steps: seq<Step>, j: nat, k: nat)
    requires IsRun(ms, steps) && j <= k <= |steps| && !ms[k].c.h.closed && !ms[k].c.h.destroyed
    ensures !ms[j].c.h.closed && !ms[j].c.h.destroyed
  {
    if ms[j].c.h.closed || ms[j].c.h.destroyed {
      Lifecycle.DownForGood(ms, steps, j, k);
    }
  }

  /** A shutdown takes effect: accepted on the loop's thread, or its queued half from another thread is run. */
  ghost predicate ShutsDown(ms: seq<Machine>, steps: seq<Step>, j: nat)
    requires j < |steps| < |ms|
  {
    || (steps[j].UserShutdown? && ms[j].c.state == Connected)
    || (steps[j].RunTask? && ms[j].c.tasks != [] && ms[j].c.tasks[0] == RunShutdown)
  }

  lemma ShutdownStep(ms: seq<Machine>, steps: seq<Step>, j: nat)
    requires IsRun(ms, steps) && j < |steps| && ShutsDown(ms, steps, j) && Live(ms[j].c)
    ensures var c, d := ms[j].c, ms[j + 1].c;
            d.state == Disconnecting && d.out == c.out && (c.out == [] ==> Finished(d))
  {
    RunKeeps(ms, steps, j);
    MaskFacts();
    if steps[j].UserShutdown? {
      HalfClose.ShutdownTakesEffect(ms, steps, j);
    } else {
      ForeignCalls.RunShutdownInv(ms, steps, j);
      Lifecycle.RunDisconnected(ms, steps, j);
    }
    assert ms[j].c.out == [] ==> ms[j + 1].c.h.wire[|ms[j].c.h.wire|] == Fin;
  }

  /** In every run, from whichever thread: once a shutdown has taken effect, a connection that is still live and
      has nothing left to write has had its write side shut. */
  lemma ShutdownCarriedOut(ms: seq<Machine>, steps: seq<Step>, j: nat, k: nat)
    requires IsRun(ms, steps) && j < k <= |steps| && ShutsDown(ms, steps, j)
    requires Live(ms[k].c) && ms[k].c.out == []
    ensures Finished(ms[k].c)
  {
    RunKeeps(ms, steps, j);
    NotDownBefore(ms, steps, j, k);
    ShutdownStep(ms, steps, j);
    if ms[j].c.out == [] {
      FileTransfer.RecordGrows(ms, steps, j + 1, k);
    } else {
      FinishedWhenEmpty(ms, steps, j + 1, k);
    }
  }

  /** A live connection that is given nothing more to send, and whose every write with bytes waiting gets at least
      one taken, runs at most as many write callbacks as bytes are waiting, and one byte waits less for each.
      Nothing is lost on the way; and once the buffer is empty, its bytes are on the wire in order, the kernel no
      longer watches for writing, and a shutdown that was waiting at any time has shut the write side. */
  lemma DrainedInTime(ms: seq<Machine>, steps: seq<Step>, a: nat, b: nat)
    requires IsRun(ms, steps) && a <= b <= |steps| && Live(ms[b].c)
    requires forall i | a <= i < b :: OnlyDrains(ms, steps, i)
    ensures |ms[b].c.out| + Writes(ms, steps, a, b) <= |ms[a].c.out|
    ensures SentBytes(ms[b].c.h.wire) + ms[b].c.out == SentBytes(ms[a].c.h.wire) + ms[a].c.out
    ensures ms[b].c.out == [] ==> !IsWriting(ms[b].c.link) && ms[b].c.link.kernel == Some(READ_EVENT)
    ensures ms[b].c.out == [] && (exists i | a <= i <= b :: ShutdownWaits(ms[i].c)) ==> Finished(ms[b].c)
  {
    WritesCount(ms, steps, a, b);
    RunKeeps(ms, steps, b);
    MaskFacts();
    if i :| a <= i <= b && ShutdownWaits(ms[i].c) && ms[b].c.out == [] {
      FinishedWhenEmpty(ms, steps, i, b);
    }
  }

  /** The step that empties a live connection's buffer turns write interest off, and, if a shutdown is waiting,
      shuts the write side. */
  lemma LastWrite(ms: seq<Machine>, steps: seq<Step>, k: nat)
    requires IsRun(ms, steps) && k < |steps| && Live(ms[k].c) && ms[k].c.out != [] && ms[k + 1].c.out == []
    ensures !IsWriting(ms[k + 1].c.link) && ms[k + 1].c.link.kernel == Some(READ_EVENT)
    ensures var before, after := ms[k].c.h.wire, ms[k + 1].c.h.wire;
            after == before + SendBytes(ms[k].c.out) + (if ms[k].c.state == Disconnecting then [Fin] else [])
  {
    RunKeeps(ms, steps, k);
    RunKeeps(ms, steps, k + 1);
    Notifications.OnlyWritesDrain(ms[k], steps[k]);
    MaskFacts();
    DrainingWrite(ms[k].c, steps[k].io);
  }

  /** A write callback by the kernel's answer: without write interest, on an error, or when nothing is taken, it
      changes nothing; otherwise what is taken is on the wire and the rest waits, and with the last byte write
      interest goes off and a waiting shutdown ends the write side. */
  lemma WriteByAnswer(m: Machine, step: Step)
    requires Enabled(m, step) && RunsWrite(m, step)
    ensures var c, d := m.c, Apply(m, step).c;
            if !IsWriting(c.link) || step.io.Failed? || step.io.n == 0 then d == c
            else
              var n, last := step.io.n, step.io.n == |c.out|;
              && d.h.wire == c.h.wire + SendBytes(c.out[..n]) + (if last && c.state == Disconnecting then [Fin] else [])
              && d.out == c.out[n..] && (IsWriting(d.link) <==> !last) && d.state == c.state && d.input == c.input
  {
    var c, r := m.c, step.io;
    assert Apply(m, step).c == HandleWrite(c, r);
    if IsWriting(c.link) && r.Wrote? && r.n > 0 {
      WrittenByAnswer(c, r.n);
    }
  }

  lemma WrittenByAnswer(c: Conn, n: nat)
    requires 0 < n <= |c.out| && IsWriting(c.link)
    ensures var d, last := Written(c, n), n == |c.out|;
            && d.h.wire == c.h.wire + SendBytes(c.out[..n]) + (if last && c.state == Disconnecting then [Fin] else [])
            && d.out == c.out[n..] && (IsWriting(d.link) <==> !last) && d.state == c.state && d.input == c.input
  {
    var sent := Emit(c, SendBytes(c.out[..n])).(out := c.out[n..]);
    DrainedFields(sent);
    FileTransfer.DrainedWire(sent);
    WritingFacts(sent.link.events);
    assert Drained(sent).input == sent.input;
  }

  lemma DrainingWrite(c: Conn, r: IoResult)
    requires Fits(r, |c.out|) && c.out != [] && HandleWrite(c, r).out == []
    ensures HandleWrite(c, r).h.wire == c.h.wire + SendBytes(c.out) + (if c.state == Disconnecting then [Fin] else [])
    ensures var d := HandleWrite(c, r); d.h.ups == c.h.ups && d.h.closed == c.h.closed && d.h.destroyed == c.h.destroyed
  {
    var sent := Emit(c, SendBytes(c.out[..r.n])).(out := c.out[r.n..]);
    assert c.out[..r.n] == c.out;
    WritingFacts(sent.link.events);
    DrainedFields(sent);
    var quiet := QueueWriteComplete(sent.(link := DisableWriting(sent.link)));
    assert c.state == Disconnecting ==> Drained(sent) == ShutdownInLoop(quiet);
  }

  /** Buffered bytes are never stuck: between two events of a live connection with bytes waiting, a poll
      that reports writability is possible, and so is the write that follows it. */
  lemma WriteAlwaysPossible(ms: seq<Machine>, steps: seq<Step>, k: nat, n: nat)
    requires IsRun(ms, steps) && k <= |steps|
    requires Live(ms[k].c) && ms[k].todo == [] && 0 < n <= |ms[k].c.out|
    ensures Enabled(ms[k], Poll(EPOLLOUT))
    ensures var polled := Apply(ms[k], Poll(EPOLLOUT)); var write := Handle(ReadFailed, Wrote(n));
            && Enabled(polled, write) && Progresses(polled, write)
            && Apply(polled, write).c.out == ms[k].c.out[n..] && Apply(polled, write).todo == []
  {
    RunKeeps(ms, steps, k);
    if Finished(ms[k].c) {
      ForeignCalls.FinishedMeansEmpty(ms, steps, k);
    }
    MaskFacts();
    assert Reportable(EPOLLOUT, READ_EVENT | WRITE_EVENT);
    assert Handlers(EPOLLOUT) == [] + [] + [] + [OnWrite];
    var sent := Emit(ms[k].c, SendBytes(ms[k].c.out[..n])).(out := ms[k].c.out[n..]);
    DrainedFields(sent);
  }

  /** From any reachable state of a live connection between two events, k buffered bytes can be written out in
      2k steps, and then a waiting shutdown has shut the write side. */
  lemma {:induction false} CanDrain(ms: seq<Machine>, steps: seq<Step>) returns (ns: seq<Machine>, next: seq<Step>)
    requires IsRun(ms, steps) && Live(ms[|steps|].c) && ms[|steps|].todo == []
    ensures ms[|steps|].c.out == [] ==> ns == ms
    ensures IsRun(ns, next) && steps <= next && |next| == |steps| + 2 * |ms[|steps|].c.out|
    ensures var before, after := ms[|steps|].c, ns[|next|].c;
            && after.out == [] && Live(after) && after.state == before.state
            && (before.out != [] && before.state == Disconnecting ==> Finished(after))
    decreases |ms[|steps|].c.out|
  {
    ns, next := ms, steps;
    var c := ms[|steps|].c;
    if c.out != [] {
      RunKeeps(ms, steps, |steps|);
      MaskFacts();
      WriteAlwaysPossible(ms, steps, |steps|, 1);
      ns, next := Extend(ns, next, Poll(EPOLLOUT));
      ns, next := Extend(ns, next, Handle(ReadFailed, Wrote(1)));
      OneByteWritten(c);
      ns, next := CanDrain(ns, next);
    }
  }

  lemma OneByteWritten(c: Conn)
    requires c.out != []
    ensures var d := HandleWrite(c, Wrote(1));
            && d.state == c.state && d.h.ups == c.h.ups && d.h.closed == c.h.closed && d.h.destroyed == c.h.destroyed
            && (|c.out| == 1 && IsWriting(c.link) && c.state == Disconnecting ==> Finished(d))
  {
    var sent := Emit(c, SendBytes(c.out[..1])).(out := c.out[1..]);
    DrainedFields(sent);
    FileTransfer.DrainedWire(sent);
    assert HandleWrite(c, Wrote(1)) == if IsWriting(c.link) then Written(c, 1) else c;
  }
}
