/** Runs that show what is not true: why some theorems keep shutdown and send on the loop's thread, or leave out an
    end of stream behind a hang-up with urgent data, and how a file can be cut off. */
module Witnesses {
  import opened SystemCalls
  import opened Links
  import opened Dispatch
  import opened ConnectionSpec
  import opened ConnectionMachine
  import opened ConnectionInvariants
  import FileTransfer
  import Overtaking

  const BOTH: Mask := READ_EVENT | WRITE_EVENT
  const NO_HISTORY: History := History([], [], [], 0, 0, false, false)
  const UP: History := History([], [], [], 1, 0, false, false)
  const FRESH: Conn := Conn(Connecting, UNUSED, [], [], [], false, false, 0, NO_HISTORY)

  function Watched(events: Mask): Link {
    Link(events, Added, true, Some(events))
  }

  /** A connection that is up and idle. */
  const IDLE: Conn := FRESH.(state := Connected, link := Watched(READ_EVENT), h := UP)

  /** No poll reports a hang-up with urgent data and without EPOLLIN. */
  ghost predicate PlainMasks(steps: seq<Step>) {
    forall i | 0 <= i < |steps| && steps[i].Poll? :: !ClosesAndReads(steps[i].revents)
  }

  lemma ReachIdle() returns (ms: seq<Machine>, steps: seq<Step>)
    ensures IsRun(ms, steps) && ms[|steps|] == Machine(IDLE, [], multiset{}, 0) && PlainMasks(steps)
  {
    MaskFacts();
    ms, steps := [Machine(FRESH, [], multiset{}, 0)], [];
    ms, steps := Extend(ms, steps, Establish);
  }

  /** A byte is waiting, and a shutdown from another thread has set the state. */
  lemma ReachWaiting() returns (ms: seq<Machine>, steps: seq<Step>)
    ensures IsRun(ms, steps)
    ensures ms[|steps|] ==
            Machine(IDLE.(state := Disconnecting, link := Watched(BOTH), out := ['a']), [], multiset{RunShutdown}, 0)
  {
    MaskFacts();
    ms, steps := ReachIdle();
    ms, steps := Extend(ms, steps, UserSend(['a'], Failed(WouldBlock)));
    assert ms[|steps|].c == IDLE.(link := Watched(BOTH), out := ['a']);
    ms, steps := Extend(ms, steps, ForeignShutdown);
    ms, steps := Extend(ms, steps, ForeignSetState);
  }

  lemma WritableOnly()
    ensures Reportable(EPOLLOUT, BOTH) && Handlers(EPOLLOUT) == [OnWrite]
    ensures Reportable(EPOLLIN, READ_EVENT) && Handlers(EPOLLIN) == [OnRead]
    ensures Reportable(EPOLLHUP | EPOLLPRI, READ_EVENT) && Handlers(EPOLLHUP | EPOLLPRI) == [OnClose, OnRead]
    ensures Reportable(EPOLLHUP, WRITE_EVENT) && Handlers(EPOLLHUP) == [OnClose]
    ensures ClosesAndReads(EPOLLHUP | EPOLLPRI) && !ClosesAndReads(EPOLLIN) && !ClosesAndReads(EPOLLHUP)
  {
  }

  lemma WriteDrains(c: Conn)
    requires c == IDLE.(state := Disconnecting, link := Watched(BOTH), out := ['a'])
    ensures HandleWrite(c, Wrote(1)) ==
            IDLE.(state := Disconnecting, h := UP.(wire := [SendByte('a'), Fin]))
  {
  }

  /** The buffer has drained and the write side is shut, with the shutdown's other half still on its way. */
  lemma ReachDrained() returns (ms: seq<Machine>, steps: seq<Step>)
    ensures IsRun(ms, steps)
    ensures ms[|steps|] == Machine(IDLE.(state := Disconnecting, h := UP.(wire := [SendByte('a'), Fin])),
                                   [], multiset{RunShutdown}, 0)
  {
    WritableOnly();
    ms, steps := ReachWaiting();
    WriteDrains(ms[|steps|].c);
    ms, steps := Extend(ms, steps, Poll(EPOLLOUT));
    ms, steps := Extend(ms, steps, Handle(ReadFailed, Wrote(1)));
  }

  /** A shutdown from another thread can shut the write side twice: once when the buffer drains, and once more
      when its queued half runs. */
  lemma ForeignShutdownTwice() returns (ms: seq<Machine>, steps: seq<Step>)
    ensures IsRun(ms, steps) && ms[|steps|].c.h.wire == [SendByte('a'), Fin, Fin]
  {
    MaskFacts();
    ms, steps := ReachDrained();
    ms, steps := Extend(ms, steps, ForeignPost(RunShutdown));
    ms, steps := Extend(ms, steps, RunTask(Failed(BrokenPipe)));
  }

  /** The connection has closed, while a shutdown from another thread has yet to set the state. */
  lemma ReachClosedBeforeSetting() returns (ms: seq<Machine>, steps: seq<Step>)
    ensures IsRun(ms, steps) && ms[|steps|].c.state == Disconnected && ms[|steps|].setting == 1
  {
    WritableOnly();
    ms, steps := ReachIdle();
    ms, steps := Extend(ms, steps, ForeignShutdown);
    ms, steps := Extend(ms, steps, Poll(EPOLLIN));
    ms, steps := Extend(ms, steps, Handle(Received([]), Failed(WouldBlock)));
  }

  /** It can also move the state back after the connection has gone down. */
  lemma ForeignShutdownGoesBack() returns (ms: seq<Machine>, steps: seq<Step>, k: nat)
    ensures IsRun(ms, steps) && k < |steps|
    ensures ms[k].c.state == Disconnected && ms[k + 1].c.state == Disconnecting
  {
    ms, steps := ReachClosedBeforeSetting();
    k := |steps|;
    ms, steps := Extend(ms, steps, ForeignSetState);
  }

  const CLOSED: Conn := IDLE.(state := Disconnected, link := Link(NONE_EVENT, Deleted, true, None),
                              h := UP.(downs := 1, closed := true))

  lemma ReadCloses()
    ensures HandleRead(IDLE, Received([])) == CLOSED
  {
    MaskFacts();
  }

  /** The connection has closed, with a send from another thread still on its way. */
  lemma ReachClosed() returns (ms: seq<Machine>, steps: seq<Step>)
    ensures IsRun(ms, steps) && PlainMasks(steps)
    ensures ms[|steps|] == Machine(CLOSED, [], multiset{RunSend(['a'])}, 0)
  {
    WritableOnly();
    ReadCloses();
    ms, steps := ReachIdle();
    ms, steps := Extend(ms, steps, ForeignSend(['a']));
    ms, steps := Extend(ms, steps, Poll(EPOLLIN));
    ms, steps := Extend(ms, steps, Handle(Received([]), Failed(WouldBlock)));
  }

  /** A send from another thread that is still queued when the connection closes is not given up, although the
      log says so: it puts the closed connection's descriptor back into the kernel's set. */
  lemma ForeignSendPutsBack() returns (ms: seq<Machine>, steps: seq<Step>)
    ensures IsRun(ms, steps) && ms[|steps|].c.state == Disconnected && ms[|steps|].c.h.closed
    ensures ms[|steps|].c.link.kernel == Some(WRITE_EVENT)
    ensures ms[|steps|].todo == [] && ms[|steps|].c.h.downs == 1 && ms[|steps|].c.h.wire == [] && PlainMasks(steps)
  {
    MaskFacts();
    ms, steps := ReachClosed();
    ms, steps := Extend(ms, steps, ForeignPost(RunSend(['a'])));
    ms, steps := Extend(ms, steps, RunTask(Failed(WouldBlock)));
  }

  /** So a hang-up on that descriptor takes the connection down a second time. */
  lemma ForeignSendTwiceDown() returns (ms: seq<Machine>, steps: seq<Step>)
    ensures IsRun(ms, steps) && ms[|steps|].c.h.downs == 2 && PlainMasks(steps)
  {
    WritableOnly();
    ms, steps := ForeignSendPutsBack();
    ms, steps := Extend(ms, steps, Poll(EPOLLHUP));
    ms, steps := Extend(ms, steps, Handle(ReadFailed, Failed(WouldBlock)));
  }

  /** A hang-up reported with urgent data and without EPOLLIN takes the connection down twice, if its read
      callback finds the end of the stream. */
  lemma HangUpWithUrgentData() returns (ms: seq<Machine>, steps: seq<Step>)
    ensures IsRun(ms, steps) && ms[|steps|].c.h.downs == 2 && ms[|steps|].c.link.kernel == Some(NONE_EVENT)
  {
    MaskFacts();
    WritableOnly();
    ms, steps := ReachIdle();
    ms, steps := Extend(ms, steps, Poll(EPOLLHUP | EPOLLPRI));
    ms, steps := Extend(ms, steps, Handle(ReadFailed, Failed(WouldBlock)));
    ms, steps := Extend(ms, steps, Handle(Received([]), Failed(WouldBlock)));
  }

  /** A file request with half of it still to go. */
  const SENDING: Conn :=
    IDLE.(tasks := [RunSendFile(0, 1, 1)], h := UP.(wire := [FileByte(0, 0)], requests := [FileRequest(0, 2)]))

  lemma FirstByteOfFile()
    ensures SendFile(IDLE, 0, 2, Wrote(1)) == SENDING
    ensures Shutdown(SENDING) == SENDING.(state := Disconnecting, h := SENDING.h.(wire := [FileByte(0, 0), Fin]))
  {
  }

  lemma ReachShutBehindFile() returns (ms: seq<Machine>, steps: seq<Step>)
    ensures IsRun(ms, steps) && ms[|steps|] == Machine(Shutdown(SENDING), [], multiset{}, 0)
  {
    FirstByteOfFile();
    ms, steps := ReachIdle();
    ms, steps := Extend(ms, steps, UserSendFile(0, 2, Wrote(1)));
    ms, steps := Extend(ms, steps, UserShutdown);
  }

  /** A shutdown right behind a sendFile that has to be retried: the write side is shut, and the retry gives the
      rest of the file up. */
  lemma ShutdownCutsFile() returns (ms: seq<Machine>, steps: seq<Step>)
    ensures IsRun(ms, steps) && ms[|steps|].c.h.wire == [FileByte(0, 0), Fin] && ms[|steps|].c.h.notes == []
    ensures ms[|steps|].c.h.requests == [FileRequest(0, 2)] && FileTransfer.EndedShort(ms[|steps|], 0)
  {
    FirstByteOfFile();
    ms, steps := ReachShutBehindFile();
    var k := |steps|;
    ms, steps := Extend(ms, steps, RunTask(Failed(BrokenPipe)));
    assert FileTransfer.GivesUpOn(ms[k], steps[k], 0);
    FileTransfer.EndsShortIff(ms, steps, |steps|, 0);
  }

  /** A send while half of a file waits for its retry goes straight to the socket, and lands inside the file. */
  lemma SendInsideFile() returns (ms: seq<Machine>, steps: seq<Step>)
    ensures IsRun(ms, steps) && ms[|steps|].c.h.wire == [FileByte(0, 0), SendByte('x'), FileByte(0, 1)]
    ensures Overtaking.Split(ms[|steps|].c.h.wire, 0)
  {
    FirstByteOfFile();
    SendBetween();
    ms, steps := ReachIdle();
    ms, steps := Extend(ms, steps, UserSendFile(0, 2, Wrote(1)));
    ms, steps := Extend(ms, steps, UserSend(['x'], Wrote(1)));
    ms, steps := Extend(ms, steps, RunTask(Wrote(1)));
    var wire := ms[|steps|].c.h.wire;
    assert Overtaking.IsFile(wire[0], 0) && wire[1].SendByte? && Overtaking.IsFile(wire[2], 0);
  }

  lemma SendBetween()
    ensures var c := Send(SENDING, ['x'], Wrote(1));
            && c == SENDING.(h := SENDING.h.(wire := [FileByte(0, 0), SendByte('x')]))
            && RunHead(Popped(c), c.tasks[0], Wrote(1)).h.wire == [FileByte(0, 0), SendByte('x'), FileByte(0, 1)]
  {
  }
}
