/** File requests: each puts a contiguous slice of its file on the wire, however often it is retried and
    whatever is sent in between, and never ahead of an earlier send. */
module FileTransfer {
  import opened SystemCalls
  import opened Links
  import opened Dispatch
  import opened ConnectionSpec
  import opened ConnectionMachine
  import opened ConnectionInvariants
  import HalfClose

  /** The file positions that a request has put on a wire, in order. */
  ghost function Positions(wire: seq<WireEvent>, req: nat): seq<int> {
    if wire == [] then [] else
      var last := wire[|wire| - 1];
      Positions(wire[..|wire| - 1], req) + if last.FileByte? && last.req == req then [last.pos] else []
  }

  ghost function Range(from: int, n: nat): seq<int> {
    seq(n, i => from + i)
  }

  lemma {:induction false} PositionsSplit(a: seq<WireEvent>, b: seq<WireEvent>, req: nat)
    ensures Positions(a + b, req) == Positions(a, req) + Positions(b, req)
  {
    if b == [] {
      assert a + b == a;
    } else {
      PositionsSplit(a, b[..|b| - 1], req);
      assert (a + b)[..|a + b| - 1] == a + b[..|b| - 1];
    }
  }

  lemma {:induction false} PositionsOfFile(req: nat, offset: int, n: nat, other: nat)
    ensures Positions(FileBytes(req, offset, n), other) == if other == req then Range(offset, n) else []
  {
    if n > 0 {
      PositionsOfFile(req, offset, n - 1, other);
      assert FileBytes(req, offset, n)[..n - 1] == FileBytes(req, offset, n - 1);
    }
  }

  lemma {:induction false} PositionsOfOthers(events: seq<WireEvent>, req: nat)
    requires forall e | e in events :: !e.FileByte?
    ensures Positions(events, req) == []
  {
    if events != [] {
      PositionsOfOthers(events[..|events| - 1], req);
    }
  }

  // ---- The requests and their tasks

  /** The request has put a slice of its file on the wire that starts at its offset and is no longer than its count. */
  ghost predicate InSlice(h: History, req: nat)
    requires req < |h.requests|
  {
    var sent := Positions(h.wire, req);
    sent == Range(h.requests[req].offset, |sent|) && |sent| <= h.requests[req].count
  }

  /** The queue entry for what is left of a request. */
  ghost function Rest(h: History, req: nat): Task
    requires req < |h.requests|
  {
    var sent, count := |Positions(h.wire, req)|, h.requests[req].count;
    RunSendFile(req, h.requests[req].offset + sent, if sent < count then count - sent else 0)
  }

  /** All of a connection's tasks, queued or about to be. */
  ghost function Pending(c: Conn, posting: multiset<Task>): multiset<Task> {
    multiset(c.tasks) + posting
  }

  ghost predicate RequestOk(h: History, r: nat) {
    if r < |h.requests| then InSlice(h, r) else Positions(h.wire, r) == []
  }

  /** A file task is the one task for what is left of its request. */
  ghost predicate TaskOk(h: History, pending: multiset<Task>, t: Task) {
    t in pending && t.RunSendFile? ==> t.req < |h.requests| && t == Rest(h, t.req) && pending[t] == 1
  }

  ghost predicate FileInv(h: History, pending: multiset<Task>) {
    && (forall r: nat :: RequestOk(h, r))
    && (forall t: Task :: TaskOk(h, pending, t))
  }

  ghost predicate NotFor(pending: multiset<Task>, req: nat, t: Task) {
    t in pending && t.RunSendFile? ==> t.req != req
  }

  ghost predicate NoTaskFor(pending: multiset<Task>, req: nat) {
    forall t: Task :: NotFor(pending, req, t)
  }

  ghost predicate SameFileTask(p: multiset<Task>, q: multiset<Task>, t: Task) {
    t.RunSendFile? ==> p[t] == q[t]
  }

  ghost predicate SameFileTasks(p: multiset<Task>, q: multiset<Task>) {
    forall t: Task :: SameFileTask(p, q, t)
  }

  lemma OthersKeep(h: History, events: seq<WireEvent>, h2: History, pending: multiset<Task>, pending2: multiset<Task>)
    requires FileInv(h, pending) && SameFileTasks(pending, pending2)
    requires h2.requests == h.requests && h2.wire == h.wire + events
    requires forall e | e in events :: !e.FileByte?
    ensures FileInv(h2, pending2)
  {
    forall r: nat ensures Positions(h2.wire, r) == Positions(h.wire, r) && RequestOk(h2, r) {
      PositionsSplit(h.wire, events, r);
      PositionsOfOthers(events, r);
      assert RequestOk(h, r);
    }
    forall t: Task ensures TaskOk(h2, pending2, t) {
      assert SameFileTask(pending, pending2, t) && TaskOk(h, pending, t);
    }
  }

  lemma TakenKeeps(h: History, pending: multiset<Task>, t: Task)
    requires FileInv(h, pending) && t in pending
    ensures FileInv(h, pending - multiset{t})
    ensures t.RunSendFile? ==> NoTaskFor(pending - multiset{t}, t.req)
    ensures TaskOk(h, pending, t)
  {
    var left := pending - multiset{t};
    forall u: Task ensures TaskOk(h, left, u) {
      assert TaskOk(h, pending, u);
    }
    forall u: Task ensures t.RunSendFile? ==> NotFor(left, t.req, u) {
      assert TaskOk(h, pending, u) && TaskOk(h, pending, t);
    }
  }

  lemma SentKeeps(h: History, pending: multiset<Task>, req: nat, n: nat, h2: History)
    requires FileInv(h, pending) && req < |h.requests| && NoTaskFor(pending, req) && n <= Rest(h, req).count
    requires h2.requests == h.requests && h2.wire == h.wire + FileBytes(req, Rest(h, req).offset, n)
    ensures FileInv(h2, pending)
    ensures Rest(h2, req) == RunSendFile(req, Rest(h, req).offset + n, Rest(h, req).count - n)
  {
    assert RequestOk(h, req);
    forall r: nat
      ensures Positions(h2.wire, r) == Positions(h.wire, r) + if r == req then Range(Rest(h, req).offset, n) else []
    {
      PositionsSplit(h.wire, FileBytes(req, Rest(h, req).offset, n), r);
      PositionsOfFile(req, Rest(h, req).offset, n, r);
    }
    forall r: nat ensures RequestOk(h2, r) {
      assert RequestOk(h, r);
      if r == req {
        assert Range(h.requests[r].offset, |Positions(h.wire, r)|) + Range(Rest(h, r).offset, n)
            == Range(h.requests[r].offset, |Positions(h2.wire, r)|);
      }
    }
    forall t: Task ensures TaskOk(h2, pending, t) {
      assert TaskOk(h, pending, t) && NotFor(pending, req, t);
    }
  }

  lemma PutKeeps(h: History, pending: multiset<Task>, req: nat)
    requires FileInv(h, pending) && req < |h.requests| && NoTaskFor(pending, req)
    ensures FileInv(h, pending + multiset{Rest(h, req)})
  {
    forall t: Task ensures TaskOk(h, pending + multiset{Rest(h, req)}, t) {
      assert TaskOk(h, pending, t) && NotFor(pending, req, t);
    }
  }

  lemma RequestKeeps(h: History, pending: multiset<Task>, request: FileRequest, h2: History)
    requires FileInv(h, pending) && h2 == h.(requests := h.requests + [request])
    ensures FileInv(h2, pending) && NoTaskFor(pending, |h.requests|)
    ensures Rest(h2, |h.requests|) == RunSendFile(|h.requests|, request.offset, request.count)
  {
    forall r: nat ensures RequestOk(h2, r) {
      assert RequestOk(h, r);
    }
    forall t: Task ensures TaskOk(h2, pending, t) && NotFor(pending, |h.requests|, t) {
      assert TaskOk(h, pending, t);
    }
    assert RequestOk(h, |h.requests|);
  }

  lemma QueuedTask(c: Conn, t: Task, posting: multiset<Task>)
    ensures Pending(QueueTask(c, t), posting) == Pending(c, posting) + multiset{t}
  {
  }

  lemma PoppedTask(c: Conn, posting: multiset<Task>)
    requires c.tasks != []
    ensures Pending(Popped(c), posting) == Pending(c, posting) - multiset{c.tasks[0]}
    ensures c.tasks[0] in Pending(c, posting)
  {
    assert c.tasks == [c.tasks[0]] + c.tasks[1..];
  }

  // ---- Each step

  lemma SendInLoopFiles(c: Conn, data: seq<char>, r: IoResult, posting: multiset<Task>)
    requires Fits(r, |data|) && FileInv(c.h, Pending(c, posting))
    ensures var d := SendInLoop(c, data, r); FileInv(d.h, Pending(d, posting))
  {
    var d := SendInLoop(c, data, r);
    HalfClose.SendInLoopTasks(c, data, r);
    var events := if Direct(c) && r.Wrote? then SendBytes(data[..r.n]) else [];
    SendInLoopWire(c, data, r);
    OthersKeep(c.h, events, d.h, Pending(c, posting), Pending(d, posting));
  }

  lemma SendInLoopWire(c: Conn, data: seq<char>, r: IoResult)
    requires Fits(r, |data|)
    ensures var d := SendInLoop(c, data, r);
            && d.h.wire == c.h.wire + (if Direct(c) && r.Wrote? then SendBytes(data[..r.n]) else [])
            && d.h.requests == c.h.requests
  {
  }

  lemma DrainedWire(c: Conn)
    ensures var d := Drained(c);
            && d.h.wire == c.h.wire + (if c.state == Disconnecting then [Fin] else []) && d.h.requests == c.h.requests
  {
  }

  lemma HandleWriteWire(c: Conn, r: IoResult) returns (events: seq<WireEvent>)
    requires Fits(r, |c.out|)
    ensures var d := HandleWrite(c, r); d.h.wire == c.h.wire + events && d.h.requests == c.h.requests
    ensures forall e | e in events :: !e.FileByte?
  {
    events := [];
    if IsWriting(c.link) && r.Wrote? && r.n > 0 {
      events := SendBytes(c.out[..r.n]);
      var sent := Emit(c, events).(out := c.out[r.n..]);
      if sent.out == [] {
        DrainedWire(sent);
        if c.state == Disconnecting {
          events := events + [Fin];
        }
      }
    }
  }

  lemma HandlerFiles(c: Conn, h: Handler, read: ReadResult, io: IoResult, posting: multiset<Task>)
    requires Fits(io, |c.out|) && FileInv(c.h, Pending(c, posting))
    ensures var d := RunHandler(c, h, read, io); FileInv(d.h, Pending(d, posting))
  {
    var d := RunHandler(c, h, read, io);
    if h.OnWrite? {
      HalfClose.HandleWriteTasks(c, io);
      var events := HandleWriteWire(c, io);
      OthersKeep(c.h, events, d.h, Pending(c, posting), Pending(d, posting));
    } else {
      OthersKeep(c.h, [], d.h, Pending(c, posting), Pending(d, posting));
    }
  }

  lemma RequeueKeeps(c: Conn, req: nat, posting: multiset<Task>)
    requires FileInv(c.h, Pending(c, posting)) && NoTaskFor(Pending(c, posting), req) && req < |c.h.requests|
    ensures var t := Rest(c.h, req); var d := RequeuedIfAny(c, req, t.offset, t.count);
            FileInv(d.h, Pending(d, posting))
  {
    PutKeeps(c.h, Pending(c, posting), req);
    QueuedTask(c, Rest(c.h, req), posting);
  }

  /** One attempt at what is left of a request, with no other task for it about. */
  lemma SendFileInLoopFiles(c: Conn, req: nat, offset: int, count: nat, r: IoResult, posting: multiset<Task>)
    requires Fits(r, count) && FileInv(c.h, Pending(c, posting)) && NoTaskFor(Pending(c, posting), req)
    requires req < |c.h.requests| && RunSendFile(req, offset, count) == Rest(c.h, req)
    ensures var d := SendFileInLoop(c, req, offset, count, r); FileInv(d.h, Pending(d, posting))
  {
    if c.state != Disconnecting && Direct(c) && r.Wrote? {
      var sent := Emit(c, FileBytes(req, offset, r.n));
      SentKeeps(c.h, Pending(c, posting), req, r.n, sent.h);
      if r.n == count {
        NoteKeeps(sent, posting);
      } else {
        RequeueKeeps(sent, req, posting);
      }
    } else {
      RequeueKeeps(c, req, posting);
    }
  }

  lemma NoteKeeps(c: Conn, posting: multiset<Task>)
    requires FileInv(c.h, Pending(c, posting))
    ensures var d := QueueWriteComplete(c); FileInv(d.h, Pending(d, posting))
  {
    var d := QueueWriteComplete(c);
    OthersKeep(c.h, [], d.h, Pending(c, posting), Pending(d, posting));
  }

  lemma TaskFiles(c: Conn, io: IoResult, posting: multiset<Task>)
    requires c.tasks != [] && Fits(io, Asked(c.tasks[0])) && FileInv(c.h, Pending(c, posting))
    ensures var d := RunHead(Popped(c), c.tasks[0], io); FileInv(d.h, Pending(d, posting))
  {
    var t := c.tasks[0];
    PoppedTask(c, posting);
    TakenKeeps(c.h, Pending(c, posting), t);
    match t
    case RunSend(payload) => SendInLoopFiles(Popped(c), payload, io, posting);
    case RunSendFile(req, offset, count) => SendFileInLoopFiles(Popped(c), req, offset, count, io, posting);
    case RunShutdown =>
      var d := ShutdownInLoop(Popped(c));
      OthersKeep(c.h, if IsWriting(c.link) then [] else [Fin], d.h, Pending(Popped(c), posting), Pending(d, posting));
    case Notify(_) =>
  }

  lemma RequestFiles(c: Conn, offset: int, count: nat, posting: multiset<Task>)
    requires FileInv(c.h, Pending(c, posting))
    ensures var d := Request(c, offset, count);
            && FileInv(d.h, Pending(d, posting)) && NoTaskFor(Pending(d, posting), |c.h.requests|)
            && Rest(d.h, |c.h.requests|) == RunSendFile(|c.h.requests|, offset, count)
  {
    RequestKeeps(c.h, Pending(c, posting), FileRequest(offset, count), Request(c, offset, count).h);
  }

  lemma UserSendFileFiles(c: Conn, offset: int, count: nat, io: IoResult, posting: multiset<Task>)
    requires Fits(io, count) && FileInv(c.h, Pending(c, posting))
    ensures var d := SendFile(c, offset, count, io); FileInv(d.h, Pending(d, posting))
  {
    if c.state == Connected {
      RequestFiles(c, offset, count, posting);
      SendFileInLoopFiles(Request(c, offset, count), |c.h.requests|, offset, count, io, posting);
    }
  }

  lemma ForeignSendFileFiles(c: Conn, offset: int, count: nat, posting: multiset<Task>)
    requires FileInv(c.h, Pending(c, posting))
    ensures var d := Request(c, offset, count);
            FileInv(d.h, Pending(d, posting + multiset{RunSendFile(|c.h.requests|, offset, count)}))
  {
    var d, req := Request(c, offset, count), |c.h.requests|;
    RequestFiles(c, offset, count, posting);
    PutKeeps(d.h, Pending(d, posting), req);
    assert Pending(d, posting + multiset{Rest(d.h, req)}) == Pending(d, posting) + multiset{Rest(d.h, req)};
  }

  ghost predicate MachineFiles(m: Machine) {
    FileInv(m.c.h, Pending(m.c, m.posting))
  }

  /** A step that puts nothing of a file on the wire and touches no file task. */
  lemma PlainFiles(m: Machine, n: Machine, events: seq<WireEvent>)
    requires MachineFiles(m)
    requires n.c.h.wire == m.c.h.wire + events && n.c.h.requests == m.c.h.requests
    requires SameFileTasks(Pending(m.c, m.posting), Pending(n.c, n.posting))
    requires forall e | e in events :: !e.FileByte?
    ensures MachineFiles(n)
  {
    OthersKeep(m.c.h, events, n.c.h, Pending(m.c, m.posting), Pending(n.c, n.posting));
  }

  lemma ShutdownFiles(m: Machine)
    requires MachineFiles(m)
    ensures MachineFiles(Apply(m, UserShutdown))
  {
    var n := Apply(m, UserShutdown);
    PlainFiles(m, n, if m.c.state == Connected && !IsWriting(m.c.link) then [Fin] else []);
  }

  lemma PostFiles(m: Machine, task: Task)
    requires MachineFiles(m) && Enabled(m, ForeignPost(task))
    ensures MachineFiles(Apply(m, ForeignPost(task)))
  {
    var n := Apply(m, ForeignPost(task));
    assert Pending(n.c, n.posting) == Pending(m.c, m.posting);
    PlainFiles(m, n, []);
  }

  lemma ForeignFiles(m: Machine, step: Step)
    requires MachineFiles(m) && Enabled(m, step)
    requires step.ForeignSend? || step.ForeignShutdown? || step.ForeignSetState?
    ensures MachineFiles(Apply(m, step))
  {
    PlainFiles(m, Apply(m, step), []);
  }

  lemma QuietFiles(m: Machine, step: Step)
    requires MachineFiles(m) && Enabled(m, step)
    requires step.UserConsume? || step.UserSetWriteComplete? || step.UserSetHighWater? ||
             step.Establish? || step.Destroy? || step.Poll?
    ensures MachineFiles(Apply(m, step))
  {
    PlainFiles(m, Apply(m, step), []);
  }

  lemma StepFiles(m: Machine, step: Step)
    requires Enabled(m, step) && MachineFiles(m)
    ensures MachineFiles(Apply(m, step))
  {
    match step
    case UserSend(data, io) =>
      if m.c.state == Connected {
        SendInLoopFiles(m.c, data, io, m.posting);
      }
    case UserSendFile(offset, count, io) => UserSendFileFiles(m.c, offset, count, io, m.posting);
    case ForeignSendFile(offset, count) => ForeignSendFileFiles(m.c, offset, count, m.posting);
    case Handle(read, io) => HandlerFiles(m.c, m.todo[0], read, io, m.posting);
    case RunTask(io) => TaskFiles(m.c, io, m.posting);
    case UserShutdown => ShutdownFiles(m);
    case ForeignSend(_) => ForeignFiles(m, step);
    case ForeignShutdown => ForeignFiles(m, step);
    case ForeignSetState => ForeignFiles(m, step);
    case ForeignPost(task) => PostFiles(m, task);
    case _ => QuietFiles(m, step);
  }

  lemma FreshFiles(m: Machine)
    requires Initial(m)
    ensures FileInv(m.c.h, Pending(m.c, m.posting))
  {
  }

  lemma {:induction false} RunFiles(ms: seq<Machine>, steps: seq<Step>, k: nat)
    requires IsRun(ms, steps) && k <= |steps|
    ensures MachineFiles(ms[k])
  {
    if k > 0 {
      RunFiles(ms, steps, k - 1);
      StepFiles(ms[k - 1], steps[k - 1]);
    } else {
      FreshFiles(ms[0]);
    }
  }

  /** In every run each request's bytes on the wire are a contiguous slice of its file, from its offset on and
      no longer than its count, whatever was sent in between and however often it was retried. */
  lemma FileSlice(ms: seq<Machine>, steps: seq<Step>, k: nat, req: nat)
    requires IsRun(ms, steps) && k <= |steps| && req < |ms[k].c.h.requests|
    ensures var request, sent := ms[k].c.h.requests[req], Positions(ms[k].c.h.wire, req);
            sent == Range(request.offset, |sent|) && |sent| <= request.count
  {
    RunFiles(ms, steps, k);
    assert RequestOk(ms[k].c.h, req);
  }

  /** A request has at most one task, queued or about to be; it starts where the slice on the wire ends, so
      that its offset plus its remaining count never changes along the chain of retries. */
  lemma TaskIsRest(ms: seq<Machine>, steps: seq<Step>, k: nat, t: Task)
    requires IsRun(ms, steps) && k <= |steps| && t in Pending(ms[k].c, ms[k].posting) && t.RunSendFile?
    ensures t.req < |ms[k].c.h.requests|
    ensures var request := ms[k].c.h.requests[t.req];
            && t.offset == request.offset + |Positions(ms[k].c.h.wire, t.req)|
            && t.offset + t.count == request.offset + request.count
    ensures Pending(ms[k].c, ms[k].posting)[t] == 1
    ensures forall u | u in Pending(ms[k].c, ms[k].posting) && u.RunSendFile? && u.req == t.req :: u == t
  {
    RunFiles(ms, steps, k);
    var h, pending := ms[k].c.h, Pending(ms[k].c, ms[k].posting);
    assert TaskOk(h, pending, t) && RequestOk(h, t.req);
    forall u | u in pending && u.RunSendFile? && u.req == t.req ensures u == t {
      assert TaskOk(h, pending, u);
    }
  }

  // ---- How an attempt ends

  /** The request that a step attempts to send from, if any. */
  function Attempted(m: Machine, step: Step): Option<Task> {
    if step.RunTask? && m.c.tasks != [] && m.c.tasks[0].RunSendFile? then Some(m.c.tasks[0])
    else if step.UserSendFile? && m.c.state == Connected then
      Some(RunSendFile(|m.c.h.requests|, step.offset, step.count))
    else None
  }

  /** An attempt gives the request up: the connection is shutting down, or the socket is broken. */
  predicate GivesUp(c: Conn, io: IoResult) {
    c.state == Disconnecting || (Direct(c) && IsFault(io))
  }

  lemma FileTasks(c: Conn, req: nat, offset: int, count: nat, r: IoResult)
    requires Fits(r, count)
    ensures var d := SendFileInLoop(c, req, offset, count, r);
            d.tasks == c.tasks ||
            exists u :: d.tasks == c.tasks + [u] && (u.Notify? || (u.RunSendFile? && u.req == req))
  {
  }

  /** One attempt, with no other task for its request about. */
  lemma AttemptEnds(c: Conn, req: nat, offset: int, count: nat, r: IoResult, posting: multiset<Task>)
    requires Fits(r, count) && req < |c.h.requests| && RequestOk(c.h, req) && NoTaskFor(Pending(c, posting), req)
    requires RunSendFile(req, offset, count) == Rest(c.h, req)
    ensures var d := SendFileInLoop(c, req, offset, count, r);
            && d.h.requests == c.h.requests
            && var request, sent := c.h.requests[req], Positions(d.h.wire, req);
               if GivesUp(c, r) then d == c
               else if |sent| < request.count then Rest(d.h, req) in d.tasks
               else sent == Range(request.offset, request.count) && NoTaskFor(Pending(d, posting), req)
  {
    if !GivesUp(c, r) {
      if Direct(c) && r.Wrote? {
        DirectAttemptEnds(c, req, offset, count, r.n, posting);
      } else if count > 0 {
        assert QueueTask(c, Rest(c.h, req)).tasks[|c.tasks|] == Rest(c.h, req);
      }
    }
  }

  lemma DirectAttemptEnds(c: Conn, req: nat, offset: int, count: nat, n: nat, posting: multiset<Task>)
    requires n <= count && req < |c.h.requests| && RequestOk(c.h, req) && NoTaskFor(Pending(c, posting), req)
    requires Direct(c) && c.state != Disconnecting && RunSendFile(req, offset, count) == Rest(c.h, req)
    ensures var d, request := SendFileInLoop(c, req, offset, count, Wrote(n)), c.h.requests[req];
            && d.h.requests == c.h.requests
            && var sent := Positions(d.h.wire, req);
               if |sent| < request.count then Rest(d.h, req) in d.tasks
               else sent == Range(request.offset, request.count) && NoTaskFor(Pending(d, posting), req)
  {
    var sent := Emit(c, FileBytes(req, offset, n));
    SentPositions(c, req, offset, n);
    if n == count {
      NoteAddsNoTask(sent, posting, req);
    } else {
      assert QueueTask(sent, Rest(sent.h, req)).tasks[|c.tasks|] == Rest(sent.h, req);
    }
  }

  lemma SentPositions(c: Conn, req: nat, offset: int, n: nat)
    requires req < |c.h.requests| && RequestOk(c.h, req)
    requires offset == Rest(c.h, req).offset && n <= Rest(c.h, req).count
    ensures var sent := Emit(c, FileBytes(req, offset, n));
            && |Positions(sent.h.wire, req)| == |Positions(c.h.wire, req)| + n
            && Positions(sent.h.wire, req) == Range(c.h.requests[req].offset, |Positions(sent.h.wire, req)|)
  {
    PositionsSplit(c.h.wire, FileBytes(req, offset, n), req);
    PositionsOfFile(req, offset, n, req);
  }

  lemma NoteAddsNoTask(c: Conn, posting: multiset<Task>, req: nat)
    requires NoTaskFor(Pending(c, posting), req)
    ensures NoTaskFor(Pending(QueueWriteComplete(c), posting), req)
  {
    forall t: Task ensures NotFor(Pending(QueueWriteComplete(c), posting), req, t) {
      assert NotFor(Pending(c, posting), req, t);
    }
  }

  /** What an attempt finds: what is left of its request, and no other task for it. */
  lemma AttemptStarts(m: Machine, step: Step) returns (c: Conn)
    requires Enabled(m, step) && MachineFiles(m) && Attempted(m, step).Some?
    ensures c == if step.RunTask? then Popped(m.c) else Request(m.c, step.offset, step.count)
    ensures var t := Attempted(m, step).value;
            && t.req < |c.h.requests| && RequestOk(c.h, t.req) && t == Rest(c.h, t.req) && Fits(step.io, t.count)
            && NoTaskFor(Pending(c, m.posting), t.req)
            && Apply(m, step) == m.(c := SendFileInLoop(c, t.req, t.offset, t.count, step.io))
  {
    var t := Attempted(m, step).value;
    if step.RunTask? {
      c := Popped(m.c);
      PoppedTask(m.c, m.posting);
      TakenKeeps(m.c.h, Pending(m.c, m.posting), t);
    } else {
      c := Request(m.c, step.offset, step.count);
      RequestFiles(m.c, step.offset, step.count, m.posting);
    }
    assert RequestOk(c.h, t.req);
  }

  /** Every attempt ends in one of three ways. It is given up, exactly when the connection is shutting down or
      the socket is broken: nothing more of the request is on the wire, and no task for it remains. Otherwise what
      is left is queued again; or, when nothing is left, the wire holds exactly the request's slice of the file,
      and no task for it remains. */
  lemma AttemptOutcome(ms: seq<Machine>, steps: seq<Step>, k: nat)
    requires IsRun(ms, steps) && k < |steps| && Attempted(ms[k], steps[k]).Some?
    ensures var c, d, pending := ms[k].c, ms[k + 1].c, Pending(ms[k + 1].c, ms[k + 1].posting);
            var req := Attempted(ms[k], steps[k]).value.req;
            && req < |d.h.requests|
            && var request, sent := d.h.requests[req], Positions(d.h.wire, req);
               if GivesUp(c, steps[k].io) then d.h.wire == c.h.wire && NoTaskFor(pending, req)
               else if |sent| < request.count then Rest(d.h, req) in d.tasks
               else sent == Range(request.offset, request.count) && NoTaskFor(pending, req)
  {
    RunFiles(ms, steps, k);
    var t := Attempted(ms[k], steps[k]).value;
    var c := AttemptStarts(ms[k], steps[k]);
    AttemptEnds(c, t.req, t.offset, t.count, steps[k].io, ms[k].posting);
  }

  /** An attempt by the kernel's answer, with nothing waiting and no shutdown accepted: a broken pipe or a reset
      gives the request up; any other error queues all of it again; and what is taken is on the wire, with a task
      for the rest if there is one. */
  lemma AttemptByAnswer(m: Machine, step: Step)
    requires Enabled(m, step) && MachineFiles(m) && Attempted(m, step).Some?
    requires m.c.out == [] && !IsWriting(m.c.link) && m.c.state != Disconnecting
    ensures var t := Attempted(m, step).value;
            var c, d := if step.RunTask? then Popped(m.c) else Request(m.c, step.offset, step.count), Apply(m, step).c;
            && d.out == [] && d.link == c.link
            && match step.io
               case Failed(BrokenPipe) => d == c
               case Failed(ConnectionReset) => d == c
               case Failed(_) => d.h.wire == c.h.wire && d.tasks == c.tasks + (if t.count > 0 then [t] else [])
               case Wrote(n) =>
                 && d.h.wire == c.h.wire + FileBytes(t.req, t.offset, n)
                 && (n < t.count ==> d.tasks == c.tasks + [RunSendFile(t.req, t.offset + n, t.count - n)])
  {
    var c := AttemptStarts(m, step);
  }

  // ---- Files never overtake sends

  /** The events that a step adds to the wire. */
  ghost function AddedBy(m: Machine, step: Step): seq<WireEvent>
    requires Enabled(m, step)
  {
    var before, after := m.c.h.wire, Apply(m, step).c.h.wire;
    if |before| <= |after| then after[|before|..] else []
  }

  lemma SendAdds(c: Conn, data: seq<char>, r: IoResult)
    requires Fits(r, |data|)
    ensures c.h.wire <= SendInLoop(c, data, r).h.wire
    ensures forall e | e in SendInLoop(c, data, r).h.wire[|c.h.wire|..] :: !e.FileByte?
  {
    SendInLoopWire(c, data, r);
  }

  lemma FileAdds(c: Conn, req: nat, offset: int, count: nat, r: IoResult)
    requires Fits(r, count)
    ensures var d := SendFileInLoop(c, req, offset, count, r);
            var attempted := c.state != Disconnecting && Direct(c) && r.Wrote?;
            d.h.wire == c.h.wire + if attempted then FileBytes(req, offset, r.n) else []
  {
  }

  lemma HandlerAdds(c: Conn, h: Handler, read: ReadResult, io: IoResult)
    requires Fits(io, |c.out|)
    ensures c.h.wire <= RunHandler(c, h, read, io).h.wire
    ensures forall e | e in RunHandler(c, h, read, io).h.wire[|c.h.wire|..] :: !e.FileByte?
  {
    var events := HandleWriteWire(c, io);
  }

  /** A step only adds to the wire; and what it adds holds file bytes only when it attempts a file request, with
      nothing waiting to be written, and then it adds nothing else. */
  lemma StepAdds(m: Machine, step: Step)
    requires Enabled(m, step)
    ensures m.c.h.wire <= Apply(m, step).c.h.wire
    ensures (exists e :: e in AddedBy(m, step) && e.FileByte?) ==>
              && Attempted(m, step).Some? && Direct(m.c) && step.io.Wrote?
              && var t := Attempted(m, step).value; AddedBy(m, step) == FileBytes(t.req, t.offset, step.io.n)
  {
    match step
    case UserSend(data, io) => SendAdds(m.c, data, io);
    case UserSendFile(offset, count, io) =>
      FileAdds(Request(m.c, offset, count), |m.c.h.requests|, offset, count, io);
    case Handle(read, io) => HandlerAdds(m.c, m.todo[0], read, io);
    case RunTask(io) =>
      match m.c.tasks[0] {
        case RunSend(payload) => SendAdds(Popped(m.c), payload, io);
        case RunSendFile(req, offset, count) => FileAdds(Popped(m.c), req, offset, count, io);
        case _ =>
      }
    case _ =>
  }

  /** In every run, when a file byte reaches the wire nothing is waiting to be written, write interest is off,
      and every payload accepted so far is already wholly on the wire. */
  lemma FilesNeverOvertake(ms: seq<Machine>, steps: seq<Step>, k: nat)
    requires IsRun(ms, steps) && k < |steps|
    requires exists e :: e in AddedBy(ms[k], steps[k]) && e.FileByte?
    ensures ms[k].c.out == [] && !IsWriting(ms[k].c.link)
    ensures SentBytes(ms[k].c.h.wire) == Accepted(ms, steps, k)
    ensures forall e | e in AddedBy(ms[k], steps[k]) :: e.FileByte?
  {
    StepAdds(ms[k], steps[k]);
    NothingLostOrReordered(ms, steps, k);
  }

  /** The wire and the record of requests only grow: no event is taken back, and a request keeps its offset
      and count. */
  lemma {:induction false} RecordGrows(ms: seq<Machine>, steps: seq<Step>, j: nat, k: nat)
    requires IsRun(ms, steps) && j <= k <= |steps|
    ensures ms[j].c.h.wire <= ms[k].c.h.wire && ms[j].c.h.requests <= ms[k].c.h.requests
  {
    if j < k {
      RecordGrows(ms, steps, j, k - 1);
      StepAdds(ms[k - 1], steps[k - 1]);
      StepRequests(ms[k - 1], steps[k - 1]);
    }
  }

  lemma HandlerRequests(c: Conn, h: Handler, read: ReadResult, io: IoResult)
    requires Fits(io, |c.out|)
    ensures RunHandler(c, h, read, io).h.requests == c.h.requests
  {
  }

  lemma TaskRequests(c: Conn, t: Task, io: IoResult)
    requires Fits(io, Asked(t))
    ensures RunHead(c, t, io).h.requests == c.h.requests
  {
  }

  lemma StepRequests(m: Machine, step: Step)
    requires Enabled(m, step)
    ensures m.c.h.requests <= Apply(m, step).c.h.requests
  {
    match step
    case UserSend(data, io) => TaskRequests(m.c, RunSend(data), io);
    case UserSendFile(offset, count, io) =>
      TaskRequests(Request(m.c, offset, count), RunSendFile(|m.c.h.requests|, offset, count), io);
    case Handle(read, io) => HandlerRequests(m.c, m.todo[0], read, io);
    case RunTask(io) => TaskRequests(Popped(m.c), m.c.tasks[0], io);
    case _ =>
  }

  // ---- How a request ends

  /** The request has no task left, and not all of its slice is on the wire. */
  ghost predicate EndedShort(m: Machine, req: nat)
    requires req < |m.c.h.requests|
  {
    NoTaskFor(Pending(m.c, m.posting), req) && |Positions(m.c.h.wire, req)| < m.c.h.requests[req].count
  }

  /** The step attempts the request while some of it is left, and gives it up. */
  predicate GivesUpOn(m: Machine, step: Step, req: nat) {
    var a := Attempted(m, step);
    a.Some? && a.value.req == req && a.value.count > 0 && GivesUp(m.c, step.io)
  }

  ghost predicate SameTask(p: multiset<Task>, q: multiset<Task>, req: nat, t: Task) {
    t.RunSendFile? && t.req == req ==> p[t] == q[t]
  }

  ghost predicate SameTasks(p: multiset<Task>, q: multiset<Task>, req: nat) {
    forall t: Task :: SameTask(p, q, req, t)
  }

  lemma SameTasksSame(p: multiset<Task>, q: multiset<Task>, req: nat)
    requires SameTasks(p, q, req)
    ensures NoTaskFor(p, req) <==> NoTaskFor(q, req)
  {
    forall t: Task ensures NotFor(p, req, t) <==> NotFor(q, req, t) {
      assert SameTask(p, q, req, t);
    }
    if NoTaskFor(p, req) {
      forall t: Task ensures NotFor(q, req, t) {
        assert NotFor(p, req, t);
      }
    }
    if NoTaskFor(q, req) {
      forall t: Task ensures NotFor(p, req, t) {
        assert NotFor(q, req, t);
      }
    }
  }

  /** The queue is as it was, or one task longer that is none for the request. */
  ghost predicate OtherQueued(c: Conn, d: Conn, req: nat) {
    d.tasks == c.tasks || exists u :: d.tasks == c.tasks + [u] && (u.RunSendFile? ==> u.req != req)
  }

  lemma OtherQueuedSame(c: Conn, d: Conn, posting: multiset<Task>, req: nat)
    requires OtherQueued(c, d, req)
    ensures SameTasks(Pending(c, posting), Pending(d, posting), req)
  {
  }

  lemma TaskQueuesOther(c: Conn, t: Task, io: IoResult, req: nat)
    requires Fits(io, Asked(t)) && (t.RunSendFile? ==> t.req != req)
    ensures OtherQueued(c, RunHead(c, t, io), req)
  {
    match t
    case RunSend(payload) => HalfClose.SendInLoopTasks(c, payload, io);
    case RunSendFile(other, offset, count) => FileTasks(c, other, offset, count, io);
    case _ =>
  }

  lemma RunTaskTasks(c: Conn, io: IoResult, posting: multiset<Task>, req: nat)
    requires c.tasks != [] && Fits(io, Asked(c.tasks[0]))
    requires c.tasks[0].RunSendFile? ==> c.tasks[0].req != req
    ensures SameTasks(Pending(c, posting), Pending(RunHead(Popped(c), c.tasks[0], io), posting), req)
  {
    var d := RunHead(Popped(c), c.tasks[0], io);
    PoppedTask(c, posting);
    TaskQueuesOther(Popped(c), c.tasks[0], io, req);
    OtherQueuedSame(Popped(c), d, posting, req);
    forall t: Task ensures SameTask(Pending(c, posting), Pending(d, posting), req, t) {
      assert SameTask(Pending(Popped(c), posting), Pending(d, posting), req, t);
    }
  }

  lemma HandlerTasks(c: Conn, h: Handler, read: ReadResult, io: IoResult, posting: multiset<Task>, req: nat)
    requires Fits(io, |c.out|)
    ensures SameTasks(Pending(c, posting), Pending(RunHandler(c, h, read, io), posting), req)
  {
    HalfClose.HandleWriteTasks(c, io);
    OtherQueuedSame(c, RunHandler(c, h, read, io), posting, req);
  }

  lemma UserTasks(m: Machine, step: Step, req: nat)
    requires Enabled(m, step) && (step.UserSend? || step.UserSendFile?) && req < |m.c.h.requests|
    ensures SameTasks(Pending(m.c, m.posting), Pending(Apply(m, step).c, Apply(m, step).posting), req)
  {
    match step {
      case UserSend(data, io) => HalfClose.SendInLoopTasks(m.c, data, io);
      case UserSendFile(offset, count, io) =>
        FileTasks(Request(m.c, offset, count), |m.c.h.requests|, offset, count, io);
    }
    OtherQueuedSame(m.c, Apply(m, step).c, m.posting, req);
  }

  lemma ForeignTasks(m: Machine, step: Step, req: nat)
    requires Enabled(m, step) && req < |m.c.h.requests|
    requires !step.UserSend? && !step.UserSendFile? && !step.Handle? && !step.RunTask?
    ensures SameTasks(Pending(m.c, m.posting), Pending(Apply(m, step).c, Apply(m, step).posting), req)
  {
  }

  /** A step that is no attempt at a request already taken on leaves that request's task alone. */
  lemma StepTasks(m: Machine, step: Step, req: nat)
    requires Enabled(m, step) && req < |m.c.h.requests|
    requires Attempted(m, step).Some? ==> Attempted(m, step).value.req != req
    ensures SameTasks(Pending(m.c, m.posting), Pending(Apply(m, step).c, Apply(m, step).posting), req)
  {
    match step
    case UserSend(_, _) => UserTasks(m, step, req);
    case UserSendFile(_, _, _) => UserTasks(m, step, req);
    case Handle(read, io) => HandlerTasks(m.c, m.todo[0], read, io, m.posting, req);
    case RunTask(io) => RunTaskTasks(m.c, io, m.posting, req);
    case _ => ForeignTasks(m, step, req);
  }

  /** Nor does it put anything of the request on the wire. */
  lemma StepPositions(m: Machine, step: Step, req: nat)
    requires Enabled(m, step)
    requires Attempted(m, step).Some? ==> Attempted(m, step).value.req != req
    ensures Positions(Apply(m, step).c.h.wire, req) == Positions(m.c.h.wire, req)
  {
    StepAdds(m, step);
    var events := AddedBy(m, step);
    PositionsSplit(m.c.h.wire, events, req);
    if e :| e in events && e.FileByte? {
      var t := Attempted(m, step).value;
      PositionsOfFile(t.req, t.offset, step.io.n, req);
    } else {
      PositionsOfOthers(events, req);
    }
    assert Apply(m, step).c.h.wire == m.c.h.wire + events;
  }

  lemma UntouchedEndedShort(m: Machine, step: Step, req: nat)
    requires Enabled(m, step) && req < |m.c.h.requests|
    requires Attempted(m, step).Some? ==> Attempted(m, step).value.req != req
    ensures req < |Apply(m, step).c.h.requests|
    ensures EndedShort(Apply(m, step), req) <==> EndedShort(m, req)
  {
    StepRequests(m, step);
    StepTasks(m, step, req);
    SameTasksSame(Pending(m.c, m.posting), Pending(Apply(m, step).c, Apply(m, step).posting), req);
    StepPositions(m, step, req);
  }

  lemma StepEndedShort(m: Machine, step: Step, req: nat)
    requires Enabled(m, step) && MachineFiles(m) && req < |Apply(m, step).c.h.requests|
    ensures EndedShort(Apply(m, step), req) <==>
              (req < |m.c.h.requests| && EndedShort(m, req)) || GivesUpOn(m, step, req)
  {
    var a := Attempted(m, step);
    if a.Some? && a.value.req == req {
      AttemptedEndedShort(m, step);
    } else if req < |m.c.h.requests| {
      UntouchedEndedShort(m, step, req);
    } else {
      NewRequest(m, step, req);
    }
  }

  lemma AttemptedEndedShort(m: Machine, step: Step)
    requires Enabled(m, step) && MachineFiles(m) && Attempted(m, step).Some?
    ensures var req := Attempted(m, step).value.req;
            && req < |Apply(m, step).c.h.requests|
            && (EndedShort(Apply(m, step), req) <==> GivesUpOn(m, step, req))
            && (req < |m.c.h.requests| ==> !EndedShort(m, req))
  {
    var t := Attempted(m, step).value;
    var c := AttemptStarts(m, step);
    AttemptEnds(c, t.req, t.offset, t.count, step.io, m.posting);
    var n := Apply(m, step);
    if step.RunTask? {
      PoppedTask(m.c, m.posting);
      assert !NotFor(Pending(m.c, m.posting), t.req, t);
    }
    if Rest(n.c.h, t.req) in n.c.tasks {
      assert !NotFor(Pending(n.c, n.posting), t.req, Rest(n.c.h, t.req));
    }
  }

  /** A request taken on by another thread has its task from the start. */
  lemma NewRequest(m: Machine, step: Step, req: nat)
    requires Enabled(m, step) && |m.c.h.requests| <= req < |Apply(m, step).c.h.requests| && Attempted(m, step).None?
    ensures !EndedShort(Apply(m, step), req)
  {
    match step
    case ForeignSendFile(offset, count) =>
      var n := Apply(m, step);
      assert !NotFor(Pending(n.c, n.posting), req, RunSendFile(req, offset, count));
    case Handle(read, io) => HandlerRequests(m.c, m.todo[0], read, io);
    case RunTask(io) => TaskRequests(Popped(m.c), m.c.tasks[0], io);
    case UserSend(data, io) => TaskRequests(m.c, RunSend(data), io);
    case _ =>
  }

  /** One of the first k steps gave the request up. */
  ghost predicate GivenUp(ms: seq<Machine>, steps: seq<Step>, k: nat, req: nat)
    requires k <= |steps| <= |ms|
  {
    k > 0 && (GivesUpOn(ms[k - 1], steps[k - 1], req) || GivenUp(ms, steps, k - 1, req))
  }

  /** In every run a request has ended short exactly when one of its attempts found the connection shutting down
      or the socket broken, with some of the file still to go. So a shutdown that overtakes a request's retry
      cuts the file off, without a notification. */
  lemma {:induction false} EndsShortIff(ms: seq<Machine>, steps: seq<Step>, k: nat, req: nat)
    requires IsRun(ms, steps) && k <= |steps| && req < |ms[k].c.h.requests|
    ensures EndedShort(ms[k], req) <==> GivenUp(ms, steps, k, req)
  {
    if k > 0 {
      RunFiles(ms, steps, k - 1);
      StepEndedShort(ms[k - 1], steps[k - 1], req);
      if req < |ms[k - 1].c.h.requests| {
        EndsShortIff(ms, steps, k - 1, req);
      } else {
        NotGivenUpYet(ms, steps, k - 1, req);
      }
    }
  }

  lemma {:induction false} NotGivenUpYet(ms: seq<Machine>, steps: seq<Step>, k: nat, req: nat)
    requires IsRun(ms, steps) && k <= |steps| && |ms[k].c.h.requests| <= req
    ensures !GivenUp(ms, steps, k, req)
  {
    if k > 0 {
      StepRequests(ms[k - 1], steps[k - 1]);
      NotGivenUpYet(ms, steps, k - 1, req);
      if GivesUpOn(ms[k - 1], steps[k - 1], req) {
        RunFiles(ms, steps, k - 1);
        AttemptedEndedShort(ms[k - 1], steps[k - 1]);
      }
    }
  }
}
