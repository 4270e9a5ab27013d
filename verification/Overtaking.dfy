/** Sends and files on one wire: a file never overtakes a send, but a send can overtake the rest of a file and so land
    inside it; and exactly when it does. */
module Overtaking {
  import opened SystemCalls
  import opened Links
  import opened ConnectionSpec
  import opened ConnectionMachine
  import opened ConnectionInvariants
  import opened FileTransfer

  /** A byte of a send stands between two bytes of the request's file. */
  ghost predicate Split(wire: seq<WireEvent>, req: nat) {
    exists i, j, l | 0 <= i < j < l < |wire| :: IsFile(wire[i], req) && wire[j].SendByte? && IsFile(wire[l], req)
  }

  predicate IsFile(e: WireEvent, req: nat) {
    e.FileByte? && e.req == req
  }

  /** Some of the request's file is on the wire, and a task for the rest, which is not empty, is pending. */
  ghost predicate Underway(m: Machine, req: nat) {
    && req < |m.c.h.requests| && Positions(m.c.h.wire, req) != []
    && var rest := Rest(m.c.h, req); rest.count > 0 && rest in Pending(m.c, m.posting)
  }

  /** The step puts a byte of a send on the wire, directly or from the buffer. */
  ghost predicate Sends(m: Machine, step: Step)
    requires Enabled(m, step)
  {
    exists e :: e in AddedBy(m, step) && e.SendByte?
  }

  // ---- Positions and indices

  lemma {:induction false} PositionsIff(wire: seq<WireEvent>, req: nat)
    ensures Positions(wire, req) != [] <==> exists i :: 0 <= i < |wire| && IsFile(wire[i], req)
  {
    if wire != [] {
      var init, last := wire[..|wire| - 1], wire[|wire| - 1];
      PositionsIff(init, req);
      if IsFile(last, req) {
        assert IsFile(wire[|wire| - 1], req);
      } else if i :| 0 <= i < |wire| && IsFile(wire[i], req) {
        assert init[i] == wire[i];
      }
    }
  }

  /** The step that put the p-th event on the wire. */
  lemma {:induction false} AddedAt(ms: seq<Machine>, steps: seq<Step>, k: nat, p: nat) returns (i: nat)
    requires IsRun(ms, steps) && k <= |steps| && p < |ms[k].c.h.wire|
    ensures i < k && |ms[i].c.h.wire| <= p < |ms[i + 1].c.h.wire|
  {
    assert Initial(ms[0]);
    if p < |ms[k - 1].c.h.wire| {
      i := AddedAt(ms, steps, k - 1, p);
    } else {
      i := k - 1;
    }
  }

  /** A step that sends adds no byte of a file. */
  lemma SendingAdds(m: Machine, step: Step)
    requires Enabled(m, step) && Sends(m, step)
    ensures forall e | e in AddedBy(m, step) :: !e.FileByte?
    ensures m.c.h.wire <= Apply(m, step).c.h.wire
  {
    StepAdds(m, step);
  }

  // ---- A request without a task sends nothing more

  lemma {:induction false} NoTaskNoMore(ms: seq<Machine>, steps: seq<Step>, j: nat, k: nat, req: nat)
    requires IsRun(ms, steps) && j <= k <= |steps| && req < |ms[j].c.h.requests|
    requires NoTaskFor(Pending(ms[j].c, ms[j].posting), req)
    ensures req < |ms[k].c.h.requests| && NoTaskFor(Pending(ms[k].c, ms[k].posting), req)
    ensures Positions(ms[k].c.h.wire, req) == Positions(ms[j].c.h.wire, req)
  {
    if j < k {
      NoTaskNoMore(ms, steps, j, k - 1, req);
      NoTaskStep(ms[k - 1], steps[k - 1], req);
    }
  }

  lemma NoTaskStep(m: Machine, step: Step, req: nat)
    requires Enabled(m, step) && req < |m.c.h.requests| && NoTaskFor(Pending(m.c, m.posting), req)
    ensures var n := Apply(m, step);
            && req < |n.c.h.requests| && NoTaskFor(Pending(n.c, n.posting), req)
            && Positions(n.c.h.wire, req) == Positions(m.c.h.wire, req)
  {
    if step.RunTask? && m.c.tasks[0].RunSendFile? {
      PoppedTask(m.c, m.posting);
      assert NotFor(Pending(m.c, m.posting), req, m.c.tasks[0]);
    }
    StepRequests(m, step);
    StepTasks(m, step, req);
    SameTasksSame(Pending(m.c, m.posting), Pending(Apply(m, step).c, Apply(m, step).posting), req);
    StepPositions(m, step, req);
  }

  /** So one that has begun and puts more on the wire later is underway. */
  lemma GrowingIsUnderway(ms: seq<Machine>, steps: seq<Step>, j: nat, k: nat, req: nat)
    requires IsRun(ms, steps) && j <= k <= |steps| && Positions(ms[j].c.h.wire, req) != []
    requires |Positions(ms[j].c.h.wire, req)| < |Positions(ms[k].c.h.wire, req)|
    ensures Underway(ms[j], req)
  {
    RunFiles(ms, steps, j);
    var h, pending := ms[j].c.h, Pending(ms[j].c, ms[j].posting);
    assert RequestOk(h, req);
    if NoTaskFor(pending, req) {
      NoTaskNoMore(ms, steps, j, k, req);
    } else {
      var t :| !NotFor(pending, req, t);
      assert TaskOk(h, pending, t);
      RecordGrows(ms, steps, j, k);
      FileSlice(ms, steps, k, req);
    }
  }

  // ---- A send inside a file

  /** Step i sends while the request is underway, and by step k more of its file is on the wire. */
  ghost predicate SendsInside(ms: seq<Machine>, steps: seq<Step>, i: nat, k: nat, req: nat)
    requires IsRun(ms, steps) && i < k <= |steps|
  {
    && Sends(ms[i], steps[i]) && Underway(ms[i], req)
    && |Positions(ms[i].c.h.wire, req)| < |Positions(ms[k].c.h.wire, req)|
  }

  /** A wire cut at one step: what was there, what the step added, and what came later. */
  lemma Cut(ms: seq<Machine>, steps: seq<Step>, i: nat, k: nat)
    returns (before: seq<WireEvent>, added: seq<WireEvent>, rest: seq<WireEvent>)
    requires IsRun(ms, steps) && i < k <= |steps|
    ensures before == ms[i].c.h.wire && before + added == ms[i + 1].c.h.wire
    ensures before + added + rest == ms[k].c.h.wire && added == AddedBy(ms[i], steps[i])
    ensures (exists e :: e in added && e.SendByte?) ==> forall e | e in added :: !e.FileByte?
  {
    StepAdds(ms[i], steps[i]);
    RecordGrows(ms, steps, i + 1, k);
    before, added := ms[i].c.h.wire, AddedBy(ms[i], steps[i]);
    rest := ms[k].c.h.wire[|ms[i + 1].c.h.wire|..];
    if Sends(ms[i], steps[i]) {
      SendingAdds(ms[i], steps[i]);
    }
  }

  lemma PositionsAround(before: seq<WireEvent>, added: seq<WireEvent>, rest: seq<WireEvent>, req: nat)
    requires forall e | e in added :: !e.FileByte?
    ensures Positions(before + added + rest, req) == Positions(before, req) + Positions(rest, req)
  {
    PositionsSplit(before + added, rest, req);
    PositionsSplit(before, added, req);
    PositionsOfOthers(added, req);
  }

  lemma SplitFromParts(before: seq<WireEvent>, added: seq<WireEvent>, rest: seq<WireEvent>, req: nat)
    requires Positions(before, req) != [] && Positions(rest, req) != []
    requires exists e :: e in added && e.SendByte?
    ensures Split(before + added + rest, req)
  {
    PositionsIff(before, req);
    PositionsIff(rest, req);
    var wire := before + added + rest;
    var a :| 0 <= a < |before| && IsFile(before[a], req);
    var b :| 0 <= b < |added| && added[b].SendByte?;
    var c :| 0 <= c < |rest| && IsFile(rest[c], req);
    assert IsFile(wire[a], req) && wire[|before| + b].SendByte? && IsFile(wire[|before| + |added| + c], req);
  }

  lemma PartsFromSplit(before: seq<WireEvent>, added: seq<WireEvent>, rest: seq<WireEvent>, req: nat, a: nat, c: nat)
    requires forall e | e in added :: !e.FileByte?
    requires a < |before| + |added| && |before| <= c < |before + added + rest|
    requires IsFile((before + added + rest)[a], req) && IsFile((before + added + rest)[c], req)
    ensures Positions(before, req) != [] && Positions(rest, req) != []
  {
    var wire := before + added + rest;
    forall p | |before| <= p < |before| + |added| ensures !IsFile(wire[p], req) {
      assert wire[p] == added[p - |before|];
    }
    PositionsIff(before, req);
    PositionsIff(rest, req);
    assert IsFile(before[a], req) && IsFile(rest[c - |before| - |added|], req);
  }

  lemma InsideSplits(ms: seq<Machine>, steps: seq<Step>, i: nat, k: nat, req: nat)
    requires IsRun(ms, steps) && i < k <= |steps| && SendsInside(ms, steps, i, k, req)
    ensures Split(ms[k].c.h.wire, req)
  {
    var before, added, rest := Cut(ms, steps, i, k);
    PositionsAround(before, added, rest, req);
    SplitFromParts(before, added, rest, req);
  }

  lemma SplitInside(ms: seq<Machine>, steps: seq<Step>, k: nat, req: nat, a: nat, b: nat, c: nat) returns (i: nat)
    requires IsRun(ms, steps) && k <= |steps| && a < b < c < |ms[k].c.h.wire|
    requires IsFile(ms[k].c.h.wire[a], req) && ms[k].c.h.wire[b].SendByte? && IsFile(ms[k].c.h.wire[c], req)
    ensures i < k && SendsInside(ms, steps, i, k, req)
  {
    i := AddedAt(ms, steps, k, b);
    var before, added, rest := Cut(ms, steps, i, k);
    assert added[b - |before|] == ms[k].c.h.wire[b];
    PartsFromSplit(before, added, rest, req, a, c);
    PositionsAround(before, added, rest, req);
    GrowingIsUnderway(ms, steps, i, k, req);
  }

  /** In every run a byte of a send stands inside a request's file on the wire exactly when some step sent while
      the request was underway and more of the file followed: only a request that waits for its retry lets a send in. */
  lemma SplitIff(ms: seq<Machine>, steps: seq<Step>, k: nat, req: nat)
    requires IsRun(ms, steps) && k <= |steps|
    ensures Split(ms[k].c.h.wire, req) <==> exists i: nat :: i < k && SendsInside(ms, steps, i, k, req)
  {
    var wire := ms[k].c.h.wire;
    if a, b, c :| 0 <= a < b < c < |wire| && IsFile(wire[a], req) && wire[b].SendByte? && IsFile(wire[c], req) {
      var i := SplitInside(ms, steps, k, req, a, b, c);
    }
    forall i: nat | i < k && SendsInside(ms, steps, i, k, req) ensures Split(ms[k].c.h.wire, req) {
      InsideSplits(ms, steps, i, k, req);
    }
  }
}
