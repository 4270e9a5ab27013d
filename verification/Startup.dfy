/** Starting a loop thread: the semaphore that hands over the thread id, and the condition variable that hands
    over the loop's address, as an interleaving of the starting thread and the new one. */
module Startup {
  import opened SystemCalls

  /** Where the starting thread is: the action it takes next. */
  datatype MainPc = CreateThread | AwaitTid | Lock | CheckLoop | Asleep | Relock | Unlock | Returned

  /** Where the new thread is. */
  datatype ChildPc =
    | NotStarted | RecordTid | PostTid | BuildLoop | RunInit | LockToPublish | Publish | NotifyMain
    | UnlockPublished | Looping | LockToClear | Clear | UnlockCleared | Ended

  datatype Owner = Free | ByMain | ByChild

  datatype World = World(
    main: MainPc,
    child: ChildPc,
    mutex: Owner,
    sem: nat,
    tid: Option<int>,            // the recorded thread id
    built: Option<int>,          // the address of the loop on the new thread's stack, once it is constructed
    initDone: bool,              // the init callback has finished
    shared: Option<int>,         // the pointer both threads see
    result: Option<int>)         // what startLoop is about to return

  datatype Step = MainStep | ChildStep(value: int) | Spurious

  ghost predicate Initial(w: World) {
    w == World(CreateThread, NotStarted, Free, 0, None, None, false, None, None)
  }

  predicate MainEnabled(w: World) {
    match w.main
    case AwaitTid => w.sem > 0
    case Lock => w.mutex.Free?
    case Relock => w.mutex.Free?
    case Asleep => false
    case Returned => false
    case _ => true
  }

  predicate ChildEnabled(w: World) {
    match w.child
    case NotStarted => false
    case LockToPublish => w.mutex.Free?
    case LockToClear => w.mutex.Free?
    case Ended => false
    case _ => true
  }

  predicate Enabled(w: World, step: Step) {
    match step
    case MainStep => MainEnabled(w)
    case ChildStep(_) => ChildEnabled(w)
    case Spurious => w.main.Asleep?
  }

  function MainNext(w: World): World {
    match w.main
    case CreateThread => w.(main := AwaitTid, child := RecordTid)
    case AwaitTid => if w.sem > 0 then w.(main := Lock, sem := w.sem - 1) else w
    case Lock => w.(main := CheckLoop, mutex := ByMain)
    case Relock => w.(main := CheckLoop, mutex := ByMain)
    case CheckLoop =>
      if w.shared.Some? then w.(main := Unlock, result := w.shared)
      else w.(main := Asleep, mutex := Free)
    case Unlock => w.(main := Returned, mutex := Free)
    case _ => w
  }

  /** value is the thread id at the first action and the loop's address when the loop is built. */
  function ChildNext(w: World, value: int): World {
    match w.child
    case RecordTid => w.(child := PostTid, tid := Some(value))
    case PostTid => w.(child := BuildLoop, sem := w.sem + 1)
    case BuildLoop => w.(child := RunInit, built := Some(value))
    case RunInit => w.(child := LockToPublish, initDone := true)
    case LockToPublish => w.(child := Publish, mutex := ByChild)
    case Publish => w.(child := NotifyMain, shared := w.built)
    case NotifyMain => w.(child := UnlockPublished, main := if w.main.Asleep? then Relock else w.main)
    case UnlockPublished => w.(child := Looping, mutex := Free)
    case Looping => w.(child := LockToClear)
    case LockToClear => w.(child := Clear, mutex := ByChild)
    case Clear => w.(child := UnlockCleared, shared := None)
    case UnlockCleared => w.(child := Ended, mutex := Free)
    case _ => w
  }

  function Apply(w: World, step: Step): World {
    match step
    case MainStep => MainNext(w)
    case ChildStep(value) => ChildNext(w, value)
    case Spurious => w.(main := Relock)
  }

  ghost predicate IsRun(ws: seq<World>, steps: seq<Step>) {
    && |ws| == |steps| + 1
    && Initial(ws[0])
    && forall i {:trigger steps[i]} | 0 <= i < |steps| ::
         Enabled(ws[i], steps[i]) && ws[i + 1] == Apply(ws[i], steps[i])
  }

  // ---- What every interleaving keeps

  predicate MainHolds(w: World) { w.main.CheckLoop? || w.main.Unlock? }

  predicate ChildHolds(w: World) {
    w.child.Publish? || w.child.NotifyMain? || w.child.UnlockPublished? || w.child.Clear? || w.child.UnlockCleared?
  }

  /** The new thread has published its loop and not yet taken it back. */
  predicate Published(w: World) {
    w.child.NotifyMain? || w.child.UnlockPublished? || w.child.Looping? || w.child.LockToClear? || w.child.Clear?
  }

  predicate Cleared(w: World) { w.child.UnlockCleared? || w.child.Ended? }

  predicate TidKnown(w: World) { !w.child.NotStarted? && !w.child.RecordTid? }

  predicate Posted(w: World) { TidKnown(w) && !w.child.PostTid? }

  predicate Ready(w: World) { Published(w) || Cleared(w) || w.child.LockToPublish? || w.child.Publish? }

  ghost predicate Inv(w: World) {
    && w.mutex == (if MainHolds(w) then ByMain else if ChildHolds(w) then ByChild else Free)
    && !(MainHolds(w) && ChildHolds(w))
    && (w.main.CreateThread? <==> w.child.NotStarted?)
    && (TidKnown(w) <==> w.tid.Some?)
    && w.sem == (if Posted(w) && w.main.AwaitTid? then 1 else 0)
    && (!w.main.CreateThread? && !w.main.AwaitTid? ==> Posted(w))
    && (w.built.Some? <==> Ready(w) || w.child.RunInit?)
    && (w.initDone <==> Ready(w))
    && w.shared == (if Published(w) then w.built else None)
    && (w.main.Asleep? ==> !Published(w) || w.child.NotifyMain?)
    && (w.result.Some? <==> w.main.Unlock? || w.main.Returned?)
    && (w.result.Some? ==> w.result == w.built && w.initDone)
  }

  lemma MainKeeps(w: World)
    requires Inv(w) && MainEnabled(w)
    ensures Inv(MainNext(w))
  {
  }

  lemma ChildKeeps(w: World, value: int)
    requires Inv(w) && ChildEnabled(w)
    ensures Inv(ChildNext(w, value))
  {
  }

  lemma {:induction false} RunKeeps(ws: seq<World>, steps: seq<Step>, k: nat)
    requires IsRun(ws, steps) && k <= |steps|
    ensures Inv(ws[k])
  {
    if k > 0 {
      RunKeeps(ws, steps, k - 1);
      match steps[k - 1] {
        case MainStep => MainKeeps(ws[k - 1]);
        case ChildStep(value) => ChildKeeps(ws[k - 1], value);
        case Spurious =>
      }
    }
  }

  /** In every interleaving, startLoop returns the address of the loop that the new thread constructed, after
      its init callback has finished and its thread id has been recorded. */
  lemma ReturnsReadyLoop(ws: seq<World>, steps: seq<Step>, k: nat)
    requires IsRun(ws, steps) && k <= |steps| && ws[k].main.Returned?
    ensures ws[k].result.Some? && ws[k].result == ws[k].built && ws[k].initDone && ws[k].tid.Some?
  {
    RunKeeps(ws, steps, k);
  }

  /** No wakeup is lost: once the new thread has published its loop and let the mutex go, the starting thread
      is not asleep until the loop is taken back. */
  lemma NoLostWakeup(ws: seq<World>, steps: seq<Step>, k: nat)
    requires IsRun(ws, steps) && k <= |steps|
    requires Published(ws[k]) && !ws[k].child.NotifyMain?
    ensures !ws[k].main.Asleep?
  {
    RunKeeps(ws, steps, k);
  }

  // ---- When startLoop can still return

  /** The new thread has taken its loop back, or holds the mutex to do so, and startLoop has not read it. */
  predicate Missed(w: World) {
    w.result.None? && (w.child.Clear? || Cleared(w))
  }

  lemma StepMissed(w: World, step: Step)
    requires Inv(w) && Enabled(w, step) && Missed(w)
    ensures Missed(Apply(w, step))
  {
  }

  /** Once the loop has come and gone unread, startLoop never returns, however the threads go on and however
      often the starting one wakes up. */
  lemma {:induction false} NeverReturns(ws: seq<World>, steps: seq<Step>, j: nat, k: nat)
    requires IsRun(ws, steps) && j <= k <= |steps| && Missed(ws[j])
    ensures Missed(ws[k]) && !ws[k].main.Returned?
  {
    RunKeeps(ws, steps, k);
    if j < k {
      NeverReturns(ws, steps, j, k - 1);
      RunKeeps(ws, steps, k - 1);
      StepMissed(ws[k - 1], steps[k - 1]);
    }
  }

  lemma Extend(ws: seq<World>, steps: seq<Step>, step: Step) returns (vs: seq<World>, next: seq<Step>)
    requires IsRun(ws, steps) && Enabled(ws[|steps|], step)
    ensures IsRun(vs, next) && vs[|next|] == Apply(ws[|steps|], step) && ws <= vs && steps <= next
  {
    vs, next := ws + [Apply(ws[|steps|], step)], steps + [step];
  }

  /** Some continuation of the run brings startLoop to its return. */
  ghost predicate CanReturn(ws: seq<World>, steps: seq<Step>) {
    exists vs: seq<World>, next: seq<Step> :: IsRun(vs, next) && ws <= vs && steps <= next && vs[|next|].main.Returned?
  }

  /** The starting thread can move, or the new one on its way to its loop. */
  lemma EitherMoves(w: World)
    requires Inv(w) && !Missed(w) && !w.main.Returned?
    ensures MainEnabled(w) || (ChildEnabled(w) && ChildLeft(w) > 0)
  {
  }

  lemma {:induction false} ReachReturn(ws: seq<World>, steps: seq<Step>) returns (vs: seq<World>, next: seq<Step>)
    requires IsRun(ws, steps) && !Missed(ws[|steps|])
    ensures IsRun(vs, next) && ws <= vs && steps <= next && vs[|next|].main.Returned?
    decreases MainLeft(ws[|steps|]) + ChildLeft(ws[|steps|])
  {
    vs, next := ws, steps;
    var w := ws[|steps|];
    if !w.main.Returned? {
      RunKeeps(ws, steps, |steps|);
      EitherMoves(w);
      vs, next := Extend(ws, steps, if MainEnabled(w) then MainStep else ChildStep(0));
      vs, next := ReachReturn(vs, next);
    }
  }

  /** In every reachable state: startLoop can still return if and only if its loop has not been taken back
      unread. */
  lemma CanReturnIff(ws: seq<World>, steps: seq<Step>)
    requires IsRun(ws, steps)
    ensures CanReturn(ws, steps) <==> !Missed(ws[|steps|])
  {
    if Missed(ws[|steps|]) {
      forall vs: seq<World>, next: seq<Step> | IsRun(vs, next) && ws <= vs && steps <= next
        ensures !vs[|next|].main.Returned?
      {
        NeverReturns(vs, next, |steps|, |next|);
      }
    } else {
      var vs, next := ReachReturn(ws, steps);
    }
  }

  // ---- How soon startLoop returns

  /** The loop does not exit in the first k steps. */
  ghost predicate LoopStays(ws: seq<World>, k: nat)
    requires k < |ws|
  {
    forall i | 0 <= i <= k :: !ws[i].child.LockToClear?
  }

  function MainLeft(w: World): nat {
    match w.main
    case CreateThread => 8
    case AwaitTid => 7
    case Lock => 6
    case CheckLoop => if w.shared.Some? then 2 else 5
    case Asleep => 4
    case Relock => if w.shared.Some? then 3 else 6
    case Unlock => 1
    case Returned => 0
  }

  function ChildLeft(w: World): nat {
    match w.child
    case NotStarted => 8
    case RecordTid => 8
    case PostTid => 7
    case BuildLoop => 6
    case RunInit => 5
    case LockToPublish => 4
    case Publish => 3
    case NotifyMain => 2
    case UnlockPublished => 1
    case _ => 0
  }

  function Spuriouses(steps: seq<Step>): nat {
    if steps == [] then 0 else Spuriouses(steps[..|steps| - 1]) + if steps[|steps| - 1].Spurious? then 1 else 0
  }

  lemma StepLeft(w: World, step: Step)
    requires Inv(w) && Enabled(w, step) && !Cleared(w) && !w.child.Clear? && !w.child.LockToClear? && !w.child.Looping?
    ensures var left, after := MainLeft(w) + ChildLeft(w), MainLeft(Apply(w, step)) + ChildLeft(Apply(w, step));
            if step.Spurious? then after <= left + 2 else after < left
  {
  }

  lemma StepLeftLooping(w: World, step: Step)
    requires Inv(w) && Enabled(w, step) && w.child.Looping? && !step.ChildStep?
    ensures MainLeft(Apply(w, step)) < MainLeft(w)
  {
  }

  lemma {:induction false} LoopStaysOn(ws: seq<World>, steps: seq<Step>, k: nat)
    requires IsRun(ws, steps) && k <= |steps| && LoopStays(ws, k)
    ensures ChildLeft(ws[k]) > 0 || ws[k].child.Looping?
  {
    if k > 0 {
      LoopStaysOn(ws, steps, k - 1);
      assert ws[k] == Apply(ws[k - 1], steps[k - 1]) && !ws[k].child.LockToClear?;
    }
  }

  /** While the loop stays, every run of both threads ends within sixteen steps and three more for each
      spurious wakeup. */
  lemma {:induction false} ReturnsSoon(ws: seq<World>, steps: seq<Step>, k: nat)
    requires IsRun(ws, steps) && k <= |steps| && LoopStays(ws, k)
    ensures k + MainLeft(ws[k]) + ChildLeft(ws[k]) <= 16 + 3 * Spuriouses(steps[..k])
  {
    if k > 0 {
      ReturnsSoon(ws, steps, k - 1);
      RunKeeps(ws, steps, k - 1);
      LoopStaysOn(ws, steps, k - 1);
      var w, step := ws[k - 1], steps[k - 1];
      assert ws[k] == Apply(w, step) && !ws[k].child.LockToClear?;
      assert steps[..k][..k - 1] == steps[..k - 1];
      if w.child.Looping? {
        StepLeftLooping(w, step);
      } else {
        StepLeft(w, step);
      }
    }
  }

  /** Until startLoop has returned: unless its loop was missed, the starting thread can move, or the new one can
      on its way to its loop. Nothing but a spurious wakeup is left exactly when the one sleeps and the other has
      ended, and then the loop was missed. */
  lemma SomeThreadMoves(ws: seq<World>, steps: seq<Step>, k: nat)
    requires IsRun(ws, steps) && k <= |steps| && !ws[k].main.Returned?
    ensures !Missed(ws[k]) ==> MainEnabled(ws[k]) || (ChildEnabled(ws[k]) && ChildLeft(ws[k]) > 0)
    ensures !MainEnabled(ws[k]) && !ChildEnabled(ws[k]) <==> ws[k].main.Asleep? && ws[k].child.Ended?
    ensures ws[k].main.Asleep? && ws[k].child.Ended? ==> Missed(ws[k])
  {
    RunKeeps(ws, steps, k);
    if !Missed(ws[k]) {
      EitherMoves(ws[k]);
    }
  }

  // ---- Why the loop has to stay

  /** The new thread publishes its loop while the starting thread is still waiting for the thread id. */
  lemma ReachPublished() returns (ws: seq<World>, steps: seq<Step>)
    ensures IsRun(ws, steps)
    ensures ws[|steps|] == World(AwaitTid, UnlockPublished, ByChild, 1, Some(7), Some(7), true, Some(7), None)
  {
    ws, steps := [World(CreateThread, NotStarted, Free, 0, None, None, false, None, None)], [];
    ws, steps := Extend(ws, steps, MainStep);
    for i := 0 to 7
      invariant IsRun(ws, steps)
      invariant ws[|steps|].main == AwaitTid && ws[|steps|].result == None
      invariant ws[|steps|] ==
                World(AwaitTid,
                      [RecordTid, PostTid, BuildLoop, RunInit, LockToPublish, Publish, NotifyMain, UnlockPublished][i],
                      if i < 5 then Free else ByChild, if i < 2 then 0 else 1, if i < 1 then None else Some(7),
                      if i < 3 then None else Some(7), i >= 4, if i < 6 then None else Some(7), None)
    {
      ws, steps := Extend(ws, steps, ChildStep(7));
    }
  }

  /** A loop that exits before the starting thread has looked leaves that thread waiting, never to return. */
  lemma EarlyExitBlocks() returns (ws: seq<World>, steps: seq<Step>)
    ensures IsRun(ws, steps) && ws[|steps|].main.Asleep? && ws[|steps|].child.Ended?
    ensures Missed(ws[|steps|]) && !CanReturn(ws, steps)
  {
    ws, steps := ReachPublished();
    ws, steps := Extend(ws, steps, ChildStep(0));
    ws, steps := Extend(ws, steps, ChildStep(0));
    ws, steps := Extend(ws, steps, ChildStep(0));
    ws, steps := Extend(ws, steps, ChildStep(0));
    ws, steps := Extend(ws, steps, ChildStep(0));
    ws, steps := Extend(ws, steps, MainStep);
    ws, steps := Extend(ws, steps, MainStep);
    ws, steps := Extend(ws, steps, MainStep);
    CanReturnIff(ws, steps);
  }
}
