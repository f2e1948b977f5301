/**
The libuv handle polyfills and the count of external operations that keeps the
event loop alive: async, check and poll handles, close tasks, queued work, async
work and threadsafe functions all take and give back references to the loop.

`Handle` and `Apply` say what each call does to a handle and to the count; the
class `UvHandle` is the calls. The ledger relates the count to who is owed what.
*/
module UvHandles {
  import opened Sets

  datatype Kind = Async | Check | Poll

  /** `bridged` is whether a poll handle still has its bridge. */
  datatype Handle = Handle(kind: Kind, active: bool, refed: bool, closing: bool, bridged: bool)

  datatype Op =
    | Ref
    | Unref
    | CheckStart(hasCallback: bool)
    | CheckStop
    | PollStart
    | PollStop
    | Close

  /** A handle as its init call leaves it. */
  function Fresh(kind: Kind): Handle {
    Handle(kind, false, true, false, kind.Poll?)
  }

  function One(b: bool): int {
    if b then 1 else 0
  }

  /** What a handle does to the loop's count by being in the state it is in. */
  predicate KeepsLoopAlive(h: Handle) {
    if h.kind.Async? then h.refed else h.active && h.refed
  }

  // ----------------------------------------- the calls: handle and count change

  function Start(h: Handle): (Handle, int) {
    if h.active then (h, 0) else (h.(active := true), One(h.refed))
  }

  function Stop(h: Handle): (Handle, int) {
    if h.active then (h.(active := false), -One(h.refed)) else (h, 0)
  }

  function ApplyRef(h: Handle): (Handle, int) {
    if h.refed then (h, 0) else (h.(refed := true), One(h.kind.Async? || h.active))
  }

  function ApplyUnref(h: Handle): (Handle, int) {
    if h.refed then (h.(refed := false), -One(h.kind.Async? || h.active)) else (h, 0)
  }

  /** Closing: an async handle trades its reference for one of the close task. */
  function ApplyClose(h: Handle): (Handle, int) {
    match h.kind
    case Async => if h.closing then (h, 0) else (h.(closing := true, refed := false), 1 - One(h.refed))
    case Check => Stop(h)
    case Poll => if h.bridged then (Stop(h).0.(bridged := false), Stop(h).1) else (h, 0)
  }

  predicate SpawnsClose(h: Handle, op: Op) {
    op.Close? && h.kind.Async? && !h.closing
  }

  predicate Fits(h: Handle, op: Op) {
    match op
    case CheckStart(_) => h.kind.Check?
    case CheckStop => h.kind.Check?
    case PollStart => h.kind.Poll?
    case PollStop => h.kind.Poll?
    case _ => true
  }

  function Apply(h: Handle, op: Op): (Handle, int) {
    match op
    case Ref => ApplyRef(h)
    case Unref => ApplyUnref(h)
    case CheckStart(hasCallback) => if hasCallback then Start(h) else (h, 0)
    case CheckStop => Stop(h)
    case PollStart => if h.bridged then Start(h) else (h, 0)
    case PollStop => if h.bridged then Stop(h) else (h, 0)
    case Close => ApplyClose(h)
  }

  /** Every call changes the count by what it changes in the handle's claim on the
      loop, plus one for the close task it may spawn. */
  lemma CountFollowsClaim(h: Handle, op: Op)
    requires Fits(h, op)
    ensures Apply(h, op).1 == One(KeepsLoopAlive(Apply(h, op).0)) - One(KeepsLoopAlive(h)) + One(SpawnsClose(h, op))
    ensures Apply(h, op).0.kind == h.kind
  {
  }

  // ------------------------------------------------------------------ the class

  class OpsTracker {
    var count: int

    constructor ()
      ensures count == 0
    {
      count := 0;
    }

    method RefOp()
      modifies this
      ensures count == old(count) + 1
    {
      count := count + 1;
    }

    method UnrefOp()
      modifies this
      ensures count == old(count) - 1
    {
      count := count - 1;
    }
  }

  class UvHandle {
    const kind: Kind
    const tracker: OpsTracker
    var active: bool
    var refed: bool
    var closing: bool
    var bridged: bool

    function Value(): Handle
      reads this
    {
      Handle(kind, active, refed, closing, bridged)
    }

    constructor (kind: Kind, tracker: OpsTracker)
      modifies tracker
      ensures this.kind == kind && this.tracker == tracker && Value() == Fresh(kind)
      ensures tracker.count == old(tracker.count) + One(KeepsLoopAlive(Fresh(kind)))
    {
      this.kind, this.tracker := kind, tracker;
      active, refed, closing, bridged := false, true, false, kind.Poll?;
      if kind.Async? {
        tracker.RefOp();
      }
    }

    /** Refs the handle; the count moves with the handle's claim on the loop. */
    method UvRef()
      modifies this, tracker
      ensures refed && Value() == old(Value()).(refed := true)
      ensures tracker.count - old(tracker.count) == One(KeepsLoopAlive(Value())) - One(KeepsLoopAlive(old(Value())))
      ensures Value() == Apply(old(Value()), Ref).0
    {
      if !refed {
        refed := true;
        if kind.Async? || active {
          tracker.RefOp();
        }
      }
    }

    method UvUnref()
      modifies this, tracker
      ensures !refed && Value() == old(Value()).(refed := false)
      ensures tracker.count - old(tracker.count) == One(KeepsLoopAlive(Value())) - One(KeepsLoopAlive(old(Value())))
      ensures Value() == Apply(old(Value()), Unref).0
    {
      if refed {
        refed := false;
        if kind.Async? || active {
          tracker.UnrefOp();
        }
      }
    }

    /** Every start with a callback queues a call of it, active already or not. */
    method UvCheckStart(hasCallback: bool) returns (queued: bool)
      requires kind.Check?
      modifies this, tracker
      ensures queued == hasCallback && Value() == old(Value()).(active := hasCallback || old(active))
      ensures tracker.count - old(tracker.count) == One(KeepsLoopAlive(Value())) - One(KeepsLoopAlive(old(Value())))
      ensures Value() == Apply(old(Value()), CheckStart(hasCallback)).0
    {
      queued := false;
      if hasCallback {
        if !active {
          active := true;
          if refed {
            tracker.RefOp();
          }
        }
        queued := true;
      }
    }

    method UvCheckStop()
      requires kind.Check?
      modifies this, tracker
      ensures Value() == old(Value()).(active := false)
      ensures tracker.count - old(tracker.count) == One(KeepsLoopAlive(Value())) - One(KeepsLoopAlive(old(Value())))
      ensures Value() == Apply(old(Value()), CheckStop).0
    {
      if active {
        active := false;
        if refed {
          tracker.UnrefOp();
        }
      }
    }

    method UvPollStart() returns (ok: bool)
      requires kind.Poll?
      modifies this, tracker
      ensures ok == old(bridged) && Value() == old(Value()).(active := ok || old(active))
      ensures tracker.count - old(tracker.count) == One(KeepsLoopAlive(Value())) - One(KeepsLoopAlive(old(Value())))
      ensures Value() == Apply(old(Value()), PollStart).0
    {
      ok := bridged;
      if bridged && !active {
        active := true;
        if refed {
          tracker.RefOp();
        }
      }
    }

    method UvPollStop()
      requires kind.Poll?
      modifies this, tracker
      ensures Value() == old(Value()).(active := active) && (old(bridged) ==> !active) && (!old(bridged) ==> active == old(active))
      ensures tracker.count - old(tracker.count) == One(KeepsLoopAlive(Value())) - One(KeepsLoopAlive(old(Value())))
      ensures Value() == Apply(old(Value()), PollStop).0
    {
      if bridged && active {
        active := false;
        if refed {
          tracker.UnrefOp();
        }
      }
    }

    /** Closing an async handle spawns a close task, with a reference to the loop, the
        first time and never again; other handles are stopped and the close callback,
        if there is one, is called at once. */
    method UvClose(hasCallback: bool) returns (spawned: bool, called: bool)
      modifies this, tracker
      ensures spawned <==> kind.Async? && !old(closing)
      ensures called <==> !kind.Async? && hasCallback
      ensures tracker.count - old(tracker.count) == One(KeepsLoopAlive(Value())) - One(KeepsLoopAlive(old(Value()))) + One(spawned)
      ensures kind.Async? ==> Value() == if old(closing) then old(Value()) else old(Value()).(closing := true, refed := false)
      ensures kind.Check? ==> Value() == old(Value()).(active := false)
      ensures kind.Poll? ==> !bridged && (old(bridged) ==> !active) && Value() == old(Value()).(active := active, bridged := false)
      ensures kind.Poll? && !old(bridged) ==> active == old(active)
      ensures Value() == Apply(old(Value()), Close).0
    {
      spawned, called := false, false;
      match kind
      case Async =>
        if !closing {
          closing := true;
          tracker.RefOp();
          if refed {
            tracker.UnrefOp();
            refed := false;
          }
          spawned := true;
        }
      case Check =>
        UvCheckStop();
        called := hasCallback;
      case Poll =>
        UvPollStop();
        bridged := false;
        called := hasCallback;
    }
  }

  // ------------------------------------------------------------------ the ledger

  /** Everything that holds references to one event loop. */
  datatype State = State(handles: map<int, Handle>, closeTasks: set<int>, works: set<int>, asyncTasks: set<int>,
                         tsfns: map<int, bool>, count: int)

  datatype Step =
    | InitHandle(h: int, kind: Kind)
    | Call(h: int, op: Op, task: int)
    | RunClose(task: int)
    | QueueWork(work: int)
    | FinishWork(work: int)
    | QueueAsync(task: int)
    | FinishAsync(task: int)
    | CreateTsfn(f: int)
    | RefTsfn(f: int)
    | UnrefTsfn(f: int)
    | DropTsfn(f: int)

  const INIT := State(map[], {}, {}, {}, map[], 0)

  predicate Enabled(s: State, step: Step) {
    match step
    case InitHandle(h, _) => h !in s.handles
    case Call(h, op, task) => h in s.handles && Fits(s.handles[h], op) && (SpawnsClose(s.handles[h], op) ==> task !in s.closeTasks)
    case RunClose(task) => task in s.closeTasks
    case QueueWork(work) => work !in s.works
    case FinishWork(work) => work in s.works
    case QueueAsync(task) => task !in s.asyncTasks
    case FinishAsync(task) => task in s.asyncTasks
    case CreateTsfn(f) => f !in s.tsfns
    case RefTsfn(f) => f in s.tsfns
    case UnrefTsfn(f) => f in s.tsfns
    case DropTsfn(f) => f in s.tsfns
  }

  function AfterCall(s: State, h: int, op: Op, task: int): State
    requires h in s.handles
  {
    var r := Apply(s.handles[h], op);
    s.(handles := s.handles[h := r.0], count := s.count + r.1,
       closeTasks := if SpawnsClose(s.handles[h], op) then s.closeTasks + {task} else s.closeTasks)
  }

  function Next(s: State, step: Step): State
    requires Enabled(s, step)
  {
    match step
    case InitHandle(h, kind) =>
      s.(handles := s.handles[h := Fresh(kind)], count := s.count + One(kind.Async?))
    case Call(h, op, task) => AfterCall(s, h, op, task)
    case RunClose(task) => s.(closeTasks := s.closeTasks - {task}, count := s.count - 1)
    case QueueWork(work) => s.(works := s.works + {work}, count := s.count + 1)
    case FinishWork(work) => s.(works := s.works - {work}, count := s.count - 1)
    case QueueAsync(task) => s.(asyncTasks := s.asyncTasks + {task}, count := s.count + 1)
    case FinishAsync(task) => s.(asyncTasks := s.asyncTasks - {task}, count := s.count - 1)
    case CreateTsfn(f) => s.(tsfns := s.tsfns[f := true], count := s.count + 1)
    case RefTsfn(f) => if s.tsfns[f] then s else s.(tsfns := s.tsfns[f := true], count := s.count + 1)
    case UnrefTsfn(f) => if s.tsfns[f] then s.(tsfns := s.tsfns[f := false], count := s.count - 1) else s
    case DropTsfn(f) => s.(tsfns := s.tsfns - {f}, count := s.count - One(s.tsfns[f]))
  }

  predicate Runs(s: State, steps: seq<Step>)
    decreases |steps|
  {
    steps == [] || (Enabled(s, steps[0]) && Runs(Next(s, steps[0]), steps[1..]))
  }

  function Exec(s: State, steps: seq<Step>): State
    requires Runs(s, steps)
    decreases |steps|
  {
    if steps == [] then s else Exec(Next(s, steps[0]), steps[1..])
  }

  function RefedAsyncs(handles: map<int, Handle>): set<int> {
    set h | h in handles && handles[h].kind.Async? && handles[h].refed
  }

  function ActiveRefed(handles: map<int, Handle>): set<int> {
    set h | h in handles && !handles[h].kind.Async? && handles[h].active && handles[h].refed
  }

  function RefedTsfns(tsfns: map<int, bool>): set<int> {
    set f | f in tsfns && tsfns[f]
  }

  /** The count is the sum of all that is owed. */
  predicate Balanced(s: State) {
    s.count == |RefedAsyncs(s.handles)| + |ActiveRefed(s.handles)| + |s.closeTasks| + |s.works| + |s.asyncTasks| + |RefedTsfns(s.tsfns)|
  }

  /** Putting a handle in place of an absent one or one of its own kind. */
  lemma HandleCounts(handles: map<int, Handle>, h: int, v: Handle)
    requires h in handles ==> handles[h].kind == v.kind
    ensures var after := handles[h := v];
            |RefedAsyncs(after)| + |ActiveRefed(after)| ==
            |RefedAsyncs(handles)| + |ActiveRefed(handles)| + One(KeepsLoopAlive(v)) - One(h in handles && KeepsLoopAlive(handles[h]))
  {
    var after := handles[h := v];
    assert RefedAsyncs(handles) - {h} == RefedAsyncs(after) - {h};
    assert ActiveRefed(handles) - {h} == ActiveRefed(after) - {h};
    CountMoves(RefedAsyncs(handles), RefedAsyncs(after), h);
    CountMoves(ActiveRefed(handles), ActiveRefed(after), h);
  }

  lemma TsfnCounts(tsfns: map<int, bool>, f: int, after: map<int, bool>)
    requires after == tsfns - {f} || after == tsfns[f := true] || after == tsfns[f := false]
    ensures |RefedTsfns(after)| == |RefedTsfns(tsfns)| - One(f in tsfns && tsfns[f]) + One(f in after && after[f])
  {
    assert RefedTsfns(tsfns) - {f} == RefedTsfns(after) - {f};
    CountMoves(RefedTsfns(tsfns), RefedTsfns(after), f);
  }

  lemma CallKeepsBalance(s: State, h: int, op: Op, task: int)
    requires Balanced(s) && h in s.handles && Fits(s.handles[h], op)
    requires SpawnsClose(s.handles[h], op) ==> task !in s.closeTasks
    ensures Balanced(AfterCall(s, h, op, task))
  {
    var s' := AfterCall(s, h, op, task);
    CountFollowsClaim(s.handles[h], op);
    HandleCounts(s.handles, h, s'.handles[h]);
    assert |s'.closeTasks| == |s.closeTasks| + One(SpawnsClose(s.handles[h], op));
    hide RefedAsyncs, ActiveRefed, Apply, SpawnsClose, KeepsLoopAlive;
  }

  lemma InitKeepsBalance(s: State, h: int, kind: Kind)
    requires Balanced(s) && h !in s.handles
    ensures Balanced(s.(handles := s.handles[h := Fresh(kind)], count := s.count + One(kind.Async?)))
  {
    HandleCounts(s.handles, h, Fresh(kind));
    hide RefedAsyncs, ActiveRefed;
  }

  /** Threadsafe functions change their own part of the sum only. */
  lemma TsfnKeepsBalance(s: State, f: int, after: map<int, bool>)
    requires Balanced(s) && (after == s.tsfns - {f} || after == s.tsfns[f := true] || after == s.tsfns[f := false])
    ensures Balanced(s.(tsfns := after, count := s.count - One(f in s.tsfns && s.tsfns[f]) + One(f in after && after[f])))
  {
    TsfnCounts(s.tsfns, f, after);
    hide RefedTsfns;
  }

  /** Work, async work and close tasks: one more or one less, in step with the count. */
  lemma TaskKeepsBalance(s: State, step: Step)
    requires Balanced(s) && Enabled(s, step)
    requires step.RunClose? || step.QueueWork? || step.FinishWork? || step.QueueAsync? || step.FinishAsync?
    ensures Balanced(Next(s, step))
  {
    hide RefedAsyncs, ActiveRefed, RefedTsfns, Apply, Fits, SpawnsClose;
    match step
    case RunClose(task) => CountAt(s.closeTasks, task);
    case FinishWork(work) => CountAt(s.works, work);
    case FinishAsync(task) => CountAt(s.asyncTasks, task);
    case _ =>
  }

  lemma StepKeepsBalance(s: State, step: Step)
    requires Balanced(s) && Enabled(s, step)
    ensures Balanced(Next(s, step))
  {
    hide Balanced, Apply, Fits, SpawnsClose;
    match step
    case InitHandle(h, kind) => InitKeepsBalance(s, h, kind);
    case Call(h, op, task) => CallKeepsBalance(s, h, op, task);
    case CreateTsfn(f) => TsfnKeepsBalance(s, f, s.tsfns[f := true]);
    case RefTsfn(f) => TsfnKeepsBalance(s, f, s.tsfns[f := true]);
    case UnrefTsfn(f) => TsfnKeepsBalance(s, f, s.tsfns[f := false]);
    case DropTsfn(f) => TsfnKeepsBalance(s, f, s.tsfns - {f});
    case _ => TaskKeepsBalance(s, step);
  }

  lemma {:induction false} RunKeepsBalance(s: State, steps: seq<Step>)
    requires Balanced(s) && Runs(s, steps)
    ensures Balanced(Exec(s, steps))
    decreases |steps|
  {
    hide Next, Enabled, Balanced;
    if steps != [] {
      StepKeepsBalance(s, steps[0]);
      RunKeepsBalance(Next(s, steps[0]), steps[1..]);
    }
  }

  lemma InitBalanced()
    ensures Balanced(INIT)
  {
    assert RefedAsyncs(map[]) == {} && ActiveRefed(map[]) == {} && RefedTsfns(map[]) == {};
  }

  /** In every run the loop's count is what is owed to it, so it is never negative
      and it is zero exactly when nothing is owed. */
  lemma CountIsWhatIsOwed(steps: seq<Step>)
    requires Runs(INIT, steps)
    ensures var s := Exec(INIT, steps);
            && s.count == |RefedAsyncs(s.handles)| + |ActiveRefed(s.handles)| + |s.closeTasks| + |s.works| + |s.asyncTasks| + |RefedTsfns(s.tsfns)|
            && s.count >= 0
            && (s.count == 0 <==> RefedAsyncs(s.handles) == {} && ActiveRefed(s.handles) == {} && s.closeTasks == {}
                                  && s.works == {} && s.asyncTasks == {} && RefedTsfns(s.tsfns) == {})
  {
    InitBalanced();
    RunKeepsBalance(INIT, steps);
    hide Exec, RefedAsyncs, ActiveRefed, RefedTsfns;
  }

  // -------------------------------------------------- who is owed what, by step

  /** Each step adds or takes the one claim it is about. */
  lemma StepMovesItsClaim(s: State, step: Step)
    requires Enabled(s, step)
    ensures var t := Next(s, step);
            && t.works == (match step case QueueWork(x) => s.works + {x} case FinishWork(x) => s.works - {x} case _ => s.works)
            && t.asyncTasks == (match step case QueueAsync(x) => s.asyncTasks + {x} case FinishAsync(x) => s.asyncTasks - {x} case _ => s.asyncTasks)
            && RefedTsfns(t.tsfns) == (match step
                                       case CreateTsfn(f) => RefedTsfns(s.tsfns) + {f}
                                       case RefTsfn(f) => RefedTsfns(s.tsfns) + {f}
                                       case UnrefTsfn(f) => RefedTsfns(s.tsfns) - {f}
                                       case DropTsfn(f) => RefedTsfns(s.tsfns) - {f}
                                       case _ => RefedTsfns(s.tsfns))
            && (step.RunClose? ==> t.closeTasks == s.closeTasks - {step.task})
            && (step.InitHandle? && step.kind.Async? ==> RefedAsyncs(t.handles) == RefedAsyncs(s.handles) + {step.h})
            && (step.InitHandle? && !step.kind.Async? ==> t.handles.Keys == s.handles.Keys + {step.h} && step.h !in ActiveRefed(t.handles))
  {
    hide Apply;
  }

  // ------------------------------------------------- closed handles and the loop

  /** No call of `steps` starts `h`. */
  predicate NoStart(steps: seq<Step>, h: int) {
    forall i :: 0 <= i < |steps| && steps[i].Call? && steps[i].h == h ==> steps[i].op != CheckStart(true)
  }

  /** A stopped check handle, or a poll handle without a bridge. */
  predicate Stopped(h: Handle) {
    !h.active && !h.kind.Async? && (h.kind.Poll? ==> !h.bridged)
  }

  lemma {:induction false} StoppedStaysStopped(s: State, h: int, steps: seq<Step>)
    requires h in s.handles && Stopped(s.handles[h]) && Runs(s, steps) && NoStart(steps, h)
    ensures h in Exec(s, steps).handles && Stopped(Exec(s, steps).handles[h])
    decreases |steps|
  {
    if steps != [] {
      assert h in Next(s, steps[0]).handles && Stopped(Next(s, steps[0]).handles[h]);
      hide Next, Enabled, Stopped;
      StoppedStaysStopped(Next(s, steps[0]), h, steps[1..]);
    }
  }

  /** A check handle, or a poll handle that has its bridge, is stopped by its close and
      keeps no loop alive until it is started again, which a poll handle cannot be. */
  lemma ClosedHandleIsStopped(s: State, h: int, task: int, steps: seq<Step>)
    requires Enabled(s, Call(h, Close, task)) && (s.handles[h].kind.Check? || (s.handles[h].kind.Poll? && s.handles[h].bridged))
    requires Runs(Next(s, Call(h, Close, task)), steps) && NoStart(steps, h)
    ensures var after := Exec(Next(s, Call(h, Close, task)), steps).handles; h in after && !after[h].active && h !in ActiveRefed(after)
  {
    var t := Next(s, Call(h, Close, task));
    assert Stopped(t.handles[h]);
    hide Next, Runs, Exec;
    StoppedStaysStopped(t, h, steps);
  }


  /** Whether the last ref or unref call on `h` was a ref; `before` if there is none. */
  predicate LastIsRef(steps: seq<Step>, h: int, before: bool) {
    if steps == [] then before
    else LastIsRef(steps[1..], h, if steps[0].Call? && steps[0].h == h && steps[0].op.Ref? then true
                                  else if steps[0].Call? && steps[0].h == h && steps[0].op.Unref? then false
                                  else before)
  }

  lemma {:induction false} ClosedHandleFollows(s: State, h: int, steps: seq<Step>)
    requires h in s.handles && s.handles[h].kind.Async? && s.handles[h].closing && Runs(s, steps)
    ensures var after := Exec(s, steps).handles;
            h in after && after[h].closing && (KeepsLoopAlive(after[h]) <==> LastIsRef(steps, h, s.handles[h].refed))
    decreases |steps|
  {
    if steps != [] {
      ClosedHandleStep(s, h, steps[0]);
      hide Next, Enabled;
      ClosedHandleFollows(Next(s, steps[0]), h, steps[1..]);
    }
  }

  lemma ClosedHandleStep(s: State, h: int, step: Step)
    requires h in s.handles && s.handles[h].kind.Async? && s.handles[h].closing && Enabled(s, step)
    ensures var after := Next(s, step).handles;
            && h in after && after[h].kind.Async? && after[h].closing
            && after[h].refed == LastIsRef([step], h, s.handles[h].refed)
  {
    assert [step][1..] == [];
  }

  /** A handle gives its reference to the loop back when it is closed, and holds one
      again exactly when the last ref or unref call after that is a ref. */
  lemma ClosedHandleHoldsIffRefed(s: State, h: int, task: int, steps: seq<Step>)
    requires Enabled(s, Call(h, Close, task)) && s.handles[h].kind.Async? && !s.handles[h].closing
    requires Runs(Next(s, Call(h, Close, task)), steps)
    ensures var after := Exec(Next(s, Call(h, Close, task)), steps).handles;
            h in after && (KeepsLoopAlive(after[h]) <==> LastIsRef(steps, h, false))
  {
    var t := Next(s, Call(h, Close, task));
    assert t.handles[h].closing && !t.handles[h].refed;
    hide Next, Runs, Exec;
    ClosedHandleFollows(t, h, steps);
  }

  /** The smallest such run: the handle is closed, its close task has run, nothing
      else is left, and the loop is still kept alive. */
  lemma RefWhileClosingLeaks(h: int, task: int)
    ensures var steps := [InitHandle(h, Async), Call(h, Close, task), Call(h, Ref, task), RunClose(task)];
            && Runs(INIT, steps)
            && var s := Exec(INIT, steps);
               s.count == 1 && s.closeTasks == {} && s.handles == map[h := Handle(Async, false, true, true, false)]
  {
    var s1 := Next(INIT, InitHandle(h, Async));
    var s2 := Next(s1, Call(h, Close, task));
    var s3 := Next(s2, Call(h, Ref, task));
    var s4 := Next(s3, RunClose(task));
    assert s1 == State(map[h := Fresh(Async)], {}, {}, {}, map[], 1);
    assert s2 == State(map[h := Handle(Async, false, false, true, false)], {task}, {}, {}, map[], 1);
    assert s3 == State(map[h := Handle(Async, false, true, true, false)], {task}, {}, {}, map[], 2);
    assert s4 == State(map[h := Handle(Async, false, true, true, false)], {}, {}, {}, map[], 1);
    ThreeMore(s1, s2, s3, s4, h, task);
  }

  lemma ThreeMore(s1: State, s2: State, s3: State, s4: State, h: int, task: int)
    requires Enabled(s1, Call(h, Close, task)) && s2 == Next(s1, Call(h, Close, task))
    requires Enabled(s2, Call(h, Ref, task)) && s3 == Next(s2, Call(h, Ref, task))
    requires Enabled(s3, RunClose(task)) && s4 == Next(s3, RunClose(task))
    requires s1 == Next(INIT, InitHandle(h, Async))
    ensures var steps := [InitHandle(h, Async), Call(h, Close, task), Call(h, Ref, task), RunClose(task)];
            Runs(INIT, steps) && Exec(INIT, steps) == s4
  {
    hide Apply;
    var steps := [InitHandle(h, Async), Call(h, Close, task), Call(h, Ref, task), RunClose(task)];
    assert steps[1..][0] == Call(h, Close, task) && steps[1..][1..][0] == Call(h, Ref, task);
    assert steps[1..][1..][1..] == [RunClose(task)] && [RunClose(task)][1..] == [];
    assert Runs(s4, []) && Exec(s4, []) == s4;
    assert Runs(s3, [RunClose(task)]) && Exec(s3, [RunClose(task)]) == s4;
    assert Runs(s2, steps[1..][1..]) && Exec(s2, steps[1..][1..]) == s4;
    assert Runs(s1, steps[1..]) && Exec(s1, steps[1..]) == s4;
  }
}
