/**
Async work: one work item that may be queued, cancelled and queued again while
tasks for it run on worker threads.

A step is one atomic operation or one task on the main thread. `queued`, `started`
and `cancels` count the transitions that took effect, and `completes` lists the
completion calls: they are history.
*/
module AsyncWork {
  import opened Sets

  datatype Work = Idle | Queued | Running

  datatype Status = Ok | Cancelled | GenericFailure

  /** A task, from being spawned to giving its event-loop reference back. */
  datatype Phase = Untried | Executing | Returned | Reporting(status: Status) | Finished(status: Status)

  datatype State = State(work: Work, tasks: map<int, Phase>, hasComplete: bool, ops: int,
                         queued: int, started: int, cancels: int, completes: seq<(int, Status)>)

  datatype Step = Queue(task: int) | Cancel | Try(task: int) | Return(task: int) | GoIdle(task: int) | Finish(task: int)

  function Init(hasComplete: bool): State {
    State(Idle, map[], hasComplete, 0, 0, 0, 0, [])
  }

  predicate At(s: State, task: int, phase: Phase) {
    task in s.tasks && s.tasks[task] == phase
  }

  predicate Enabled(s: State, step: Step) {
    match step
    case Queue(task) => task !in s.tasks
    case Cancel => true
    case Try(task) => At(s, task, Untried)
    case Return(task) => At(s, task, Executing)
    case GoIdle(task) => At(s, task, Returned)
    case Finish(task) => task in s.tasks && s.tasks[task].Reporting?
  }

  function Move(s: State, task: int, phase: Phase): State {
    s.(tasks := s.tasks[task := phase])
  }

  /** Queueing takes effect unless the work is queued already. */
  function AfterQueue(s: State, task: int): State {
    if s.work.Queued? then s
    else Move(s, task, Untried).(work := Queued, queued := s.queued + 1, ops := s.ops + 1)
  }

  function AfterTry(s: State, task: int): State {
    match s.work
    case Queued => Move(s, task, Executing).(work := Running, started := s.started + 1)
    case Idle => Move(s, task, Reporting(Cancelled))
    case Running => Move(s, task, Reporting(GenericFailure))
  }

  function AfterFinish(s: State, task: int): State
    requires task in s.tasks && s.tasks[task].Reporting?
  {
    var status := s.tasks[task].status;
    Move(s, task, Finished(status))
    .(ops := s.ops - 1, completes := if s.hasComplete then s.completes + [(task, status)] else s.completes)
  }

  function Next(s: State, step: Step): State
    requires Enabled(s, step)
  {
    match step
    case Queue(task) => AfterQueue(s, task)
    case Cancel => if s.work.Queued? then s.(work := Idle, cancels := s.cancels + 1) else s
    case Try(task) => AfterTry(s, task)
    case Return(task) => Move(s, task, Returned)
    case GoIdle(task) => Move(s, task, Reporting(Ok)).(work := if s.work.Running? then Idle else s.work)
    case Finish(task) => AfterFinish(s, task)
  }

  predicate Runs(s: State, steps: seq<Step>)
    decreases |steps|
  {
    steps == [] || (Enabled(s, steps[0]) && Runs(Next(s, steps[0]), steps[1..]))
  }

  function Exec(s: State, steps: seq<Step>): State
    requires Runs(s, steps)
    decreases |steps|
  {
    if steps == [] then s else Exec(Next(s, steps[0]), steps[1..])
  }

  // -------------------------------------------------------- tasks by what they did

  predicate Executes(p: Phase) {
    p.Executing? || p.Returned? || p == Reporting(Ok) || p == Finished(Ok)
  }

  /** Tasks that have not tried to start. */
  function Waiting(tasks: map<int, Phase>): set<int> {
    set t | t in tasks && tasks[t].Untried?
  }

  function Executed(tasks: map<int, Phase>): set<int> {
    set t | t in tasks && Executes(tasks[t])
  }

  /** Tasks that tried and found nothing queued. */
  function TurnedAway(tasks: map<int, Phase>): set<int> {
    set t | t in tasks && !tasks[t].Untried? && !Executes(tasks[t])
  }

  function Unfinished(tasks: map<int, Phase>): set<int> {
    set t | t in tasks && !tasks[t].Finished?
  }

  /** What giving one task a phase does to the four counts. */
  lemma MoveCounts(tasks: map<int, Phase>, task: int, phase: Phase)
    ensures var after := tasks[task := phase];
            && |Waiting(after)| == |Waiting(tasks)| - (if task in Waiting(tasks) then 1 else 0) + (if phase.Untried? then 1 else 0)
            && |Executed(after)| == |Executed(tasks)| - (if task in Executed(tasks) then 1 else 0) + (if Executes(phase) then 1 else 0)
            && |TurnedAway(after)| == |TurnedAway(tasks)| - (if task in TurnedAway(tasks) then 1 else 0)
                                     + (if !phase.Untried? && !Executes(phase) then 1 else 0)
            && |Unfinished(after)| == |Unfinished(tasks)| - (if task in Unfinished(tasks) then 1 else 0)
                                     + (if !phase.Finished? then 1 else 0)
  {
    var after := tasks[task := phase];
    assert Waiting(tasks) - {task} == Waiting(after) - {task};
    assert Executed(tasks) - {task} == Executed(after) - {task};
    assert TurnedAway(tasks) - {task} == TurnedAway(after) - {task};
    assert Unfinished(tasks) - {task} == Unfinished(after) - {task};
    CountMoves(Waiting(tasks), Waiting(after), task);
    CountMoves(Executed(tasks), Executed(after), task);
    CountMoves(TurnedAway(tasks), TurnedAway(after), task);
    CountMoves(Unfinished(tasks), Unfinished(after), task);
  }

  // --------------------------------------------------------------- the ledger

  function One(b: bool): int {
    if b then 1 else 0
  }

  /** Every queueing that took effect was started, cancelled, or is still queued;
      and each spawned one task, which waits, executed, or was turned away. */
  predicate Ledger(s: State) {
    && s.queued == s.started + s.cancels + One(s.work.Queued?)
    && s.queued == |Waiting(s.tasks)| + |Executed(s.tasks)| + |TurnedAway(s.tasks)|
    && s.started == |Executed(s.tasks)|
    && |Waiting(s.tasks)| >= One(s.work.Queued?)
    && s.ops == |Unfinished(s.tasks)|
  }

  function Completions(cs: seq<(int, Status)>, task: int): nat {
    if cs == [] then 0 else One(cs[0].0 == task) + Completions(cs[1..], task)
  }

  /** A task reports once, when it finishes, with the status of what it did. */
  ghost predicate Reports(s: State) {
    && (forall task :: Completions(s.completes, task) == One(s.hasComplete && task in s.tasks && s.tasks[task].Finished?))
    && (forall i :: 0 <= i < |s.completes| ==> At(s, s.completes[i].0, Finished(s.completes[i].1)))
  }

  lemma StepKeepsLedger(s: State, step: Step)
    requires Ledger(s) && Enabled(s, step)
    ensures Ledger(Next(s, step))
  {
    if step.Cancel? {
    } else {
      var phase := Next(s, step).tasks;
      if step.task in phase {
        MoveCounts(s.tasks, step.task, phase[step.task]);
        assert phase == s.tasks[step.task := phase[step.task]];
      }
      assert step.task in Waiting(s.tasks) <==> At(s, step.task, Untried);
      assert step.task in Executed(s.tasks) <==> step.task in s.tasks && Executes(s.tasks[step.task]);
      hide Waiting, Executed, TurnedAway, Unfinished;
    }
  }

  lemma {:induction false} CompletionsSnoc(cs: seq<(int, Status)>, c: (int, Status), task: int)
    ensures Completions(cs + [c], task) == Completions(cs, task) + One(c.0 == task)
  {
    if cs == [] {
      assert cs + [c] == [c] && [c][1..] == [];
    } else {
      assert (cs + [c])[1..] == cs[1..] + [c];
      CompletionsSnoc(cs[1..], c, task);
    }
  }

  lemma StepKeepsReports(s: State, step: Step)
    requires Reports(s) && Enabled(s, step)
    ensures Reports(Next(s, step))
  {
    if step.Finish? && s.hasComplete {
      forall task ensures Completions(Next(s, step).completes, task) == Completions(s.completes, task) + One(step.task == task) {
        CompletionsSnoc(s.completes, (step.task, s.tasks[step.task].status), task);
      }
    }
    hide Completions;
  }

  lemma {:induction false} RunKeeps(s: State, steps: seq<Step>)
    requires Ledger(s) && Reports(s) && Runs(s, steps)
    ensures Ledger(Exec(s, steps)) && Reports(Exec(s, steps))
    decreases |steps|
  {
    hide Next, Enabled, Ledger, Reports;
    if steps != [] {
      StepKeepsLedger(s, steps[0]);
      StepKeepsReports(s, steps[0]);
      RunKeeps(Next(s, steps[0]), steps[1..]);
    }
  }

  lemma InitKeeps(hasComplete: bool)
    ensures Ledger(Init(hasComplete)) && Reports(Init(hasComplete))
  {
    assert Waiting(map[]) == {} && Executed(map[]) == {} && TurnedAway(map[]) == {} && Unfinished(map[]) == {};
  }

  // ------------------------------------------------- what each attempt leads to

  /** A queueing takes effect unless the work is queued already, running or not; a
      cancel takes effect exactly when it is queued. */
  lemma QueueAndCancelTakeEffectIff(s: State, task: int)
    requires task !in s.tasks
    ensures Next(s, Queue(task)) != s <==> s.work != Queued
    ensures s.work != Queued ==> var t := Next(s, Queue(task)); t.work.Queued? && At(t, task, Untried) && t.queued == s.queued + 1 && t.ops == s.ops + 1
    ensures Next(s, Cancel) != s <==> s.work == Queued
    ensures s.work == Queued ==> Next(s, Cancel) == s.(work := Idle, cancels := s.cancels + 1)
  {
  }

  /** A task executes exactly when it finds the work queued. One that does not reports
      cancelled if it found the work idle, and a failure if it found it running. */
  lemma TryDecidesTheStatus(s: State, task: int)
    requires At(s, task, Untried)
    ensures var t := Next(s, Try(task));
            && (At(t, task, Executing) <==> s.work == Queued) && (s.work == Queued ==> t.work == Running)
            && (At(t, task, Reporting(Cancelled)) <==> s.work == Idle)
            && (At(t, task, Reporting(GenericFailure)) <==> s.work == Running)
            && (s.work != Queued ==> t.work == s.work)
  {
  }

  /** Work that is marked running has a task between its start and going idle. */
  ghost predicate RunningHasTask(s: State) {
    s.work == Running ==> exists task :: task in s.tasks && (s.tasks[task].Executing? || s.tasks[task].Returned?)
  }

  lemma StepKeepsRunning(s: State, step: Step)
    requires RunningHasTask(s) && Enabled(s, step)
    ensures RunningHasTask(Next(s, step))
  {
    var t := Next(s, step);
    if t.work == Running {
      if step.Try? && s.work == Queued {
        assert t.tasks[step.task].Executing?;
      } else {
        var task :| task in s.tasks && (s.tasks[task].Executing? || s.tasks[task].Returned?);
        assert task in t.tasks && (t.tasks[task].Executing? || t.tasks[task].Returned?);
      }
    }
  }

  lemma {:induction false} RunKeepsRunning(s: State, steps: seq<Step>)
    requires RunningHasTask(s) && Runs(s, steps)
    ensures RunningHasTask(Exec(s, steps))
    decreases |steps|
  {
    hide Next, Enabled, RunningHasTask;
    if steps != [] {
      StepKeepsRunning(s, steps[0]);
      RunKeepsRunning(Next(s, steps[0]), steps[1..]);
    }
  }

  /** In every run, when all tasks have finished the work is idle and holds no
      reference to the loop. */
  lemma IdleWhenFinished(hasComplete: bool, steps: seq<Step>)
    requires Runs(Init(hasComplete), steps)
    requires forall task :: task in Exec(Init(hasComplete), steps).tasks ==> Exec(Init(hasComplete), steps).tasks[task].Finished?
    ensures var s := Exec(Init(hasComplete), steps); s.work == Idle && s.ops == 0
  {
    hide Exec, Runs, Ledger, Reports;
    InitKeeps(hasComplete);
    RunKeeps(Init(hasComplete), steps);
    RunKeepsRunning(Init(hasComplete), steps);
    FinishedIsIdle(Exec(Init(hasComplete), steps));
  }

  lemma FinishedIsIdle(s: State)
    requires Ledger(s) && RunningHasTask(s) && forall task :: task in s.tasks ==> s.tasks[task].Finished?
    ensures s.work == Idle && s.ops == 0
  {
    forall task ensures task !in Waiting(s.tasks) && task !in Unfinished(s.tasks) {
      assert task in s.tasks ==> s.tasks[task].Finished?;
    }
    assert Waiting(s.tasks) == {} && Unfinished(s.tasks) == {};
  }

  // ------------------------------------------------------------ what it promises

  /** In every run: queueings that took effect are starts, effective cancels, and
      the one still queued; and while one is queued, a task is there to try it. */
  lemma QueueLedger(hasComplete: bool, steps: seq<Step>)
    requires Runs(Init(hasComplete), steps)
    ensures var s := Exec(Init(hasComplete), steps);
            && s.queued == s.started + s.cancels + One(s.work.Queued?)
            && (s.work.Queued? ==> |Waiting(s.tasks)| > 0)
            && s.ops == |Unfinished(s.tasks)|
  {
    InitKeeps(hasComplete);
    RunKeeps(Init(hasComplete), steps);
  }

  /** Once no task has yet to try, the tasks that did not execute are exactly as
      many as the cancels that took effect, and nothing is queued. */
  lemma TurnedAwayAreTheCancelled(hasComplete: bool, steps: seq<Step>)
    requires Runs(Init(hasComplete), steps) && Waiting(Exec(Init(hasComplete), steps).tasks) == {}
    ensures var s := Exec(Init(hasComplete), steps);
            |TurnedAway(s.tasks)| == s.cancels && |Executed(s.tasks)| == s.started && !s.work.Queued?
  {
    InitKeeps(hasComplete);
    RunKeeps(Init(hasComplete), steps);
  }

  /** Each task reports at most once, exactly once if it finished and there is a
      completion callback, and with a status that says whether it executed. */
  lemma OneCompletionPerTask(hasComplete: bool, steps: seq<Step>, task: int)
    requires Runs(Init(hasComplete), steps)
    ensures var s := Exec(Init(hasComplete), steps);
            && Completions(s.completes, task) == One(s.hasComplete && task in s.tasks && s.tasks[task].Finished?)
            && (forall i :: 0 <= i < |s.completes| && s.completes[i].0 == task ==>
                  task in s.tasks && (s.completes[i].1 == Ok <==> Executes(s.tasks[task])))
  {
    InitKeeps(hasComplete);
    RunKeeps(Init(hasComplete), steps);
    hide Exec, Completions;
  }
}
