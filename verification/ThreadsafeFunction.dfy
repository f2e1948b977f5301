/**
Threadsafe functions: any number of threads acquire, call and release one, and
the event loop runs their calls and, in the end, its finalizer.

A step is one atomic operation, one critical section or one event-loop task, so a
call may sit between its check and its lock, or between its lock and its task.
`owners`, `ok`, `callbacks`, `last` and the counters of drops and finalizers are
history: a reference is a token, owned by the thread that acquired it.
*/
module ThreadsafeFunction {
  import opened Options
  import opened Sets

  datatype Task = RunCall(call: int, counted: bool) | DropTask

  /** Where a thread is inside an operation. */
  datatype Pc =
    | Idle
    | AtAcquireCas
    | AtCallLock(call: int, blocking: bool)
    | Parked(call: int)
    | AtCallSpawn(call: int, counted: bool)
    | AtReleaseClose(isLast: bool)
    | AtReleaseSpawn

  datatype State = State(count: int, closing: bool, closed: bool, queueSize: int, maxQueue: int, tasks: seq<Task>,
                         threads: map<int, Pc>, owners: map<int, int>, nextCall: int,
                         ok: set<int>, callbacks: seq<int>, last: Option<int>, drops: int, finalizers: int)

  datatype Step =
    | AcquireCheck(t: int)
    | AcquireCas(t: int, token: int)
    | CallCheck(t: int, blocking: bool)
    | CallLock(t: int)
    | CallWake(t: int)
    | CallSpawn(t: int)
    | ReleaseCas(t: int, token: int, abort: bool)
    | ReleaseClose(t: int)
    | ReleaseSpawn(t: int)
    | Dispatch

  /** A fresh function: `owners` are the references it was created with. */
  ghost predicate Init(s: State) {
    && s.count == |s.owners| && s.count > 0 && s.maxQueue >= 0
    && !s.closing && !s.closed && s.queueSize == 0 && s.tasks == [] && s.nextCall == 0
    && (forall t :: t in s.threads ==> s.threads[t].Idle?)
    && s.ok == {} && s.callbacks == [] && s.last.None? && s.drops == 0 && s.finalizers == 0
  }

  // ------------------------------------------------------------------ the steps

  predicate At(s: State, t: int, pc: Pc) {
    t in s.threads && s.threads[t] == pc
  }

  predicate Enabled(s: State, step: Step) {
    match step
    case AcquireCheck(t) => At(s, t, Idle)
    case AcquireCas(t, token) => At(s, t, AtAcquireCas) && token !in s.owners
    case CallCheck(t, _) => At(s, t, Idle)
    case CallLock(t) => t in s.threads && s.threads[t].AtCallLock?
    case CallWake(t) => t in s.threads && s.threads[t].Parked?
    case CallSpawn(t) => t in s.threads && s.threads[t].AtCallSpawn?
    case ReleaseCas(t, token, _) => At(s, t, Idle) && (s.count == 0 || token in s.owners)
    case ReleaseClose(t) => t in s.threads && s.threads[t].AtReleaseClose?
    case ReleaseSpawn(t) => At(s, t, AtReleaseSpawn)
    case Dispatch => s.tasks != []
  }

  function Go(s: State, t: int, pc: Pc): State {
    s.(threads := s.threads[t := pc])
  }

  function AfterAcquireCas(s: State, t: int, token: int): State {
    if s.count == 0 then Go(s, t, Idle)
    else Go(s, t, Idle).(count := s.count + 1, owners := s.owners[token := t])
  }

  function AfterCallCheck(s: State, t: int, blocking: bool): State {
    if s.closing then s
    else Go(s, t, if s.maxQueue > 0 then AtCallLock(s.nextCall, blocking) else AtCallSpawn(s.nextCall, false))
         .(nextCall := s.nextCall + 1)
  }

  /** Under the queue lock: park, give up, or take a place in the queue. */
  function AfterCallLock(s: State, t: int, call: int, blocking: bool): State {
    if s.queueSize >= s.maxQueue then Go(s, t, if blocking then Parked(call) else Idle)
    else Go(s, t, AtCallSpawn(call, true)).(queueSize := s.queueSize + 1)
  }

  function AfterReleaseCas(s: State, t: int, token: int, abort: bool): State {
    if s.count == 0 then s
    else
      var isLast := s.count == 1;
      Go(s, t, if abort || isLast then AtReleaseClose(isLast) else Idle)
      .(count := s.count - 1, owners := s.owners - {token}, last := if isLast then Some(t) else s.last)
  }

  function AfterDispatch(s: State): State
    requires s.tasks != []
  {
    var rest := s.(tasks := s.tasks[1..]);
    match s.tasks[0]
    case RunCall(call, _) =>
      rest.(callbacks := s.callbacks + [call],
            queueSize := if !s.closed && s.maxQueue > 0 then s.queueSize - 1 else s.queueSize)
    case DropTask => rest.(closed := true, finalizers := s.finalizers + 1)
  }

  function Next(s: State, step: Step): State
    requires Enabled(s, step)
  {
    match step
    case AcquireCheck(t) => if s.closing then s else Go(s, t, AtAcquireCas)
    case AcquireCas(t, token) => AfterAcquireCas(s, t, token)
    case CallCheck(t, blocking) => AfterCallCheck(s, t, blocking)
    case CallLock(t) => AfterCallLock(s, t, s.threads[t].call, s.threads[t].blocking)
    case CallWake(t) => Go(s, t, if s.closing then Idle else AtCallLock(s.threads[t].call, true))
    case CallSpawn(t) =>
      var pc := s.threads[t];
      Go(s, t, Idle).(tasks := s.tasks + [RunCall(pc.call, pc.counted)], ok := s.ok + {pc.call})
    case ReleaseCas(t, token, abort) => AfterReleaseCas(s, t, token, abort)
    case ReleaseClose(t) => Go(s, t, if s.threads[t].isLast then AtReleaseSpawn else Idle).(closing := true)
    case ReleaseSpawn(t) => Go(s, t, Idle).(tasks := s.tasks + [DropTask], drops := s.drops + 1)
    case Dispatch => AfterDispatch(s)
  }

  predicate Runs(s: State, steps: seq<Step>)
    decreases |steps|
  {
    steps == [] || (Enabled(s, steps[0]) && Runs(Next(s, steps[0]), steps[1..]))
  }

  function Exec(s: State, steps: seq<Step>): State
    requires Runs(s, steps)
    decreases |steps|
  {
    if steps == [] then s else Exec(Next(s, steps[0]), steps[1..])
  }

  // ------------------------------------------------------ the reference count

  /** The count is the number of references; once it is zero it was brought there
      by `last`, who is the only one that may come to spawn the drop. */
  predicate Counted(s: State) {
    && s.count == |s.owners.Keys|
    && (s.count == 0 <==> s.last.Some?)
    && 0 <= s.drops <= 1 && (s.drops == 1 ==> s.last.Some?)
    && DropperIsLast(s)
  }

  /** On the way to spawning the drop. */
  predicate Dropper(pc: Pc) {
    pc == AtReleaseClose(true) || pc == AtReleaseSpawn
  }

  predicate DropperIsLast(s: State) {
    forall t :: t in s.threads && Dropper(s.threads[t]) ==> s.last == Some(t) && s.drops == 0
  }

  lemma AcquireKeepsCounted(s: State, t: int, token: int)
    requires Counted(s) && t in s.threads && token !in s.owners
    ensures Counted(AfterAcquireCas(s, t, token))
  {
    assert s.owners[token := t].Keys == s.owners.Keys + {token};
  }

  lemma ReleaseKeepsCounted(s: State, t: int, token: int, abort: bool)
    requires Counted(s) && (s.count == 0 || token in s.owners)
    ensures Counted(AfterReleaseCas(s, t, token, abort))
  {
    if s.count > 0 {
      assert (s.owners - {token}).Keys == s.owners.Keys - {token};
      assert |s.owners.Keys - {token}| == |s.owners.Keys| - 1;
    }
  }

  lemma MoveKeepsCounted(s: State, s': State, t: int, pc: Pc)
    requires Counted(s) && t in s.threads && (Dropper(pc) ==> Dropper(s.threads[t]))
    requires s'.threads == s.threads[t := pc]
    requires s'.count == s.count && s'.owners == s.owners && s'.last == s.last && s'.drops == s.drops
    ensures Counted(s')
  {
  }

  lemma SpawnDropKeepsCounted(s: State, t: int)
    requires Counted(s) && At(s, t, AtReleaseSpawn)
    ensures Counted(Next(s, ReleaseSpawn(t)))
  {
  }

  lemma StepKeepsCounted(s: State, step: Step)
    requires Counted(s) && Enabled(s, step)
    ensures Counted(Next(s, step))
  {
    hide Counted;
    match step
    case AcquireCas(t, token) => AcquireKeepsCounted(s, t, token);
    case ReleaseCas(t, token, abort) => ReleaseKeepsCounted(s, t, token, abort);
    case ReleaseSpawn(t) => SpawnDropKeepsCounted(s, t);
    case Dispatch => CountedFrame(s, Next(s, step));
    case AcquireCheck(t) => MoveKeepsCounted(s, Go(s, t, AtAcquireCas), t, AtAcquireCas);
    case CallCheck(t, _) => if !s.closing { MoveKeepsCounted(s, Next(s, step), t, Next(s, step).threads[t]); }
    case CallLock(t) => MoveKeepsCounted(s, Next(s, step), t, Next(s, step).threads[t]);
    case CallWake(t) => MoveKeepsCounted(s, Next(s, step), t, Next(s, step).threads[t]);
    case CallSpawn(t) => MoveKeepsCounted(s, Next(s, step), t, Idle);
    case ReleaseClose(t) => MoveKeepsCounted(s, Next(s, step), t, Next(s, step).threads[t]);
  }

  lemma CountedFrame(s: State, s': State)
    requires Counted(s) && s'.threads == s.threads
    requires s'.count == s.count && s'.owners == s.owners && s'.last == s.last && s'.drops == s.drops
    ensures Counted(s')
  {
  }

  function Drops(tasks: seq<Task>): nat {
    if tasks == [] then 0 else (if tasks[0].DropTask? then 1 else 0) + Drops(tasks[1..])
  }

  lemma {:induction false} DropsConcat(a: seq<Task>, b: seq<Task>)
    ensures Drops(a + b) == Drops(a) + Drops(b)
  {
    if a == [] {
      assert a + b == b;
    } else {
      assert (a + b)[1..] == a[1..] + b;
      DropsConcat(a[1..], b);
    }
  }

  lemma DropsSnoc(tasks: seq<Task>, task: Task)
    ensures Drops(tasks + [task]) == Drops(tasks) + if task.DropTask? then 1 else 0
  {
    DropsConcat(tasks, [task]);
    assert [task][1..] == [];
  }

  /** A drop spawned is queued or has run, and `closed` says which. */
  predicate DropsTrack(s: State) {
    s.drops == Drops(s.tasks) + s.finalizers && s.finalizers >= 0 && (s.closed <==> s.finalizers >= 1)
  }

  lemma StepKeepsDrops(s: State, step: Step)
    requires DropsTrack(s) && Enabled(s, step)
    ensures DropsTrack(Next(s, step))
  {
    match step
    case CallSpawn(t) => DropsSnoc(s.tasks, RunCall(s.threads[t].call, s.threads[t].counted));
    case ReleaseSpawn(t) => DropsSnoc(s.tasks, DropTask);
    case _ =>
  }

  // ----------------------------------------------------------------- the calls

  function Calls(tasks: seq<Task>): multiset<int> {
    if tasks == [] then multiset{}
    else (if tasks[0].RunCall? then multiset{tasks[0].call} else multiset{}) + Calls(tasks[1..])
  }

  lemma {:induction false} CallsConcat(a: seq<Task>, b: seq<Task>)
    ensures Calls(a + b) == Calls(a) + Calls(b)
  {
    if a == [] {
      assert a + b == b;
    } else {
      assert (a + b)[1..] == a[1..] + b;
      CallsConcat(a[1..], b);
    }
  }

  lemma CallsSnoc(tasks: seq<Task>, task: Task)
    ensures Calls(tasks + [task]) == Calls(tasks) + if task.RunCall? then multiset{task.call} else multiset{}
  {
    CallsConcat(tasks, [task]);
    assert [task][1..] == [];
  }

  /** The call a thread is in the middle of. */
  function CallOf(pc: Pc): Option<int> {
    match pc
    case AtCallLock(call, _) => Some(call)
    case Parked(call) => Some(call)
    case AtCallSpawn(call, _) => Some(call)
    case _ => None
  }

  predicate SameCall(a: Pc, b: Pc) {
    CallOf(a).Some? && CallOf(a) == CallOf(b)
  }

  /** Calls have numbers of their own: no two threads are in the same one, and one
      under way has not been answered yet. */
  predicate CallsDistinct(s: State) {
    && (forall t :: t in s.threads && CallOf(s.threads[t]).Some? ==>
          CallOf(s.threads[t]).value < s.nextCall && CallOf(s.threads[t]).value !in s.ok)
    && (forall t, u :: t in s.threads && u in s.threads && SameCall(s.threads[t], s.threads[u]) ==> t == u)
    && (forall c :: c in s.ok ==> c < s.nextCall)
  }

  /** A call answered ok is queued or was called back: one of the two, once. */
  predicate Answered(s: State) {
    multiset(s.ok) == Calls(s.tasks) + multiset(s.callbacks)
  }

  lemma MoveKeepsDistinct(s: State, s': State, t: int, pc: Pc)
    requires CallsDistinct(s) && t in s.threads && s'.threads == s.threads[t := pc]
    requires s'.nextCall == s.nextCall && s'.ok == s.ok
    requires CallOf(pc).None? || CallOf(pc) == CallOf(s.threads[t])
    ensures CallsDistinct(s')
  {
    hide CallOf;
  }

  lemma CheckKeepsDistinct(s: State, t: int, blocking: bool)
    requires CallsDistinct(s) && t in s.threads
    ensures CallsDistinct(AfterCallCheck(s, t, blocking))
  {
  }

  lemma SpawnKeepsDistinct(s: State, t: int)
    requires CallsDistinct(s) && t in s.threads && s.threads[t].AtCallSpawn?
    ensures CallsDistinct(Next(s, CallSpawn(t)))
  {
  }

  lemma StepKeepsDistinct(s: State, step: Step)
    requires CallsDistinct(s) && Enabled(s, step)
    ensures CallsDistinct(Next(s, step))
  {
    var s' := Next(s, step);
    match step
    case CallCheck(t, blocking) => CheckKeepsDistinct(s, t, blocking);
    case CallSpawn(t) => SpawnKeepsDistinct(s, t);
    case Dispatch => assert s'.threads == s.threads;
    case AcquireCheck(t) => MoveKeepsDistinct(s, Go(s, t, AtAcquireCas), t, AtAcquireCas);
    case ReleaseCas(t, _, _) => if s.count > 0 { MoveKeepsDistinct(s, s', t, s'.threads[t]); }
    case _ => MoveKeepsDistinct(s, s', step.t, s'.threads[step.t]);
  }

  lemma SpawnKeepsAnswered(s: State, task: Task)
    requires Answered(s) && task.RunCall? && task.call !in s.ok
    ensures Answered(s.(tasks := s.tasks + [task], ok := s.ok + {task.call}))
  {
    CallsSnoc(s.tasks, task);
    hide Calls;
    assert multiset(s.ok + {task.call}) == multiset(s.ok) + multiset{task.call};
  }

  lemma DispatchKeepsAnswered(s: State)
    requires Answered(s) && s.tasks != []
    ensures Answered(AfterDispatch(s))
  {
    assert Calls(s.tasks) == (if s.tasks[0].RunCall? then multiset{s.tasks[0].call} else multiset{}) + Calls(s.tasks[1..]);
    hide Calls;
  }

  lemma StepKeepsAnswered(s: State, step: Step)
    requires CallsDistinct(s) && Answered(s) && Enabled(s, step)
    ensures Answered(Next(s, step))
  {
    hide Calls;
    match step
    case CallSpawn(t) => SpawnKeepsAnswered(s, RunCall(s.threads[t].call, s.threads[t].counted));
    case ReleaseSpawn(t) => CallsSnoc(s.tasks, DropTask);
    case Dispatch => DispatchKeepsAnswered(s);
    case _ =>
  }

  // ----------------------------------------------------------------- the queue

  function CountedIn(tasks: seq<Task>): nat {
    if tasks == [] then 0 else (if tasks[0].RunCall? && tasks[0].counted then 1 else 0) + CountedIn(tasks[1..])
  }

  lemma {:induction false} CountedConcat(a: seq<Task>, b: seq<Task>)
    ensures CountedIn(a + b) == CountedIn(a) + CountedIn(b)
  {
    if a == [] {
      assert a + b == b;
    } else {
      assert (a + b)[1..] == a[1..] + b;
      CountedConcat(a[1..], b);
    }
  }

  lemma CountedSnoc(tasks: seq<Task>, task: Task)
    ensures CountedIn(tasks + [task]) == CountedIn(tasks) + if task.RunCall? && task.counted then 1 else 0
  {
    CountedConcat(tasks, [task]);
    assert [task][1..] == [];
  }

  predicate Counting(pc: Pc) {
    pc.AtCallSpawn? && pc.counted
  }

  /** Threads that have taken a place in the queue and not yet queued their task. */
  function Spawning(threads: map<int, Pc>): set<int> {
    set t | t in threads && Counting(threads[t])
  }

  lemma SpawningMoves(threads: map<int, Pc>, t: int, pc: Pc)
    requires t in threads
    ensures |Spawning(threads[t := pc])| == |Spawning(threads)| - (if Counting(threads[t]) then 1 else 0) + (if Counting(pc) then 1 else 0)
  {
    var before, after := Spawning(threads), Spawning(threads[t := pc]);
    assert before - {t} == after - {t};
    CountMoves(before, after, t);
    assert t in before <==> Counting(threads[t]);
    assert t in after <==> Counting(pc);
  }

  /** Whether calls are counted is settled by the queue's bound. */
  predicate AllCounted(s: State) {
    && s.maxQueue >= 0
    && (forall i :: 0 <= i < |s.tasks| && s.tasks[i].RunCall? ==> (s.tasks[i].counted <==> s.maxQueue > 0))
    && (forall t :: t in s.threads && s.threads[t].AtCallSpawn? ==> (s.threads[t].counted <==> s.maxQueue > 0))
    && (forall t :: t in s.threads && (s.threads[t].AtCallLock? || s.threads[t].Parked?) ==> s.maxQueue > 0)
  }

  /** Until the function is freed its queue size is the number of calls that took
      a place and have not been dispatched; it never passes the bound. */
  predicate QueueExact(s: State) {
    && 0 <= s.queueSize <= s.maxQueue
    && (!s.closed ==> s.queueSize == CountedIn(s.tasks) + |Spawning(s.threads)|)
  }

  lemma DispatchKeepsAllCounted(s: State)
    requires AllCounted(s) && s.tasks != []
    ensures AllCounted(AfterDispatch(s))
  {
    assert forall i :: 0 <= i < |s.tasks[1..]| ==> s.tasks[1..][i] == s.tasks[i + 1];
  }

  lemma StepKeepsAllCounted(s: State, step: Step)
    requires AllCounted(s) && Enabled(s, step)
    ensures AllCounted(Next(s, step))
  {
    if step.Dispatch? {
      DispatchKeepsAllCounted(s);
    } else {
      var s' := Next(s, step);
      assert s'.threads == s.threads[step.t := s'.threads[step.t]];
      hide AfterDispatch, At;
    }
  }

  lemma DispatchKeepsQueue(s: State)
    requires AllCounted(s) && QueueExact(s) && s.tasks != []
    ensures QueueExact(AfterDispatch(s))
  {
    assert CountedIn(s.tasks) == (if s.tasks[0].RunCall? && s.tasks[0].counted then 1 else 0) + CountedIn(s.tasks[1..]);
    hide CountedIn, Spawning;
  }

  lemma StepKeepsQueue(s: State, step: Step)
    requires AllCounted(s) && QueueExact(s) && Enabled(s, step)
    ensures QueueExact(Next(s, step))
  {
    hide CountedIn, Spawning, AllCounted;
    if step.Dispatch? {
      DispatchKeepsQueue(s);
    } else {
      var s' := Next(s, step);
      assert s'.threads == s.threads[step.t := s'.threads[step.t]];
      SpawningMoves(s.threads, step.t, s'.threads[step.t]);
      if step.CallSpawn? {
        CountedSnoc(s.tasks, RunCall(s.threads[step.t].call, s.threads[step.t].counted));
      } else if step.ReleaseSpawn? {
        CountedSnoc(s.tasks, DropTask);
      }
    }
  }

  // ------------------------------------------------------------- over whole runs

  predicate Inv(s: State) {
    Counted(s) && DropsTrack(s) && CallsDistinct(s) && Answered(s) && AllCounted(s) && QueueExact(s)
  }

  lemma InitInv(s: State)
    requires Init(s)
    ensures Inv(s)
  {
    forall t ensures t !in Spawning(s.threads) {
      assert t in s.threads ==> s.threads[t].Idle?;
    }
    assert Spawning(s.threads) == {};
  }

  lemma {:induction false} RunKeepsInv(s: State, steps: seq<Step>)
    requires Inv(s) && Runs(s, steps)
    ensures Inv(Exec(s, steps))
    decreases |steps|
  {
    hide Next, Enabled, Counted, DropsTrack, CallsDistinct, Answered, AllCounted, QueueExact;
    if steps != [] {
      StepKeepsCounted(s, steps[0]);
      StepKeepsDrops(s, steps[0]);
      StepKeepsDistinct(s, steps[0]);
      StepKeepsAnswered(s, steps[0]);
      StepKeepsAllCounted(s, steps[0]);
      StepKeepsQueue(s, steps[0]);
      RunKeepsInv(Next(s, steps[0]), steps[1..]);
    }
  }

  /** Zero references is for good: no step of any continuation brings one back, so
      from then on every acquire answers closing. */
  lemma {:induction false} ZeroIsAbsorbing(s: State, steps: seq<Step>)
    requires s.count == 0 && Runs(s, steps)
    ensures Exec(s, steps).count == 0 && Exec(s, steps).owners == s.owners
    decreases |steps|
  {
    if steps != [] {
      assert Next(s, steps[0]).count == 0 && Next(s, steps[0]).owners == s.owners;
      hide Next;
      ZeroIsAbsorbing(Next(s, steps[0]), steps[1..]);
    }
  }

  /** At most one drop is ever spawned, so the finalizer runs at most once. */
  lemma AtMostOneDrop(s: State, steps: seq<Step>)
    requires Init(s) && Runs(s, steps)
    ensures var t := Exec(s, steps); t.drops <= 1 && t.finalizers <= t.drops && (t.drops == 1 ==> t.count == 0)
  {
    InitInv(s);
    RunKeepsInv(s, steps);
    hide Exec, Drops;
  }

  /** The queue size is exact and within its bound, and a dispatch finds a place
      to give back. */
  lemma QueueIsExact(s: State, steps: seq<Step>)
    requires Init(s) && Runs(s, steps)
    ensures var t := Exec(s, steps);
            && 0 <= t.queueSize <= t.maxQueue
            && (!t.closed ==> t.queueSize == CountedIn(t.tasks) + |Spawning(t.threads)|)
            && (t.tasks != [] && t.tasks[0].RunCall? && !t.closed && t.maxQueue > 0 ==> t.queueSize > 0)
  {
    InitInv(s);
    RunKeepsInv(s, steps);
    hide Exec, Spawning;
  }

  /** A call that was answered ok is waiting for its callback or has had it, and
      never a second time. */
  lemma OneCallbackPerCall(s: State, steps: seq<Step>, call: int)
    requires Init(s) && Runs(s, steps)
    ensures var t := Exec(s, steps);
            Calls(t.tasks)[call] + multiset(t.callbacks)[call] == if call in t.ok then 1 else 0
  {
    InitInv(s);
    RunKeepsInv(s, steps);
    var t := Exec(s, steps);
    hide Exec, Calls, Counted, DropsTrack, CallsDistinct, AllCounted, QueueExact;
    assert multiset(t.ok)[call] == (Calls(t.tasks) + multiset(t.callbacks))[call];
  }

  // -------------------------------------------------------------- closing

  /** The calls that were past their check: only these may still be answered ok. */
  function Underway(s: State): set<int> {
    set t | t in s.threads && CallOf(s.threads[t]).Some? :: CallOf(s.threads[t]).value
  }

  lemma ClosedStep(s: State, step: Step)
    requires s.closing && Enabled(s, step)
    ensures Next(s, step).closing && Next(s, step).nextCall == s.nextCall
    ensures Next(s, step).ok <= s.ok + Underway(s) && Underway(Next(s, step)) <= Underway(s)
    ensures step.CallCheck? || step.AcquireCheck? ==> Next(s, step) == s
    ensures step.CallWake? ==> Next(s, step).threads[step.t].Idle?
  {
    var s' := Next(s, step);
    if step.CallSpawn? {
      assert CallOf(s.threads[step.t]) == Some(s.threads[step.t].call);
    }
    forall c | c in Underway(s') ensures c in Underway(s) {
      var t :| t in s'.threads && CallOf(s'.threads[t]).Some? && CallOf(s'.threads[t]).value == c;
      assert t in s.threads && CallOf(s.threads[t]) == Some(c);
    }
  }

  /** Once closing, for good: no call is begun and no reference asked for, and what is
      answered ok was past its check by then. */
  lemma {:induction false} ClosingIsForGood(s: State, steps: seq<Step>)
    requires s.closing && Runs(s, steps)
    ensures var t := Exec(s, steps);
            t.closing && t.nextCall == s.nextCall && t.ok <= s.ok + Underway(s) && Underway(t) <= Underway(s)
    decreases |steps|
  {
    hide Next, Enabled, Underway;
    if steps != [] {
      ClosedStep(s, steps[0]);
      ClosingIsForGood(Next(s, steps[0]), steps[1..]);
    }
  }

  /** A release with abort, or of the last reference, closes the function with its next
      step, and then every check answers closing and every thread that wakes gives up. */
  lemma AbortCloses(s: State, t: int, token: int, abort: bool)
    requires Enabled(s, ReleaseCas(t, token, abort)) && s.count > 0 && (abort || s.count == 1)
    ensures var s1 := Next(s, ReleaseCas(t, token, abort));
            && Enabled(s1, ReleaseClose(t))
            && var s2 := Next(s1, ReleaseClose(t));
               && s2.closing && (s.count > 1 ==> s2.threads[t].Idle?) && (s.count == 1 ==> Enabled(s2, ReleaseSpawn(t)))
               && (forall u, blocking :: At(s2, u, Idle) ==> Next(s2, CallCheck(u, blocking)) == s2 && Next(s2, AcquireCheck(u)) == s2)
               && (forall u :: u in s2.threads && s2.threads[u].Parked? ==> Next(s2, CallWake(u)).threads[u].Idle?)
  {
  }

  /** Inside a release, a thread is where it was until its own next step. */
  lemma {:induction false} ReleaserWaits(s: State, t: int, steps: seq<Step>)
    requires t in s.threads && s.threads[t].AtReleaseClose? && Runs(s, steps) && ReleaseClose(t) !in steps
    ensures At(Exec(s, steps), t, s.threads[t])
    decreases |steps|
  {
    hide Next, Enabled;
    if steps != [] {
      ReleaserWaitsOne(s, t, steps[0]);
      ReleaserWaits(Next(s, steps[0]), t, steps[1..]);
    }
  }

  lemma ReleaserWaitsOne(s: State, t: int, step: Step)
    requires t in s.threads && s.threads[t].AtReleaseClose? && Enabled(s, step) && step != ReleaseClose(t)
    ensures At(Next(s, step), t, s.threads[t])
  {
  }

  /** From the step with which a release with abort closes the function, whenever that
      comes, on: in every continuation no call is begun, no reference is asked for, who
      wakes gives up, and only calls past their check by then are still answered ok. */
  lemma AbortIsForGood(s: State, t: int, token: int, mid: seq<Step>, u: State, steps: seq<Step>, step: Step)
    requires Enabled(s, ReleaseCas(t, token, true)) && s.count > 0
    requires Runs(Next(s, ReleaseCas(t, token, true)), mid) && ReleaseClose(t) !in mid && u == Exec(Next(s, ReleaseCas(t, token, true)), mid)
    ensures Enabled(u, ReleaseClose(t))
    ensures var v := Next(u, ReleaseClose(t));
            Runs(v, steps) ==>
              var x := Exec(v, steps);
              && x.closing && x.nextCall == v.nextCall && x.ok <= v.ok + Underway(v)
              && (Enabled(x, step) && (step.CallCheck? || step.AcquireCheck?) ==> Next(x, step) == x)
              && (Enabled(x, step) && step.CallWake? ==> Next(x, step).threads[step.t].Idle?)
  {
    AbortCloses(s, t, token, true);
    ReleaserWaits(Next(s, ReleaseCas(t, token, true)), t, mid);
    var v := Next(u, ReleaseClose(t));
    assert v.closing;
    hide Runs, Exec, Next;
    if Runs(v, steps) {
      ClosingIsForGood(v, steps);
      if Enabled(Exec(v, steps), step) {
        ClosedStep(Exec(v, steps), step);
      }
    }
  }

  /** An acquire that was not turned away by closing takes a reference exactly when there
      still is one. */
  lemma AcquireTakesReference(s: State, t: int, token: int)
    requires At(s, t, Idle) && token !in s.owners
    ensures !s.closing ==> Enabled(Next(s, AcquireCheck(t)), AcquireCas(t, token))
    ensures !s.closing ==> var s' := Next(Next(s, AcquireCheck(t)), AcquireCas(t, token));
                           && At(s', t, Idle) && s'.closing == s.closing
                           && (s.count > 0 ==> s'.count == s.count + 1 && s'.owners == s.owners[token := t])
                           && (s.count == 0 ==> s'.count == 0 && s'.owners == s.owners)
  {
  }

  /** A release that neither aborts nor is the last leaves the function as open as it
      was, with one reference less. */
  lemma PlainReleaseKeepsOpen(s: State, t: int, token: int)
    requires Enabled(s, ReleaseCas(t, token, false)) && s.count > 1
    ensures var s' := Next(s, ReleaseCas(t, token, false));
            s'.closing == s.closing && s'.count == s.count - 1 && s'.threads[t].Idle? && token !in s'.owners
  {
  }

  // ----------------------------------------------------- how a call is answered

  /** With room in the queue, or no bound on it, a call that is not turned away by
      closing is answered ok by its own next steps, and its task goes to the end. */
  lemma CallWithRoomSucceeds(s: State, t: int, blocking: bool)
    requires At(s, t, Idle) && !s.closing && (s.maxQueue <= 0 || s.queueSize < s.maxQueue)
    ensures var steps := if s.maxQueue > 0 then [CallCheck(t, blocking), CallLock(t), CallSpawn(t)] else [CallCheck(t, blocking), CallSpawn(t)];
            && Runs(s, steps)
            && var s' := Exec(s, steps);
               && s'.ok == s.ok + {s.nextCall} && s'.tasks == s.tasks + [RunCall(s.nextCall, s.maxQueue > 0)]
               && s'.queueSize == s.queueSize + (if s.maxQueue > 0 then 1 else 0) && At(s', t, Idle)
  {
    var s1 := Next(s, CallCheck(t, blocking));
    if s.maxQueue > 0 {
      var s2 := Next(s1, CallLock(t));
      ThreeSteps(s, CallCheck(t, blocking), s1, CallLock(t), s2, CallSpawn(t));
    } else {
      TwoSteps(s, CallCheck(t, blocking), s1, CallSpawn(t));
    }
  }

  lemma TwoSteps(s: State, a: Step, s1: State, b: Step)
    requires Enabled(s, a) && s1 == Next(s, a) && Enabled(s1, b)
    ensures Runs(s, [a, b]) && Exec(s, [a, b]) == Next(s1, b)
  {
    hide Next, Enabled;
    assert [a, b][1..] == [b] && [b][1..] == [];
    assert Runs(s1, [b]) && Exec(s1, [b]) == Next(s1, b);
  }

  lemma ThreeSteps(s: State, a: Step, s1: State, b: Step, s2: State, c: Step)
    requires Enabled(s, a) && s1 == Next(s, a) && Enabled(s1, b) && s2 == Next(s1, b) && Enabled(s2, c)
    ensures Runs(s, [a, b, c]) && Exec(s, [a, b, c]) == Next(s2, c)
  {
    hide Next, Enabled;
    TwoSteps(s1, b, s2, c);
    assert [a, b, c][1..] == [b, c];
  }

  /** On a full queue a call that may not block gives up unanswered, one that may parks;
      a parked call that is woken, unless closing, asks for room again. */
  lemma FullQueueTurnsAway(s: State, t: int, call: int, blocking: bool)
    requires At(s, t, AtCallLock(call, blocking)) && s.queueSize >= s.maxQueue
    ensures var s' := Next(s, CallLock(t));
            && s'.ok == s.ok && s'.tasks == s.tasks && s'.queueSize == s.queueSize
            && At(s', t, if blocking then Parked(call) else Idle)
            && (blocking && !s.closing ==> At(Next(s', CallWake(t)), t, AtCallLock(call, true)))
  {
  }

  // -------------------------------------------------------- the drop is on its way

  /** When no reference is left, the drop has been spawned or the thread that gave up
      the last one is about to; spawning it finds the function closing. */
  predicate DropIsDue(s: State) {
    && (s.last.Some? ==> s.last.value in s.threads && (s.drops == 1 || Dropper(s.threads[s.last.value])))
    && (s.drops == 1 ==> s.closing)
    && (forall t :: t in s.threads && s.threads[t].AtReleaseSpawn? ==> s.closing)
  }

  lemma StepKeepsDropDue(s: State, step: Step)
    requires Counted(s) && DropIsDue(s) && Enabled(s, step)
    ensures DropIsDue(Next(s, step))
  {
    hide AfterDispatch;
    if step.Dispatch? {
      DispatchKeepsDropDue(s);
    } else {
      var s' := Next(s, step);
      assert s'.threads == s.threads[step.t := s'.threads[step.t]];
    }
  }

  lemma DispatchKeepsDropDue(s: State)
    requires DropIsDue(s) && s.tasks != []
    ensures DropIsDue(AfterDispatch(s))
  {
  }

  lemma {:induction false} RunKeepsDropDue(s: State, steps: seq<Step>)
    requires Inv(s) && DropIsDue(s) && Runs(s, steps)
    ensures DropIsDue(Exec(s, steps))
    decreases |steps|
  {
    hide Next, Enabled, Counted, DropsTrack, CallsDistinct, Answered, AllCounted, QueueExact, DropIsDue;
    if steps != [] {
      StepKeepsCounted(s, steps[0]);
      StepKeepsDropDue(s, steps[0]);
      StepKeepsDrops(s, steps[0]);
      StepKeepsDistinct(s, steps[0]);
      StepKeepsAnswered(s, steps[0]);
      StepKeepsAllCounted(s, steps[0]);
      StepKeepsQueue(s, steps[0]);
      RunKeepsDropDue(Next(s, steps[0]), steps[1..]);
    }
  }

  /** In every run, with no reference left and no thread inside a release, the drop has
      been spawned, exactly once; and with the queue empty the finalizer has run. */
  lemma LastReleaseDrops(s: State, steps: seq<Step>)
    requires Init(s) && Runs(s, steps)
    ensures var t := Exec(s, steps);
            && (t.count == 0 && (forall u :: u in t.threads ==> !Dropper(t.threads[u])) ==> t.drops == 1 && t.closing)
            && (t.drops == 1 && t.tasks == [] ==> t.finalizers == 1)
  {
    hide Init, Runs, Exec, Counted, DropsTrack, DropIsDue, CallsDistinct, Answered, AllCounted, QueueExact;
    InitInv(s);
    InitDropDue(s);
    RunKeepsInv(s, steps);
    RunKeepsDropDue(s, steps);
    DropDueMeans(Exec(s, steps));
  }

  lemma DropDueMeans(t: State)
    requires Counted(t) && DropsTrack(t) && DropIsDue(t)
    ensures t.count == 0 && (forall u :: u in t.threads ==> !Dropper(t.threads[u])) ==> t.drops == 1 && t.closing
    ensures t.drops == 1 && t.tasks == [] ==> t.finalizers == 1
  {
    if t.count == 0 {
      var u := t.last.value;
      assert u in t.threads && (t.drops == 1 || Dropper(t.threads[u]));
    }
  }

  lemma InitDropDue(s: State)
    requires Init(s)
    ensures DropIsDue(s)
  {
  }

  // ------------------------------------------- callers that hold a reference

  predicate Owns(s: State, t: int) {
    exists token :: token in s.owners && s.owners[token] == t
  }

  /** What Node-API asks of threads: call while holding a reference, and release
      only your own. */
  predicate Disciplined(s: State, step: Step) {
    match step
    case CallCheck(t, _) => Owns(s, t)
    case ReleaseCas(t, token, _) => token in s.owners && s.owners[token] == t
    case _ => true
  }

  predicate DisciplinedRun(s: State, steps: seq<Step>)
    requires Runs(s, steps)
    decreases |steps|
  {
    steps == [] || (Disciplined(s, steps[0]) && DisciplinedRun(Next(s, steps[0]), steps[1..]))
  }

  /** A thread inside a call holds a reference. */
  predicate CallersOwn(s: State) {
    forall t :: t in s.threads && CallOf(s.threads[t]).Some? ==> Owns(s, t)
  }

  lemma StepKeepsCallersOwn(s: State, step: Step)
    requires CallersOwn(s) && Enabled(s, step) && Disciplined(s, step)
    ensures CallersOwn(Next(s, step))
  {
    var s' := Next(s, step);
    forall t | t in s'.threads && CallOf(s'.threads[t]).Some? ensures Owns(s', t) {
      assert Owns(s, t);
      var token :| token in s.owners && s.owners[token] == t;
      assert token in s'.owners && s'.owners[token] == t;
    }
  }

  /** The drop comes after every call: it is last in the queue, and once it has
      run the queue holds no call. */
  predicate DropIsLast(s: State) {
    && (forall i :: 0 <= i < |s.tasks| && s.tasks[i].DropTask? ==> i == |s.tasks| - 1)
    && (s.drops == 1 ==> s.count == 0)
    && (s.drops == 0 ==> (forall i :: 0 <= i < |s.tasks| ==> s.tasks[i].RunCall?) && !s.closed)
    && (s.closed ==> s.tasks == [])
  }

  lemma NobodyCalls(s: State, t: int)
    requires Counted(s) && CallersOwn(s) && s.count == 0 && t in s.threads
    ensures CallOf(s.threads[t]).None?
  {
    assert s.owners.Keys == {};
  }

  lemma StepKeepsDropLast(s: State, step: Step)
    requires Counted(s) && CallersOwn(s) && DropIsLast(s) && DropsTrack(s) && Enabled(s, step)
    ensures DropIsLast(Next(s, step))
  {
    match step
    case CallSpawn(t) =>
      if s.count == 0 {
        NobodyCalls(s, t);
      }
    case ReleaseSpawn(t) => assert s.drops == 0 && s.count == 0;
    case ReleaseCas(_, _, _) =>
    case AcquireCas(_, _) =>
    case Dispatch => assert forall i :: 0 <= i < |s.tasks[1..]| ==> s.tasks[1..][i] == s.tasks[i + 1];
    case _ =>
  }

  lemma {:induction false} DisciplinedRunKeeps(s: State, steps: seq<Step>)
    requires Inv(s) && CallersOwn(s) && DropIsLast(s) && Runs(s, steps) && DisciplinedRun(s, steps)
    ensures CallersOwn(Exec(s, steps)) && DropIsLast(Exec(s, steps))
    decreases |steps|
  {
    hide Next, Enabled, Disciplined, Counted, DropsTrack, CallsDistinct, Answered, AllCounted, QueueExact, CallersOwn, DropIsLast;
    if steps != [] {
      StepKeepsCallersOwn(s, steps[0]);
      StepKeepsDropLast(s, steps[0]);
      StepKeepsCounted(s, steps[0]);
      StepKeepsDrops(s, steps[0]);
      StepKeepsDistinct(s, steps[0]);
      StepKeepsAnswered(s, steps[0]);
      StepKeepsAllCounted(s, steps[0]);
      StepKeepsQueue(s, steps[0]);
      DisciplinedRunKeeps(Next(s, steps[0]), steps[1..]);
    }
  }

  /** When every caller holds a reference, the finalizer runs after the callback
      of every call that was answered ok, and no call is dispatched after it. */
  lemma FinalizerComesLast(s: State, steps: seq<Step>)
    requires Init(s) && Runs(s, steps) && DisciplinedRun(s, steps)
    ensures var t := Exec(s, steps);
            t.finalizers > 0 ==> t.tasks == [] && multiset(t.callbacks) == multiset(t.ok)
                                 && forall u :: u in t.threads ==> CallOf(t.threads[u]).None?
  {
    InitInv(s);
    RunKeepsInv(s, steps);
    DisciplinedRunKeeps(s, steps);
    var t := Exec(s, steps);
    hide Exec, CallsDistinct, AllCounted, QueueExact;
    if t.finalizers > 0 {
      assert t.tasks == [] && Calls([]) == multiset{};
      assert t.count == 0;
      forall u | u in t.threads ensures CallOf(t.threads[u]).None? {
        NobodyCalls(t, u);
      }
    }
  }
}
