/**
Closing an async handle while other threads send to it: the shared state that
outlives the handle, the sends in flight, and the one close callback.

A step is one atomic operation or one event-loop task. A reference to the shared
state is held by the handle, by each thread between taking a clone and giving it
up, a closing call included, and by each queued send. `spawned`, `callbacks`,
`closeCalls` and `closeCallbacks` are history: which sends were queued and called
back, how often close was called, and how often its callback ran.
*/
module UvAsync {
  import opened Sets

  datatype Task = SendTask(send: int) | CloseTask

  /** A sending thread: with a clone, before or after it looked at `closing`. */
  datatype Pc = Cloned | Checked

  /** The event loop's thread: outside `uv_close`, or inside it with a clone, before or
      after it has swapped `closing`. */
  datatype Closer = Outside | CloserCloned | CloserSwapped

  datatype State = State(closing: bool, closer: Closer, handleHolds: bool, strong: int, tasks: seq<Task>, senders: map<int, Pc>,
                         freed: bool, spawned: seq<int>, callbacks: seq<int>, closeCalls: int, closeCallbacks: int)

  datatype Step =
    | SendClone(send: int)
    | SendCheck(send: int)
    | SendSpawn(send: int)
    | CloseClone
    | CloseSwap
    | CloseReturn
    | Dispatch

  const INIT := State(false, Outside, true, 1, [], map[], false, [], [], 0, 0)

  /** The addon may use the handle until its close callback has run. */
  predicate Enabled(s: State, step: Step) {
    match step
    case SendClone(send) => s.handleHolds && send !in s.senders && SendTask(send) !in s.tasks
    case SendCheck(send) => send in s.senders && s.senders[send].Cloned?
    case SendSpawn(send) => send in s.senders && s.senders[send].Checked?
    case CloseClone => s.handleHolds && s.closer.Outside?
    case CloseSwap => s.closer.CloserCloned?
    case CloseReturn => s.closer.CloserSwapped?
    case Dispatch => s.tasks != [] && s.closer.Outside?
  }

  /** A reference is given up; with the last one the state is freed. */
  function Release(s: State): State {
    s.(strong := s.strong - 1, freed := s.freed || s.strong == 1)
  }

  function AfterDispatch(s: State): State
    requires s.tasks != []
  {
    var rest := s.(tasks := s.tasks[1..]);
    match s.tasks[0]
    case SendTask(send) => Release(if s.closing then rest else rest.(callbacks := s.callbacks + [send]))
    case CloseTask => Release(rest.(closeCallbacks := s.closeCallbacks + 1, handleHolds := false))
  }

  function Next(s: State, step: Step): State
    requires Enabled(s, step)
  {
    match step
    case SendClone(send) => s.(strong := s.strong + 1, senders := s.senders[send := Cloned])
    case SendCheck(send) =>
      if s.closing then Release(s.(senders := s.senders - {send})) else s.(senders := s.senders[send := Checked])
    case SendSpawn(send) => s.(tasks := s.tasks + [SendTask(send)], senders := s.senders - {send}, spawned := s.spawned + [send])
    case CloseClone => s.(closer := CloserCloned, strong := s.strong + 1)
    case CloseSwap =>
      s.(closer := CloserSwapped, closeCalls := s.closeCalls + 1, closing := true,
         tasks := if s.closing then s.tasks else s.tasks + [CloseTask])
    case CloseReturn => Release(s.(closer := Outside))
    case Dispatch => AfterDispatch(s)
  }

  predicate Runs(s: State, steps: seq<Step>)
    decreases |steps|
  {
    steps == [] || (Enabled(s, steps[0]) && Runs(Next(s, steps[0]), steps[1..]))
  }

  function Exec(s: State, steps: seq<Step>): State
    requires Runs(s, steps)
    decreases |steps|
  {
    if steps == [] then s else Exec(Next(s, steps[0]), steps[1..])
  }

  // -------------------------------------------------------------- the invariant

  function One(b: bool): int {
    if b then 1 else 0
  }

  function Closes(tasks: seq<Task>): int {
    if tasks == [] then 0 else One(tasks[0].CloseTask?) + Closes(tasks[1..])
  }

  function Sends(tasks: seq<Task>): int {
    if tasks == [] then 0 else One(tasks[0].SendTask?) + Sends(tasks[1..])
  }

  lemma {:induction false} CountSnoc(tasks: seq<Task>, task: Task)
    ensures Closes(tasks + [task]) == Closes(tasks) + One(task.CloseTask?)
    ensures Sends(tasks + [task]) == Sends(tasks) + One(task.SendTask?)
  {
    if tasks == [] {
      assert tasks + [task] == [task] && [task][1..] == [];
    } else {
      assert (tasks + [task])[1..] == tasks[1..] + [task];
      CountSnoc(tasks[1..], task);
    }
  }

  lemma {:induction false} CountSigns(tasks: seq<Task>)
    ensures Closes(tasks) >= 0 && Sends(tasks) >= 0 && Closes(tasks) + Sends(tasks) == |tasks|
  {
    if tasks != [] {
      CountSigns(tasks[1..]);
    }
  }

  lemma CountHead(tasks: seq<Task>)
    requires tasks != []
    ensures Closes(tasks) == One(tasks[0].CloseTask?) + Closes(tasks[1..])
    ensures Sends(tasks) == One(tasks[0].SendTask?) + Sends(tasks[1..])
    ensures Closes(tasks[1..]) >= 0 && Sends(tasks[1..]) >= 0
  {
    CountSigns(tasks[1..]);
  }

  /** The strong count is the handle's reference and the clones outstanding. */
  predicate Inv(s: State) {
    && s.strong == One(s.handleHolds) + One(!s.closer.Outside?) + |s.senders.Keys| + Sends(s.tasks)
    && (!s.closer.Outside? ==> s.handleHolds)
    && (s.freed <==> s.strong == 0)
    && Closes(s.tasks) + s.closeCallbacks == One(s.closing)
    && s.closeCallbacks == One(!s.handleHolds)
    && (s.closing <==> s.closeCalls > 0) && s.closeCalls >= 0
    && Closes(s.tasks) >= 0 && Sends(s.tasks) >= 0
  }

  lemma SendKeepsInv(s: State, step: Step)
    requires Inv(s) && Enabled(s, step) && (step.SendClone? || step.SendCheck? || step.SendSpawn?)
    ensures Inv(Next(s, step))
  {
    hide Closes, Sends;
    CountAt(s.senders.Keys, step.send);
    match step
    case SendClone(send) =>
      assert s.senders[send := Cloned].Keys == s.senders.Keys + {send};
    case SendCheck(send) =>
      if s.closing {
        assert (s.senders - {send}).Keys == s.senders.Keys - {send};
      } else {
        assert s.senders[send := Checked].Keys == s.senders.Keys;
      }
    case SendSpawn(send) =>
      assert (s.senders - {send}).Keys == s.senders.Keys - {send};
      CountSnoc(s.tasks, SendTask(send));
  }

  lemma StepKeepsInv(s: State, step: Step)
    requires Inv(s) && Enabled(s, step)
    ensures Inv(Next(s, step))
  {
    hide Closes, Sends;
    match step
    case CloseClone =>
    case CloseSwap => CountSnoc(s.tasks, CloseTask);
    case CloseReturn =>
    case Dispatch => CountHead(s.tasks);
    case _ => SendKeepsInv(s, step);
  }

  lemma InitInv()
    ensures Inv(INIT)
  {
  }

  lemma {:induction false} RunKeepsInv(s: State, steps: seq<Step>)
    requires Inv(s) && Runs(s, steps)
    ensures Inv(Exec(s, steps))
    decreases |steps|
  {
    hide Next, Enabled, Inv;
    if steps != [] {
      StepKeepsInv(s, steps[0]);
      RunKeepsInv(Next(s, steps[0]), steps[1..]);
    }
  }

  /** What the invariant says of the last reference and of the close callback. */
  lemma InvMeans(s: State)
    requires Inv(s)
    ensures s.strong == One(s.handleHolds) + One(!s.closer.Outside?) + |s.senders.Keys| + Sends(s.tasks)
    ensures s.freed <==> !s.handleHolds && s.closer.Outside? && s.senders.Keys == {} && Sends(s.tasks) == 0
    ensures Closes(s.tasks) + s.closeCallbacks == One(s.closeCalls > 0)
    ensures s.tasks == [] ==> s.closeCallbacks == One(s.closeCalls > 0)
  {
    CountSigns(s.tasks);
    hide Sends, Closes;
    var keys := s.senders.Keys;
    assert |keys| == 0 <==> keys == {};
  }

  lemma RunFromInit(steps: seq<Step>)
    requires Runs(INIT, steps)
    ensures Inv(Exec(INIT, steps))
  {
    InitInv();
    hide Exec, Runs, Inv;
    RunKeepsInv(INIT, steps);
  }

  // ------------------------------------------------------------ what it promises

  /** In every run the shared state is freed exactly when the last reference to it
      is gone: the handle's, which goes with the close callback, and every clone. */
  lemma FreedAfterTheLast(steps: seq<Step>)
    requires Runs(INIT, steps)
    ensures var s := Exec(INIT, steps);
            && s.strong == One(s.handleHolds) + One(!s.closer.Outside?) + |s.senders.Keys| + Sends(s.tasks)
            && (s.freed <==> !s.handleHolds && s.closer.Outside? && s.senders.Keys == {} && Sends(s.tasks) == 0)
  {
    hide *;
    RunFromInit(steps);
    InvMeans(Exec(INIT, steps));
  }

  /** However often close is called, one close callback is due, and it has run once
      when the queue has drained. */
  lemma OneCloseCallback(steps: seq<Step>)
    requires Runs(INIT, steps)
    ensures var s := Exec(INIT, steps);
            && Closes(s.tasks) + s.closeCallbacks == One(s.closeCalls > 0)
            && (s.tasks == [] ==> s.closeCallbacks == One(s.closeCalls > 0))
  {
    hide *;
    RunFromInit(steps);
    InvMeans(Exec(INIT, steps));
  }

  /** Once close has been called, no send is called back, whenever it was queued. */
  lemma {:induction false} SilentAfterClose(s: State, steps: seq<Step>)
    requires s.closing && Runs(s, steps)
    ensures Exec(s, steps).closing && Exec(s, steps).callbacks == s.callbacks
    decreases |steps|
  {
    if steps != [] {
      assert Next(s, steps[0]).closing && Next(s, steps[0]).callbacks == s.callbacks;
      hide Next;
      SilentAfterClose(Next(s, steps[0]), steps[1..]);
    }
  }

  // ------------------------------------------------------- sends before the close

  function SendOf(task: Task): seq<int> {
    if task.SendTask? then [task.send] else []
  }

  function SendsIn(tasks: seq<Task>): seq<int> {
    if tasks == [] then [] else SendOf(tasks[0]) + SendsIn(tasks[1..])
  }

  lemma {:induction false} SendsInSnoc(tasks: seq<Task>, task: Task)
    ensures SendsIn(tasks + [task]) == SendsIn(tasks) + SendOf(task)
  {
    hide SendOf;
    if tasks == [] {
      assert tasks + [task] == [task] && [task][1..] == [];
    } else {
      assert (tasks + [task])[1..] == tasks[1..] + [task];
      SendsInSnoc(tasks[1..], task);
      assert SendOf(tasks[0]) + (SendsIn(tasks[1..]) + SendOf(task)) == SendOf(tasks[0]) + SendsIn(tasks[1..]) + SendOf(task);
    }
  }

  /** What was called back is the front of what was queued; while open, all of it that
      is not still in the queue. */
  predicate InOrder(s: State) {
    s.callbacks <= s.spawned && (!s.closing ==> s.spawned == s.callbacks + SendsIn(s.tasks))
  }

  lemma StepKeepsOrder(s: State, step: Step)
    requires InOrder(s) && Enabled(s, step)
    ensures InOrder(Next(s, step))
  {
    if step.Dispatch? {
      DispatchKeepsOrder(s);
    } else {
      hide SendsIn, AfterDispatch;
      SendsInSnoc(s.tasks, SendTask(if step.SendSpawn? then step.send else 0));
    }
  }

  lemma DispatchKeepsOrder(s: State)
    requires InOrder(s) && s.tasks != []
    ensures InOrder(AfterDispatch(s))
  {
    assert SendsIn(s.tasks) == SendOf(s.tasks[0]) + SendsIn(s.tasks[1..]);
    hide SendsIn;
  }

  lemma {:induction false} RunKeepsOrder(s: State, steps: seq<Step>)
    requires InOrder(s) && Runs(s, steps)
    ensures InOrder(Exec(s, steps))
    decreases |steps|
  {
    hide Next, Enabled, InOrder;
    if steps != [] {
      StepKeepsOrder(s, steps[0]);
      RunKeepsOrder(Next(s, steps[0]), steps[1..]);
    }
  }

  /** In every run sends are called back in the order they were queued; and until close
      is called every one that was queued is called back or still in the queue. */
  lemma SendsAreCalledBackInOrder(steps: seq<Step>)
    requires Runs(INIT, steps)
    ensures var s := Exec(INIT, steps);
            s.callbacks <= s.spawned && (!s.closing ==> s.spawned == s.callbacks + SendsIn(s.tasks))
  {
    hide Runs, Exec, SendsIn;
    assert InOrder(INIT) by {
      NoSends();
    }
    RunKeepsOrder(INIT, steps);
  }

  lemma NoSends()
    ensures SendsIn([]) == []
  {
  }

  /** A send that looks at the handle after close was called queues nothing; one that
      looks before goes on to be queued. */
  lemma LateSendIsDropped(s: State, send: int)
    requires Enabled(s, SendCheck(send))
    ensures var t := Next(s, SendCheck(send));
            t.tasks == s.tasks && (s.closing ==> send !in t.senders) && (!s.closing ==> Enabled(t, SendSpawn(send)))
  {
  }
}
