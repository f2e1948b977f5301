/**
Condition variables built on an internal mutex of their own, beside the addon's
mutex that waiters hand over: waits, timed waits, signals and broadcasts by any
number of threads.

A step is one acquisition, release, park or notification. `timed` and `answers` are
history: whether a timeout was what last woke a thread, and what its last timed
wait answered.
*/
module UvCondition {
  import opened Options
  import opened Sets

  /** Where a thread is. `User` is the addon's own code, with its mutex or not. */
  datatype Pc =
    | User(holds: bool)
    | WantAddon
    // a wait
    | WaitWantsInternal
    | WaitHasBoth
    | WaitHasInternal
    | Parked
    | Woken(timedOut: bool)
    | WaitHasInternalBack(timedOut: bool)
    | WantAddonBack(timedOut: bool)
    // a signal or a broadcast
    | NotifyWantsInternal(all: bool, holds: bool)
    | NotifyHasInternal(all: bool, holds: bool)
    | NotifyDone(holds: bool)

  datatype State = State(addon: Option<int>, inner: Option<int>, threads: map<int, Pc>, timed: map<int, bool>, answers: map<int, bool>)

  datatype Step =
    | RequestAddon(t: int)
    | GrantAddon(t: int)
    | UnlockAddon(t: int)
    | StartWait(t: int)
    | GrantInternal(t: int)
    | ReleaseAddon(t: int)
    | Park(t: int)
    | TimeOut(t: int)
    | DropInternal(t: int)
    | StartNotify(t: int, all: bool)
    | Notify(t: int, woken: Option<int>)

  predicate Init(s: State) {
    s.addon.None? && s.inner.None? && forall t :: t in s.threads ==> s.threads[t] == User(false)
  }

  predicate HoldsAddon(pc: Pc) {
    match pc
    case User(holds) => holds
    case WaitWantsInternal => true
    case WaitHasBoth => true
    case NotifyWantsInternal(_, holds) => holds
    case NotifyHasInternal(_, holds) => holds
    case NotifyDone(holds) => holds
    case _ => false
  }

  predicate HoldsInternal(pc: Pc) {
    pc.WaitHasBoth? || pc.WaitHasInternal? || pc.WaitHasInternalBack? || pc.NotifyHasInternal? || pc.NotifyDone?
  }

  predicate WantsAddon(pc: Pc) {
    pc.WantAddon? || pc.WantAddonBack?
  }

  predicate WantsInternal(pc: Pc) {
    pc.WaitWantsInternal? || pc.Woken? || pc.NotifyWantsInternal?
  }

  predicate Enabled(s: State, step: Step) {
    && step.t in s.threads
    && var pc := s.threads[step.t];
       match step
       case RequestAddon(_) => pc == User(false)
       case GrantAddon(_) => WantsAddon(pc) && s.addon.None?
       case UnlockAddon(_) => pc == User(true)
       case StartWait(_) => pc == User(true)
       case GrantInternal(_) => WantsInternal(pc) && s.inner.None?
       case ReleaseAddon(_) => pc.WaitHasBoth?
       case Park(_) => pc.WaitHasInternal?
       case TimeOut(_) => pc.Parked?
       case DropInternal(_) => pc.WaitHasInternalBack? || pc.NotifyDone?
       case StartNotify(_, _) => pc.User?
       case Notify(_, woken) =>
         pc.NotifyHasInternal? && (pc.all || if woken.Some? then woken.value in Sleepers(s) else Sleepers(s) == {})
  }

  function Sleepers(s: State): set<int> {
    set t | t in s.threads && s.threads[t].Parked?
  }

  /** Threads that gave up the addon's mutex to wait and have not been woken. */
  function Committed(s: State): set<int> {
    set t | t in s.threads && (s.threads[t].WaitHasInternal? || s.threads[t].Parked?)
  }

  function Go(s: State, t: int, pc: Pc): State {
    s.(threads := s.threads[t := pc])
  }

  function AfterGrantInternal(pc: Pc): Pc
    requires WantsInternal(pc)
  {
    match pc
    case WaitWantsInternal => WaitHasBoth
    case Woken(timedOut) => WaitHasInternalBack(timedOut)
    case NotifyWantsInternal(all, holds) => NotifyHasInternal(all, holds)
  }

  /** Whom a notification wakes: everyone parked, or the one it picked. */
  function WokenBy(s: State, all: bool, woken: Option<int>): set<int> {
    if all then Sleepers(s) else if woken.Some? then {woken.value} else {}
  }

  function Wake(threads: map<int, Pc>, who: set<int>): map<int, Pc> {
    map t | t in threads :: if t in who then Woken(false) else threads[t]
  }

  function Next(s: State, step: Step): State
    requires Enabled(s, step)
  {
    var t, pc := step.t, s.threads[step.t];
    match step
    case RequestAddon(_) => Go(s, t, WantAddon)
    case GrantAddon(_) =>
      Go(s, t, User(true)).(addon := Some(t), answers := if pc.WantAddonBack? then s.answers[t := pc.timedOut] else s.answers)
    case UnlockAddon(_) => Go(s, t, User(false)).(addon := None)
    case StartWait(_) => Go(s, t, WaitWantsInternal)
    case GrantInternal(_) => Go(s, t, AfterGrantInternal(pc)).(inner := Some(t))
    case ReleaseAddon(_) => Go(s, t, WaitHasInternal).(addon := None)
    case Park(_) => Go(s, t, Parked).(inner := None)
    case TimeOut(_) => Go(s, t, Woken(true)).(timed := s.timed[t := true])
    case DropInternal(_) =>
      Go(s, t, if pc.NotifyDone? then User(pc.holds) else WantAddonBack(pc.timedOut)).(inner := None)
    case StartNotify(_, all) => Go(s, t, NotifyWantsInternal(all, pc.holds))
    case Notify(_, woken) =>
      var who := WokenBy(s, pc.all, woken);
      s.(threads := Wake(s.threads, who)[t := NotifyDone(pc.holds)], timed := s.timed + map u | u in who :: false)
  }

  predicate Runs(s: State, steps: seq<Step>)
    decreases |steps|
  {
    steps == [] || (Enabled(s, steps[0]) && Runs(Next(s, steps[0]), steps[1..]))
  }

  function Exec(s: State, steps: seq<Step>): State
    requires Runs(s, steps)
    decreases |steps|
  {
    if steps == [] then s else Exec(Next(s, steps[0]), steps[1..])
  }

  // -------------------------------------------------------------- the invariant

  /** Each mutex is held by exactly the thread whose place says so. */
  predicate Inv(s: State) {
    && (forall t :: t in s.threads ==> (HoldsAddon(s.threads[t]) <==> s.addon == Some(t)))
    && (forall t :: t in s.threads ==> (HoldsInternal(s.threads[t]) <==> s.inner == Some(t)))
    && (s.addon.Some? ==> s.addon.value in s.threads)
    && (s.inner.Some? ==> s.inner.value in s.threads)
  }

  lemma NotifyKeepsInv(s: State, t: int, woken: Option<int>)
    requires Inv(s) && Enabled(s, Notify(t, woken))
    ensures Inv(Next(s, Notify(t, woken)))
  {
    var who := WokenBy(s, s.threads[t].all, woken);
    assert forall u :: u in who ==> s.threads[u].Parked?;
  }

  /** The steps that take or give up the addon's mutex. */
  lemma AddonKeepsInv(s: State, step: Step)
    requires Inv(s) && Enabled(s, step) && (step.GrantAddon? || step.UnlockAddon? || step.ReleaseAddon?)
    ensures Inv(Next(s, step))
  {
  }

  /** Those that take or give up the internal one. */
  lemma InternalKeepsInv(s: State, step: Step)
    requires Inv(s) && Enabled(s, step) && (step.GrantInternal? || step.Park? || step.DropInternal?)
    ensures Inv(Next(s, step))
  {
  }

  lemma StepKeepsInv(s: State, step: Step)
    requires Inv(s) && Enabled(s, step)
    ensures Inv(Next(s, step))
  {
    hide Wake, WokenBy, Sleepers;
    if step.Notify? {
      NotifyKeepsInv(s, step.t, step.woken);
    } else if step.GrantAddon? || step.UnlockAddon? || step.ReleaseAddon? {
      AddonKeepsInv(s, step);
    } else if step.GrantInternal? || step.Park? || step.DropInternal? {
      InternalKeepsInv(s, step);
    }
  }

  lemma {:induction false} RunKeepsInv(s: State, steps: seq<Step>)
    requires Inv(s) && Runs(s, steps)
    ensures Inv(Exec(s, steps))
    decreases |steps|
  {
    hide Next, Enabled, Inv;
    if steps != [] {
      StepKeepsInv(s, steps[0]);
      RunKeepsInv(Next(s, steps[0]), steps[1..]);
    }
  }

  // ------------------------------------------------------------ no lost wakeup

  /** Whenever a notification happens, every thread that has given up the addon's
      mutex to wait is already parked. So a broadcast leaves none of them asleep,
      and a signal wakes exactly one if there is any. */
  lemma NoLostWakeup(s: State, steps: seq<Step>, t: int, woken: Option<int>)
    requires Init(s) && Runs(s, steps) && Enabled(Exec(s, steps), Notify(t, woken))
    ensures var u := Exec(s, steps);
            var v := Next(u, Notify(t, woken));
            && Committed(u) == Sleepers(u)
            && (u.threads[t].all ==> Committed(v) == {})
            && (!u.threads[t].all && Committed(u) != {} ==> woken.Some? && woken.value in Committed(u) && Committed(v) == Committed(u) - {woken.value})
  {
    RunKeepsInv(s, steps);
    NotifyReachesAll(Exec(s, steps), t, woken);
  }

  lemma NotifyReachesAll(u: State, t: int, woken: Option<int>)
    requires Inv(u) && Enabled(u, Notify(t, woken))
    ensures var v := Next(u, Notify(t, woken));
            && Committed(u) == Sleepers(u)
            && (u.threads[t].all ==> Committed(v) == {})
            && (!u.threads[t].all && Committed(u) != {} ==> woken.Some? && woken.value in Committed(u) && Committed(v) == Committed(u) - {woken.value})
  {
    var v := Next(u, Notify(t, woken));
    assert u.inner == Some(t);
    forall x | x in u.threads ensures !u.threads[x].WaitHasInternal? {
      assert HoldsInternal(u.threads[x]) <==> x == t;
    }
    forall x ensures x in Committed(v) <==> x in Committed(u) && x !in WokenBy(u, u.threads[t].all, woken) {
    }
  }

  // ------------------------------------------------------- what a wait answers

  /** On its way back from a wait, a thread knows what woke it. */
  predicate KnowsWaker(s: State) {
    forall t :: t in s.threads && (s.threads[t].Woken? || s.threads[t].WaitHasInternalBack? || s.threads[t].WantAddonBack?) ==>
      t in s.timed && s.timed[t] == s.threads[t].timedOut
  }

  lemma StepKeepsWaker(s: State, step: Step)
    requires KnowsWaker(s) && Enabled(s, step)
    ensures KnowsWaker(Next(s, step))
  {
    if step.Notify? {
      var who := WokenBy(s, s.threads[step.t].all, step.woken);
      assert forall u :: u in who ==> s.threads[u].Parked?;
    } else {
      hide Wake, WokenBy, Sleepers;
    }
  }

  lemma {:induction false} RunKeepsWaker(s: State, steps: seq<Step>)
    requires KnowsWaker(s) && Runs(s, steps)
    ensures KnowsWaker(Exec(s, steps))
    decreases |steps|
  {
    hide Next, Enabled, KnowsWaker;
    if steps != [] {
      StepKeepsWaker(s, steps[0]);
      RunKeepsWaker(Next(s, steps[0]), steps[1..]);
    }
  }

  /** A wait ends with the addon's mutex back in its thread's hands, and answers a
      timeout exactly when a timeout, and no notification, was what woke it. */
  lemma WaitAnswersItsWaker(s: State, steps: seq<Step>, t: int)
    requires Init(s) && Runs(s, steps) && t in Exec(s, steps).threads && Exec(s, steps).threads[t].WantAddonBack?
    requires Enabled(Exec(s, steps), GrantAddon(t))
    ensures var u := Exec(s, steps);
            var v := Next(u, GrantAddon(t));
            v.addon == Some(t) && v.threads[t] == User(true) && t in u.timed && t in v.answers && v.answers[t] == u.timed[t]
  {
    RunKeepsWaker(s, steps);
    hide Runs, Exec, Wake, WokenBy, Sleepers;
  }

  /** A timeout is told apart from a notification when the thread is woken. */
  lemma WakersAreToldApart(s: State, step: Step, u: int)
    requires Enabled(s, step) && u in s.threads && s.threads[u].Parked? && Next(s, step).threads[u].Woken?
    ensures Next(s, step).threads[u].timedOut <==> step == TimeOut(u)
    ensures step == TimeOut(u) || (step.Notify? && s.threads[step.t].NotifyHasInternal?)
  {
  }

  // -------------------------------------------------------------- no deadlock

  /** No thread ever asks for the addon's mutex while it holds the internal one. */
  lemma LockOrder(s: State, steps: seq<Step>, t: int)
    requires Init(s) && Runs(s, steps) && t in Exec(s, steps).threads
    ensures WantsAddon(Exec(s, steps).threads[t]) ==> Exec(s, steps).inner != Some(t)
  {
    RunKeepsInv(s, steps);
  }

  predicate Blocked(s: State, t: int) {
    t in s.threads && ((WantsAddon(s.threads[t]) && s.addon.Some?) || (WantsInternal(s.threads[t]) && s.inner.Some?))
  }

  /** A thread in the library, not asleep, that can move on at once. */
  ghost predicate CanMove(s: State, t: int) {
    t in s.threads && !s.threads[t].User? && !s.threads[t].Parked? && exists step: Step :: step.t == t && Enabled(s, step)
  }

  lemma InternalHolderMoves(s: State, t: int)
    requires Inv(s) && s.inner == Some(t)
    ensures CanMove(s, t)
  {
    var pc := s.threads[t];
    assert HoldsInternal(pc);
    match pc
    case WaitHasBoth => assert Enabled(s, ReleaseAddon(t));
    case WaitHasInternal => assert Enabled(s, Park(t));
    case WaitHasInternalBack(_) => assert Enabled(s, DropInternal(t));
    case NotifyDone(_) => assert Enabled(s, DropInternal(t));
    case NotifyHasInternal(_, _) =>
      HasMember(Sleepers(s));
      if w :| w in Sleepers(s) {
        assert Enabled(s, Notify(t, Some(w)));
      } else {
        assert Enabled(s, Notify(t, None));
      }
  }

  /** No deadlock: if any thread waits for a mutex, some thread in the library can
      move, or the addon's mutex is held by a thread in the addon's own code. */
  lemma NoDeadlock(s: State, steps: seq<Step>, t: int)
    requires Init(s) && Runs(s, steps) && Blocked(Exec(s, steps), t)
    ensures var u := Exec(s, steps);
            || (exists x :: CanMove(u, x))
            || (u.addon.Some? && u.addon.value in u.threads && u.threads[u.addon.value] == User(true))
  {
    RunKeepsInv(s, steps);
    var u := Exec(s, steps);
    if u.inner.Some? {
      InternalHolderMoves(u, u.inner.value);
    } else {
      var h := u.addon.value;
      assert HoldsAddon(u.threads[h]) && !HoldsInternal(u.threads[h]);
      if !u.threads[h].User? {
        assert WantsInternal(u.threads[h]) && Enabled(u, GrantInternal(h));
        assert CanMove(u, h);
      }
    }
  }
}
