/**
Counting semaphores over a mutex and a condition variable: posts, waits that park
on a zero count, waits that do not block.

A step is one critical section. A thread that was notified is awake but has yet to
take the lock again, and others may get there first. `posts` and `takes` count
what happened: they are history.
*/
module UvSemaphore {
  import opened Options
  import opened Sets

  datatype State = State(count: int, parked: set<int>, notified: set<int>, initial: int, posts: int, takes: int)

  datatype Step =
    | Post(woken: Option<int>)
    | Wait(t: int)
    | Resume(t: int)
    | Spurious(t: int)
    | TryWait

  predicate Init(s: State) {
    s.count == s.initial && s.initial >= 0 && s.parked == {} && s.notified == {} && s.posts == 0 && s.takes == 0
  }

  /** A post wakes some parked thread if there is one. */
  predicate Enabled(s: State, step: Step) {
    match step
    case Post(woken) => if woken.Some? then woken.value in s.parked else s.parked == {}
    case Wait(t) => t !in s.parked && t !in s.notified
    case Resume(t) => t in s.notified
    case Spurious(t) => t in s.parked
    case TryWait => true
  }

  function Take(s: State): State {
    s.(count := s.count - 1, takes := s.takes + 1)
  }

  /** Under the lock, `t` awake: it takes one, or parks on a zero count. */
  function TakeOrPark(s: State, t: int): State {
    if s.count == 0 then s.(parked := s.parked + {t}) else Take(s)
  }

  function Next(s: State, step: Step): State {
    match step
    case Post(woken) =>
      var s' := s.(count := s.count + 1, posts := s.posts + 1);
      if woken.Some? then s'.(parked := s.parked - {woken.value}, notified := s.notified + {woken.value}) else s'
    case Wait(t) => TakeOrPark(s, t)
    case Resume(t) => TakeOrPark(s.(notified := s.notified - {t}), t)
    case Spurious(t) => TakeOrPark(s.(parked := s.parked - {t}), t)
    case TryWait => if s.count > 0 then Take(s) else s
  }

  predicate Runs(s: State, steps: seq<Step>)
    decreases |steps|
  {
    steps == [] || (Enabled(s, steps[0]) && Runs(Next(s, steps[0]), steps[1..]))
  }

  function Exec(s: State, steps: seq<Step>): State
    requires Runs(s, steps)
    decreases |steps|
  {
    if steps == [] then s else Exec(Next(s, steps[0]), steps[1..])
  }

  /** Nothing is made or lost, and while anyone is parked enough threads have been
      woken to take all there is. */
  predicate Inv(s: State) {
    && s.count >= 0 && s.initial + s.posts == s.count + s.takes
    && s.parked !! s.notified
    && (s.parked != {} ==> |s.notified| >= s.count)
  }

  lemma StepKeepsInv(s: State, step: Step)
    requires Inv(s) && Enabled(s, step)
    ensures Inv(Next(s, step))
  {
    match step
    case Post(woken) =>
      if woken.Some? {
        CountAt(s.notified + {woken.value}, woken.value);
        assert s.notified + {woken.value} - {woken.value} == s.notified;
      }
    case Resume(t) => CountAt(s.notified, t);
    case _ =>
  }

  /** A wait, blocking or not, takes one exactly when there is one; a blocking wait on
      none parks, and a non-blocking one changes nothing. */
  lemma WaitTakesIffPositive(s: State, t: int)
    requires s.count >= 0 && t !in s.parked && t !in s.notified
    ensures s.count > 0 ==> Next(s, TryWait) == Next(s, Wait(t)) == s.(count := s.count - 1, takes := s.takes + 1)
    ensures s.count == 0 ==> Next(s, TryWait) == s && Next(s, Wait(t)) == s.(parked := s.parked + {t})
  {
  }

  /** A post adds one and wakes one of those that are parked, if any is. */
  lemma PostWakesOne(s: State, woken: Option<int>)
    requires Enabled(s, Post(woken))
    ensures var t := Next(s, Post(woken));
            && t.count == s.count + 1 && t.takes == s.takes
            && (s.parked != {} ==> woken.Some? && woken.value in s.parked
                                   && t.parked == s.parked - {woken.value} && t.notified == s.notified + {woken.value})
            && (s.parked == {} ==> t.parked == {} && t.notified == s.notified)
  {
  }

  lemma {:induction false} RunKeepsInv(s: State, steps: seq<Step>)
    requires Inv(s) && Runs(s, steps)
    ensures Inv(Exec(s, steps))
    decreases |steps|
  {
    hide Next, Enabled, Inv;
    if steps != [] {
      StepKeepsInv(s, steps[0]);
      RunKeepsInv(Next(s, steps[0]), steps[1..]);
    }
  }

  /** In every run, with barging, spurious wakes and non-blocking waits: what was
      posted is there or was taken, the count is never negative, and a positive
      count never leaves every waiter asleep. */
  lemma NoWaiterForgotten(s: State, steps: seq<Step>)
    requires Init(s) && Runs(s, steps)
    ensures var t := Exec(s, steps);
            && t.initial + t.posts == t.count + t.takes && t.count >= 0
            && (t.parked != {} ==> |t.notified| >= t.count)
            && (t.parked != {} && t.count > 0 ==> t.notified != {})
  {
    RunKeepsInv(s, steps);
  }
}
