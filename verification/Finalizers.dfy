/**
The life of Node-API finalizers: references that register them, the GC, addon
deletes, the drain task on the event loop and the teardown of the environment.

A step is one call of the API, one phase of a weak callback, one event-loop task
or one finalizer call; steps interleave freely, so a finalizer may re-enter any
of them. `registered`, `ran`, `dropped` and `mark` are history.
*/
module Finalizers {
  import opened Options
  import opened RefTracker
  import opened Sets

  /** How a reference holds its object: weakly until the GC takes it (`Cleared`),
      and done with once the weak callback has run (`Fired`). */
  datatype Hold = Strong | Weak | Cleared | Fired

  datatype Ref = Ref(hold: Hold, count: int, runtimeOwned: bool, call: Option<Call>, finId: Option<int>)

  // ------------------------------------------------------- references as values

  function Strengthen(hold: Hold): Hold {
    if hold.Weak? then Strong else hold
  }

  function Weaken(hold: Hold): Hold {
    if hold.Strong? then Weak else hold
  }

  function CountUp(r: Ref): Ref {
    r.(count := r.count + 1, hold := if r.count + 1 == 1 then Strengthen(r.hold) else r.hold)
  }

  function CountDown(r: Ref): Ref {
    if r.count <= 0 then r
    else r.(count := r.count - 1, hold := if r.count == 1 then Weaken(r.hold) else r.hold)
  }

  function Forget(r: Ref): Ref {
    r.(call := None, finId := None)
  }

  function NewRef(t: Tracker, call: Option<Call>, runtimeOwned: bool, count: int): Ref {
    Ref(if count == 0 then Weak else Strong, count, runtimeOwned, call, if call.Some? then Some(t.nextId) else None)
  }

  function Register(t: Tracker, call: Option<Call>): Tracker {
    if call.Some? then Add(t, call.value) else t
  }

  predicate Pending(t: Tracker, r: Ref) {
    r.finId.Some? && r.finId.value in t.pending
  }

  function Deregister(t: Tracker, r: Ref): Tracker {
    if r.finId.Some? then Remove(t, r.finId.value) else t
  }

  /** What a weak callback does to the tracker: the entry, if teardown has not
      consumed it, moves to the GC-ready list. */
  function Collect(t: Tracker, r: Ref): Tracker {
    var t' := Deregister(t, r);
    if Pending(t, r) && r.call.Some? then Defer(t', Fin(r.finId.value, r.call.value)) else t'
  }

  predicate CollectSchedules(t: Tracker, r: Ref) {
    Pending(t, r) && r.call.Some? && !t.drainRequested
  }

  // ------------------------------------------------------------------ the class

  class Reference {
    var hold: Hold
    var count: int
    var call: Option<Call>
    var finId: Option<int>
    const runtimeOwned: bool
    const tracker: RefTracker

    function Value(): Ref
      reads this
    {
      Ref(hold, count, runtimeOwned, call, finId)
    }

    constructor (tracker: RefTracker, call: Option<Call>, runtimeOwned: bool, initialCount: int)
      modifies tracker
      ensures this.tracker == tracker
      ensures Value() == NewRef(old(tracker.Value()), call, runtimeOwned, initialCount)
      ensures tracker.Value() == Register(old(tracker.Value()), call)
    {
      var id: Option<int> := None;
      if call.Some? {
        var n := tracker.AddFinalizer(call.value);
        id := Some(n);
      }
      this.tracker, this.call, this.runtimeOwned, this.finId := tracker, call, runtimeOwned, id;
      this.count := initialCount;
      this.hold := if initialCount == 0 then Weak else Strong;
    }

    method RefUp() returns (r: int)
      modifies this
      ensures Value() == CountUp(old(Value())) && r == count == old(count) + 1
      ensures old(Value()).hold.Weak? && old(count) == 0 ==> hold.Strong?
    {
      count := count + 1;
      if count == 1 {
        hold := Strengthen(hold);
      }
      r := count;
    }

    method Unref() returns (r: int)
      modifies this
      ensures Value() == CountDown(old(Value())) && r == count == if old(count) > 0 then old(count) - 1 else old(count)
      ensures old(Value()).hold.Strong? && old(count) == 1 ==> hold.Weak?
    {
      var before := count;
      if count > 0 {
        count := count - 1;
      }
      if before == 1 && count == 0 {
        hold := Weaken(hold);
      }
      r := count;
    }

    /** Drops the finalizer; true exactly when it was still the caller's to run. */
    method Reset() returns (wasPending: bool)
      modifies this, tracker
      ensures wasPending <==> Pending(old(tracker.Value()), old(Value()))
      ensures Value() == Forget(old(Value())) && call.None? && finId.None? && hold == old(hold) && count == old(count)
      ensures tracker.Value() == Deregister(old(tracker.Value()), old(Value()))
    {
      wasPending := false;
      if finId.Some? {
        wasPending := tracker.RemoveFinalizer(finId.value);
      }
      finId, call := None, None;
    }

    method WeakCallback() returns (schedule: bool)
      modifies this, tracker
      ensures schedule <==> Pending(old(tracker.Value()), old(Value())) && old(call).Some? && !old(tracker.drainRequested)
      ensures tracker.Value() == Collect(old(tracker.Value()), old(Value()))
      ensures Value() == Forget(old(Value())).(hold := Fired)
    {
      var saved, id := call, finId;
      var wasPending := Reset();
      hold := Fired;
      schedule := false;
      if wasPending && saved.Some? {
        schedule := tracker.DeferFinalizer(Fin(id.value, saved.value));
      }
    }
  }

  // ------------------------------------------------------------------ the steps

  datatype State = State(tracker: Tracker, refs: map<int, Ref>, drainTasks: int, drainBatch: seq<Fin>, teardownBatch: seq<Fin>,
                         registered: map<int, Call>, ran: seq<Fin>, dropped: set<int>, mark: int)

  datatype Step =
    | New(r: int, call: Option<Call>, runtimeOwned: bool, count: int)
    | RefUp(r: int)
    | Unref(r: int)
    | GcClear(r: int)
    | WeakCallback(r: int)
    | Delete(r: int)
    | RemoveWrap(r: int)
    | DrainTask
    | RunDrained
    | Teardown
    | RunTornDown

  const INIT := State(EMPTY_TRACKER, map[], 0, [], [], map[], [], {}, 0)

  predicate Enabled(s: State, step: Step) {
    match step
    case New(r, _, _, count) => r !in s.refs && count >= 0
    case GcClear(r) => r in s.refs && s.refs[r].hold.Weak?
    case WeakCallback(r) => r in s.refs && s.refs[r].hold.Cleared?
    case RefUp(r) => r in s.refs
    case Unref(r) => r in s.refs
    case Delete(r) => r in s.refs
    case RemoveWrap(r) => r in s.refs
    case DrainTask => s.drainTasks > 0 && s.drainBatch == []
    case RunDrained => s.drainBatch != []
    case Teardown => s.teardownBatch == []
    case RunTornDown => s.teardownBatch != []
  }

  function AfterNew(s: State, r: int, call: Option<Call>, runtimeOwned: bool, count: int): State {
    s.(tracker := Register(s.tracker, call),
       refs := s.refs[r := NewRef(s.tracker, call, runtimeOwned, count)],
       registered := if call.Some? then s.registered[s.tracker.nextId := call.value] else s.registered)
  }

  function AfterWeakCallback(s: State, r: int): State
    requires r in s.refs
  {
    var ref := s.refs[r];
    s.(tracker := Collect(s.tracker, ref),
       drainTasks := s.drainTasks + if CollectSchedules(s.tracker, ref) then 1 else 0,
       refs := if ref.runtimeOwned then s.refs - {r} else s.refs[r := Forget(ref).(hold := Fired)])
  }

  /** A finalizer given up without running: the entry goes, with a note of it. */
  function GiveUp(s: State, r: int): State
    requires r in s.refs
  {
    var ref := s.refs[r];
    s.(tracker := Deregister(s.tracker, ref),
       dropped := if Pending(s.tracker, ref) then s.dropped + {ref.finId.value} else s.dropped)
  }

  function Next(s: State, step: Step): State
    requires Enabled(s, step)
  {
    match step
    case New(r, call, runtimeOwned, count) => AfterNew(s, r, call, runtimeOwned, count)
    case RefUp(r) => s.(refs := s.refs[r := CountUp(s.refs[r])])
    case Unref(r) => s.(refs := s.refs[r := CountDown(s.refs[r])])
    case GcClear(r) => s.(refs := s.refs[r := s.refs[r].(hold := Cleared)])
    case WeakCallback(r) => AfterWeakCallback(s, r)
    case Delete(r) => GiveUp(s, r).(refs := s.refs - {r})
    case RemoveWrap(r) =>
      GiveUp(s, r).(refs := if s.refs[r].runtimeOwned then s.refs - {r} else s.refs[r := Forget(s.refs[r])])
    case DrainTask =>
      s.(tracker := TakeGcReady(s.tracker), drainTasks := s.drainTasks - 1, drainBatch := s.tracker.gcReady)
    case RunDrained => s.(drainBatch := s.drainBatch[1..], ran := s.ran + [s.drainBatch[0]])
    case Teardown =>
      s.(tracker := TakeAll(s.tracker), teardownBatch := Reverse(Owed(s.tracker)), mark := s.tracker.nextId)
    case RunTornDown => s.(teardownBatch := s.teardownBatch[1..], ran := s.ran + [s.teardownBatch[0]])
  }

  predicate Runs(s: State, steps: seq<Step>)
    decreases |steps|
  {
    steps == [] || (Enabled(s, steps[0]) && Runs(Next(s, steps[0]), steps[1..]))
  }

  function Exec(s: State, steps: seq<Step>): State
    requires Runs(s, steps)
    decreases |steps|
  {
    if steps == [] then s else Exec(Next(s, steps[0]), steps[1..])
  }

  // ----------------------------------------------------------------- the ledger

  function Regs(fins: seq<Fin>): multiset<int> {
    if fins == [] then multiset{} else multiset{fins[0].reg} + Regs(fins[1..])
  }

  /** Where every registration is: pending, ready, in a batch, run, or dropped. */
  function Places(s: State): multiset<int> {
    multiset(s.tracker.pending.Keys) + Regs(s.tracker.gcReady) + Regs(s.drainBatch) + Regs(s.teardownBatch)
    + Regs(s.ran) + multiset(s.dropped)
  }

  /** Every registration is in exactly one place. */
  predicate Conserved(s: State) {
    Places(s) == multiset(s.registered.Keys)
  }

  lemma {:induction false} RegsConcat(a: seq<Fin>, b: seq<Fin>)
    ensures Regs(a + b) == Regs(a) + Regs(b)
  {
    if a == [] {
      assert a + b == b;
    } else {
      assert (a + b)[1..] == a[1..] + b;
      RegsConcat(a[1..], b);
    }
  }

  lemma RegsOne(fin: Fin)
    ensures Regs([fin]) == multiset{fin.reg}
  {
    assert [fin][1..] == [];
  }

  lemma {:induction false} RegsReverse(fins: seq<Fin>)
    ensures Regs(Reverse(fins)) == Regs(fins)
  {
    if fins != [] {
      var init, last := fins[..|fins| - 1], [fins[|fins| - 1]];
      RegsReverse(init);
      assert fins == init + last;
      assert Reverse(fins) == last + Reverse(init);
      hide *;
      RegsConcat(init, last);
      RegsConcat(last, Reverse(init));
    }
  }

  lemma {:induction false} RegsValuesAt(m: map<int, Fin>, n: nat, x: int)
    requires forall id :: id in m ==> m[id].reg == id
    ensures Regs(ValuesBelow(m, n))[x] == if x in m && 0 <= x < n then 1 else 0
  {
    if n > 0 {
      RegsValuesAt(m, n - 1, x);
      if n - 1 in m {
        RegsConcat(ValuesBelow(m, n - 1), [m[n - 1]]);
        RegsOne(m[n - 1]);
      } else {
        assert ValuesBelow(m, n) == ValuesBelow(m, n - 1);
      }
    }
  }

  lemma RegsOwed(t: Tracker)
    requires Keyed(t)
    ensures Regs(Reverse(Owed(t))) == multiset(t.pending.Keys) + Regs(t.gcReady)
  {
    hide Regs, Reverse;
    RegsReverse(Owed(t));
    RegsConcat(t.gcReady, ValuesBelow(t.pending, t.nextId));
    forall x ensures Regs(ValuesBelow(t.pending, t.nextId))[x] == multiset(t.pending.Keys)[x] {
      RegsValuesAt(t.pending, t.nextId, x);
    }
    assert Regs(ValuesBelow(t.pending, t.nextId)) == multiset(t.pending.Keys);
  }

  // -------------------------------------------------------------- the invariant

  predicate Numbered(s: State) {
    && Keyed(s.tracker)
    && (forall id :: id in s.registered ==> 0 <= id < s.tracker.nextId)
    && (forall id :: id in s.tracker.pending ==> id in s.registered && s.tracker.pending[id].call == s.registered[id])
  }

  predicate FaithfulAll(registered: map<int, Call>, fins: seq<Fin>) {
    forall i :: 0 <= i < |fins| ==> fins[i].reg in registered && registered[fins[i].reg] == fins[i].call
  }

  /** Whatever waits or has run carries the call its registration asked for. */
  predicate Faithful(s: State) {
    && FaithfulAll(s.registered, s.tracker.gcReady) && FaithfulAll(s.registered, s.drainBatch)
    && FaithfulAll(s.registered, s.teardownBatch) && FaithfulAll(s.registered, s.ran)
  }

  /** A reference with a registration number is the only one with it, and
      remembers what it registered. */
  predicate Owned(s: State) {
    && (forall r :: r in s.refs && s.refs[r].finId.Some? ==>
          s.refs[r].finId.value in s.registered && s.refs[r].call == Some(s.registered[s.refs[r].finId.value]))
    && (forall r, r' :: r in s.refs && r' in s.refs && s.refs[r].finId.Some? && s.refs[r'].finId == s.refs[r].finId ==> r == r')
  }

  /** No entry outlives its reference. */
  ghost predicate NoDangling(s: State) {
    forall id :: id in s.tracker.pending ==> exists r :: r in s.refs && s.refs[r].finId == Some(id)
  }

  /** A collected finalizer always has a drain task on its way. */
  predicate NotStranded(s: State) {
    && (s.tracker.gcReady != [] ==> s.tracker.drainRequested)
    && (s.tracker.drainRequested ==> s.drainTasks > 0)
    && s.drainTasks >= 0
  }

  /** Nothing registered before the last teardown is pending or ready. */
  predicate Marked(s: State) {
    && s.mark <= s.tracker.nextId
    && (forall id :: id in s.tracker.pending ==> id >= s.mark)
    && (forall i :: 0 <= i < |s.tracker.gcReady| ==> s.tracker.gcReady[i].reg >= s.mark)
  }

  ghost predicate Inv(s: State) {
    Conserved(s) && Numbered(s) && Faithful(s) && Owned(s) && NoDangling(s) && NotStranded(s) && Marked(s)
  }

  lemma StepKeepsNumbered(s: State, step: Step)
    requires Numbered(s) && Enabled(s, step)
    ensures Numbered(Next(s, step))
  {
    hide Reverse, Regs;
  }

  lemma StepKeepsOwned(s: State, step: Step)
    requires Numbered(s) && Owned(s) && Enabled(s, step)
    ensures Owned(Next(s, step))
  {
    hide Reverse, Regs, Keyed;
  }

  lemma OwedFaithful(s: State)
    requires Numbered(s) && Faithful(s)
    ensures FaithfulAll(s.registered, Reverse(Owed(s.tracker)))
  {
    var owed := Reverse(Owed(s.tracker));
    hide Reverse, ValuesBelow;
    forall i | 0 <= i < |owed| ensures owed[i].reg in s.registered && s.registered[owed[i].reg] == owed[i].call {
      ReverseMembers(Owed(s.tracker), owed[i]);
      ValuesBelowMembers(s.tracker.pending, s.tracker.nextId, owed[i]);
    }
  }

  lemma StepKeepsFaithful(s: State, step: Step)
    requires Numbered(s) && Faithful(s) && Owned(s) && Enabled(s, step)
    ensures Faithful(Next(s, step))
  {
    hide Reverse, Regs, ValuesBelow;
    match step
    case Teardown => OwedFaithful(s);
    case _ =>
  }

  lemma StepKeepsNoDangling(s: State, step: Step)
    requires Numbered(s) && Owned(s) && NoDangling(s) && Enabled(s, step)
    ensures NoDangling(Next(s, step))
  {
    hide Reverse, Regs;
    var t := Next(s, step);
    forall id | id in t.tracker.pending ensures exists r :: r in t.refs && t.refs[r].finId == Some(id) {
      if id in s.tracker.pending {
        var r :| r in s.refs && s.refs[r].finId == Some(id);
        assert r in t.refs && t.refs[r].finId == Some(id);
      } else {
        assert step.New? && t.refs[step.r].finId == Some(id);
      }
    }
  }

  lemma StepKeepsDrain(s: State, step: Step)
    requires Numbered(s) && NotStranded(s) && Marked(s) && Owned(s) && Enabled(s, step)
    ensures NotStranded(Next(s, step)) && Marked(Next(s, step))
  {
    hide Reverse, Regs;
  }

  // ------------------------------------------------------- the ledger is kept

  lemma NewConserves(s: State, r: int, call: Option<Call>, runtimeOwned: bool, count: int)
    requires Conserved(s) && Numbered(s)
    ensures Conserved(AfterNew(s, r, call, runtimeOwned, count))
  {
    hide Regs, NewRef;
    if call.Some? {
      var t, n := AfterNew(s, r, call, runtimeOwned, count), s.tracker.nextId;
      assert t.tracker.pending.Keys == s.tracker.pending.Keys + {n};
      assert t.registered.Keys == s.registered.Keys + {n};
      assert n !in s.tracker.pending && n !in s.registered;
      var rest := Regs(s.tracker.gcReady) + Regs(s.drainBatch) + Regs(s.teardownBatch) + Regs(s.ran) + multiset(s.dropped);
      SplitPending(s, rest);
      SplitPending(t, rest);
      hide Places, Numbered, AfterNew;
      MultisetInsert(s.tracker.pending.Keys, n);
      MultisetInsert(s.registered.Keys, n);
      assert multiset(s.tracker.pending.Keys) + multiset{n} + rest == multiset(s.tracker.pending.Keys) + rest + multiset{n};
    }
  }

  lemma SplitPending(s: State, rest: multiset<int>)
    requires rest == Regs(s.tracker.gcReady) + Regs(s.drainBatch) + Regs(s.teardownBatch) + Regs(s.ran) + multiset(s.dropped)
    ensures Places(s) == multiset(s.tracker.pending.Keys) + rest
  {
    hide Regs;
  }

  lemma OncePlaced(s: State, id: int)
    requires Conserved(s) && id in s.tracker.pending
    ensures id !in s.dropped && id in s.registered && Regs(s.ran)[id] == 0
  {
    hide Regs;
    assert Places(s)[id] <= 1;
  }

  lemma RemoveKeys(t: Tracker, id: int)
    requires id in t.pending
    ensures multiset(t.pending.Keys) == multiset(Remove(t, id).pending.Keys) + multiset{id}
  {
    assert Remove(t, id).pending.Keys == t.pending.Keys - {id};
    MultisetDelete(t.pending.Keys, id);
  }

  lemma RemoveAbsent(t: Tracker, id: int)
    requires id !in t.pending
    ensures Remove(t, id) == t
  {
    assert t.pending - {id} == t.pending;
  }

  lemma GiveUpConserves(s: State, r: int)
    requires Conserved(s) && r in s.refs
    ensures Conserved(GiveUp(s, r))
  {
    hide Regs;
    var ref := s.refs[r];
    if Pending(s.tracker, ref) {
      OncePlaced(s, ref.finId.value);
      RemoveKeys(s.tracker, ref.finId.value);
      MultisetInsert(s.dropped, ref.finId.value);
    } else if ref.finId.Some? {
      RemoveAbsent(s.tracker, ref.finId.value);
    }
  }

  lemma CollectConserves(s: State, r: int)
    requires Conserved(s) && r in s.refs && (s.refs[r].finId.Some? ==> s.refs[r].call.Some?)
    ensures Conserved(AfterWeakCallback(s, r))
  {
    hide Regs;
    var ref := s.refs[r];
    if Pending(s.tracker, ref) {
      var fin := Fin(ref.finId.value, ref.call.value);
      RemoveKeys(s.tracker, fin.reg);
      RegsConcat(s.tracker.gcReady, [fin]);
      RegsOne(fin);
    } else if ref.finId.Some? {
      RemoveAbsent(s.tracker, ref.finId.value);
    }
  }

  lemma PopFront(fins: seq<Fin>)
    requires fins != []
    ensures Regs(fins) == multiset{fins[0].reg} + Regs(fins[1..])
  {
  }

  lemma SplitRun(s: State, batch: multiset<int>, rest: multiset<int>, drained: bool)
    requires batch == Regs(if drained then s.drainBatch else s.teardownBatch)
    requires rest == multiset(s.tracker.pending.Keys) + Regs(s.tracker.gcReady)
                     + Regs(if drained then s.teardownBatch else s.drainBatch) + multiset(s.dropped)
    ensures Places(s) == batch + Regs(s.ran) + rest
  {
    hide Regs;
  }

  lemma RunConserves(s: State, step: Step)
    requires Conserved(s) && Enabled(s, step) && (step.RunDrained? || step.RunTornDown?)
    ensures Conserved(Next(s, step))
  {
    hide Regs;
    var t, batch := Next(s, step), if step.RunDrained? then s.drainBatch else s.teardownBatch;
    var rest := multiset(s.tracker.pending.Keys) + Regs(s.tracker.gcReady)
                + Regs(if step.RunDrained? then s.teardownBatch else s.drainBatch) + multiset(s.dropped);
    SplitRun(s, Regs(batch), rest, step.RunDrained?);
    SplitRun(t, Regs(batch[1..]), rest, step.RunDrained?);
    assert t.ran == s.ran + [batch[0]] && t.registered == s.registered;
    hide Places, Next;
    PopFront(batch);
    RegsConcat(s.ran, [batch[0]]);
    RegsOne(batch[0]);
  }

  lemma DrainConserves(s: State)
    requires Conserved(s) && s.drainBatch == []
    ensures Conserved(s.(tracker := TakeGcReady(s.tracker), drainTasks := s.drainTasks - 1, drainBatch := s.tracker.gcReady))
  {
    assert Regs([]) == multiset{};
    hide Regs;
  }

  lemma TeardownConserves(s: State)
    requires Conserved(s) && Numbered(s) && s.teardownBatch == []
    ensures Conserved(Next(s, Teardown))
  {
    RegsOwed(s.tracker);
    assert Regs([]) == multiset{};
    var t := Next(s, Teardown);
    assert t.tracker.pending.Keys == {};
    hide Regs, Reverse, Owed, Numbered;
    var rest := Regs(s.drainBatch) + Regs(s.ran) + multiset(s.dropped);
    assert Places(s) == multiset(s.tracker.pending.Keys) + Regs(s.tracker.gcReady) + rest;
    assert Places(t) == Regs(t.teardownBatch) + rest;
  }

  lemma StepConserves(s: State, step: Step)
    requires Conserved(s) && Numbered(s) && Owned(s) && Enabled(s, step)
    ensures Conserved(Next(s, step))
  {
    hide Regs, Reverse, ValuesBelow, Collect, Deregister, Numbered;
    match step
    case New(r, call, runtimeOwned, count) => NewConserves(s, r, call, runtimeOwned, count);
    case WeakCallback(r) => CollectConserves(s, r);
    case Delete(r) => GiveUpConserves(s, r);
    case RemoveWrap(r) => GiveUpConserves(s, r);
    case DrainTask => DrainConserves(s);
    case Teardown => TeardownConserves(s);
    case RunDrained => RunConserves(s, step);
    case RunTornDown => RunConserves(s, step);
    case _ =>
  }

  lemma StepKeepsInv(s: State, step: Step)
    requires Inv(s) && Enabled(s, step)
    ensures Inv(Next(s, step))
  {
    hide Next, Conserved, Numbered, Faithful, Owned, NoDangling, NotStranded, Marked;
    StepConserves(s, step);
    StepKeepsNumbered(s, step);
    StepKeepsOwned(s, step);
    StepKeepsFaithful(s, step);
    StepKeepsNoDangling(s, step);
    StepKeepsDrain(s, step);
  }

  lemma {:induction false} RunKeepsInv(s: State, steps: seq<Step>)
    requires Inv(s) && Runs(s, steps)
    ensures Inv(Exec(s, steps))
    decreases |steps|
  {
    hide Next, Inv, Enabled;
    if steps != [] {
      StepKeepsInv(s, steps[0]);
      RunKeepsInv(Next(s, steps[0]), steps[1..]);
    }
  }

  // ----------------------------------------------------- how objects are held

  /** An object is held strongly exactly while references to it are counted, until
      the GC has taken it. */
  predicate HeldAsCounted(r: Ref) {
    r.count >= 0 && (r.hold.Weak? ==> r.count == 0) && (r.hold.Strong? ==> r.count > 0)
  }

  lemma StepKeepsHeld(s: State, step: Step)
    requires Enabled(s, step) && forall r :: r in s.refs ==> HeldAsCounted(s.refs[r])
    ensures forall r :: r in Next(s, step).refs ==> HeldAsCounted(Next(s, step).refs[r])
  {
    hide Reverse, Regs, ValuesBelow;
  }

  lemma {:induction false} RunKeepsHeld(s: State, steps: seq<Step>)
    requires Runs(s, steps) && forall r :: r in s.refs ==> HeldAsCounted(s.refs[r])
    ensures forall r :: r in Exec(s, steps).refs ==> HeldAsCounted(Exec(s, steps).refs[r])
    decreases |steps|
  {
    hide Next, Enabled, HeldAsCounted;
    if steps != [] {
      StepKeepsHeld(s, steps[0]);
      RunKeepsHeld(Next(s, steps[0]), steps[1..]);
    }
  }

  /** In every run the GC may take an object only at a count of zero; and one whose
      last counted reference is given up, it may take. */
  lemma CollectedOnlyAtZero(steps: seq<Step>, r: int)
    requires Runs(INIT, steps) && r in Exec(INIT, steps).refs
    ensures var s := Exec(INIT, steps);
            && HeldAsCounted(s.refs[r])
            && (Enabled(s, GcClear(r)) ==> s.refs[r].count == 0)
            && (s.refs[r].hold.Strong? && s.refs[r].count == 1 ==> Enabled(Next(s, Unref(r)), GcClear(r)))
            && (s.refs[r].hold.Weak? ==> !Enabled(Next(s, RefUp(r)), GcClear(r)))
  {
    hide Runs, Exec, Reverse, Regs;
    RunKeepsHeld(INIT, steps);
  }

  /** A reference goes when the addon deletes it and, if the runtime owns it, when its
      object is collected or unwrapped; by nothing else. */
  lemma FreedExactlyWhen(s: State, step: Step, r: int)
    requires Enabled(s, step) && r in s.refs
    ensures r !in Next(s, step).refs <==>
            step == Delete(r) || (s.refs[r].runtimeOwned && (step == WeakCallback(r) || step == RemoveWrap(r)))
    ensures r in Next(s, step).refs ==> Next(s, step).refs[r].runtimeOwned == s.refs[r].runtimeOwned
  {
    hide Reverse, Regs, ValuesBelow;
  }

  // -------------------------------------------------- the order of finalizer calls

  function Repeat(step: Step, n: nat): seq<Step> {
    if n == 0 then [] else [step] + Repeat(step, n - 1)
  }

  lemma {:induction false} DrainedInOrder(s: State)
    ensures var steps := Repeat(RunDrained, |s.drainBatch|);
            Runs(s, steps) && Exec(s, steps) == s.(drainBatch := [], ran := s.ran + s.drainBatch)
    decreases |s.drainBatch|
  {
    if s.drainBatch == [] {
      assert s.ran + [] == s.ran;
    } else {
      var t := Next(s, RunDrained);
      assert Repeat(RunDrained, |s.drainBatch|)[1..] == Repeat(RunDrained, |t.drainBatch|);
      DrainedInOrder(t);
      assert t.ran + t.drainBatch == s.ran + s.drainBatch;
    }
  }

  lemma {:induction false} TornDownInOrder(s: State)
    ensures var steps := Repeat(RunTornDown, |s.teardownBatch|);
            Runs(s, steps) && Exec(s, steps) == s.(teardownBatch := [], ran := s.ran + s.teardownBatch)
    decreases |s.teardownBatch|
  {
    if s.teardownBatch == [] {
      assert s.ran + [] == s.ran;
    } else {
      var t := Next(s, RunTornDown);
      assert Repeat(RunTornDown, |s.teardownBatch|)[1..] == Repeat(RunTornDown, |t.teardownBatch|);
      TornDownInOrder(t);
      assert t.ran + t.teardownBatch == s.ran + s.teardownBatch;
    }
  }

  /** A drain that is left alone runs what was ready, in the order it was collected. */
  lemma DrainRunsInOrder(s: State)
    requires Enabled(s, DrainTask)
    ensures var t := Next(s, DrainTask);
            && Runs(t, Repeat(RunDrained, |s.tracker.gcReady|))
            && Exec(t, Repeat(RunDrained, |s.tracker.gcReady|)).ran == s.ran + s.tracker.gcReady
  {
    DrainedInOrder(Next(s, DrainTask));
    hide Runs, Exec, Repeat;
  }

  /** A pending finalizer whose object is collected has a drain on its way, and that
      drain, left alone, runs it, last of what was ready. */
  lemma CollectedFinalizerRuns(s: State, r: int)
    requires Inv(s) && Enabled(s, GcClear(r)) && Pending(s.tracker, s.refs[r]) && s.drainBatch == []
    ensures var t := Next(Next(s, GcClear(r)), WeakCallback(r));
            && Enabled(t, DrainTask)
            && var n := |s.tracker.gcReady| + 1;
               && Runs(Next(t, DrainTask), Repeat(RunDrained, n))
               && Exec(Next(t, DrainTask), Repeat(RunDrained, n)).ran ==
                  s.ran + s.tracker.gcReady + [Fin(s.refs[r].finId.value, s.refs[r].call.value)]
  {
    hide Runs, Exec, Repeat, Regs, Reverse, ValuesBelow;
    var c := Next(s, GcClear(r));
    var t := Next(c, WeakCallback(r));
    CollectMovesItOver(s, r);
    hide Conserved, Numbered, Faithful, NoDangling, Marked, Collect;
    StepKeepsInv(s, GcClear(r));
    StepKeepsInv(c, WeakCallback(r));
    DrainRunsInOrder(t);
  }

  lemma CollectMovesItOver(s: State, r: int)
    requires Owned(s) && Enabled(s, GcClear(r)) && Pending(s.tracker, s.refs[r])
    ensures s.refs[r].call.Some?
    ensures var t := Next(Next(s, GcClear(r)), WeakCallback(r));
            && t.tracker.gcReady == s.tracker.gcReady + [Fin(s.refs[r].finId.value, s.refs[r].call.value)]
            && t.drainBatch == s.drainBatch && t.ran == s.ran
  {
    hide Regs, Reverse, ValuesBelow;
  }

  /** A teardown that is left alone runs the survivors, the latest registered first,
      and then what was ready. */
  lemma TeardownRunsInOrder(s: State)
    requires Enabled(s, Teardown) && Keyed(s.tracker)
    ensures var t, n := Next(s, Teardown), |Owed(s.tracker)|;
            && Runs(t, Repeat(RunTornDown, n))
            && Exec(t, Repeat(RunTornDown, n)).ran ==
               s.ran + Reverse(ValuesBelow(s.tracker.pending, s.tracker.nextId)) + Reverse(s.tracker.gcReady)
  {
    TornDownInOrder(Next(s, Teardown));
    TeardownOrder(s.tracker);
    hide Runs, Exec, Repeat, Reverse, ValuesBelow;
    assert |Reverse(Owed(s.tracker))| == |Owed(s.tracker)|;
  }

  // ------------------------------------------------------------ what it promises

  /** How often a registration's callback has run. */
  function TimesRun(s: State, reg: int): int {
    Regs(s.ran)[reg]
  }

  function TimesWaiting(s: State, reg: int): int {
    (if reg in s.tracker.pending then 1 else 0) + Regs(s.tracker.gcReady)[reg] + Regs(s.drainBatch)[reg] + Regs(s.teardownBatch)[reg]
  }

  /** In every run, every registration made is in exactly one place: waiting,
      run, or dropped; so it runs at most once, and never once dropped. */
  lemma ExactlyOnce(steps: seq<Step>, reg: int)
    requires Runs(INIT, steps)
    ensures var s := Exec(INIT, steps);
            reg in s.registered ==> TimesWaiting(s, reg) + TimesRun(s, reg) + (if reg in s.dropped then 1 else 0) == 1
    ensures var s := Exec(INIT, steps);
            reg !in s.registered ==> TimesWaiting(s, reg) == 0 && TimesRun(s, reg) == 0 && reg !in s.dropped
  {
    InitInv();
    RunKeepsInv(INIT, steps);
    var s := Exec(INIT, steps);
    hide Regs, Exec, Numbered, Faithful, Owned, NoDangling, NotStranded, Marked;
    assert Places(s)[reg] == multiset(s.registered.Keys)[reg];
  }

  lemma InitInv()
    ensures Inv(INIT)
  {
    assert INIT.tracker.pending.Keys == {} && INIT.registered.Keys == {};
  }

  /** Every callback that ran got the arguments its registration was made with. */
  lemma RunsWhatWasRegistered(steps: seq<Step>, i: int)
    requires Runs(INIT, steps) && 0 <= i < |Exec(INIT, steps).ran|
    ensures var s := Exec(INIT, steps);
            s.ran[i].reg in s.registered && s.ran[i].call == s.registered[s.ran[i].reg]
  {
    InitInv();
    RunKeepsInv(INIT, steps);
    hide Exec, Regs;
  }

  /** Once teardown has happened and its batch and any drain under way are done,
      what was registered before it has run once or was dropped. */
  lemma TeardownFinishesAll(steps: seq<Step>, reg: int)
    requires Runs(INIT, steps)
    requires var s := Exec(INIT, steps); reg in s.registered && reg < s.mark && s.drainBatch == [] && s.teardownBatch == []
    ensures var s := Exec(INIT, steps); reg in s.dropped <==> TimesRun(s, reg) == 0
    ensures var s := Exec(INIT, steps); reg !in s.dropped <==> TimesRun(s, reg) == 1
  {
    ExactlyOnce(steps, reg);
    InitInv();
    RunKeepsInv(INIT, steps);
    var s := Exec(INIT, steps);
    NotAmong(s.tracker.gcReady, reg);
    assert Regs([]) == multiset{};
    hide Regs, Exec, Conserved, Faithful, Owned, NoDangling, NotStranded;
  }

  lemma {:induction false} NotAmong(fins: seq<Fin>, reg: int)
    ensures (forall i :: 0 <= i < |fins| ==> fins[i].reg != reg) ==> Regs(fins)[reg] == 0
  {
    if fins != [] && forall i :: 0 <= i < |fins| ==> fins[i].reg != reg {
      assert forall i :: 0 <= i < |fins[1..]| ==> fins[1..][i].reg == fins[i + 1].reg;
      NotAmong(fins[1..], reg);
    }
  }

  /** In every run, a collected finalizer has a drain task queued for it. */
  lemma NeverStranded(steps: seq<Step>)
    requires Runs(INIT, steps)
    ensures var s := Exec(INIT, steps);
            && (s.tracker.gcReady != [] ==> s.tracker.drainRequested)
            && (s.tracker.drainRequested ==> s.drainTasks > 0)
  {
    InitInv();
    RunKeepsInv(INIT, steps);
  }

  /** In every run, an entry still owed at teardown belongs to a live reference,
      and to one only. */
  lemma OneOwner(steps: seq<Step>, id: int)
    requires Runs(INIT, steps) && id in Exec(INIT, steps).tracker.pending
    ensures var refs := Exec(INIT, steps).refs;
            exists r :: && r in refs && refs[r].finId == Some(id)
                        && forall r' :: r' in refs && refs[r'].finId == Some(id) ==> r' == r
  {
    InitInv();
    RunKeepsInv(INIT, steps);
    var s := Exec(INIT, steps);
    hide Exec, Regs;
    var r :| r in s.refs && s.refs[r].finId == Some(id);
  }
}
