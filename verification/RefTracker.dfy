/**
The tracker of Node-API finalizers: those still owed at teardown, keyed by a
registration number that only grows, and those whose objects the GC has taken
and that wait for a point where JavaScript may run.

The value type `Tracker` says what each operation does; the class `RefTracker` is
the operations. A plain list that deletes by identity is what the id-keyed map
replaced, and the two cannot be told apart.
*/
module RefTracker {
  /** What the addon asked to be called, and with what. */
  datatype Call = Call(env: int, cb: int, data: int, hint: int)

  /** A finalizer on its way. `reg` is its registration number; the GC-ready list
      of the source no longer carries it, so beyond `pending` it is history. */
  datatype Fin = Fin(reg: int, call: Call)

  datatype Tracker = Tracker(nextId: nat, pending: map<int, Fin>, gcReady: seq<Fin>, drainRequested: bool)

  const EMPTY_TRACKER := Tracker(0, map[], [], false)

  /** Entries sit under their own number, below the next one. */
  predicate Keyed(t: Tracker) {
    forall id :: id in t.pending ==> 0 <= id < t.nextId && t.pending[id].reg == id
  }

  // ------------------------------------------------- operations as functions

  function Add(t: Tracker, call: Call): Tracker {
    t.(nextId := t.nextId + 1, pending := t.pending[t.nextId := Fin(t.nextId, call)])
  }

  function Remove(t: Tracker, id: int): Tracker {
    t.(pending := t.pending - {id})
  }

  function Defer(t: Tracker, fin: Fin): Tracker {
    t.(gcReady := t.gcReady + [fin], drainRequested := true)
  }

  function TakeGcReady(t: Tracker): Tracker {
    t.(gcReady := [], drainRequested := false)
  }

  function TakeAll(t: Tracker): Tracker {
    t.(gcReady := [], pending := map[], drainRequested := false)
  }

  /** The values under the keys below `n`, in key order. */
  function ValuesBelow(m: map<int, Fin>, n: nat): seq<Fin> {
    if n == 0 then [] else ValuesBelow(m, n - 1) + if n - 1 in m then [m[n - 1]] else []
  }

  /** Everything owed at teardown, in the order it is taken. */
  function Owed(t: Tracker): seq<Fin> {
    t.gcReady + ValuesBelow(t.pending, t.nextId)
  }

  // ------------------------------------------------------------------ the class

  class RefTracker {
    var nextId: nat
    var pending: map<int, Fin>
    var gcReady: seq<Fin>
    var drainRequested: bool

    function Value(): Tracker
      reads this
    {
      Tracker(nextId, pending, gcReady, drainRequested)
    }

    constructor ()
      ensures Value() == EMPTY_TRACKER
    {
      nextId, pending, gcReady, drainRequested := 0, map[], [], false;
    }

    method AddFinalizer(call: Call) returns (id: nat)
      modifies this
      ensures id == old(nextId) && Value() == Add(old(Value()), call)
      ensures pending == old(pending)[id := Fin(id, call)] && nextId > id && gcReady == old(gcReady) && drainRequested == old(drainRequested)
    {
      id := nextId;
      nextId := nextId + 1;
      pending := pending[id := Fin(id, call)];
    }

    /** True exactly when the entry was still pending: whoever gets it runs it. */
    method RemoveFinalizer(id: int) returns (wasPending: bool)
      modifies this
      ensures wasPending <==> id in old(pending)
      ensures Value() == Remove(old(Value()), id)
      ensures id !in pending && forall other :: other in old(pending) && other != id ==> other in pending && pending[other] == old(pending)[other]
    {
      wasPending := id in pending;
      pending := pending - {id};
    }

    /** True exactly when no drain was on its way yet. */
    method DeferFinalizer(fin: Fin) returns (needSchedule: bool)
      modifies this
      ensures needSchedule <==> !old(drainRequested)
      ensures Value() == Defer(old(Value()), fin)
      ensures drainRequested && gcReady == old(gcReady) + [fin] && pending == old(pending)
    {
      gcReady := gcReady + [fin];
      needSchedule := !drainRequested;
      drainRequested := true;
    }

    method TakeReady() returns (ready: seq<Fin>)
      modifies this
      ensures ready == old(gcReady) && Value() == TakeGcReady(old(Value()))
      ensures gcReady == [] && !drainRequested && pending == old(pending) && nextId == old(nextId)
    {
      drainRequested := false;
      ready := gcReady;
      gcReady := [];
    }

    method TakePending() returns (all: seq<Fin>)
      modifies this
      ensures all == Owed(old(Value())) && Value() == TakeAll(old(Value()))
      ensures gcReady == [] && pending == map[] && !drainRequested && nextId == old(nextId)
    {
      drainRequested := false;
      all := gcReady + ValuesBelow(pending, nextId);
      gcReady, pending := [], map[];
    }
  }

  // ------------------------------------------------------- key order of the map

  lemma {:induction false} ValuesBelowMembers(m: map<int, Fin>, n: nat, fin: Fin)
    requires forall id :: id in m ==> m[id].reg == id
    ensures fin in ValuesBelow(m, n) <==> 0 <= fin.reg < n && fin.reg in m && m[fin.reg] == fin
  {
    if n > 0 {
      ValuesBelowMembers(m, n - 1, fin);
    }
  }

  ghost predicate Increasing(s: seq<Fin>) {
    forall i, j :: 0 <= i < j < |s| ==> s[i].reg < s[j].reg
  }

  lemma {:induction false} ValuesBelowIncreasing(m: map<int, Fin>, n: nat)
    requires forall id :: id in m ==> m[id].reg == id
    ensures Increasing(ValuesBelow(m, n))
    ensures forall i :: 0 <= i < |ValuesBelow(m, n)| ==> ValuesBelow(m, n)[i].reg < n
  {
    if n > 0 {
      ValuesBelowIncreasing(m, n - 1);
    }
  }

  // ------------------------------------------------- the list that it replaced

  /** Registrations in a plain list, deregistered by looking for the entry. */
  datatype ListTracker = ListTracker(nextId: nat, list: seq<Fin>, gcReady: seq<Fin>, drainRequested: bool)

  function Abs(t: Tracker): ListTracker {
    ListTracker(t.nextId, ValuesBelow(t.pending, t.nextId), t.gcReady, t.drainRequested)
  }

  function Without(s: seq<Fin>, id: int): seq<Fin> {
    if s == [] then []
    else Without(s[..|s| - 1], id) + if s[|s| - 1].reg == id then [] else [s[|s| - 1]]
  }

  predicate Listed(s: seq<Fin>, id: int) {
    exists i :: 0 <= i < |s| && s[i].reg == id
  }

  datatype Op = OpAdd(call: Call) | OpRemove(id: int) | OpDefer(fin: Fin) | OpTakeReady | OpTakeAll

  datatype Answer = Registered(id: int) | WasPending(yes: bool) | NeedSchedule(yes: bool) | Batch(fins: seq<Fin>)

  function ListStep(l: ListTracker, op: Op): (ListTracker, Answer) {
    match op
    case OpAdd(call) => (l.(nextId := l.nextId + 1, list := l.list + [Fin(l.nextId, call)]), Registered(l.nextId))
    case OpRemove(id) => (l.(list := Without(l.list, id)), WasPending(Listed(l.list, id)))
    case OpDefer(fin) => (l.(gcReady := l.gcReady + [fin], drainRequested := true), NeedSchedule(!l.drainRequested))
    case OpTakeReady => (l.(gcReady := [], drainRequested := false), Batch(l.gcReady))
    case OpTakeAll => (l.(gcReady := [], list := [], drainRequested := false), Batch(l.gcReady + l.list))
  }

  function MapStep(t: Tracker, op: Op): (Tracker, Answer) {
    match op
    case OpAdd(call) => (Add(t, call), Registered(t.nextId))
    case OpRemove(id) => (Remove(t, id), WasPending(id in t.pending))
    case OpDefer(fin) => (Defer(t, fin), NeedSchedule(!t.drainRequested))
    case OpTakeReady => (TakeGcReady(t), Batch(t.gcReady))
    case OpTakeAll => (TakeAll(t), Batch(Owed(t)))
  }

  function ListAnswers(l: ListTracker, ops: seq<Op>): seq<Answer>
    decreases |ops|
  {
    if ops == [] then [] else [ListStep(l, ops[0]).1] + ListAnswers(ListStep(l, ops[0]).0, ops[1..])
  }

  function MapAnswers(t: Tracker, ops: seq<Op>): seq<Answer>
    decreases |ops|
  {
    if ops == [] then [] else [MapStep(t, ops[0]).1] + MapAnswers(MapStep(t, ops[0]).0, ops[1..])
  }

  lemma {:induction false} ValuesBelowFrame(m: map<int, Fin>, m': map<int, Fin>, n: nat)
    requires forall id :: 0 <= id < n ==> (id in m <==> id in m') && (id in m ==> m[id] == m'[id])
    ensures ValuesBelow(m, n) == ValuesBelow(m', n)
  {
    if n > 0 {
      ValuesBelowFrame(m, m', n - 1);
    }
  }

  lemma {:induction false} ValuesBelowRemove(m: map<int, Fin>, n: nat, id: int)
    requires forall k :: k in m ==> m[k].reg == k
    ensures ValuesBelow(m - {id}, n) == Without(ValuesBelow(m, n), id)
  {
    if n > 0 {
      ValuesBelowRemove(m, n - 1, id);
      if n - 1 in m {
        var s := ValuesBelow(m, n);
        assert s[..|s| - 1] == ValuesBelow(m, n - 1);
      } else {
        assert ValuesBelow(m, n) == ValuesBelow(m, n - 1);
      }
    }
  }

  lemma ListedIffPending(t: Tracker, id: int)
    requires Keyed(t)
    ensures Listed(ValuesBelow(t.pending, t.nextId), id) <==> id in t.pending
  {
    var s := ValuesBelow(t.pending, t.nextId);
    if id in t.pending {
      ValuesBelowMembers(t.pending, t.nextId, t.pending[id]);
      var i :| 0 <= i < |s| && s[i] == t.pending[id];
      assert s[i].reg == id;
    }
    if i :| 0 <= i < |s| && s[i].reg == id {
      ValuesBelowMembers(t.pending, t.nextId, s[i]);
    }
  }

  lemma {:induction false} EmptyValues(n: nat)
    ensures ValuesBelow(map[], n) == []
  {
    if n > 0 {
      EmptyValues(n - 1);
    }
  }

  /** One operation: the map does what the list does, and answers the same. */
  lemma StepRefines(t: Tracker, op: Op)
    requires Keyed(t)
    ensures Keyed(MapStep(t, op).0)
    ensures ListStep(Abs(t), op) == (Abs(MapStep(t, op).0), MapStep(t, op).1)
  {
    match op
    case OpAdd(call) =>
      ValuesBelowFrame(t.pending, Add(t, call).pending, t.nextId);
    case OpRemove(id) =>
      ValuesBelowRemove(t.pending, t.nextId, id);
      ListedIffPending(t, id);
    case OpTakeAll =>
      EmptyValues(t.nextId);
    case _ =>
  }

  /** Any sequence of operations: every answer is the list's answer. */
  lemma {:induction false} MapRefinesList(t: Tracker, ops: seq<Op>)
    requires Keyed(t)
    ensures MapAnswers(t, ops) == ListAnswers(Abs(t), ops)
    decreases |ops|
  {
    hide Abs, MapStep, ListStep, Keyed;
    if ops != [] {
      StepRefines(t, ops[0]);
      MapRefinesList(MapStep(t, ops[0]).0, ops[1..]);
    }
  }

  // -------------------------------------------------------------- teardown order

  function Reverse(s: seq<Fin>): (r: seq<Fin>)
    ensures |r| == |s| && forall i :: 0 <= i < |s| ==> r[i] == s[|s| - 1 - i]
  {
    if s == [] then [] else [s[|s| - 1]] + Reverse(s[..|s| - 1])
  }

  lemma ReverseMembers(s: seq<Fin>, fin: Fin)
    ensures fin in Reverse(s) <==> fin in s
  {
    if i :| 0 <= i < |s| && s[i] == fin {
      assert Reverse(s)[|s| - 1 - i] == fin;
    }
  }

  lemma ReverseConcat(a: seq<Fin>, b: seq<Fin>)
    ensures Reverse(a + b) == Reverse(b) + Reverse(a)
  {
    hide Reverse;
  }

  /** Teardown runs the registrations that survived, latest first, each strictly
      before the ones registered earlier, and then what the GC had ready. */
  lemma TeardownOrder(t: Tracker)
    requires Keyed(t)
    ensures var survivors := Reverse(ValuesBelow(t.pending, t.nextId));
            && Reverse(Owed(t)) == survivors + Reverse(t.gcReady)
            && (forall fin :: fin in survivors <==> fin.reg in t.pending && t.pending[fin.reg] == fin)
            && (forall i, j :: 0 <= i < j < |survivors| ==> survivors[i].reg > survivors[j].reg)
  {
    var values := ValuesBelow(t.pending, t.nextId);
    ReverseConcat(t.gcReady, values);
    ValuesBelowIncreasing(t.pending, t.nextId);
    forall fin ensures fin in Reverse(values) <==> fin.reg in t.pending && t.pending[fin.reg] == fin {
      ValuesBelowMembers(t.pending, t.nextId, fin);
      ReverseMembers(values, fin);
    }
  }
}
