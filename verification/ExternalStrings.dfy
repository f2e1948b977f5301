/**
Finalizers of external strings: the registry that connects V8's destructors,
which know a string only by its buffer, with the callbacks addons registered.

The value type `Registry` says what each critical section does; the class
`ExternalStringFinalizers` is those sections. Around them a step machine has V8
make and destroy strings on any thread, completions queued and run, environments
detached, and the create call in its parts.
*/
module ExternalStrings {
  import opened Options
  import opened Sets

  /** All that V8's destructor tells about a string. */
  datatype Key = Key(data: int, len: int, twoByte: bool)

  datatype Call = Call(cb: int, data: int, hint: int)

  datatype Entry = Entry(env: Option<int>, call: Call, ready: bool)

  datatype Registry = Registry(nextId: int, active: map<Key, int>, entries: map<int, Entry>)

  const EMPTY_REGISTRY := Registry(0, map[], map[])

  // ------------------------------------------------- operations as functions

  function RegisterIn(r: Registry, key: Key, env: int, call: Call): Registry {
    if key in r.active then r
    else Registry(r.nextId + 1, r.active[key := r.nextId], r.entries[r.nextId := Entry(Some(env), call, false)])
  }

  predicate Holds(r: Registry, key: Key, id: int) {
    key in r.active && r.active[key] == id
  }

  function CancelIn(r: Registry, key: Key, id: int): Registry {
    if Holds(r, key, id) then r.(active := r.active - {key}, entries := r.entries - {id}) else r
  }

  function CompleteIn(r: Registry, id: int): Registry {
    r.(entries := r.entries - {id})
  }

  /** What a destructor leads to: nothing, a queued completion, or a call now. */
  datatype Disposal = Unknown | Queued(id: int) | Direct(id: int, call: Call)

  function DisposalOf(r: Registry, key: Key): Disposal {
    if key !in r.active || r.active[key] !in r.entries then Unknown
    else if r.entries[r.active[key]].env.Some? then Queued(r.active[key])
    else Direct(r.active[key], r.entries[r.active[key]].call)
  }

  function QueueIn(r: Registry, key: Key): Registry {
    match DisposalOf(r, key)
    case Unknown => r.(active := r.active - {key})
    case Queued(id) => r.(active := r.active - {key}, entries := r.entries[id := r.entries[id].(ready := true)])
    case Direct(id, _) => r.(active := r.active - {key}, entries := r.entries - {id})
  }

  /** Entries whose string is gone and whose completion has not run yet. */
  function ReadyOf(r: Registry, env: int): set<int> {
    set id | id in r.entries && r.entries[id].env == Some(env) && r.entries[id].ready
  }

  function Detached(env: int, e: Entry): Entry {
    if e.env == Some(env) then e.(env := None) else e
  }

  function DetachIn(r: Registry, env: int): Registry {
    r.(entries := map id | id in r.entries && id !in ReadyOf(r, env) :: Detached(env, r.entries[id]))
  }

  // ------------------------------------------------------------------ the class

  class ExternalStringFinalizers {
    var nextId: int
    var active: map<Key, int>
    var entries: map<int, Entry>

    function Value(): Registry
      reads this
    {
      Registry(nextId, active, entries)
    }

    constructor ()
      ensures Value() == EMPTY_REGISTRY
    {
      nextId, active, entries := 0, map[], map[];
    }

    /** Refuses a second string V8 could not tell from a live one. */
    method Register(key: Key, env: int, call: Call) returns (id: Option<int>)
      modifies this
      ensures Value() == RegisterIn(old(Value()), key, env, call)
      ensures id == if key in old(active) then None else Some(old(nextId))
    {
      if key in active {
        return None;
      }
      id := Some(nextId);
      active := active[key := nextId];
      entries := entries[nextId := Entry(Some(env), call, false)];
      nextId := nextId + 1;
    }

    method Cancel(key: Key, id: int) returns (cancelled: bool)
      modifies this
      ensures Value() == CancelIn(old(Value()), key, id)
      ensures cancelled <==> Holds(old(Value()), key, id)
    {
      cancelled := key in active && active[key] == id;
      if cancelled {
        active, entries := active - {key}, entries - {id};
      }
    }

    method Complete(id: int) returns (e: Option<Entry>)
      modifies this
      ensures Value() == CompleteIn(old(Value()), id)
      ensures e == if id in old(entries) then Some(old(entries)[id]) else None
    {
      e := if id in entries then Some(entries[id]) else None;
      entries := entries - {id};
    }

    method Queue(key: Key) returns (d: Disposal)
      modifies this
      ensures Value() == QueueIn(old(Value()), key)
      ensures d == DisposalOf(old(Value()), key)
    {
      if key !in active {
        assert active - {key} == active;
        return Unknown;
      }
      var id := active[key];
      active := active - {key};
      if id !in entries {
        return Unknown;
      }
      var e := entries[id];
      if e.env.Some? {
        entries := entries[id := e.(ready := true)];
        return Queued(id);
      }
      entries := entries - {id};
      return Direct(id, e.call);
    }

    /** Takes out what is ready of `env` and hides `env` from the rest. */
    method Detach(env: int) returns (ready: map<int, Entry>)
      modifies this
      ensures Value() == DetachIn(old(Value()), env)
      ensures ready.Keys == ReadyOf(old(Value()), env)
      ensures forall id :: id in ready ==> ready[id] == old(entries)[id]
    {
      var todo: set<int> := entries.Keys;
      var kept: map<int, Entry> := map[];
      ready := map[];
      while todo != {}
        invariant todo <= entries.Keys && Value() == old(Value())
        invariant ready.Keys == ReadyOf(Value(), env) - todo
        invariant forall id :: id in ready ==> ready[id] == entries[id]
        invariant kept == map id | id in entries && id !in ReadyOf(Value(), env) && id !in todo :: Detached(env, entries[id])
        decreases |todo|
      {
        HasMember(todo);
        var id :| id in todo;
        todo := todo - {id};
        if entries[id].env == Some(env) && entries[id].ready {
          ready := ready[id := entries[id]];
        } else {
          kept := kept[id := Detached(env, entries[id])];
        }
      }
      entries := kept;
    }
  }

  // ------------------------------------------------------------------ the steps

  /** A create call under way or done: what it asked for, perhaps with no finalizer,
      its registration if it got one, and how it ended. `Later` means the registry still owes the call. */
  datatype Outcome = Open(made: bool) | External | CopiedNow | CopiedLater | Failed

  datatype Attempt = Attempt(key: Key, env: int, call: Option<Call>, id: Option<int>, outcome: Outcome)

  /** A finalizer call made for a registration. */
  datatype Delivery = Delivery(id: int, env: Option<int>, call: Call)

  /** `live` is V8's: which registration each live string was made under. `unqueued`
      are the completions a destructor is about to queue, having left the lock.
      `asked`, `delivered`, `immediate` and `cancelled` are history. */
  datatype State = State(reg: Registry, live: map<Key, int>, unqueued: set<int>, tasks: set<int>, attempts: map<int, Attempt>, detached: set<int>,
                         asked: map<int, Attempt>, delivered: seq<Delivery>, immediate: set<int>, cancelled: set<int>)

  datatype Step =
    | Begin(a: int, key: Key, env: int, call: Option<Call>)
    | V8Make(a: int)
    | Accept(a: int)
    | Copy(a: int, ok: bool)
    | Destructor(key: Key)
    | Enqueue(id: int)
    | Completion(id: int)
    | Detach(env: int)

  const INIT := State(EMPTY_REGISTRY, map[], {}, {}, map[], {}, map[], [], {}, {})

  predicate IsOpen(s: State, a: int) {
    a in s.attempts && s.attempts[a].outcome.Open?
  }

  predicate StillLive(s: State, a: int)
    requires a in s.attempts
  {
    var at := s.attempts[a];
    at.id.Some? && at.key in s.live && s.live[at.key] == at.id.value
  }

  predicate Enabled(s: State, step: Step) {
    match step
    case Begin(a, key, env, call) => a !in s.attempts && env !in s.detached
    case V8Make(a) => IsOpen(s, a) && s.attempts[a].id.Some? && !s.attempts[a].outcome.made
    case Accept(a) => IsOpen(s, a) && s.attempts[a].outcome.made
    case Copy(a, _) => IsOpen(s, a) && !StillLive(s, a)
    case Destructor(key) => key in s.live
    case Enqueue(id) => id in s.unqueued
    case Completion(id) => id in s.tasks
    case Detach(env) => forall a :: a in s.attempts && s.attempts[a].env == env ==> !s.attempts[a].outcome.Open?
  }

  function Registered(s: State, a: int, at: Attempt): State
    requires at.call.Some?
  {
    s.(reg := RegisterIn(s.reg, at.key, at.env, at.call.value),
       attempts := s.attempts[a := at.(id := Some(s.reg.nextId))],
       asked := s.asked[s.reg.nextId := at])
  }

  predicate Registers(s: State, key: Key, call: Option<Call>) {
    call.Some? && key.len > 0 && key !in s.reg.active
  }

  function AfterBegin(s: State, a: int, key: Key, env: int, call: Option<Call>): State {
    var at := Attempt(key, env, call, None, Open(false));
    if Registers(s, key, call) then Registered(s, a, at) else s.(attempts := s.attempts[a := at])
  }

  /** The copy path: it finalizes at once unless a destructor already took over. */
  function AfterCopy(s: State, a: int, ok: bool): State
    requires a in s.attempts
  {
    var at := s.attempts[a];
    var mine := at.id.Some? && Holds(s.reg, at.key, at.id.value);
    var now := at.id.None? || mine;
    var outcome := if !ok then Failed else if now then CopiedNow else CopiedLater;
    s.(reg := if mine then CancelIn(s.reg, at.key, at.id.value) else s.reg,
       cancelled := if mine then s.cancelled + {at.id.value} else s.cancelled,
       immediate := if ok && now && at.call.Some? then s.immediate + {a} else s.immediate,
       attempts := s.attempts[a := at.(outcome := outcome)])
  }

  function AfterDestructor(s: State, key: Key): State {
    var d := DisposalOf(s.reg, key);
    s.(reg := QueueIn(s.reg, key), live := s.live - {key},
       unqueued := if d.Queued? then s.unqueued + {d.id} else s.unqueued,
       delivered := if d.Direct? then s.delivered + [Delivery(d.id, None, d.call)] else s.delivered)
  }

  function AfterCompletion(s: State, id: int): State {
    s.(reg := CompleteIn(s.reg, id), tasks := s.tasks - {id},
       delivered := if id in s.reg.entries then s.delivered + [Delivery(id, s.reg.entries[id].env, s.reg.entries[id].call)]
                    else s.delivered)
  }

  /** The calls of a detach, one for each entry that was ready. */
  ghost function Deliveries(r: Registry, ids: set<int>): seq<Delivery>
    requires ids <= r.entries.Keys
    decreases |ids|
  {
    if ids == {} then [] else
      HasMember(ids);
      var id :| id in ids;
      [Delivery(id, r.entries[id].env, r.entries[id].call)] + Deliveries(r, ids - {id})
  }

  ghost function Next(s: State, step: Step): State
    requires Enabled(s, step)
  {
    match step
    case Begin(a, key, env, call) => AfterBegin(s, a, key, env, call)
    case V8Make(a) =>
      var at := s.attempts[a];
      s.(live := s.live[at.key := at.id.value], attempts := s.attempts[a := at.(outcome := Open(true))])
    case Accept(a) => s.(attempts := s.attempts[a := s.attempts[a].(outcome := External)])
    case Copy(a, ok) => AfterCopy(s, a, ok)
    case Destructor(key) => AfterDestructor(s, key)
    case Enqueue(id) => s.(unqueued := s.unqueued - {id}, tasks := s.tasks + {id})
    case Completion(id) => AfterCompletion(s, id)
    case Detach(env) =>
      s.(reg := DetachIn(s.reg, env), detached := s.detached + {env},
         delivered := s.delivered + Deliveries(s.reg, ReadyOf(s.reg, env)))
  }

  ghost predicate Runs(s: State, steps: seq<Step>)
    decreases |steps|
  {
    steps == [] || (Enabled(s, steps[0]) && Runs(Next(s, steps[0]), steps[1..]))
  }

  ghost function Exec(s: State, steps: seq<Step>): State
    requires Runs(s, steps)
    decreases |steps|
  {
    if steps == [] then s else Exec(Next(s, steps[0]), steps[1..])
  }

  // -------------------------------------------------------------- the invariant

  /** `active` points, injectively, at exactly the entries that are not ready; an
      entry that is ready keeps its env, and its completion is queued or about to be. */
  predicate WellKeyed(s: State) {
    && (forall key :: key in s.reg.active ==>
          s.reg.active[key] in s.reg.entries && !s.reg.entries[s.reg.active[key]].ready
          && s.reg.active[key] in s.asked && s.asked[s.reg.active[key]].key == key)
    && (forall id :: id in s.reg.entries && !s.reg.entries[id].ready ==> id in s.asked && Holds(s.reg, s.asked[id].key, id))
    && (forall id :: id in s.reg.entries && s.reg.entries[id].ready ==> s.reg.entries[id].env.Some?)
    && (forall id :: id in s.reg.entries ==> (s.reg.entries[id].ready <==> id in s.tasks || id in s.unqueued))
    && (forall id :: id in s.tasks ==> id in s.asked) && (forall id :: id in s.unqueued ==> id in s.asked)
  }

  /** What a callback is given for an env: the env until it is detached. */
  function EnvFor(s: State, env: int): Option<int> {
    if env in s.detached then None else Some(env)
  }

  /** An entry carries what was asked, and its env exactly until that is detached. */
  predicate Truthful(s: State) {
    && 0 <= s.reg.nextId && (forall id :: id in s.asked ==> 0 <= id < s.reg.nextId)
    && (forall id :: id in s.reg.entries ==>
          && id in s.asked && s.asked[id].call == Some(s.reg.entries[id].call)
          && s.reg.entries[id].env == EnvFor(s, s.asked[id].env))
    && (forall i :: 0 <= i < |s.delivered| ==>
          s.delivered[i].id in s.asked && s.asked[s.delivered[i].id].call == Some(s.delivered[i].call))
  }

  /** A live string's registration is the one its key now points at. */
  predicate LiveActive(s: State) {
    forall key :: key in s.live ==> Holds(s.reg, key, s.live[key])
  }

  function Ids(ds: seq<Delivery>): multiset<int> {
    if ds == [] then multiset{} else multiset{ds[0].id} + Ids(ds[1..])
  }

  /** Every registration is in the registry, delivered or cancelled: one of them. */
  predicate Conserved(s: State) {
    multiset(s.reg.entries.Keys) + Ids(s.delivered) + multiset(s.cancelled) == multiset(s.asked.Keys)
  }

  /** Attempts own their registrations; an open one that V8 has not made a string
      for still holds its key. */
  predicate AttemptsTrack(s: State) {
    && (forall a, b :: a in s.attempts && b in s.attempts && s.attempts[a].id.Some? && s.attempts[a].id == s.attempts[b].id ==> a == b)
    && (forall a :: a in s.attempts && s.attempts[a].id.Some? ==> AttemptOk(s, s.attempts[a]))
    && (forall a :: a in s.attempts ==> (a in s.immediate <==> s.attempts[a].outcome == CopiedNow && s.attempts[a].call.Some?))
    && (forall a :: a in s.immediate ==> a in s.attempts)
    && (forall a :: a in s.attempts && s.attempts[a].id.None? ==> s.attempts[a].outcome in {Open(false), CopiedNow, Failed})
    && (forall a :: a in s.attempts && s.attempts[a].outcome.Open? ==> s.attempts[a].env !in s.detached)
  }

  predicate AttemptOk(s: State, at: Attempt)
    requires at.id.Some?
  {
    var id := at.id.value;
    && at.call.Some? && id in s.asked && s.asked[id].key == at.key && s.asked[id].call == at.call && s.asked[id].env == at.env
    && (at.outcome == Open(false) ==> Holds(s.reg, at.key, id) && at.key !in s.live)
    && (at.outcome == Open(true) && Holds(s.reg, at.key, id) ==> at.key in s.live)
    && (at.outcome.Open? || at.outcome.External? || at.outcome.CopiedLater? ==> id !in s.cancelled)
    && (at.outcome.CopiedNow? ==> id in s.cancelled)
  }

  ghost predicate Inv(s: State) {
    WellKeyed(s) && Truthful(s) && LiveActive(s) && Conserved(s) && AttemptsTrack(s)
  }

  // ------------------------------------------------------- every step keeps it

  lemma BeginKeepsKeyed(s: State, a: int, at: Attempt)
    requires WellKeyed(s) && Truthful(s) && at.key !in s.reg.active && at.call.Some?
    ensures WellKeyed(Registered(s, a, at))
  {
    assert s.reg.nextId !in s.asked;
    hide Truthful;
  }

  lemma CopyKeepsKeyed(s: State, a: int, ok: bool)
    requires WellKeyed(s) && a in s.attempts
    ensures WellKeyed(AfterCopy(s, a, ok))
  {
  }

  lemma DestructorKeepsKeyed(s: State, key: Key)
    requires WellKeyed(s)
    ensures WellKeyed(AfterDestructor(s, key))
  {
  }

  lemma CompletionKeepsKeyed(s: State, id: int)
    requires WellKeyed(s) && id in s.tasks
    ensures WellKeyed(AfterCompletion(s, id))
  {
  }

  lemma DetachAt(r: Registry, env: int, id: int)
    ensures id in DetachIn(r, env).entries <==> id in r.entries && !(r.entries[id].env == Some(env) && r.entries[id].ready)
    ensures id in DetachIn(r, env).entries ==> DetachIn(r, env).entries[id] == Detached(env, r.entries[id])
  {
    assert id in ReadyOf(r, env) <==> id in r.entries && r.entries[id].env == Some(env) && r.entries[id].ready;
  }

  lemma DetachKeepsKeyed(s: State, env: int)
    requires WellKeyed(s)
    ensures WellKeyed(s.(reg := DetachIn(s.reg, env)))
  {
    var entries := DetachIn(s.reg, env).entries;
    forall id
      ensures id in entries <==> id in s.reg.entries && !(s.reg.entries[id].env == Some(env) && s.reg.entries[id].ready)
      ensures id in entries ==> entries[id] == Detached(env, s.reg.entries[id])
    {
      DetachAt(s.reg, env, id);
    }
    assert DetachIn(s.reg, env).active == s.reg.active;
    hide DetachIn;
  }

  lemma StepKeepsKeyed(s: State, step: Step)
    requires WellKeyed(s) && Truthful(s) && Enabled(s, step)
    ensures WellKeyed(Next(s, step))
  {
    hide Deliveries, Truthful;
    match step
    case Begin(a, key, env, call) =>
      if Registers(s, key, call) {
        BeginKeepsKeyed(s, a, Attempt(key, env, call, None, Open(false)));
      }
    case Copy(a, ok) => CopyKeepsKeyed(s, a, ok);
    case Destructor(key) => DestructorKeepsKeyed(s, key);
    case Completion(id) => CompletionKeepsKeyed(s, id);
    case Detach(env) => DetachKeepsKeyed(s, env);
    case _ =>
  }

  lemma StepKeepsLive(s: State, step: Step)
    requires WellKeyed(s) && Truthful(s) && LiveActive(s) && AttemptsTrack(s) && Enabled(s, step)
    ensures LiveActive(Next(s, step))
  {
    hide Deliveries;
  }

  lemma {:induction false} DeliveriesOf(r: Registry, ids: set<int>)
    requires ids <= r.entries.Keys
    ensures Ids(Deliveries(r, ids)) == multiset(ids)
    ensures forall i :: 0 <= i < |Deliveries(r, ids)| ==>
              var d := Deliveries(r, ids)[i]; d.id in ids && d.env == r.entries[d.id].env && d.call == r.entries[d.id].call
    decreases |ids|
  {
    if ids != {} {
      var ds := Deliveries(r, ids);
      var id := ds[0].id;
      assert ds[1..] == Deliveries(r, ids - {id});
      DeliveriesOf(r, ids - {id});
      assert ids == ids - {id} + {id};
      assert forall i :: 1 <= i < |ds| ==> ds[i] == ds[1..][i - 1];
    }
  }

  lemma DetachKeepsTruthful(s: State, env: int)
    requires Truthful(s)
    ensures Truthful(s.(reg := DetachIn(s.reg, env), detached := s.detached + {env},
                        delivered := s.delivered + Deliveries(s.reg, ReadyOf(s.reg, env))))
  {
    var ds := Deliveries(s.reg, ReadyOf(s.reg, env));
    DeliveriesOf(s.reg, ReadyOf(s.reg, env));
    var entries := DetachIn(s.reg, env).entries;
    forall id
      ensures id in entries ==> id in s.reg.entries && entries[id] == Detached(env, s.reg.entries[id])
    {
      DetachAt(s.reg, env, id);
    }
    assert DetachIn(s.reg, env).nextId == s.reg.nextId;
    hide DetachIn, Deliveries, Ids, ReadyOf;
  }

  lemma StepKeepsTruthful(s: State, step: Step)
    requires WellKeyed(s) && Truthful(s) && Enabled(s, step)
    ensures Truthful(Next(s, step))
  {
    hide Deliveries, Ids, DetachIn, WellKeyed;
    match step
    case Detach(env) => DetachKeepsTruthful(s, env);
    case Begin(a, key, env, call) =>
      hide Truthful;
      BeginKeepsTruthful(s, a, key, env, call);
    case Destructor(key) =>
      hide Truthful;
      DestructorKeepsTruthful(s, key);
    case _ =>
  }

  lemma BeginKeepsTruthful(s: State, a: int, key: Key, env: int, call: Option<Call>)
    requires Truthful(s) && env !in s.detached
    ensures Truthful(AfterBegin(s, a, key, env, call))
  {
  }

  lemma DestructorKeepsTruthful(s: State, key: Key)
    requires Truthful(s)
    ensures Truthful(AfterDestructor(s, key))
  {
  }

  lemma {:induction false} IdsConcat(a: seq<Delivery>, b: seq<Delivery>)
    ensures Ids(a + b) == Ids(a) + Ids(b)
  {
    if a == [] {
      assert a + b == b;
    } else {
      assert (a + b)[1..] == a[1..] + b;
      IdsConcat(a[1..], b);
    }
  }

  lemma IdsSnoc(ds: seq<Delivery>, d: Delivery)
    ensures Ids(ds + [d]) == Ids(ds) + multiset{d.id}
  {
    IdsConcat(ds, [d]);
    assert [d][1..] == [];
  }

  lemma TakeOutAll(m: set<int>, xs: set<int>)
    requires xs <= m
    ensures multiset(m) == multiset(m - xs) + multiset(xs)
  {
  }

  lemma BeginConserves(s: State, a: int, key: Key, env: int, call: Option<Call>)
    requires Conserved(s) && Truthful(s)
    ensures Conserved(AfterBegin(s, a, key, env, call))
  {
    hide Ids;
    var t := AfterBegin(s, a, key, env, call);
    if Registers(s, key, call) {
      var id := s.reg.nextId;
      assert t.reg.entries.Keys == s.reg.entries.Keys + {id} && t.asked.Keys == s.asked.Keys + {id};
      MultisetInsert(s.reg.entries.Keys, id);
      MultisetInsert(s.asked.Keys, id);
    }
  }

  /** A registration still in the registry was neither delivered nor cancelled. */
  lemma StillOwed(s: State, id: int)
    requires Conserved(s) && id in s.reg.entries
    ensures id !in s.cancelled && Ids(s.delivered)[id] == 0
  {
    hide Ids;
    assert (multiset(s.reg.entries.Keys) + Ids(s.delivered) + multiset(s.cancelled))[id] <= 1;
  }

  lemma CopyConserves(s: State, a: int, ok: bool)
    requires Conserved(s) && WellKeyed(s) && a in s.attempts
    ensures Conserved(AfterCopy(s, a, ok))
  {
    hide Ids;
    var at := s.attempts[a];
    if at.id.Some? && Holds(s.reg, at.key, at.id.value) {
      var id := at.id.value;
      StillOwed(s, id);
      assert (s.reg.entries - {id}).Keys == s.reg.entries.Keys - {id};
      MultisetDelete(s.reg.entries.Keys, id);
      MultisetInsert(s.cancelled, id);
    }
  }

  lemma DestructorConserves(s: State, key: Key)
    requires Conserved(s) && WellKeyed(s)
    ensures Conserved(AfterDestructor(s, key))
  {
    hide Ids;
    match DisposalOf(s.reg, key)
    case Direct(id, call) =>
      assert (s.reg.entries - {id}).Keys == s.reg.entries.Keys - {id};
      MultisetDelete(s.reg.entries.Keys, id);
      IdsSnoc(s.delivered, Delivery(id, None, call));
    case Queued(id) =>
      assert s.reg.entries[id := s.reg.entries[id].(ready := true)].Keys == s.reg.entries.Keys;
    case Unknown =>
  }

  lemma CompletionConserves(s: State, id: int)
    requires Conserved(s)
    ensures Conserved(AfterCompletion(s, id))
  {
    hide Ids;
    assert (s.reg.entries - {id}).Keys == s.reg.entries.Keys - {id};
    if id in s.reg.entries {
      MultisetDelete(s.reg.entries.Keys, id);
      IdsSnoc(s.delivered, Delivery(id, s.reg.entries[id].env, s.reg.entries[id].call));
    } else {
      assert s.reg.entries.Keys - {id} == s.reg.entries.Keys;
    }
  }

  lemma DetachConserves(s: State, env: int)
    requires Conserved(s)
    ensures Conserved(s.(reg := DetachIn(s.reg, env), detached := s.detached + {env},
                         delivered := s.delivered + Deliveries(s.reg, ReadyOf(s.reg, env))))
  {
    var ready := ReadyOf(s.reg, env);
    DeliveriesOf(s.reg, ready);
    IdsConcat(s.delivered, Deliveries(s.reg, ready));
    assert DetachIn(s.reg, env).entries.Keys == s.reg.entries.Keys - ready;
    TakeOutAll(s.reg.entries.Keys, ready);
    hide *;
  }

  lemma StepConserves(s: State, step: Step)
    requires Conserved(s) && WellKeyed(s) && Truthful(s) && Enabled(s, step)
    ensures Conserved(Next(s, step))
  {
    hide Ids, Deliveries;
    match step
    case Begin(a, key, env, call) => BeginConserves(s, a, key, env, call);
    case Copy(a, ok) => CopyConserves(s, a, ok);
    case Destructor(key) => DestructorConserves(s, key);
    case Completion(id) => CompletionConserves(s, id);
    case Detach(env) => DetachConserves(s, env);
    case _ =>
  }

  lemma CancelledWasAsked(s: State, id: int)
    requires Conserved(s)
    ensures id in s.cancelled ==> id in s.asked
  {
    hide Ids;
    assert (multiset(s.reg.entries.Keys) + Ids(s.delivered) + multiset(s.cancelled))[id] == multiset(s.asked.Keys)[id];
  }

  lemma BeginKeepsAttempts(s: State, a: int, at: Attempt)
    requires Truthful(s) && LiveActive(s) && Conserved(s) && AttemptsTrack(s)
    requires a !in s.attempts && at.outcome == Open(false) && at.env !in s.detached && at.key !in s.reg.active && at.call.Some?
    ensures AttemptsTrack(Registered(s, a, at))
  {
    CancelledWasAsked(s, s.reg.nextId);
    assert at.key !in s.live && s.reg.nextId !in s.asked;
    hide Conserved, Truthful, LiveActive;
    var t := Registered(s, a, at);
    forall b | b in s.attempts && s.attempts[b].id.Some? ensures AttemptOk(t, s.attempts[b]) {
      assert AttemptOk(s, s.attempts[b]);
    }
    assert AttemptOk(t, t.attempts[a]);
    hide AttemptOk, RegisterIn;
  }

  lemma CopyKeepsOk(s: State, a: int, ok: bool, b: int)
    requires WellKeyed(s) && AttemptsTrack(s) && Enabled(s, Copy(a, ok)) && b in s.attempts && s.attempts[b].id.Some?
    ensures AttemptOk(AfterCopy(s, a, ok), AfterCopy(s, a, ok).attempts[b])
  {
    assert AttemptOk(s, s.attempts[b]);
    hide WellKeyed;
  }

  lemma CopyKeepsAttempts(s: State, a: int, ok: bool)
    requires WellKeyed(s) && AttemptsTrack(s) && Enabled(s, Copy(a, ok))
    ensures AttemptsTrack(AfterCopy(s, a, ok))
  {
    hide AttemptOk, WellKeyed, CancelIn, Holds;
    var t := AfterCopy(s, a, ok);
    forall b | b in t.attempts && t.attempts[b].id.Some? ensures AttemptOk(t, t.attempts[b]) {
      CopyKeepsOk(s, a, ok, b);
    }
  }

  lemma DestructorKeepsAttempts(s: State, key: Key)
    requires WellKeyed(s) && LiveActive(s) && AttemptsTrack(s) && key in s.live
    ensures AttemptsTrack(AfterDestructor(s, key))
  {
  }

  lemma MakeKeepsAttempts(s: State, a: int)
    requires AttemptsTrack(s) && Enabled(s, V8Make(a))
    ensures AttemptsTrack(Next(s, V8Make(a)))
  {
    var t := Next(s, V8Make(a));
    assert AttemptOk(s, s.attempts[a]);
    forall b | b in t.attempts && t.attempts[b].id.Some? ensures AttemptOk(t, t.attempts[b]) {
      assert AttemptOk(s, s.attempts[b]);
    }
    hide AttemptOk;
  }

  lemma AcceptKeepsAttempts(s: State, a: int)
    requires AttemptsTrack(s) && Enabled(s, Accept(a))
    ensures AttemptsTrack(Next(s, Accept(a)))
  {
    var t := Next(s, Accept(a));
    forall b | b in t.attempts && t.attempts[b].id.Some? ensures AttemptOk(t, t.attempts[b]) {
      assert AttemptOk(s, s.attempts[b]);
    }
    hide AttemptOk;
  }

  /** Attempts do not look at the entries of the registry. */
  lemma AttemptsFrame(s: State, t: State)
    requires AttemptsTrack(s)
    requires t.attempts == s.attempts && t.asked == s.asked && t.live == s.live && t.reg.active == s.reg.active
    requires t.cancelled == s.cancelled && t.immediate == s.immediate
    requires forall a :: IsOpen(s, a) ==> s.attempts[a].env !in t.detached
    ensures AttemptsTrack(t)
  {
    forall b | b in t.attempts && t.attempts[b].id.Some? ensures AttemptOk(t, t.attempts[b]) {
      assert AttemptOk(s, s.attempts[b]);
    }
    hide AttemptOk;
  }

  lemma StepKeepsAttempts(s: State, step: Step)
    requires WellKeyed(s) && Truthful(s) && LiveActive(s) && Conserved(s) && AttemptsTrack(s) && Enabled(s, step)
    ensures AttemptsTrack(Next(s, step))
  {
    hide Ids, Deliveries, Conserved, Truthful, WellKeyed, LiveActive, AttemptOk;
    match step
    case Begin(a, key, env, call) =>
      if Registers(s, key, call) {
        BeginKeepsAttempts(s, a, Attempt(key, env, call, None, Open(false)));
      } else {
        RefusedKeepsAttempts(s, a, Attempt(key, env, call, None, Open(false)));
      }
    case V8Make(a) => MakeKeepsAttempts(s, a);
    case Accept(a) => AcceptKeepsAttempts(s, a);
    case Copy(a, ok) => CopyKeepsAttempts(s, a, ok);
    case Destructor(key) => DestructorKeepsAttempts(s, key);
    case Enqueue(id) => AttemptsFrame(s, Next(s, step));
    case Completion(id) => AttemptsFrame(s, Next(s, step));
    case Detach(env) => AttemptsFrame(s, Next(s, step));
  }

  lemma RefusedKeepsAttempts(s: State, a: int, at: Attempt)
    requires AttemptsTrack(s)
    requires a !in s.attempts && at.outcome == Open(false) && at.env !in s.detached && at.id.None?
    ensures AttemptsTrack(s.(attempts := s.attempts[a := at]))
  {
    var t := s.(attempts := s.attempts[a := at]);
    forall b | b in t.attempts && t.attempts[b].id.Some? ensures AttemptOk(t, t.attempts[b]) {
      assert AttemptOk(s, s.attempts[b]);
    }
    hide AttemptOk;
  }

  lemma StepKeepsInv(s: State, step: Step)
    requires Inv(s) && Enabled(s, step)
    ensures Inv(Next(s, step))
  {
    hide Next, Enabled, WellKeyed, Truthful, LiveActive, Conserved, AttemptsTrack;
    StepKeepsKeyed(s, step);
    StepKeepsTruthful(s, step);
    StepKeepsLive(s, step);
    StepConserves(s, step);
    StepKeepsAttempts(s, step);
  }

  lemma {:induction false} RunKeepsInv(s: State, steps: seq<Step>)
    requires Inv(s) && Runs(s, steps)
    ensures Inv(Exec(s, steps))
    decreases |steps|
  {
    hide Next, Inv, Enabled;
    if steps != [] {
      StepKeepsInv(s, steps[0]);
      RunKeepsInv(Next(s, steps[0]), steps[1..]);
    }
  }

  lemma InitInv()
    ensures Inv(INIT)
  {
    assert INIT.reg.entries.Keys == {} && INIT.asked.Keys == {};
  }

  /** A create call is on record as it was made, and is registered exactly when it
      brings a finalizer, its string is not empty and no live string has its key. */
  lemma BeginRegistersIff(s: State, a: int, key: Key, env: int, call: Option<Call>)
    requires Enabled(s, Begin(a, key, env, call))
    ensures var t := Next(s, Begin(a, key, env, call));
            var id := if call.Some? && key.len > 0 && key !in s.reg.active then Some(s.reg.nextId) else None;
            && a in t.attempts && t.attempts[a] == Attempt(key, env, call, id, Open(false))
            && (id.Some? ==> Holds(t.reg, key, id.value) && t.reg.entries.Keys == s.reg.entries.Keys + {id.value})
            && (id.None? ==> t.reg == s.reg)
  {
  }

  // ------------------------------------------------------------ what it promises

  /** In every run: `active` points one to one at the entries not ready, and a
      ready entry has an env and a completion that is queued or about to be, so it
      is not forgotten; and an entry has lost its env exactly if that is detached. */
  lemma RegistryShape(steps: seq<Step>)
    requires Runs(INIT, steps)
    ensures var s := Exec(INIT, steps);
            && (forall key :: key in s.reg.active ==> s.reg.active[key] in s.reg.entries && !s.reg.entries[s.reg.active[key]].ready)
            && (forall key, key' :: key in s.reg.active && key' in s.reg.active && s.reg.active[key] == s.reg.active[key'] ==> key == key')
            && (forall id :: id in s.reg.entries && !s.reg.entries[id].ready ==> exists key :: Holds(s.reg, key, id))
            && (forall id :: id in s.reg.entries && s.reg.entries[id].ready ==> s.reg.entries[id].env.Some? && (id in s.tasks || id in s.unqueued))
            && (forall id :: id in s.reg.entries ==> id in s.asked && (s.reg.entries[id].env.None? <==> s.asked[id].env in s.detached))
  {
    InitInv();
    RunKeepsInv(INIT, steps);
    hide Exec, Conserved, AttemptsTrack;
  }

  /** In every run each registration is waiting, delivered or cancelled, and in
      one of these once: its callback is called at most once, never once cancelled. */
  lemma DeliveredAtMostOnce(steps: seq<Step>, id: int)
    requires Runs(INIT, steps)
    ensures var s := Exec(INIT, steps);
            id in s.asked ==>
              (if id in s.reg.entries then 1 else 0) + Ids(s.delivered)[id] + (if id in s.cancelled then 1 else 0) == 1
  {
    InitInv();
    RunKeepsInv(INIT, steps);
    var s := Exec(INIT, steps);
    hide Exec, Ids, WellKeyed, Truthful, LiveActive, AttemptsTrack;
    assert (multiset(s.reg.entries.Keys) + Ids(s.delivered) + multiset(s.cancelled))[id] == multiset(s.asked.Keys)[id];
  }

  /** How often attempt `a` has been finalized or still will be. */
  function Finalizations(s: State, a: int): int
    requires a in s.attempts
  {
    var id := s.attempts[a].id;
    (if a in s.immediate then 1 else 0)
    + (if id.Some? then Ids(s.delivered)[id.value] + (if id.value in s.reg.entries then 1 else 0) else 0)
  }

  predicate Succeeded(at: Attempt) {
    at.outcome.External? || at.outcome.CopiedNow? || at.outcome.CopiedLater?
  }

  lemma FinalizedOnce(s: State, a: int)
    requires AttemptsTrack(s) && a in s.attempts && Succeeded(s.attempts[a])
    requires var id := s.attempts[a].id;
             id.Some? ==> (if id.value in s.reg.entries then 1 else 0) + Ids(s.delivered)[id.value] + (if id.value in s.cancelled then 1 else 0) == 1
    ensures Finalizations(s, a) == if s.attempts[a].call.Some? then 1 else 0
  {
    hide Ids;
    assert s.attempts[a].id.Some? ==> AttemptOk(s, s.attempts[a]);
  }

  /** A create call that succeeded is finalized exactly once if it came with a
      finalizer, at once or through the registry, which has delivered it or still
      will; without one it is never finalized. */
  lemma SuccessFinalizesOnce(steps: seq<Step>, a: int)
    requires Runs(INIT, steps) && a in Exec(INIT, steps).attempts && Succeeded(Exec(INIT, steps).attempts[a])
    ensures var s := Exec(INIT, steps); Finalizations(s, a) == if s.attempts[a].call.Some? then 1 else 0
  {
    InitInv();
    RunKeepsInv(INIT, steps);
    var s := Exec(INIT, steps);
    hide Exec, Runs, Ids, WellKeyed, Truthful, LiveActive, Conserved, AttemptsTrack, Finalizations;
    if s.attempts[a].id.Some? {
      IdOfAttempt(s, a);
      DeliveredAtMostOnce(steps, s.attempts[a].id.value);
    }
    FinalizedOnce(s, a);
  }

  lemma IdOfAttempt(s: State, a: int)
    requires AttemptsTrack(s) && a in s.attempts && s.attempts[a].id.Some?
    ensures s.attempts[a].id.value in s.asked
  {
    assert AttemptOk(s, s.attempts[a]);
  }

  /** The destructor of a live string leads to the call that string was created with,
      whoever had the key before: on its env's own loop, or at once if that env is
      detached. */
  lemma DestructorFindsItsOwn(steps: seq<Step>, key: Key)
    requires Runs(INIT, steps) && key in Exec(INIT, steps).live
    ensures var s := Exec(INIT, steps);
            var id := s.live[key];
            && id in s.asked && s.asked[id].key == key
            && id in s.reg.entries && s.asked[id].call == Some(s.reg.entries[id].call)
            && DisposalOf(s.reg, key) == if s.asked[id].env in s.detached then Direct(id, s.asked[id].call.value) else Queued(id)
  {
    InitInv();
    RunKeepsInv(INIT, steps);
    hide Exec, Conserved, AttemptsTrack;
  }

  /** Every finalizer call is made with the env its string was created in, unless that
      env had been detached, and then with none. */
  lemma DeliveredWithItsEnv(s: State, step: Step, i: int)
    requires Inv(s) && Enabled(s, step) && |s.delivered| <= i < |Next(s, step).delivered|
    ensures var d := Next(s, step).delivered[i]; d.id in s.asked && d.env == EnvFor(s, s.asked[d.id].env)
  {
    if step.Detach? {
      DeliveriesOf(s.reg, ReadyOf(s.reg, step.env));
      hide Deliveries, Ids, DetachIn;
      assert Next(s, step).delivered[i] == Deliveries(s.reg, ReadyOf(s.reg, step.env))[i - |s.delivered|];
    }
    hide Ids, WellKeyed, LiveActive, Conserved, AttemptsTrack, DetachIn, Deliveries;
  }

  lemma DeliveredGrows(s: State, step: Step)
    requires Enabled(s, step)
    ensures s.delivered <= Next(s, step).delivered && s.detached <= Next(s, step).detached
  {
    hide Deliveries, DetachIn;
  }

  /** A detach touches the entries of its own env only. */
  lemma DetachSparesOthers(r: Registry, env: int, id: int)
    requires id in r.entries && r.entries[id].env != Some(env)
    ensures id in DetachIn(r, env).entries && DetachIn(r, env).entries[id] == r.entries[id]
  {
    DetachAt(r, env, id);
  }

  /** Once an env is detached, no delivery of any continuation carries it. */
  lemma {:induction false} NoEnvAfterDetach(s: State, steps: seq<Step>, env: int, i: int)
    requires Inv(s) && env in s.detached && Runs(s, steps)
    requires |s.delivered| <= i < |Exec(s, steps).delivered|
    ensures Exec(s, steps).delivered[i].env != Some(env)
    decreases |steps|
  {
    hide Next, Inv, Enabled;
    if steps != [] {
      var t := Next(s, steps[0]);
      StepKeepsInv(s, steps[0]);
      DeliveredGrows(s, steps[0]);
      if i < |t.delivered| {
        DeliveredWithItsEnv(s, steps[0], i);
        DeliveredPrefix(t, steps[1..]);
      } else {
        NoEnvAfterDetach(t, steps[1..], env, i);
      }
    }
  }

  lemma {:induction false} DeliveredPrefix(s: State, steps: seq<Step>)
    requires Runs(s, steps)
    ensures s.delivered <= Exec(s, steps).delivered
    decreases |steps|
  {
    hide Next, Enabled;
    if steps != [] {
      DeliveredGrows(s, steps[0]);
      DeliveredPrefix(Next(s, steps[0]), steps[1..]);
    }
  }

  /** An immediate call is made with an env that is not detached. */
  lemma ImmediateBeforeDetach(steps: seq<Step>, a: int, ok: bool)
    requires Runs(INIT, steps) && Enabled(Exec(INIT, steps), Copy(a, ok))
    ensures Exec(INIT, steps).attempts[a].env !in Exec(INIT, steps).detached
  {
    InitInv();
    RunKeepsInv(INIT, steps);
    hide Exec, Conserved, WellKeyed, Truthful, LiveActive;
  }
}
