/**
Runs of the SSR runner: the version graph, the isolate whose module map caches
forever, the disk, and every invalidation in flight.

A step is one lock acquisition, one stat, or one request of the engine, so the
gap an invalidation leaves between its snapshot and its walk is open to every
other step, and so are the gaps a load leaves between reading a module's code,
taking its file's mtime and, under the lock, recording it. An instance remembers
the mtime its code was read at; a world says which ids the code of an id imports
when read at an mtime, so equal mtimes mean equal contents.
*/
module SsrRun {
  import opened Options
  import opened ModuleGraph

  /** A version-stamped specifier. */
  datatype Spec = Spec(id: Id, version: int)

  /** A module instance of the isolate: its code's mtime and what it linked to. */
  datatype Inst = Inst(mtime: Option<Time>, links: set<Spec>)

  /** An invalidation between its snapshot and its walk. */
  datatype Scan = Scan(todo: map<Id, Option<Time>>, seeds: set<Id>)

  /** A load under way: the mtime its code was read at and, once it has looked, the
      mtime it will record. */
  datatype Load = Reading(read: Option<Time>) | Looked(read: Option<Time>, seen: Option<Time>)

  /** `minted`, `retired` and `base` are history: every specifier handed out,
      those retired since the last reset, and the versions at that reset. */
  datatype State = State(g: Graph, disk: Disk, isolate: map<Spec, Inst>, inflight: map<Spec, Load>,
                         scans: map<int, Scan>, spawning: bool,
                         minted: set<Spec>, retired: set<Spec>, base: map<Id, int>)

  type World = (Id, Option<Time>) -> set<Id>

  /** A load that fails leaves nothing behind and may be tried again. `LateEdge` and
      `LateRecord` are of host tasks that outlived their isolate; what
      such a task saw of a file may be of any age. */
  datatype Step =
    | Mint(id: Id)
    | Link(from: Spec, dep: Id)
    | Read(spec: Spec)
    | Look(spec: Spec)
    | Record(spec: Spec)
    | Fail(spec: Spec)
    | LateEdge(dep: Id, importer: Id)
    | LateRecord(id: Id, seen: Option<Time>)
    | Edit(file: string, mtime: Option<Time>)
    | BeginScan(k: int)
    | Stat(k: int, id: Id)
    | Walk(k: int)
    | Bump(id: Id)
    | Spawn
    | Reset

  function Init(disk: Disk): State {
    State(EMPTY_GRAPH, disk, map[], map[], map[], false, {}, {}, map[])
  }

  function SpecOf(s: State, id: Id): Spec {
    Spec(id, VersionOf(s.g, id))
  }

  // -------------------------------------------------------------------- steps

  ghost predicate Enabled(w: World, s: State, step: Step) {
    match step
    case Link(from, dep) => from in s.isolate && dep in w(from.id, s.isolate[from].mtime)
    case Read(spec) => spec in s.minted && spec !in s.isolate && spec !in s.inflight && !s.spawning
    case Look(spec) => spec in s.inflight && s.inflight[spec].Reading?
    case Record(spec) => spec in s.inflight && s.inflight[spec].Looked?
    case Fail(spec) => spec in s.inflight && s.inflight[spec].Reading?
    case BeginScan(k) => k !in s.scans
    case Stat(k, id) => k in s.scans && id in s.scans[k].todo
    case Walk(k) => k in s.scans && s.scans[k].todo == map[]
    case Spawn => s.g.stale >= STALE_MODULE_RESPAWN_THRESHOLD && !s.spawning
    case Reset => s.spawning
    case _ => true
  }

  function AfterLink(s: State, from: Spec, dep: Id): State
    requires from in s.isolate
  {
    var inst := s.isolate[from];
    s.(g := AddEdge(s.g, dep, from.id),
       isolate := s.isolate[from := inst.(links := inst.links + {SpecOf(s, dep)})],
       minted := s.minted + {SpecOf(s, dep)})
  }

  /** With the record made the engine is given the code. */
  function AfterRecord(s: State, spec: Spec): State
    requires spec in s.inflight && s.inflight[spec].Looked?
  {
    var load := s.inflight[spec];
    s.(g := RecordMtime(s.g, spec.id, load.seen),
       isolate := s.isolate[spec := Inst(load.read, {})], inflight := s.inflight - {spec})
  }

  function AfterStat(s: State, k: int, id: Id): State
    requires k in s.scans && id in s.scans[k].todo
  {
    var scan := s.scans[k];
    var seeds := if MtimeOf(s.disk, id) != scan.todo[id] then scan.seeds + {id} else scan.seeds;
    s.(scans := s.scans[k := Scan(scan.todo - {id}, seeds)])
  }

  function SpecsOf(s: State, d: set<Id>): set<Spec> {
    set id | id in d :: SpecOf(s, id)
  }

  function AfterRetire(s: State, d: set<Id>): State {
    s.(g := Retire(s.g, d), retired := s.retired + SpecsOf(s, d))
  }

  ghost function Next(s: State, step: Step): State
    requires step.Link? ==> step.from in s.isolate
    requires step.Stat? ==> step.k in s.scans && step.id in s.scans[step.k].todo
    requires step.Walk? ==> step.k in s.scans
    requires step.Look? || step.Record? ==> step.spec in s.inflight && (step.Record? <==> s.inflight[step.spec].Looked?)
  {
    match step
    case Mint(id) => s.(minted := s.minted + {SpecOf(s, id)})
    case Link(from, dep) => AfterLink(s, from, dep)
    case Read(spec) => s.(inflight := s.inflight[spec := Reading(MtimeOf(s.disk, spec.id))])
    case Look(spec) => s.(inflight := s.inflight[spec := Looked(s.inflight[spec].read, MtimeOf(s.disk, spec.id))])
    case Record(spec) => AfterRecord(s, spec)
    case Fail(spec) => s.(inflight := s.inflight - {spec})
    case LateEdge(dep, importer) => s.(g := AddEdge(s.g, dep, importer), minted := s.minted + {SpecOf(s, dep)})
    case LateRecord(id, seen) => s.(g := RecordMtime(s.g, id, seen))
    case Edit(file, mtime) => s.(disk := if mtime.Some? then s.disk[file := mtime.value] else s.disk - {file})
    case BeginScan(k) => s.(scans := s.scans[k := Scan(map id | id in s.g.recs :: s.g.recs[id].mtime, {})])
    case Stat(k, id) => AfterStat(s, k, id)
    case Walk(k) => AfterRetire(s, Closure(s.g.recs, s.scans[k].seeds)).(scans := s.scans - {k})
    case Bump(id) => AfterRetire(s, {id})
    case Spawn => s.(isolate := map[], inflight := map[], spawning := true)
    case Reset => s.(g := ResetGraph(s.g), spawning := false, retired := {}, base := s.g.versions)
  }

  /** Each step of the sequence is enabled where it is taken. */
  ghost predicate Runs(w: World, s: State, steps: seq<Step>)
    decreases |steps|
  {
    steps == [] || (Enabled(w, s, steps[0]) && Runs(w, Next(s, steps[0]), steps[1..]))
  }

  ghost function Exec(w: World, s: State, steps: seq<Step>): State
    requires Runs(w, s, steps)
    decreases |steps|
  {
    if steps == [] then s else Exec(w, Next(s, steps[0]), steps[1..])
  }

  lemma RunsCons(w: World, s: State, step: Step, rest: seq<Step>)
    requires Enabled(w, s, step)
    ensures Runs(w, s, [step] + rest) <==> Runs(w, Next(s, step), rest)
    ensures Runs(w, s, [step] + rest) ==> Exec(w, s, [step] + rest) == Exec(w, Next(s, step), rest)
  {
    hide Next;
    assert ([step] + rest)[1..] == rest;
  }

  lemma RunsOne(w: World, s: State, step: Step)
    ensures Runs(w, s, [step]) <==> Enabled(w, s, step)
    ensures Enabled(w, s, step) ==> Exec(w, s, [step]) == Next(s, step)
  {
    if Enabled(w, s, step) {
      RunsCons(w, s, step, []);
      assert [step] + [] == [step];
    }
  }

  lemma RunsTwo(w: World, s: State, a: Step, b: Step)
    requires Enabled(w, s, a) && Enabled(w, Next(s, a), b)
    ensures Runs(w, s, [a, b]) && Exec(w, s, [a, b]) == Next(Next(s, a), b)
  {
    hide Next, Runs, Exec;
    RunsOne(w, Next(s, a), b);
    RunsCons(w, s, a, [b]);
    assert [a] + [b] == [a, b];
  }

  lemma RunsThree(w: World, s: State, a: Step, b: Step, c: Step)
    requires Enabled(w, s, a) && Runs(w, Next(s, a), [b, c])
    ensures Runs(w, s, [a, b, c]) && Exec(w, s, [a, b, c]) == Exec(w, Next(s, a), [b, c])
  {
    hide Next, Runs, Exec;
    RunsCons(w, s, a, [b, c]);
    assert [a] + [b, c] == [a, b, c];
  }

  lemma {:induction false} RunsAppend(w: World, s: State, a: seq<Step>, b: seq<Step>)
    ensures Runs(w, s, a + b) <==> Runs(w, s, a) && Runs(w, Exec(w, s, a), b)
    ensures Runs(w, s, a + b) ==> Exec(w, s, a + b) == Exec(w, Exec(w, s, a), b)
    decreases |a|
  {
    if a == [] {
      assert a + b == b;
    } else {
      assert (a + b)[1..] == a[1..] + b;
      if Enabled(w, s, a[0]) {
        RunsAppend(w, Next(s, a[0]), a[1..], b);
      }
    }
  }
}
