/**
Cache coherence: the isolate is a cache over the disk. After an invalidation
during which no file changed, every live instance's record is at its file's
mtime, so an instance is fresh exactly when its record tells the mtime its code
was read at, and what the isolate serves is what importing everything afresh
would give exactly when no record in it lies.
*/
module SsrCoherence {
  import opened Options
  import opened ModuleGraph
  import opened SsrRun

  // ----------------------------------------------------------- the invariants

  /** An instance under its id's current specifier. */
  predicate Live(s: State, sp: Spec) {
    sp in s.isolate && sp.version == VersionOf(s.g, sp.id)
  }

  ghost predicate NoneAhead(s: State) {
    && (forall sp :: sp in s.isolate || sp in s.inflight ==> sp.version <= VersionOf(s.g, sp.id))
    && (forall sp :: sp in s.minted ==> sp.version <= VersionOf(s.g, sp.id))
  }

  ghost predicate LiveRecorded(s: State) {
    forall sp :: Live(s, sp) ==> sp.id in s.g.recs
  }

  /** What every step of every run keeps. */
  ghost predicate Base(s: State) {
    && NoneAhead(s) && LiveRecorded(s)
    && (s.spawning ==> s.isolate == map[] && s.inflight == map[])
  }

  /** What a live instance links to is current, and knows it as an importer. */
  ghost predicate LinksRecorded(s: State) {
    forall sp, l :: Live(s, sp) && l in s.isolate[sp].links ==>
      l == SpecOf(s, l.id) && l.id in s.g.recs && sp.id in s.g.recs[l.id].importers
  }

  /** The record of an instance's id holds the mtime the instance was read at. */
  predicate Honest(s: State, sp: Spec)
    requires sp in s.isolate
  {
    sp.id in s.g.recs && s.g.recs[sp.id].mtime == s.isolate[sp].mtime
  }

  ghost predicate AllHonest(s: State) {
    forall sp :: Live(s, sp) ==> Honest(s, sp)
  }

  /** No live instance of another id links to `id`. */
  ghost predicate NoLiveImporter(s: State, id: Id) {
    forall sp, l :: Live(s, sp) && l in s.isolate[sp].links && l.id == id ==> sp.id == id
  }

  /** What the links ask of a step: a bumped id is imported by nothing else live. */
  ghost predicate SafeBump(s: State, step: Step) {
    step.Bump? ==> NoLiveImporter(s, step.id)
  }

  ghost predicate SafeBumps(w: World, s: State, steps: seq<Step>)
    requires Runs(w, s, steps)
    decreases |steps|
  {
    steps == [] || (SafeBump(s, steps[0]) && SafeBumps(w, Next(s, steps[0]), steps[1..]))
  }

  // ------------------------------------------------------- every step keeps them

  /** What retiring does to each id. */
  lemma RetireEach(g: Graph, d: set<Id>)
    ensures forall id :: VersionOf(Retire(g, d), id) == VersionOf(g, id) + (if id in d then 1 else 0)
    ensures forall id :: id in Retire(g, d).recs <==> id in g.recs && id !in d
    ensures forall id :: id in Retire(g, d).recs ==> Retire(g, d).recs[id] == g.recs[id]
  {
    forall id
      ensures VersionOf(Retire(g, d), id) == VersionOf(g, id) + (if id in d then 1 else 0)
      ensures id in Retire(g, d).recs <==> id in g.recs && id !in d
      ensures id in Retire(g, d).recs ==> Retire(g, d).recs[id] == g.recs[id]
    {
      RetireAt(g, d, id);
    }
  }

  lemma NoneRevived(s: State, d: set<Id>)
    requires NoneAhead(s)
    ensures forall sp :: Live(AfterRetire(s, d), sp) <==> Live(s, sp) && sp.id !in d
  {
    RetireEach(s.g, d);
    hide Retire, SpecsOf;
  }

  lemma RetireKeepsBase(s: State, d: set<Id>)
    requires Base(s)
    ensures Base(AfterRetire(s, d))
  {
    RetireEach(s.g, d);
    hide Retire, SpecsOf;
  }

  lemma RetireKeepsLinks(s: State, d: set<Id>)
    requires NoneAhead(s) && LinksRecorded(s)
    requires forall sp, l :: Live(s, sp) && l in s.isolate[sp].links && l.id in d ==> sp.id in d
    ensures LinksRecorded(AfterRetire(s, d))
  {
    RetireEach(s.g, d);
    NoneRevived(s, d);
    hide Retire, SpecsOf, NoneAhead;
  }

  /** The closure takes every live importer of what it drops. */
  lemma ClosureTakesImporters(s: State, seeds: set<Id>)
    requires Base(s) && LinksRecorded(s)
    ensures forall sp, l :: Live(s, sp) && l in s.isolate[sp].links && l.id in Closure(s.g.recs, seeds) ==>
              sp.id in Closure(s.g.recs, seeds)
  {
    ClosureIsClosed(s.g.recs, seeds);
    hide Closure;
  }

  lemma EdgeAt(g: Graph, dep: Id, importer: Id)
    ensures forall id :: VersionOf(AddEdge(g, dep, importer), id) == VersionOf(g, id)
    ensures forall id :: id in g.recs ==> id in AddEdge(g, dep, importer).recs
    ensures forall id :: id in g.recs ==> AddEdge(g, dep, importer).recs[id].mtime == g.recs[id].mtime
    ensures forall id :: id in g.recs ==> g.recs[id].importers <= AddEdge(g, dep, importer).recs[id].importers
    ensures dep in AddEdge(g, dep, importer).recs && importer in AddEdge(g, dep, importer).recs[dep].importers
  {
  }

  lemma RecordAt(g: Graph, r: Id, mtime: Option<Time>)
    ensures forall id :: VersionOf(RecordMtime(g, r, mtime), id) == VersionOf(g, id)
    ensures forall id :: id in RecordMtime(g, r, mtime).recs <==> id in g.recs || id == r
    ensures forall id :: id in g.recs ==> RecordMtime(g, r, mtime).recs[id].importers == g.recs[id].importers
    ensures forall id :: id in g.recs && id != r ==> RecordMtime(g, r, mtime).recs[id] == g.recs[id]
    ensures RecordMtime(g, r, mtime).recs[r].mtime == mtime
  {
  }

  lemma EdgeKeepsBase(s: State, t: State, dep: Id, importer: Id)
    requires Base(s) && t.g == AddEdge(s.g, dep, importer) && t.minted == s.minted + {SpecOf(s, dep)}
    requires t.isolate.Keys == s.isolate.Keys && t.inflight == s.inflight && t.spawning == s.spawning
    ensures Base(t)
  {
    EdgeAt(s.g, dep, importer);
    hide AddEdge;
    assert forall sp :: sp in t.isolate <==> sp in s.isolate.Keys;
    assert t.spawning ==> t.isolate.Keys == {};
  }

  lemma RecordKeepsBase(s: State, t: State, id: Id, mtime: Option<Time>)
    requires Base(s) && t.g == RecordMtime(s.g, id, mtime) && t.minted == s.minted && t.spawning == s.spawning
    requires forall sp :: sp in t.isolate ==> sp in s.isolate || (sp in s.inflight && sp.id == id)
    requires forall sp :: sp in t.inflight ==> sp in s.inflight
    requires t.spawning ==> t.isolate == map[] && t.inflight == map[]
    ensures Base(t)
  {
    RecordAt(s.g, id, mtime);
    hide RecordMtime;
  }

  lemma OtherKeepsBase(w: World, s: State, step: Step)
    requires Base(s) && Enabled(w, s, step)
    requires !(step.Link? || step.LateEdge? || step.Record? || step.LateRecord? || step.Walk? || step.Bump?)
    ensures Base(Next(s, step))
  {
    hide MtimeOf;
  }

  lemma StepKeepsBase(w: World, s: State, step: Step)
    requires Base(s) && Enabled(w, s, step)
    ensures Base(Next(s, step))
  {
    assert s.spawning ==> s.isolate == map[] && s.inflight == map[];
    hide Base, MtimeOf, AddEdge, RecordMtime, Retire, Closure, SpecsOf;
    match step
    case Link(from, dep) => EdgeKeepsBase(s, Next(s, step), dep, from.id);
    case LateEdge(dep, importer) => EdgeKeepsBase(s, Next(s, step), dep, importer);
    case Record(sp) => RecordKeepsBase(s, Next(s, step), sp.id, s.inflight[sp].seen);
    case LateRecord(id, seen) => RecordKeepsBase(s, Next(s, step), id, seen);
    case Walk(k) =>
      var d := Closure(s.g.recs, s.scans[k].seeds);
      RetireKeepsBase(s, d);
      BaseIgnoresScans(AfterRetire(s, d), s.scans - {k});
    case Bump(id) => RetireKeepsBase(s, {id});
    case _ => OtherKeepsBase(w, s, step);
  }

  lemma BaseIgnoresScans(s: State, scans: map<int, Scan>)
    requires Base(s)
    ensures Base(s.(scans := scans))
  {
    var t := s.(scans := scans);
    assert forall sp :: Live(t, sp) <==> Live(s, sp);
  }

  lemma LinksIgnoreTheRest(s: State, t: State)
    requires LinksRecorded(s) && t.g == s.g && t.isolate == s.isolate
    ensures LinksRecorded(t)
  {
    assert forall sp :: Live(t, sp) <==> Live(s, sp);
  }

  lemma EdgeKeepsLinks(s: State, t: State, dep: Id, importer: Id)
    requires LinksRecorded(s) && t.g == AddEdge(s.g, dep, importer) && t.isolate == s.isolate
    ensures LinksRecorded(t)
  {
    EdgeAt(s.g, dep, importer);
    hide AddEdge;
  }

  /** An instance may link to a recorded current specifier that lists it. */
  lemma LinkKeepsLinks(s: State, from: Spec, dep: Id)
    requires LinksRecorded(s) && from in s.isolate
    ensures LinksRecorded(AfterLink(s, from, dep))
  {
    EdgeAt(s.g, dep, from.id);
    hide AddEdge;
  }

  lemma RecordKeepsLinks(s: State, t: State, id: Id, mtime: Option<Time>)
    requires LinksRecorded(s) && t.g == RecordMtime(s.g, id, mtime)
    requires forall sp :: sp in t.isolate ==> (sp in s.isolate && t.isolate[sp] == s.isolate[sp]) || t.isolate[sp].links == {}
    ensures LinksRecorded(t)
  {
    RecordAt(s.g, id, mtime);
    hide RecordMtime;
    forall sp, l | Live(t, sp) && l in t.isolate[sp].links
      ensures l == SpecOf(t, l.id) && l.id in t.g.recs && sp.id in t.g.recs[l.id].importers
    {
      assert Live(s, sp) && l in s.isolate[sp].links;
    }
  }

  lemma BumpCutsImporter(s: State, id: Id, sp: Spec, l: Spec)
    requires NoneAhead(s) && Live(s, sp) && l in s.isolate[sp].links && l == SpecOf(s, id) && sp.id != id
    ensures !LinksRecorded(AfterRetire(s, {id}))
  {
    NoneRevived(s, {id});
    RetireAt(s.g, {id}, id);
    hide Retire, SpecsOf, NoneAhead;
    assert Live(AfterRetire(s, {id}), sp) && l != SpecOf(AfterRetire(s, {id}), id);
  }

  /** The condition is exact: a bump keeps the links of live instances current and
      recorded if and only if nothing else live imports the bumped id. */
  lemma BumpKeepsLinksIff(s: State, id: Id)
    requires Base(s) && LinksRecorded(s)
    ensures LinksRecorded(AfterRetire(s, {id})) <==> NoLiveImporter(s, id)
  {
    hide AfterRetire;
    if NoLiveImporter(s, id) {
      RetireKeepsLinks(s, {id});
    } else {
      var sp, l :| Live(s, sp) && l in s.isolate[sp].links && l.id == id && sp.id != id;
      BumpCutsImporter(s, id, sp, l);
    }
  }

  lemma StepKeepsLinks(w: World, s: State, step: Step)
    requires Base(s) && LinksRecorded(s) && Enabled(w, s, step) && SafeBump(s, step)
    ensures LinksRecorded(Next(s, step))
  {
    hide MtimeOf, AddEdge, RecordMtime, Retire, Closure;
    match step
    case Link(from, dep) =>
      hide LinksRecorded;
      LinkKeepsLinks(s, from, dep);
    case LateEdge(dep, importer) =>
      hide LinksRecorded;
      EdgeKeepsLinks(s, Next(s, step), dep, importer);
    case Record(sp) =>
      hide LinksRecorded;
      RecordKeepsLinks(s, Next(s, step), sp.id, s.inflight[sp].seen);
    case LateRecord(id, seen) =>
      hide LinksRecorded;
      RecordKeepsLinks(s, Next(s, step), id, seen);
    case Walk(k) =>
      var d := Closure(s.g.recs, s.scans[k].seeds);
      ClosureTakesImporters(s, s.scans[k].seeds);
      RetireKeepsLinks(s, d);
      hide LinksRecorded;
      LinksIgnoreTheRest(AfterRetire(s, d), Next(s, step));
    case Bump(id) => BumpKeepsLinksIff(s, id);
    case Spawn =>
    case Reset =>
    case _ =>
      hide LinksRecorded;
      LinksIgnoreTheRest(s, Next(s, step));
  }

  // ----------------------------------------- scans, and the records they cover

  predicate FreshInst(s: State, sp: Spec)
    requires sp in s.isolate
  {
    s.isolate[sp].mtime == MtimeOf(s.disk, sp.id)
  }

  /** The record of `id` holds its file's present mtime. */
  predicate RecordCurrent(s: State, id: Id) {
    id in s.g.recs && s.g.recs[id].mtime == MtimeOf(s.disk, id)
  }

  /** Every live instance's record is at its file's present mtime. */
  ghost predicate RecordsCurrent(s: State) {
    forall sp :: Live(s, sp) ==> RecordCurrent(s, sp.id)
  }

  /** What loads under way have seen of their files is how the files are now. */
  ghost predicate LooksCurrent(s: State) {
    forall sp :: sp in s.inflight && s.inflight[sp].Looked? ==> s.inflight[sp].seen == MtimeOf(s.disk, sp.id)
  }

  /** A live instance's record is current, or the scan has found it or has yet to
      stat it as it is. */
  ghost predicate Covered(s: State, scan: Scan) {
    forall sp :: Live(s, sp) ==>
      || RecordCurrent(s, sp.id) || sp.id in scan.seeds
      || (sp.id in scan.todo && sp.id in s.g.recs && scan.todo[sp.id] == s.g.recs[sp.id].mtime)
  }

  /** No file changes, and what late records report is how the files are. */
  predicate QuietStep(disk: Disk, step: Step) {
    !step.Edit? && (step.LateRecord? ==> step.seen == MtimeOf(disk, step.id))
  }

  predicate Quiet(disk: Disk, steps: seq<Step>) {
    forall i :: 0 <= i < |steps| ==> QuietStep(disk, steps[i])
  }

  lemma StepKeepsLooks(w: World, s: State, step: Step)
    requires LooksCurrent(s) && Enabled(w, s, step) && QuietStep(s.disk, step)
    ensures LooksCurrent(Next(s, step)) && Next(s, step).disk == s.disk
  {
    hide MtimeOf, Closure, Retire, SpecsOf, AddEdge, RecordMtime;
  }

  /** A live instance after a quiet step: its record is current, or was there. */
  ghost predicate NoNewStale(s: State, t: State) {
    && t.disk == s.disk
    && forall sp :: Live(t, sp) ==>
         RecordCurrent(t, sp.id) || (Live(s, sp) && sp.id in s.g.recs && sp.id in t.g.recs && t.g.recs[sp.id].mtime == s.g.recs[sp.id].mtime)
  }

  lemma StepNoNewStale(w: World, s: State, step: Step)
    requires Base(s) && LooksCurrent(s) && Enabled(w, s, step) && QuietStep(s.disk, step)
    ensures NoNewStale(s, Next(s, step))
  {
    hide MtimeOf;
    match step
    case Link(from, dep) =>
      EdgeAt(s.g, dep, from.id);
      hide AddEdge;
    case LateEdge(dep, importer) =>
      EdgeAt(s.g, dep, importer);
      hide AddEdge;
    case Record(sp) =>
      RecordAt(s.g, sp.id, s.inflight[sp].seen);
      hide RecordMtime;
    case LateRecord(id, seen) =>
      RecordAt(s.g, id, seen);
      hide RecordMtime;
    case Walk(k) =>
      var d := Closure(s.g.recs, s.scans[k].seeds);
      RetireEach(s.g, d);
      NoneRevived(s, d);
      hide Closure, Retire, SpecsOf;
    case Bump(id) =>
      RetireEach(s.g, {id});
      NoneRevived(s, {id});
      hide Retire, SpecsOf;
    case _ =>
  }

  lemma StepKeepsCovered(w: World, s: State, step: Step, k: int)
    requires Base(s) && LooksCurrent(s) && Enabled(w, s, step) && QuietStep(s.disk, step) && step != Walk(k)
    requires k in s.scans && Covered(s, s.scans[k])
    ensures k in Next(s, step).scans && Covered(Next(s, step), Next(s, step).scans[k])
  {
    StepNoNewStale(w, s, step);
    hide Closure, Retire, SpecsOf, MtimeOf, Base, AddEdge, RecordMtime, LooksCurrent;
  }

  lemma StepKeepsCurrent(w: World, s: State, step: Step)
    requires Base(s) && LooksCurrent(s) && Enabled(w, s, step) && QuietStep(s.disk, step) && RecordsCurrent(s)
    ensures RecordsCurrent(Next(s, step))
  {
    StepNoNewStale(w, s, step);
    hide Next, MtimeOf, Base, LooksCurrent;
  }

  lemma BeginCovers(s: State, k: int)
    requires Base(s)
    ensures var t := Next(s, BeginScan(k)); Covered(t, t.scans[k])
  {
    hide MtimeOf;
  }

  /** The walk of a scan that covers what is stale leaves current records only. */
  lemma WalkMakesCurrent(s: State, k: int)
    requires Base(s) && k in s.scans && s.scans[k].todo == map[] && Covered(s, s.scans[k])
    ensures RecordsCurrent(Next(s, Walk(k)))
  {
    var d := Closure(s.g.recs, s.scans[k].seeds);
    ClosureIsClosed(s.g.recs, s.scans[k].seeds);
    RetireEach(s.g, d);
    NoneRevived(s, d);
    hide Closure, Retire, SpecsOf, MtimeOf;
  }

  // ------------------------------------------------------------ over whole runs

  lemma {:induction false} RunKeepsBase(w: World, s: State, steps: seq<Step>)
    requires Base(s) && Runs(w, s, steps)
    ensures Base(Exec(w, s, steps))
    decreases |steps|
  {
    hide Next, Base;
    if steps != [] {
      StepKeepsBase(w, s, steps[0]);
      RunKeepsBase(w, Next(s, steps[0]), steps[1..]);
    }
  }

  lemma {:induction false} RunKeepsLinks(w: World, s: State, steps: seq<Step>)
    requires Base(s) && LinksRecorded(s) && Runs(w, s, steps) && SafeBumps(w, s, steps)
    ensures LinksRecorded(Exec(w, s, steps))
    decreases |steps|
  {
    hide Next, Base, LinksRecorded, SafeBump;
    if steps != [] {
      StepKeepsBase(w, s, steps[0]);
      StepKeepsLinks(w, s, steps[0]);
      RunKeepsLinks(w, Next(s, steps[0]), steps[1..]);
    }
  }

  lemma InitKeeps(disk: Disk)
    ensures Base(Init(disk)) && LinksRecorded(Init(disk)) && AllHonest(Init(disk))
  {
  }

  lemma {:induction false} QuietRunKeepsCovered(w: World, s: State, steps: seq<Step>, k: int)
    requires Base(s) && LooksCurrent(s) && k in s.scans && Covered(s, s.scans[k])
    requires Runs(w, s, steps) && Quiet(s.disk, steps) && Walk(k) !in steps
    ensures var t := Exec(w, s, steps); LooksCurrent(t) && t.disk == s.disk && k in t.scans && Covered(t, t.scans[k])
    decreases |steps|
  {
    hide Next, Base, Covered, LooksCurrent, QuietStep;
    if steps != [] {
      assert QuietStep(s.disk, steps[0]);
      StepKeepsBase(w, s, steps[0]);
      StepKeepsLooks(w, s, steps[0]);
      StepKeepsCovered(w, s, steps[0], k);
      QuietRunKeepsCovered(w, Next(s, steps[0]), steps[1..], k);
    }
  }

  lemma {:induction false} QuietRunKeepsCurrent(w: World, s: State, steps: seq<Step>)
    requires Base(s) && LooksCurrent(s) && RecordsCurrent(s) && Runs(w, s, steps) && Quiet(s.disk, steps)
    ensures RecordsCurrent(Exec(w, s, steps)) && Exec(w, s, steps).disk == s.disk
    decreases |steps|
  {
    hide Next, Base, RecordsCurrent, LooksCurrent, QuietStep;
    if steps != [] {
      assert QuietStep(s.disk, steps[0]);
      StepKeepsBase(w, s, steps[0]);
      StepKeepsLooks(w, s, steps[0]);
      StepKeepsCurrent(w, s, steps[0]);
      QuietRunKeepsCurrent(w, Next(s, steps[0]), steps[1..]);
    }
  }

  /** An invalidation, what interleaves with it, and what follows. */
  function Invalidation(k: int, during: seq<Step>, after: seq<Step>): seq<Step> {
    [BeginScan(k)] + during + [Walk(k)] + after
  }

  /** Scan `k` is walked once, no file changes from its start on, and no load under
      way at its start has seen its file before the last change to it. */
  ghost predicate QuietInvalidation(s: State, k: int, during: seq<Step>, after: seq<Step>) {
    LooksCurrent(s) && Quiet(s.disk, during) && Quiet(s.disk, after) && Walk(k) !in during
  }

  /** After a quiet invalidation, in every run and whatever else interleaves, every
      live instance's record is at its file's mtime. */
  lemma RecordsCurrentAfterQuiet(w: World, s: State, k: int, during: seq<Step>, after: seq<Step>)
    requires Base(s) && Runs(w, s, Invalidation(k, during, after)) && QuietInvalidation(s, k, during, after)
    ensures var t := Exec(w, s, Invalidation(k, during, after)); Base(t) && RecordsCurrent(t) && t.disk == s.disk
  {
    hide Base, LooksCurrent, Covered, RecordsCurrent, Runs, Exec, Quiet;
    var begin, walk := [BeginScan(k)], [Walk(k)];
    RunsAppend(w, s, begin + during + walk, after);
    RunsAppend(w, s, begin + during, walk);
    RunsAppend(w, s, begin, during);
    RunsOne(w, s, BeginScan(k));
    var s1 := Exec(w, s, begin);
    StepKeepsBase(w, s, BeginScan(k));
    BeginLooks(s, k);
    BeginCovers(s, k);
    QuietRunKeepsCovered(w, s1, during, k);
    RunKeepsBase(w, s1, during);
    var s2 := Exec(w, s1, during);
    RunsOne(w, s2, Walk(k));
    StepKeepsBase(w, s2, Walk(k));
    WalkLooks(s2, k);
    WalkMakesCurrent(s2, k);
    var s3 := Exec(w, s2, walk);
    QuietRunKeepsCurrent(w, s3, after);
    RunKeepsBase(w, s3, after);
  }

  lemma BeginLooks(s: State, k: int)
    requires LooksCurrent(s)
    ensures LooksCurrent(Next(s, BeginScan(k))) && Next(s, BeginScan(k)).disk == s.disk
  {
    hide MtimeOf;
  }

  lemma WalkLooks(s: State, k: int)
    requires LooksCurrent(s) && k in s.scans
    ensures LooksCurrent(Next(s, Walk(k))) && Next(s, Walk(k)).disk == s.disk
  {
    hide MtimeOf, Retire, Closure, SpecsOf;
  }

  // --------------------------------------- when an instance is left behind stale

  /** The step records an mtime for `id`. */
  predicate RecordsId(step: Step, id: Id) {
    (step.Record? && step.spec.id == id) || (step.LateRecord? && step.id == id)
  }

  predicate NoRecordOf(steps: seq<Step>, id: Id) {
    forall i :: 0 <= i < |steps| ==> !RecordsId(steps[i], id)
  }

  /** `sp` is live in both, as the same instance with the same record. */
  predicate Unchanged(s: State, t: State, sp: Spec) {
    && Live(s, sp) && Live(t, sp) && t.isolate[sp].mtime == s.isolate[sp].mtime
    && sp.id in s.g.recs && sp.id in t.g.recs && t.g.recs[sp.id].mtime == s.g.recs[sp.id].mtime
  }

  lemma StepBack(w: World, s: State, step: Step, sp: Spec)
    requires Base(s) && Enabled(w, s, step) && !RecordsId(step, sp.id) && Live(Next(s, step), sp)
    ensures Unchanged(s, Next(s, step), sp)
  {
    hide MtimeOf;
    match step
    case Link(from, dep) =>
      EdgeAt(s.g, dep, from.id);
      hide AddEdge;
    case LateEdge(dep, importer) =>
      EdgeAt(s.g, dep, importer);
      hide AddEdge;
    case Record(other) =>
      RecordAt(s.g, other.id, s.inflight[other].seen);
      hide RecordMtime;
    case LateRecord(id, seen) =>
      RecordAt(s.g, id, seen);
      hide RecordMtime;
    case Walk(k) =>
      var d := Closure(s.g.recs, s.scans[k].seeds);
      RetireAt(s.g, d, sp.id);
      hide Closure, Retire, SpecsOf;
    case Bump(id) =>
      RetireAt(s.g, {id}, sp.id);
      hide Retire, SpecsOf;
    case _ =>
  }

  /** What is live at the end of a run without records of its id was so all along. */
  lemma {:induction false} RunBack(w: World, s: State, steps: seq<Step>, sp: Spec)
    requires Base(s) && Runs(w, s, steps) && NoRecordOf(steps, sp.id) && Live(Exec(w, s, steps), sp)
    ensures Unchanged(s, Exec(w, s, steps), sp)
    decreases |steps|
  {
    hide Next, RecordsId;
    if steps != [] {
      assert !RecordsId(steps[0], sp.id);
      StepKeepsBase(w, s, steps[0]);
      RunBack(w, Next(s, steps[0]), steps[1..], sp);
      StepBack(w, s, steps[0], sp);
    }
  }

  /** The mtime a recording step writes. */
  function SeenBy(s: State, step: Step): Option<Time>
    requires step.Record? ==> step.spec in s.inflight && s.inflight[step.spec].Looked?
    requires step.Record? || step.LateRecord?
  {
    if step.Record? then s.inflight[step.spec].seen else step.seen
  }

  lemma RecordWrites(w: World, s: State, step: Step, sp: Spec)
    requires Enabled(w, s, step) && RecordsId(step, sp.id) && Live(Next(s, step), sp)
    ensures sp.id in Next(s, step).g.recs && Next(s, step).g.recs[sp.id].mtime == SeenBy(s, step)
    ensures Next(s, step).isolate[sp].mtime == if step == Record(sp) then s.inflight[sp].read else s.isolate[sp].mtime
  {
    RecordAt(s.g, sp.id, SeenBy(s, step));
    hide RecordMtime, MtimeOf;
  }

  /** The last recording of an id decides. Whatever follows it, edits included, up to
      and after a quiet invalidation: an instance still live then is fresh exactly
      when what that step recorded is the mtime the instance was read at. */
  lemma StaleIffLastRecordUntruthful(w: World, s: State, record: Step, mid: seq<Step>, u: State,
                                     k: int, during: seq<Step>, after: seq<Step>, sp: Spec)
    requires Base(s) && Enabled(w, s, record) && RecordsId(record, sp.id)
    requires Runs(w, Next(s, record), mid) && u == Exec(w, Next(s, record), mid) && NoRecordOf(mid, sp.id)
    requires Runs(w, u, Invalidation(k, during, after)) && QuietInvalidation(u, k, during, after)
    requires NoRecordOf(Invalidation(k, during, after), sp.id)
    ensures var t := Exec(w, u, Invalidation(k, during, after));
            Live(t, sp) ==> Live(Next(s, record), sp) && (FreshInst(t, sp) <==> Next(s, record).isolate[sp].mtime == SeenBy(s, record))
  {
    hide Base, Runs, Exec, NoRecordOf, QuietInvalidation, Invalidation, MtimeOf;
    var t := Exec(w, u, Invalidation(k, during, after));
    StepKeepsBase(w, s, record);
    RunKeepsBase(w, Next(s, record), mid);
    RecordsCurrentAfterQuiet(w, u, k, during, after);
    if Live(t, sp) {
      RunBack(w, u, Invalidation(k, during, after), sp);
      RunBack(w, Next(s, record), mid, sp);
      RecordWrites(w, s, record, sp);
      hide Next;
      assert RecordCurrent(t, sp.id);
    }
  }

  lemma StepRemembers(w: World, s: State, step: Step, sp: Spec)
    requires sp in s.inflight && Enabled(w, s, step) && step != Spawn && step != Record(sp) && step != Look(sp) && step != Fail(sp)
    ensures sp in Next(s, step).inflight && Next(s, step).inflight[sp] == s.inflight[sp]
  {
    hide MtimeOf, Closure, Retire, SpecsOf, AddEdge, RecordMtime;
  }

  /** A load under way remembers what it read and what it saw. */
  lemma {:induction false} LoadRemembers(w: World, s: State, steps: seq<Step>, sp: Spec)
    requires sp in s.inflight && Runs(w, s, steps) && Spawn !in steps && Record(sp) !in steps && Look(sp) !in steps && Fail(sp) !in steps
    ensures sp in Exec(w, s, steps).inflight && Exec(w, s, steps).inflight[sp] == s.inflight[sp]
    decreases |steps|
  {
    hide Next;
    if steps != [] {
      StepRemembers(w, s, steps[0], sp);
      LoadRemembers(w, Next(s, steps[0]), steps[1..], sp);
    }
  }

  /** A load reads its code, looks at its file and records it, with anything between
      these. If nothing else records its id, then after any later quiet invalidation
      the instance, if still live, is fresh exactly when the file's mtime did not
      change between the read and the look. */
  lemma StaleIffEditedMidLoad(w: World, s0: State, sp: Spec, reading: seq<Step>, s1: State, looking: seq<Step>, s2: State,
                              mid: seq<Step>, s3: State, k: int, during: seq<Step>, after: seq<Step>)
    requires Base(s0) && Enabled(w, s0, Read(sp)) && Runs(w, Next(s0, Read(sp)), reading) && s1 == Exec(w, Next(s0, Read(sp)), reading)
    requires Spawn !in reading && Record(sp) !in reading && Look(sp) !in reading && Fail(sp) !in reading
    requires Enabled(w, s1, Look(sp)) && Runs(w, Next(s1, Look(sp)), looking) && s2 == Exec(w, Next(s1, Look(sp)), looking)
    requires Spawn !in looking && Record(sp) !in looking && Look(sp) !in looking && Fail(sp) !in looking
    requires Enabled(w, s2, Record(sp)) && Runs(w, Next(s2, Record(sp)), mid) && s3 == Exec(w, Next(s2, Record(sp)), mid)
    requires Runs(w, s3, Invalidation(k, during, after)) && QuietInvalidation(s3, k, during, after)
    requires NoRecordOf(mid, sp.id) && NoRecordOf(Invalidation(k, during, after), sp.id)
    ensures var t := Exec(w, s3, Invalidation(k, during, after));
            Live(t, sp) ==> (FreshInst(t, sp) <==> MtimeOf(s0.disk, sp.id) == MtimeOf(s1.disk, sp.id))
  {
    assert Next(s0, Read(sp)).inflight[sp] == Reading(MtimeOf(s0.disk, sp.id));
    LoadRemembers(w, Next(s0, Read(sp)), reading, sp);
    assert Next(s1, Look(sp)).inflight[sp] == Looked(MtimeOf(s0.disk, sp.id), MtimeOf(s1.disk, sp.id));
    LoadRemembers(w, Next(s1, Look(sp)), looking, sp);
    hide Base, Runs, Exec, NoRecordOf, QuietInvalidation, Invalidation, MtimeOf;
    LoadKeepsBase(w, s0, sp, reading, s1, looking, s2);
    StaleIffLastRecordUntruthful(w, s2, Record(sp), mid, s3, k, during, after, sp);
  }

  lemma LoadKeepsBase(w: World, s0: State, sp: Spec, reading: seq<Step>, s1: State, looking: seq<Step>, s2: State)
    requires Base(s0) && Enabled(w, s0, Read(sp)) && Runs(w, Next(s0, Read(sp)), reading) && s1 == Exec(w, Next(s0, Read(sp)), reading)
    requires Enabled(w, s1, Look(sp)) && Runs(w, Next(s1, Look(sp)), looking) && s2 == Exec(w, Next(s1, Look(sp)), looking)
    ensures Base(s2)
  {
    hide Base, Runs, Exec, Next;
    StepKeepsBase(w, s0, Read(sp));
    RunKeepsBase(w, Next(s0, Read(sp)), reading);
    StepKeepsBase(w, s1, Look(sp));
    RunKeepsBase(w, Next(s1, Look(sp)), looking);
  }

  // --------------------------------- the cache against importing everything

  /** What an import unfolds to: the code of a module, known by id and mtime,
      and what its imports unfold to. */
  datatype Tree = Tree(id: Id, mtime: Option<Time>, kids: set<Tree>)

  /** Importing `id` with nothing cached, unfolded to depth `n`. */
  ghost function DiskTree(w: World, disk: Disk, id: Id, n: nat): Tree
    decreases n, 1
  {
    var mtime := MtimeOf(disk, id);
    Tree(id, mtime, if n == 0 then {} else DiskKids(w, disk, w(id, mtime), n - 1))
  }

  ghost function DiskKids(w: World, disk: Disk, deps: set<Id>, n: nat): set<Tree>
    decreases n, 2
  {
    set dep | dep in deps :: DiskTree(w, disk, dep, n)
  }

  /** What the isolate serves for `sp`, unfolded to depth `n`. */
  ghost function CachedTree(s: State, sp: Spec, n: nat): Tree
    decreases n, 1
  {
    if sp !in s.isolate then Tree(sp.id, None, {}) else
    Tree(sp.id, s.isolate[sp].mtime, if n == 0 then {} else CachedKids(s, s.isolate[sp].links, n - 1))
  }

  ghost function CachedKids(s: State, links: set<Spec>, n: nat): set<Tree>
    decreases n, 2
  {
    set l | l in links :: CachedTree(s, l, n)
  }

  /** The engine has finished linking the specifiers of `graph`: they are loaded,
      link to each other only, and each has linked all its code imports. */
  ghost predicate Linked(w: World, s: State, graph: set<Spec>) {
    forall sp :: sp in graph ==>
      && sp in s.isolate && s.isolate[sp].links <= graph
      && (set l | l in s.isolate[sp].links :: l.id) == w(sp.id, s.isolate[sp].mtime)
  }

  /** Some module within `n` links of `sp` was read before its file changed. */
  ghost predicate StaleWithin(s: State, sp: Spec, n: nat)
    decreases n
  {
    sp in s.isolate &&
    (!FreshInst(s, sp) || (n > 0 && exists l :: l in s.isolate[sp].links && StaleWithin(s, l, n - 1)))
  }

  /** A linked graph serves what is on disk exactly when nothing in it is stale. */
  lemma {:induction false} ServesDiskIffNotStale(w: World, s: State, graph: set<Spec>, sp: Spec, n: nat)
    requires Linked(w, s, graph) && sp in graph
    ensures CachedTree(s, sp, n) == DiskTree(w, s.disk, sp.id, n) <==> !StaleWithin(s, sp, n)
    decreases n
  {
    hide MtimeOf;
    if FreshInst(s, sp) && n > 0 {
      var links := s.isolate[sp].links;
      forall l | l in links
        ensures CachedTree(s, l, n - 1) == DiskTree(w, s.disk, l.id, n - 1) <==> !StaleWithin(s, l, n - 1)
      {
        ServesDiskIffNotStale(w, s, graph, l, n - 1);
      }
      if l :| l in links && StaleWithin(s, l, n - 1) {
        StaleKidDiffers(w, s, links, l, n - 1);
      } else {
        SameKids(w, s, links, n - 1);
      }
    }
  }

  lemma StaleKidDiffers(w: World, s: State, links: set<Spec>, l: Spec, n: nat)
    requires l in links && CachedTree(s, l, n) != DiskTree(w, s.disk, l.id, n)
    ensures CachedKids(s, links, n) != DiskKids(w, s.disk, set l | l in links :: l.id, n)
  {
    var t := CachedTree(s, l, n);
    assert t.id == l.id && t in CachedKids(s, links, n);
    assert forall dep :: DiskTree(w, s.disk, dep, n).id == dep;
    hide CachedTree, DiskTree;
  }

  lemma SameKids(w: World, s: State, links: set<Spec>, n: nat)
    requires forall l :: l in links ==> CachedTree(s, l, n) == DiskTree(w, s.disk, l.id, n)
    ensures CachedKids(s, links, n) == DiskKids(w, s.disk, set l | l in links :: l.id, n)
  {
    hide CachedTree, DiskTree;
    var deps := set l | l in links :: l.id;
    forall t | t in CachedKids(s, links, n) ensures t in DiskKids(w, s.disk, deps, n) {
      var l :| l in links && t == CachedTree(s, l, n);
      assert l.id in deps && t == DiskTree(w, s.disk, l.id, n);
    }
    forall t | t in DiskKids(w, s.disk, deps, n) ensures t in CachedKids(s, links, n) {
      var dep :| dep in deps && t == DiskTree(w, s.disk, dep, n);
      var l :| l in links && l.id == dep;
      assert t == CachedTree(s, l, n);
    }
  }

  /** Some module within `n` links of `sp` has a record that is not of the mtime its
      code was read at. */
  ghost predicate LiesWithin(s: State, sp: Spec, n: nat)
    decreases n
  {
    sp in s.isolate &&
    (!Honest(s, sp) || (n > 0 && exists l :: l in s.isolate[sp].links && LiesWithin(s, l, n - 1)))
  }

  /** Where every live record is current, stale and dishonest are the same. */
  lemma {:induction false} StaleIffLies(s: State, sp: Spec, n: nat)
    requires Base(s) && LinksRecorded(s) && RecordsCurrent(s) && (sp in s.isolate ==> Live(s, sp))
    ensures StaleWithin(s, sp, n) <==> LiesWithin(s, sp, n)
    decreases n
  {
    hide MtimeOf, NoneAhead, LiveRecorded;
    if sp in s.isolate && n > 0 {
      forall l | l in s.isolate[sp].links ensures StaleWithin(s, l, n - 1) <==> LiesWithin(s, l, n - 1) {
        StaleIffLies(s, l, n - 1);
      }
    }
  }

  /** In every run whose bumps are safe, after a quiet invalidation: the graph the
      engine has linked from the entry's current specifier is, to depth `n`, what a
      fresh import of the entry from disk would be, exactly when no module of it
      within `n` links has a record that lies about when its code was read. */
  lemma CacheAgreesWithDisk(w: World, disk: Disk, before: seq<Step>, u: State, k: int, during: seq<Step>, after: seq<Step>,
                            entry: Id, graph: set<Spec>, n: nat)
    requires Runs(w, Init(disk), before) && SafeBumps(w, Init(disk), before) && u == Exec(w, Init(disk), before)
    requires Runs(w, u, Invalidation(k, during, after)) && SafeBumps(w, u, Invalidation(k, during, after))
    requires QuietInvalidation(u, k, during, after)
    ensures var s := Exec(w, u, Invalidation(k, during, after));
            Linked(w, s, graph) && SpecOf(s, entry) in graph ==>
              (CachedTree(s, SpecOf(s, entry), n) == DiskTree(w, s.disk, entry, n) <==> !LiesWithin(s, SpecOf(s, entry), n))
  {
    InitKeeps(disk);
    hide *;
    var steps := Invalidation(k, during, after);
    RunKeepsBase(w, Init(disk), before);
    RunKeepsLinks(w, Init(disk), before);
    RecordsCurrentAfterQuiet(w, u, k, during, after);
    RunKeepsLinks(w, u, steps);
    var s := Exec(w, u, steps);
    if Linked(w, s, graph) && SpecOf(s, entry) in graph {
      ServesIffHonest(w, s, graph, entry, n);
    }
  }

  lemma ServesIffHonest(w: World, s: State, graph: set<Spec>, entry: Id, n: nat)
    requires Base(s) && LinksRecorded(s) && RecordsCurrent(s) && Linked(w, s, graph) && SpecOf(s, entry) in graph
    ensures CachedTree(s, SpecOf(s, entry), n) == DiskTree(w, s.disk, entry, n) <==> !LiesWithin(s, SpecOf(s, entry), n)
  {
    assert Live(s, SpecOf(s, entry));
    hide Base, LinksRecorded, RecordsCurrent, Linked, CachedTree, DiskTree, StaleWithin, LiesWithin;
    ServesDiskIffNotStale(w, s, graph, SpecOf(s, entry), n);
    StaleIffLies(s, SpecOf(s, entry), n);
  }

  // ------------------------------------------------------ runs without a lie

  /** A recording tells the mtime that its id's live instance was read at. */
  predicate Truthful(s: State, step: Step) {
    match step
    case Record(sp) =>
      sp in s.inflight && s.inflight[sp].Looked? ==>
        if sp == SpecOf(s, sp.id) then s.inflight[sp].seen == s.inflight[sp].read
        else SpecOf(s, sp.id) in s.isolate ==> s.isolate[SpecOf(s, sp.id)].mtime == s.inflight[sp].seen
    case LateRecord(id, seen) => SpecOf(s, id) in s.isolate ==> s.isolate[SpecOf(s, id)].mtime == seen
    case _ => true
  }

  ghost predicate TruthfulRun(w: World, s: State, steps: seq<Step>)
    requires Runs(w, s, steps)
    decreases |steps|
  {
    steps == [] || (Truthful(s, steps[0]) && TruthfulRun(w, Next(s, steps[0]), steps[1..]))
  }

  lemma StepKeepsHonest(w: World, s: State, step: Step)
    requires Base(s) && AllHonest(s) && Enabled(w, s, step) && Truthful(s, step)
    ensures AllHonest(Next(s, step))
  {
    forall sp | Live(Next(s, step), sp) ensures Honest(Next(s, step), sp) {
      hide Next, Base, MtimeOf;
      if RecordsId(step, sp.id) {
        RecordWrites(w, s, step, sp);
        LiveBefore(w, s, step, sp);
      } else {
        StepBack(w, s, step, sp);
      }
    }
  }

  lemma LiveBefore(w: World, s: State, step: Step, sp: Spec)
    requires Enabled(w, s, step) && RecordsId(step, sp.id) && Live(Next(s, step), sp)
    ensures sp == SpecOf(s, sp.id) && (step != Record(sp) ==> sp in s.isolate)
  {
    hide MtimeOf;
  }

  lemma {:induction false} RunKeepsHonest(w: World, s: State, steps: seq<Step>)
    requires Base(s) && AllHonest(s) && Runs(w, s, steps) && TruthfulRun(w, s, steps)
    ensures AllHonest(Exec(w, s, steps))
    decreases |steps|
  {
    hide Next, Base, AllHonest, Truthful;
    if steps != [] {
      StepKeepsBase(w, s, steps[0]);
      StepKeepsHonest(w, s, steps[0]);
      RunKeepsHonest(w, Next(s, steps[0]), steps[1..]);
    }
  }

  lemma {:induction false} HonestNeverLies(s: State, sp: Spec, n: nat)
    requires LinksRecorded(s) && AllHonest(s) && (sp in s.isolate ==> Live(s, sp))
    ensures !LiesWithin(s, sp, n)
    decreases n
  {
    if sp in s.isolate && n > 0 {
      forall l | l in s.isolate[sp].links ensures !LiesWithin(s, l, n - 1) {
        HonestNeverLies(s, l, n - 1);
      }
    }
  }

  /** When in addition no recording lies, the entry is served as it is on disk, to
      every depth. */
  lemma TruthfulRunServesDisk(w: World, disk: Disk, before: seq<Step>, u: State, k: int, during: seq<Step>, after: seq<Step>,
                              entry: Id, graph: set<Spec>, n: nat)
    requires Runs(w, Init(disk), before) && SafeBumps(w, Init(disk), before) && u == Exec(w, Init(disk), before)
    requires Runs(w, u, Invalidation(k, during, after)) && SafeBumps(w, u, Invalidation(k, during, after))
    requires TruthfulRun(w, Init(disk), before) && TruthfulRun(w, u, Invalidation(k, during, after))
    requires QuietInvalidation(u, k, during, after)
    ensures var s := Exec(w, u, Invalidation(k, during, after));
            Linked(w, s, graph) && SpecOf(s, entry) in graph ==> CachedTree(s, SpecOf(s, entry), n) == DiskTree(w, s.disk, entry, n)
  {
    InitKeeps(disk);
    hide Base, LinksRecorded, AllHonest, Runs, Exec, SafeBumps, TruthfulRun, QuietInvalidation, Invalidation, Linked, CachedTree, DiskTree, LiesWithin;
    var steps := Invalidation(k, during, after);
    CacheAgreesWithDisk(w, disk, before, u, k, during, after, entry, graph, n);
    RunKeepsBase(w, Init(disk), before);
    RunKeepsLinks(w, Init(disk), before);
    RunKeepsLinks(w, u, steps);
    RunKeepsHonest(w, Init(disk), before);
    RunKeepsHonest(w, u, steps);
    HonestNeverLies(Exec(w, u, steps), SpecOf(Exec(w, u, steps), entry), n);
  }

  // ----------------------------------------- what an invalidation leaves alone

  predicate NoEdits(steps: seq<Step>) {
    forall i :: 0 <= i < |steps| ==> !steps[i].Edit?
  }

  /** A scan `k` begun at graph `g0`: its seeds are the changed ids among those
      it has statted. */
  ghost predicate ScanOf(g0: Graph, disk: Disk, scan: Scan) {
    && (forall id :: id in scan.todo ==> id in g0.recs && scan.todo[id] == g0.recs[id].mtime)
    && (forall id :: id in g0.recs && id !in scan.todo ==> (id in scan.seeds <==> id in Changed(g0, disk)))
    && (forall id :: id in scan.seeds ==> id in g0.recs && id !in scan.todo)
  }

  lemma StepKeepsScan(w: World, s: State, step: Step, k: int, g0: Graph)
    requires Enabled(w, s, step) && !step.Edit? && step != Walk(k)
    requires k in s.scans && ScanOf(g0, s.disk, s.scans[k])
    ensures k in Next(s, step).scans && ScanOf(g0, Next(s, step).disk, Next(s, step).scans[k])
  {
    hide Closure, Retire, SpecsOf, MtimeOf, AddEdge, RecordMtime;
  }

  lemma {:induction false} QuietRunKeepsScan(w: World, s: State, steps: seq<Step>, k: int, g0: Graph)
    requires k in s.scans && ScanOf(g0, s.disk, s.scans[k])
    requires Runs(w, s, steps) && NoEdits(steps) && Walk(k) !in steps
    ensures var t := Exec(w, s, steps); k in t.scans && ScanOf(g0, t.disk, t.scans[k])
    decreases |steps|
  {
    hide Next, ScanOf;
    if steps != [] {
      StepKeepsScan(w, s, steps[0], k, g0);
      QuietRunKeepsScan(w, Next(s, steps[0]), steps[1..], k, g0);
    }
  }

  /** When no file changes during scan `k`, its walk retires the importers of the
      files that had changed when it began, and nothing else: every other id
      keeps its version, and its instance if it had one. */
  lemma WalkLeavesTheRest(w: World, s: State, k: int, during: seq<Step>, id: Id)
    requires Runs(w, s, [BeginScan(k)] + during + [Walk(k)]) && NoEdits(during) && Walk(k) !in during
    ensures Runs(w, s, [BeginScan(k)] + during)
    ensures var t := Exec(w, s, [BeginScan(k)] + during);
            var u := Exec(w, s, [BeginScan(k)] + during + [Walk(k)]);
            && u.isolate == t.isolate
            && VersionOf(u.g, id) == VersionOf(t.g, id) + (if id in Closure(t.g.recs, Changed(s.g, s.disk)) then 1 else 0)
            && (id in u.g.recs <==> id in t.g.recs && id !in Closure(t.g.recs, Changed(s.g, s.disk)))
            && (id in u.g.recs ==> u.g.recs[id] == t.g.recs[id])
  {
    hide Runs, Exec, NoEdits, ScanOf, Closure, Retire, SpecsOf;
    var begin := [BeginScan(k)];
    RunsAppend(w, s, begin + during, [Walk(k)]);
    RunsAppend(w, s, begin, during);
    RunsOne(w, s, BeginScan(k));
    var s1 := Exec(w, s, begin);
    ScanBegins(s, k);
    QuietRunKeepsScan(w, s1, during, k, s.g);
    QuietDisk(w, s1, during);
    var t := Exec(w, s1, during);
    RunsOne(w, t, Walk(k));
    ScanEnds(s.g, t.disk, t.scans[k]);
    RetireAt(t.g, Closure(t.g.recs, t.scans[k].seeds), id);
  }

  lemma ScanBegins(s: State, k: int)
    ensures ScanOf(s.g, s.disk, Next(s, BeginScan(k)).scans[k])
  {
    hide MtimeOf;
  }

  lemma ScanEnds(g0: Graph, disk: Disk, scan: Scan)
    requires ScanOf(g0, disk, scan) && scan.todo == map[]
    ensures scan.seeds == Changed(g0, disk)
  {
    hide MtimeOf;
  }

  lemma StepKeepsDisk(w: World, s: State, step: Step)
    requires Enabled(w, s, step) && !step.Edit?
    ensures Next(s, step).disk == s.disk
  {
    hide Closure, Retire, MtimeOf, SpecsOf, AddEdge, RecordMtime;
  }

  lemma {:induction false} QuietDisk(w: World, s: State, steps: seq<Step>)
    requires Runs(w, s, steps) && NoEdits(steps)
    ensures Exec(w, s, steps).disk == s.disk
    decreases |steps|
  {
    hide Next;
    if steps != [] {
      StepKeepsDisk(w, s, steps[0]);
      QuietDisk(w, Next(s, steps[0]), steps[1..]);
    }
  }
}
