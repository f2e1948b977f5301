/**
Where the module graph falls short of serving what is on disk, each with the
condition under which it does and with runs in which it does not: the request
that first notices a change, a file edited while it is being loaded, a bump of a
module that something live imports, and a specifier that outlives a respawn.
*/
module SsrFindings {
  import opened Options
  import opened ModuleGraph
  import opened SsrRun
  import opened SsrCoherence
  import SsrFreshness

  // ---------------------------------- the request that first notices a change

  lemma {:induction false} StaleDropsImporters(s: State, k: int, sp: Spec, n: nat)
    requires Base(s) && LinksRecorded(s) && AllHonest(s)
    requires k in s.scans && s.scans[k].todo == map[] && Covered(s, s.scans[k])
    requires Live(s, sp) && StaleWithin(s, sp, n)
    ensures sp.id in Closure(s.g.recs, s.scans[k].seeds)
    decreases n
  {
    ClosureIsClosed(s.g.recs, s.scans[k].seeds);
    ClosureTakesImporters(s, s.scans[k].seeds);
    hide Closure, MtimeOf;
    if FreshInst(s, sp) {
      var l :| l in s.isolate[sp].links && StaleWithin(s, l, n - 1);
      StaleDropsImporters(s, k, l, n - 1);
    }
  }

  lemma {:induction false} CachedTreeReadsIsolate(s: State, t: State, sp: Spec, n: nat)
    requires s.isolate == t.isolate
    ensures CachedTree(s, sp, n) == CachedTree(t, sp, n)
    decreases n
  {
    if n > 0 && sp in s.isolate {
      forall l | l in s.isolate[sp].links ensures CachedTree(s, l, n - 1) == CachedTree(t, l, n - 1) {
        CachedTreeReadsIsolate(s, t, l, n - 1);
      }
      assert CachedKids(s, s.isolate[sp].links, n - 1) == CachedKids(t, s.isolate[sp].links, n - 1);
    }
  }

  lemma InGraphIsLoaded(w: World, s: State, graph: set<Spec>, sp: Spec)
    requires Linked(w, s, graph) && sp in graph
    ensures sp in s.isolate
  {
  }

  /** A request mints the entry's specifier, then invalidates, then imports what
      it minted. When the invalidation finds something stale under the entry, the
      entry moves on to a new specifier and the request is still served the old
      one: the tree it gets is the stale one, not the disk's. */
  lemma FirstRequestIsStale(w: World, s: State, k: int, graph: set<Spec>, entry: Id, n: nat)
    requires Base(s) && LinksRecorded(s) && AllHonest(s)
    requires k in s.scans && s.scans[k].todo == map[] && Covered(s, s.scans[k])
    requires Linked(w, s, graph) && SpecOf(s, entry) in graph
    ensures var sp, t := SpecOf(s, entry), Next(s, Walk(k));
            && CachedTree(t, sp, n) == CachedTree(s, sp, n)
            && (CachedTree(t, sp, n) == DiskTree(w, t.disk, entry, n) <==> !StaleWithin(s, sp, n))
            && (StaleWithin(s, sp, n) ==> SpecOf(t, entry) == Spec(entry, sp.version + 1))
  {
    hide Closure, Retire, Covered, CachedTree, DiskTree, StaleWithin, Linked, MtimeOf, Base, LinksRecorded, AllHonest;
    var sp := SpecOf(s, entry);
    assert StaleWithin(s, sp, n) ==> Live(s, sp) by {
      InGraphIsLoaded(w, s, graph, sp);
    }
    ServesDiskIffNotStale(w, s, graph, sp, n);
    CachedTreeReadsIsolate(s, Next(s, Walk(k)), sp, n);
    RetireAt(s.g, Closure(s.g.recs, s.scans[k].seeds), entry);
    if StaleWithin(s, sp, n) {
      StaleDropsImporters(s, k, sp, n);
    }
  }

  // ------------------------------------------- parts of runs over one module

  /** The host's side of a load. */
  function FetchSteps(sp: Spec): seq<Step> {
    [Read(sp), Look(sp), Record(sp)]
  }

  function Loaded(s: State, sp: Spec, read: Option<Time>, seen: Option<Time>): State {
    s.(g := RecordMtime(s.g, sp.id, seen), isolate := s.isolate[sp := Inst(read, {})])
  }

  lemma FetchRuns(w: World, s: State, sp: Spec)
    requires sp in s.minted && sp !in s.isolate && sp !in s.inflight && !s.spawning
    ensures Runs(w, s, FetchSteps(sp))
    ensures Exec(w, s, FetchSteps(sp)) == Loaded(s, sp, MtimeOf(s.disk, sp.id), MtimeOf(s.disk, sp.id))
  {
    hide MtimeOf, RecordMtime, Runs, Exec;
    var s1 := Next(s, Read(sp));
    RunsTwo(w, s1, Look(sp), Record(sp));
    RunsThree(w, s, Read(sp), Look(sp), Record(sp));
    assert s.inflight[sp := Reading(MtimeOf(s.disk, sp.id))][sp := Looked(MtimeOf(s.disk, sp.id), MtimeOf(s.disk, sp.id))] - {sp} == s.inflight;
  }

  /** A first load, start to end. */
  function LoadSteps(sp: Spec): seq<Step> {
    [Mint(sp.id)] + FetchSteps(sp)
  }

  lemma LoadRuns(w: World, s: State, sp: Spec)
    requires sp == SpecOf(s, sp.id) && sp !in s.isolate && sp !in s.inflight && !s.spawning
    ensures Runs(w, s, LoadSteps(sp))
    ensures var t := s.(minted := s.minted + {sp});
            Exec(w, s, LoadSteps(sp)) == Loaded(t, sp, MtimeOf(s.disk, sp.id), MtimeOf(s.disk, sp.id))
  {
    hide MtimeOf, RecordMtime, Runs, Exec, FetchSteps;
    var t := s.(minted := s.minted + {sp});
    RunsOne(w, s, Mint(sp.id));
    FetchRuns(w, t, sp);
    RunsAppend(w, s, [Mint(sp.id)], FetchSteps(sp));
  }

  /** A load that fails leaves the state as it was before it, so it can be tried again. */
  lemma FailedLoadCanBeRetried(w: World, s: State, sp: Spec)
    requires Enabled(w, s, Read(sp))
    ensures Runs(w, s, [Read(sp), Fail(sp)]) && Exec(w, s, [Read(sp), Fail(sp)]) == s
  {
    hide MtimeOf, Runs, Exec;
    RunsTwo(w, s, Read(sp), Fail(sp));
    assert s.inflight[sp := Reading(MtimeOf(s.disk, sp.id))] - {sp} == s.inflight;
  }

  /** A whole invalidation when `id` has the only record. */
  function ScanSteps(k: int, id: Id): seq<Step> {
    [BeginScan(k), Stat(k, id), Walk(k)]
  }

  lemma OnlyItself(recs: map<Id, Rec>, id: Id)
    requires recs.Keys == {id}
    ensures Closure(recs, {id}) == {id} && Closure(recs, {}) == {}
  {
    hide Closure, Reaches;
    ClosureIsClosed(recs, {id});
    ClosureIsLeast(recs, {id}, {id});
    ClosureIsLeast(recs, {}, {});
  }

  lemma RetireNone(s: State)
    ensures AfterRetire(s, {}) == s
  {
    AdvanceNone(s.g.versions);
    assert s.g.recs - {} == s.g.recs;
    assert SpecsOf(s, {}) == {};
  }

  lemma RetireIgnoresScans(s: State, t: State, d: set<Id>)
    requires t == s.(scans := t.scans)
    ensures AfterRetire(t, d).(scans := s.scans) == AfterRetire(s, d)
  {
    assert SpecsOf(t, d) == SpecsOf(s, d);
  }

  /** A scan that has statted the only recorded id. */
  function Statted(s: State, k: int, id: Id): State {
    s.(scans := s.scans[k := Scan(map[], if RecordCurrent(s, id) then {} else {id})])
  }

  lemma StatRuns(w: World, s: State, k: int, id: Id)
    requires s.g.recs.Keys == {id} && k !in s.scans
    ensures var s1 := Next(s, BeginScan(k));
            Enabled(w, s, BeginScan(k)) && Enabled(w, s1, Stat(k, id)) && Next(s1, Stat(k, id)) == Statted(s, k, id)
  {
    hide MtimeOf;
    var s2 := Next(Next(s, BeginScan(k)), Stat(k, id));
    assert s2.scans[k].todo == map[];
    assert s2.scans[k].seeds == if RecordCurrent(s, id) then {} else {id};
    assert s2.scans == s.scans[k := s2.scans[k]];
  }

  lemma WalkRuns(w: World, s: State, k: int, id: Id)
    requires s.g.recs.Keys == {id} && k !in s.scans
    ensures Enabled(w, Statted(s, k, id), Walk(k))
    ensures Next(Statted(s, k, id), Walk(k)) == if RecordCurrent(s, id) then s else AfterRetire(s, {id})
  {
    hide Closure, Retire, SpecsOf, RecordCurrent;
    OnlyItself(s.g.recs, id);
    RetireNone(s);
    var t := Statted(s, k, id);
    assert t.scans - {k} == s.scans;
    RetireIgnoresScans(s, t, Closure(s.g.recs, t.scans[k].seeds));
  }

  /** It retires the id if the record is not current, and is idle if it is. */
  lemma ScanRuns(w: World, s: State, k: int, id: Id)
    requires s.g.recs.Keys == {id} && k !in s.scans
    ensures Runs(w, s, ScanSteps(k, id))
    ensures Exec(w, s, ScanSteps(k, id)) == if RecordCurrent(s, id) then s else AfterRetire(s, {id})
  {
    hide Runs, Exec, Next, Enabled, RecordCurrent, Statted, AfterRetire;
    StatRuns(w, s, k, id);
    WalkRuns(w, s, k, id);
    RunsTwo(w, Next(s, BeginScan(k)), Stat(k, id), Walk(k));
    RunsThree(w, s, BeginScan(k), Stat(k, id), Walk(k));
  }

  // -------------------------------------------- a file edited and asked for again

  /** The files whose ids are their paths. */
  predicate PlainFile(id: Id) {
    CleanPath(id) == id && IsAbsolute(id)
  }

  /** An edit gives the ids of its file the mtime it says, or none, and no other id. */
  lemma EditSetsMtime(s: State, file: string, mtime: Option<Time>, id: Id)
    requires PlainFile(file)
    ensures MtimeOf(Next(s, Edit(file, mtime)).disk, id) == if CleanPath(id) == file then mtime else MtimeOf(s.disk, id)
  {
  }

  lemma EditRuns(w: World, s: State, id: Id, mtime: Time)
    requires PlainFile(id)
    ensures Runs(w, s, [Edit(id, Some(mtime))])
    ensures var t := Exec(w, s, [Edit(id, Some(mtime))]);
            t == s.(disk := s.disk[id := mtime]) && MtimeOf(t.disk, id) == Some(mtime)
  {
    RunsOne(w, s, Edit(id, Some(mtime)));
  }

  /** A request for a module with the only record: it mints, then invalidates. */
  function RequestSteps(k: int, id: Id): seq<Step> {
    [Mint(id)] + ScanSteps(k, id)
  }

  lemma RequestRuns(w: World, s: State, k: int, id: Id)
    requires s.g.recs.Keys == {id} && k !in s.scans && !RecordCurrent(s, id)
    ensures Runs(w, s, RequestSteps(k, id))
    ensures Exec(w, s, RequestSteps(k, id)) == AfterRetire(s.(minted := s.minted + {SpecOf(s, id)}), {id})
  {
    hide Runs, Exec, AfterRetire, MtimeOf, ScanSteps;
    RunsOne(w, s, Mint(id));
    var t := s.(minted := s.minted + {SpecOf(s, id)});
    ScanRuns(w, t, k, id);
    RunsAppend(w, s, [Mint(id)], ScanSteps(k, id));
  }

  /** A load, an edit, and the request that notices it. */
  function Round(id: Id, version: int, mtime: Time): seq<Step> {
    LoadSteps(Spec(id, version)) + [Edit(id, Some(mtime))] + RequestSteps(0, id)
  }

  /** Between rounds: nothing is recorded or under way, and nothing of the current
      version or later is in the isolate. */
  ghost predicate Ready(s: State, id: Id, version: int, mtime: Time) {
    && s.g.recs == map[] && VersionOf(s.g, id) == version && id in s.disk && s.disk[id] == mtime
    && s.inflight == map[] && s.scans == map[] && !s.spawning
    && forall sp :: sp in s.isolate ==> sp.id == id && sp.version < version
  }

  function AfterRound(s: State, id: Id, version: int, mtime: Time, later: Time): State {
    var sp := Spec(id, version);
    var t := Loaded(s.(minted := s.minted + {sp}), sp, Some(mtime), Some(mtime)).(disk := s.disk[id := later]);
    AfterRetire(t.(minted := t.minted + {SpecOf(t, id)}), {id})
  }

  lemma RoundRuns(w: World, s: State, id: Id, version: int, mtime: Time, later: Time)
    requires PlainFile(id) && Ready(s, id, version, mtime) && later != mtime
    ensures Runs(w, s, Round(id, version, later))
    ensures Exec(w, s, Round(id, version, later)) == AfterRound(s, id, version, mtime, later)
  {
    hide Runs, Exec, LoadSteps, RequestSteps, AfterRetire;
    var sp := Spec(id, version);
    LoadRuns(w, s, sp);
    var s1 := Loaded(s.(minted := s.minted + {sp}), sp, Some(mtime), Some(mtime));
    EditRuns(w, s1, id, later);
    var s2 := s1.(disk := s1.disk[id := later]);
    RequestRuns(w, s2, 0, id);
    RunsAppend(w, s, LoadSteps(sp), [Edit(id, Some(later))]);
    RunsAppend(w, s, LoadSteps(sp) + [Edit(id, Some(later))], RequestSteps(0, id));
  }

  lemma RoundEnds(s: State, id: Id, version: int, mtime: Time, later: Time)
    requires Ready(s, id, version, mtime)
    ensures var t := AfterRound(s, id, version, mtime, later);
            && Ready(t, id, version + 1, later) && t.g.stale == s.g.stale + 1 && Spec(id, version) in t.minted
            && Spec(id, version) in t.isolate && t.isolate[Spec(id, version)] == Inst(Some(mtime), {})
  {
    var t := Loaded(s, Spec(id, version), Some(mtime), Some(mtime));
    assert t.g.recs.Keys == {id} && VersionOf(t.g, id) == version;
    RetireAt(t.g, {id}, id);
    assert t.g.recs - {id} == map[];
    hide Advance, SpecsOf;
  }

  /** A file is loaded, edited, and asked for again, whatever it is called and
      whatever its mtimes are. The request that notices the edit is answered from the
      instance of before it. */
  lemma EditedEntryIsServedStale(w: World, disk: Disk, id: Id, later: Time, n: nat)
    requires PlainFile(id) && id in disk && later != disk[id]
    ensures var steps := Round(id, 0, later);
            && Runs(w, Init(disk), steps)
            && var s := Exec(w, Init(disk), steps);
               SpecOf(s, id) == Spec(id, 1) && CachedTree(s, Spec(id, 0), n) != DiskTree(w, s.disk, id, n)
  {
    hide Runs, Exec, Round, AfterRound;
    RoundRuns(w, Init(disk), id, 0, disk[id], later);
    RoundEnds(Init(disk), id, 0, disk[id], later);
  }

  // ------------------------------------------- a specifier that outlives a respawn

  /** `n` rounds, each edit one tick after the one before. */
  function Rounds(id: Id, version: int, mtime: Time, n: nat): seq<Step>
    decreases n
  {
    if n == 0 then [] else Round(id, version, mtime + 1) + Rounds(id, version + 1, mtime + 1, n - 1)
  }

  lemma {:induction false} RoundsRun(w: World, s: State, id: Id, version: int, mtime: Time, n: nat)
    requires PlainFile(id) && Ready(s, id, version, mtime) && n > 0
    ensures Runs(w, s, Rounds(id, version, mtime, n))
    ensures var t := Exec(w, s, Rounds(id, version, mtime, n));
            && Ready(t, id, version + n, mtime + n) && t.g.stale == s.g.stale + n && Spec(id, version + n - 1) in t.minted
    decreases n
  {
    hide Runs, Exec, Round, AfterRound, Ready;
    var first, rest := Round(id, version, mtime + 1), Rounds(id, version + 1, mtime + 1, n - 1);
    RoundRuns(w, s, id, version, mtime, mtime + 1);
    RoundEnds(s, id, version, mtime, mtime + 1);
    if n == 1 {
      assert first + rest == first;
    } else {
      RoundsRun(w, AfterRound(s, id, version, mtime, mtime + 1), id, version + 1, mtime + 1, n - 1);
      RunsAppend(w, s, first, rest);
    }
  }

  /** The respawn, and the import of what was minted before it. */
  function StragglerSteps(sp: Spec): seq<Step> {
    [Spawn, Reset] + FetchSteps(sp)
  }

  lemma StragglerRuns(w: World, s: State, sp: Spec)
    requires s.g.stale >= 500 && !s.spawning && sp in s.minted && sp.version < VersionOf(s.g, sp.id)
    ensures Runs(w, s, StragglerSteps(sp))
    ensures var t := Exec(w, s, StragglerSteps(sp)); SsrFreshness.Orphans(t) == {sp} && t.g.stale == 0
  {
    hide MtimeOf, Runs, Exec, FetchSteps;
    RunsTwo(w, s, Spawn, Reset);
    var t := Next(Next(s, Spawn), Reset);
    FetchRuns(w, t, sp);
    RunsAppend(w, s, [Spawn, Reset], FetchSteps(sp));
    OneOrphan(Loaded(t, sp, MtimeOf(s.disk, sp.id), MtimeOf(s.disk, sp.id)), sp);
  }

  lemma OneOrphan(t: State, sp: Spec)
    requires t.isolate.Keys == {sp} && sp.version < VersionOf(t.g, sp.id)
    ensures SsrFreshness.Orphans(t) == {sp}
  {
    assert forall x :: x in t.isolate <==> x in t.isolate.Keys;
  }

  lemma InitReady(disk: Disk, id: Id)
    requires id in disk
    ensures Ready(Init(disk), id, 0, disk[id]) && Init(disk).g.stale == 0
  {
  }

  lemma ReadyMeans(s: State, id: Id, version: int, mtime: Time)
    requires Ready(s, id, version, mtime)
    ensures VersionOf(s.g, id) == version && !s.spawning
  {
  }

  /** A module is edited and asked for again until a respawn is due. The request whose
      own invalidation makes it due minted its specifier before; it imports that into
      the fresh isolate: one orphan, and `stale` is zero. */
  lemma StragglerBreaksTheBound(w: World, disk: Disk, id: Id, n: nat)
    requires PlainFile(id) && id in disk && n == STALE_MODULE_RESPAWN_THRESHOLD
    ensures var steps := Rounds(id, 0, disk[id], n) + StragglerSteps(Spec(id, n - 1));
            && Runs(w, Init(disk), steps)
            && var s := Exec(w, Init(disk), steps); SsrFreshness.Orphans(s) == {Spec(id, n - 1)} && s.g.stale == 0
  {
    hide Runs, Exec, Rounds, StragglerSteps, SsrFreshness.Orphans, PlainFile, Ready, Init;
    InitReady(disk, id);
    RoundsRun(w, Init(disk), id, 0, disk[id], n);
    var s := Exec(w, Init(disk), Rounds(id, 0, disk[id], n));
    ReadyMeans(s, id, n, disk[id] + n);
    StragglerRuns(w, s, Spec(id, n - 1));
    RunsAppend(w, Init(disk), Rounds(id, 0, disk[id], n), StragglerSteps(Spec(id, n - 1)));
  }

  // ---------------------------------------------- a file edited while it is loaded

  /** A load of `id` that has been read, whose file is then edited. */
  function ReadThenEdit(id: Id, later: Time): seq<Step> {
    [Mint(id), Read(Spec(id, 0)), Edit(id, Some(later))]
  }

  function Overtaken(disk: Disk, id: Id, later: Time): State
    requires id in disk
  {
    var sp := Spec(id, 0);
    Init(disk[id := later]).(minted := {sp}, inflight := map[sp := Reading(Some(disk[id]))])
  }

  lemma ReadThenEditRuns(w: World, disk: Disk, id: Id, later: Time)
    requires PlainFile(id) && id in disk
    ensures Runs(w, Init(disk), ReadThenEdit(id, later)) && Exec(w, Init(disk), ReadThenEdit(id, later)) == Overtaken(disk, id, later)
  {
    assert MtimeOf(disk, id) == Some(disk[id]);
    hide MtimeOf, Runs, Exec;
    var s1 := Next(Init(disk), Mint(id));
    RunsTwo(w, s1, Read(Spec(id, 0)), Edit(id, Some(later)));
    RunsThree(w, Init(disk), Mint(id), Read(Spec(id, 0)), Edit(id, Some(later)));
  }

  lemma LookThenRecordRuns(w: World, disk: Disk, id: Id, later: Time)
    requires PlainFile(id) && id in disk
    ensures var s, sp := Overtaken(disk, id, later), Spec(id, 0);
            && Runs(w, s, [Look(sp), Record(sp)])
            && Exec(w, s, [Look(sp), Record(sp)]) == Loaded(s.(inflight := map[]), sp, Some(disk[id]), Some(later))
  {
    var s, sp := Overtaken(disk, id, later), Spec(id, 0);
    assert MtimeOf(s.disk, id) == Some(later);
    hide MtimeOf, Runs, Exec, RecordMtime;
    RunsTwo(w, s, Look(sp), Record(sp));
    assert map[sp := Looked(Some(disk[id]), Some(later))] - {sp} == map[];
  }

  /** A first load of `id`, during which its file is edited and then an invalidation
      goes by, which finds no record yet. */
  function EditedLoad(id: Id, later: Time): seq<Step> {
    ReadThenEdit(id, later) + [BeginScan(0), Walk(0)] + [Look(Spec(id, 0)), Record(Spec(id, 0))]
  }

  lemma EditedLoadRuns(w: World, disk: Disk, id: Id, later: Time)
    requires PlainFile(id) && id in disk
    ensures Runs(w, Init(disk), EditedLoad(id, later))
    ensures Exec(w, Init(disk), EditedLoad(id, later)) ==
            Loaded(Overtaken(disk, id, later).(inflight := map[]), Spec(id, 0), Some(disk[id]), Some(later))
  {
    hide Runs, Exec, ReadThenEdit, Loaded;
    var s, sp := Overtaken(disk, id, later), Spec(id, 0);
    ReadThenEditRuns(w, disk, id, later);
    IdleWalk(w, s, 0);
    hide Overtaken, Next;
    RunsTwo(w, s, BeginScan(0), Walk(0));
    LookThenRecordRuns(w, disk, id, later);
    RunsAppend(w, Init(disk), ReadThenEdit(id, later), [BeginScan(0), Walk(0)]);
    RunsAppend(w, Init(disk), ReadThenEdit(id, later) + [BeginScan(0), Walk(0)], [Look(sp), Record(sp)]);
  }

  /** With no record at all an invalidation is idle. */
  lemma IdleWalk(w: World, s: State, k: int)
    requires s.g.recs == map[] && k !in s.scans
    ensures Enabled(w, s, BeginScan(k)) && Enabled(w, Next(s, BeginScan(k)), Walk(k)) && Next(Next(s, BeginScan(k)), Walk(k)) == s
  {
    hide Retire, SpecsOf, MtimeOf;
    var t := Next(s, BeginScan(k));
    assert t.scans[k].todo == map[] && t.scans[k].seeds == {};
    assert Closure(s.g.recs, {}) == {};
    assert t.scans - {k} == s.scans;
    RetireIgnoresScans(s, t, {});
    RetireNone(s);
  }

  function Scans(k: int, id: Id, n: nat): seq<Step> {
    if n == 0 then [] else ScanSteps(k, id) + Scans(k, id, n - 1)
  }

  lemma {:induction false} ScansAreIdle(w: World, s: State, k: int, id: Id, n: nat)
    requires s.g.recs.Keys == {id} && k !in s.scans && RecordCurrent(s, id)
    ensures Runs(w, s, Scans(k, id, n)) && Exec(w, s, Scans(k, id, n)) == s
  {
    hide RecordCurrent, ScanSteps;
    if n > 0 {
      ScanRuns(w, s, k, id);
      ScansAreIdle(w, s, k, id, n - 1);
      RunsAppend(w, s, ScanSteps(k, id), Scans(k, id, n - 1));
    }
  }

  /** A file edited between being read and being looked at is recorded under an mtime
      its code was not read at. However many invalidations follow, before and after
      the record, the entry keeps its specifier and serves the old code. */
  lemma EditMidLoadIsNeverNoticed(w: World, disk: Disk, id: Id, later: Time, rounds: nat, n: nat)
    requires PlainFile(id) && id in disk && later != disk[id]
    ensures var steps := EditedLoad(id, later) + Scans(0, id, rounds);
            && Runs(w, Init(disk), steps)
            && var s := Exec(w, Init(disk), steps);
               SpecOf(s, id) == Spec(id, 0) && CachedTree(s, Spec(id, 0), n) != DiskTree(w, s.disk, id, n)
  {
    hide Runs, Exec, EditedLoad, Scans;
    EditedLoadRuns(w, disk, id, later);
    var s := Exec(w, Init(disk), EditedLoad(id, later));
    ScansAreIdle(w, s, 0, id, rounds);
    RunsAppend(w, Init(disk), EditedLoad(id, later), Scans(0, id, rounds));
  }

  // ------------------------------------------- a bump of what something live imports

  /** A settled state: nothing is stale, every record is current, every link of a
      live instance is loaded, and `id` alone stands for its file. */
  ghost predicate Settled(s: State, id: Id) {
    && Base(s) && LinksRecorded(s) && AllHonest(s)
    && (forall r :: r in s.g.recs ==> RecordCurrent(s, r))
    && (forall r :: r in s.g.recs && r != id ==> CleanPath(r) != id)
    && (forall sp, l :: Live(s, sp) && l in s.isolate[sp].links ==> l in s.isolate)
  }

  /** `id` bumped and its file edited, with an invalidation that found nothing. */
  function Bumped(s: State, id: Id, later: Time): State {
    AfterRetire(s, {id}).(disk := s.disk[id := later])
  }

  lemma OtherFilesStay(disk: Disk, id: Id, later: Time, r: Id)
    requires CleanPath(r) != id
    ensures MtimeOf(disk[id := later], r) == MtimeOf(disk, r)
  {
  }

  lemma BumpedLive(s: State, id: Id, later: Time, sp: Spec)
    requires Settled(s, id) && PlainFile(id)
    ensures Live(Bumped(s, id, later), sp) <==> Live(s, sp) && sp.id != id
    ensures Live(Bumped(s, id, later), sp) ==> FreshInst(Bumped(s, id, later), sp)
  {
    hide MtimeOf, CleanPath, LinksRecorded, SpecsOf, Retire;
    NoneRevived(s, {id});
    assert Live(Bumped(s, id, later), sp) <==> Live(AfterRetire(s, {id}), sp);
    if Live(s, sp) && sp.id != id {
      assert sp.id in s.g.recs && Honest(s, sp) && RecordCurrent(s, sp.id);
      OtherFilesStay(s.disk, id, later, sp.id);
    }
  }

  /** Without a live importer no live instance gets to the bumped module. */
  lemma {:induction false} BumpedNotStale(s: State, id: Id, later: Time, sp: Spec, n: nat)
    requires Settled(s, id) && PlainFile(id) && NoLiveImporter(s, id) && Live(Bumped(s, id, later), sp)
    ensures !StaleWithin(Bumped(s, id, later), sp, n)
    decreases n
  {
    BumpedLive(s, id, later, sp);
    if n > 0 {
      hide MtimeOf, CleanPath, SpecsOf, Retire, RecordCurrent;
      forall l | l in s.isolate[sp].links ensures !StaleWithin(Bumped(s, id, later), l, n - 1) {
        assert Live(s, l) && l.id != id;
        BumpedLive(s, id, later, l);
        BumpedNotStale(s, id, later, l, n - 1);
      }
    }
  }

  lemma BumpedStale(s: State, id: Id, later: Time, sp: Spec, l: Spec)
    requires Settled(s, id) && PlainFile(id) && MtimeOf(s.disk, id) != Some(later)
    requires Live(s, sp) && l in s.isolate[sp].links && l.id == id && sp.id != id
    ensures Live(Bumped(s, id, later), sp) && StaleWithin(Bumped(s, id, later), sp, 1)
  {
    BumpedLive(s, id, later, sp);
    assert Live(s, l) && Honest(s, l) && RecordCurrent(s, id);
    assert MtimeOf(s.disk[id := later], id) == Some(later);
    var t := Bumped(s, id, later);
    hide Settled, Retire, SpecsOf, MtimeOf;
    assert !FreshInst(t, l);
    assert StaleWithin(t, l, 0);
  }

  predicate AllStats(k: int, stats: seq<Step>) {
    forall i :: 0 <= i < |stats| ==> stats[i].Stat? && stats[i].k == k
  }

  /** A scan of current records finds nothing. */
  ghost predicate Idle(s: State, k: int) {
    k in s.scans && s.scans[k].seeds == {} && forall r :: r in s.scans[k].todo ==> s.scans[k].todo[r] == MtimeOf(s.disk, r)
  }

  lemma {:induction false} StatsFindNothing(w: World, s: State, k: int, stats: seq<Step>)
    requires Idle(s, k) && AllStats(k, stats) && Runs(w, s, stats)
    ensures var t := Exec(w, s, stats); Idle(t, k) && t == s.(scans := t.scans) && t.scans - {k} == s.scans - {k}
    decreases |stats|
  {
    if stats != [] {
      var t := Next(s, stats[0]);
      assert Idle(t, k) && t == s.(scans := t.scans) && t.scans - {k} == s.scans - {k} by {
        hide MtimeOf;
      }
      hide Next, Idle;
      StatsFindNothing(w, t, k, stats[1..]);
    }
  }

  /** The bump, the edit, and a whole invalidation. */
  function BumpSteps(id: Id, later: Time, k: int, stats: seq<Step>): seq<Step> {
    [Bump(id), Edit(id, Some(later)), BeginScan(k)] + stats + [Walk(k)]
  }

  lemma RetireKeys(g: Graph, id: Id)
    ensures Retire(g, {id}).recs.Keys == g.recs.Keys - {id}
  {
  }

  lemma BumpBegins(w: World, s: State, id: Id, later: Time, k: int)
    requires Settled(s, id) && k !in s.scans
    ensures var head := [Bump(id), Edit(id, Some(later)), BeginScan(k)];
            && Runs(w, s, head)
            && var t := Exec(w, s, head);
               && Idle(t, k) && t == Bumped(s, id, later).(scans := t.scans) && t.scans - {k} == s.scans
               && k in t.scans && t.scans[k].todo.Keys == s.g.recs.Keys - {id}
  {
    hide MtimeOf, CleanPath, Base, LinksRecorded, AllHonest, SpecsOf, Runs, Exec, Retire;
    var s1 := Next(s, Bump(id));
    var s2 := Next(s1, Edit(id, Some(later)));
    RunsTwo(w, s1, Edit(id, Some(later)), BeginScan(k));
    RunsThree(w, s, Bump(id), Edit(id, Some(later)), BeginScan(k));
    var t := Next(s2, BeginScan(k));
    forall r | r in t.scans[k].todo ensures t.scans[k].todo[r] == MtimeOf(t.disk, r) {
      RetireAt(s.g, {id}, r);
      assert RecordCurrent(s, r);
      OtherFilesStay(s.disk, id, later, r);
    }
    assert t.scans - {k} == s.scans;
    assert t.scans[k].todo.Keys == s1.g.recs.Keys;
    RetireKeys(s.g, id);
  }

  lemma NothingToWalk(w: World, s: State, k: int)
    requires Idle(s, k) && Enabled(w, s, Walk(k))
    ensures Next(s, Walk(k)) == s.(scans := s.scans - {k})
  {
    hide MtimeOf, Retire, SpecsOf;
    assert Closure(s.g.recs, {}) == {} by {
      ClosureIsLeast(s.g.recs, {}, {});
    }
    RetireNone(s);
  }

  lemma BumpRuns(w: World, s: State, id: Id, later: Time, k: int, stats: seq<Step>)
    requires Settled(s, id) && k !in s.scans && AllStats(k, stats) && Runs(w, s, BumpSteps(id, later, k, stats))
    ensures Exec(w, s, BumpSteps(id, later, k, stats)) == Bumped(s, id, later)
  {
    hide Settled, Runs, Exec, AllStats, Idle, Bumped;
    var head := [Bump(id), Edit(id, Some(later)), BeginScan(k)];
    RunsAppend(w, s, head + stats, [Walk(k)]);
    RunsAppend(w, s, head, stats);
    BumpBegins(w, s, id, later, k);
    var t := Exec(w, s, head);
    StatsFindNothing(w, t, k, stats);
    var u := Exec(w, t, stats);
    RunsOne(w, u, Walk(k));
    NothingToWalk(w, u, k);
    assert Bumped(s, id, later).scans == s.scans by {
      BumpedScans(s, id, later);
    }
  }

  lemma BumpedScans(s: State, id: Id, later: Time)
    ensures Bumped(s, id, later).scans == s.scans
  {
  }

  /** From a settled state `id` is bumped, its file edited, and everything recorded is
      scanned. Then every live instance serves what is on disk, to every depth,
      exactly when nothing else live imported `id` at the bump. */
  lemma BumpSafeIffNoLiveImporter(w: World, s: State, id: Id, later: Time, k: int, stats: seq<Step>)
    requires Settled(s, id) && PlainFile(id) && MtimeOf(s.disk, id) != Some(later)
    requires k !in s.scans && AllStats(k, stats) && Runs(w, s, BumpSteps(id, later, k, stats))
    ensures var t := Exec(w, s, BumpSteps(id, later, k, stats));
            (forall sp, n: nat :: Live(t, sp) ==> !StaleWithin(t, sp, n)) <==> NoLiveImporter(s, id)
  {
    BumpRuns(w, s, id, later, k, stats);
    var t := Bumped(s, id, later);
    hide Settled, Runs, Exec, Bumped, StaleWithin;
    if NoLiveImporter(s, id) {
      forall sp, n: nat | Live(t, sp) ensures !StaleWithin(t, sp, n) {
        BumpedNotStale(s, id, later, sp, n);
      }
    } else {
      var sp, l :| Live(s, sp) && l in s.isolate[sp].links && l.id == id && sp.id != id;
      BumpedStale(s, id, later, sp, l);
    }
  }

  // ------------------------------------------- an entry in an import cycle

  /** A whole invalidation when `a` and `b` have the only records. */
  function ScanBoth(k: int, a: Id, b: Id): seq<Step> {
    [BeginScan(k), Stat(k, a)] + [Stat(k, b), Walk(k)]
  }

  /** A scan that has statted `a`, which is current. */
  function HalfStatted(s: State, k: int, b: Id): State
    requires b in s.g.recs
  {
    s.(scans := s.scans[k := Scan(map[b := s.g.recs[b].mtime], {})])
  }

  lemma FirstStat(w: World, s: State, k: int, a: Id, b: Id)
    requires s.g.recs.Keys == {a, b} && a != b && k !in s.scans && RecordCurrent(s, a)
    ensures var t := Next(s, BeginScan(k));
            Enabled(w, s, BeginScan(k)) && Enabled(w, t, Stat(k, a)) && Next(t, Stat(k, a)) == HalfStatted(s, k, b)
  {
    var todo := map id | id in s.g.recs :: s.g.recs[id].mtime;
    assert todo - {a} == map[b := s.g.recs[b].mtime];
    var t := Next(s, BeginScan(k));
    assert t.scans[k] == Scan(todo, {});
    hide MtimeOf;
    assert Next(t, Stat(k, a)).scans[k] == Scan(todo - {a}, {});
  }

  lemma HalfStatRuns(w: World, s: State, k: int, a: Id, b: Id)
    requires s.g.recs.Keys == {a, b} && a != b && k !in s.scans && RecordCurrent(s, a)
    ensures Runs(w, s, [BeginScan(k), Stat(k, a)]) && Exec(w, s, [BeginScan(k), Stat(k, a)]) == HalfStatted(s, k, b)
  {
    hide Runs, Exec, Next, RecordCurrent;
    FirstStat(w, s, k, a, b);
    RunsTwo(w, s, BeginScan(k), Stat(k, a));
  }

  lemma SecondStat(w: World, s: State, k: int, b: Id)
    requires b in s.g.recs && k !in s.scans
    ensures Enabled(w, HalfStatted(s, k, b), Stat(k, b)) && Next(HalfStatted(s, k, b), Stat(k, b)) == Statted(s, k, b)
  {
    hide MtimeOf;
    var t := Next(HalfStatted(s, k, b), Stat(k, b));
    assert t.scans[k].todo == map[];
    assert t.scans[k].seeds == if RecordCurrent(s, b) then {} else {b};
    assert t.scans == s.scans[k := t.scans[k]];
  }

  lemma OnlyTheSeed(recs: map<Id, Rec>, b: Id)
    requires b in recs && recs[b].importers == {}
    ensures Closure(recs, {b}) == {b}
  {
    hide Closure, Reaches;
    ClosureIsClosed(recs, {b});
    ClosureIsLeast(recs, {b}, {b});
  }

  lemma NoSeeds(recs: map<Id, Rec>)
    ensures Closure(recs, {}) == {}
  {
    hide Closure, Reaches;
    ClosureIsLeast(recs, {}, {});
  }

  lemma SecondWalk(w: World, s: State, k: int, b: Id)
    requires b in s.g.recs && k !in s.scans && (RecordCurrent(s, b) || s.g.recs[b].importers == {})
    ensures Enabled(w, Statted(s, k, b), Walk(k))
    ensures Next(Statted(s, k, b), Walk(k)) == if RecordCurrent(s, b) then s else AfterRetire(s, {b})
  {
    hide Closure, Retire, SpecsOf, RecordCurrent;
    var t := Statted(s, k, b);
    if RecordCurrent(s, b) {
      NoSeeds(s.g.recs);
    } else {
      OnlyTheSeed(s.g.recs, b);
    }
    RetireNone(s);
    assert t.scans - {k} == s.scans;
    RetireIgnoresScans(s, t, Closure(s.g.recs, t.scans[k].seeds));
  }

  /** With `a` current it retires `b` alone, if nothing is recorded to import `b`, and
      is idle if `b` is current too. */
  lemma ScanBothRuns(w: World, s: State, k: int, a: Id, b: Id)
    requires s.g.recs.Keys == {a, b} && a != b && k !in s.scans && RecordCurrent(s, a)
    requires RecordCurrent(s, b) || s.g.recs[b].importers == {}
    ensures Runs(w, s, ScanBoth(k, a, b))
    ensures Exec(w, s, ScanBoth(k, a, b)) == if RecordCurrent(s, b) then s else AfterRetire(s, {b})
  {
    hide Runs, Exec, Next, RecordCurrent, HalfStatted, Statted, AfterRetire;
    HalfStatRuns(w, s, k, a, b);
    SecondStat(w, s, k, b);
    SecondWalk(w, s, k, b);
    RunsTwo(w, HalfStatted(s, k, b), Stat(k, b), Walk(k));
    RunsAppend(w, s, [BeginScan(k), Stat(k, a)], [Stat(k, b), Walk(k)]);
  }

  /** The entry `b` at version `v` has been bumped away from under `a`: `a` is live and
      still linked to the first instance of `b`, and nothing of `b` is recorded. */
  ghost predicate Cut(s: State, a: Id, b: Id, v: int, first: Time) {
    && a != b && PlainFile(a) && PlainFile(b) && a in s.disk && b in s.disk
    && VersionOf(s.g, a) == 0 && VersionOf(s.g, b) == v
    && s.g.recs.Keys == {a} && s.g.recs[a].mtime == Some(s.disk[a])
    && OldLink(s, a, b, first)
    && (forall sp :: sp in s.isolate && sp.id == b ==> sp.version < v)
    && s.inflight == map[] && s.scans == map[] && !s.spawning
  }

  ghost predicate OldLink(s: State, a: Id, b: Id, first: Time) {
    && Spec(a, 0) in s.isolate && a in s.disk && s.isolate[Spec(a, 0)] == Inst(Some(s.disk[a]), {Spec(b, 0)})
    && Spec(b, 0) in s.isolate && s.isolate[Spec(b, 0)].mtime == Some(first)
  }

  /** The entry has been imported anew: it is recorded, with no importer, and links to
      the old instance of `a`. */
  ghost predicate Reimported(s: State, a: Id, b: Id, v: int, first: Time) {
    && a != b && PlainFile(a) && PlainFile(b) && a in s.disk && b in s.disk
    && VersionOf(s.g, a) == 0 && VersionOf(s.g, b) == v && v > 0
    && s.g.recs.Keys == {a, b} && s.g.recs[a].mtime == Some(s.disk[a]) && s.g.recs[b] == Rec(Some(s.disk[b]), {})
    && OldLink(s, a, b, first)
    && Spec(b, v) in s.isolate && s.isolate[Spec(b, v)] == Inst(Some(s.disk[b]), {Spec(a, 0)})
    && (forall sp :: sp in s.isolate && sp.id == b ==> sp.version <= v)
    && s.inflight == map[] && s.scans == map[] && !s.spawning
  }

  /** A request of the Start engine: mint the entry, load it, link what it imports. */
  function Import(a: Id, b: Id, v: int): seq<Step> {
    LoadSteps(Spec(b, v)) + [Link(Spec(b, v), a)]
  }

  lemma PlainMtime(disk: Disk, id: Id)
    requires PlainFile(id) && id in disk
    ensures MtimeOf(disk, id) == Some(disk[id])
  {
  }

  function AfterImport(s: State, a: Id, b: Id, v: int): State
    requires b in s.disk
  {
    AfterLink(Loaded(s.(minted := s.minted + {Spec(b, v)}), Spec(b, v), Some(s.disk[b]), Some(s.disk[b])), Spec(b, v), a)
  }

  lemma ImportRuns(w: World, s: State, a: Id, b: Id, v: int)
    requires PlainFile(b) && b in s.disk && VersionOf(s.g, b) == v && a in w(b, Some(s.disk[b]))
    requires Spec(b, v) !in s.isolate && s.inflight == map[] && !s.spawning
    ensures Runs(w, s, Import(a, b, v)) && Exec(w, s, Import(a, b, v)) == AfterImport(s, a, b, v)
  {
    hide Runs, Exec, LoadSteps, MtimeOf, RecordMtime;
    var sp := Spec(b, v);
    PlainMtime(s.disk, b);
    LoadRuns(w, s, sp);
    var t := Loaded(s.(minted := s.minted + {sp}), sp, Some(s.disk[b]), Some(s.disk[b]));
    RunsOne(w, t, Link(sp, a));
    RunsAppend(w, s, LoadSteps(sp), [Link(sp, a)]);
  }

  lemma ImportEnds(s: State, a: Id, b: Id, v: int, first: Time)
    requires Cut(s, a, b, v, first) && v > 0
    ensures Reimported(AfterImport(s, a, b, v), a, b, v, first) && AfterImport(s, a, b, v).disk == s.disk
  {
    hide CleanPath, PlainFile;
    var none: set<Spec> := {};
    assert none + {Spec(a, 0)} == {Spec(a, 0)};
  }

  /** The entry is edited, and the engine revalidates: the scan retires the entry,
      finds no importer, and the entry is bumped once more. */
  function EditAndRevalidate(a: Id, b: Id, later: Time): seq<Step> {
    [Edit(b, Some(later))] + ScanBoth(0, a, b) + [Bump(b)]
  }

  function AfterRevalidate(s: State, b: Id, later: Time): State {
    AfterRetire(AfterRetire(s.(disk := s.disk[b := later]), {b}), {b})
  }

  /** After the edit the entry alone is stale, and nothing is recorded to import it. */
  lemma EditedEntry(s: State, a: Id, b: Id, v: int, first: Time, later: Time)
    requires Reimported(s, a, b, v, first) && later != s.disk[b]
    ensures var t := s.(disk := s.disk[b := later]);
            && t.g.recs.Keys == {a, b} && RecordCurrent(t, a) && !RecordCurrent(t, b)
            && t.g.recs[b].importers == {} && a != b && 0 !in t.scans && PlainFile(b)
  {
    hide PlainFile, MtimeOf, OldLink;
    var t := s.(disk := s.disk[b := later]);
    PlainMtime(t.disk, a);
    PlainMtime(t.disk, b);
  }

  lemma RevalidateRuns(w: World, s: State, a: Id, b: Id, v: int, first: Time, later: Time)
    requires Reimported(s, a, b, v, first) && later != s.disk[b]
    ensures Runs(w, s, EditAndRevalidate(a, b, later))
    ensures Exec(w, s, EditAndRevalidate(a, b, later)) == AfterRevalidate(s, b, later)
  {
    hide Runs, Exec, ScanBoth, RecordCurrent, AfterRetire, PlainFile, MtimeOf, Reimported;
    EditedEntry(s, a, b, v, first, later);
    var t := s.(disk := s.disk[b := later]);
    EditRuns(w, s, b, later);
    ScanBothRuns(w, t, 0, a, b);
    RunsOne(w, AfterRetire(t, {b}), Bump(b));
    RunsAppend(w, s, [Edit(b, Some(later))], ScanBoth(0, a, b));
    RunsAppend(w, s, [Edit(b, Some(later))] + ScanBoth(0, a, b), [Bump(b)]);
  }

  lemma RevalidateEnds(s: State, a: Id, b: Id, v: int, first: Time, later: Time)
    requires Reimported(s, a, b, v, first)
    ensures Cut(AfterRevalidate(s, b, later), a, b, v + 2, first)
  {
    var t := s.(disk := s.disk[b := later]);
    RetireAt(t.g, {b}, a);
    RetireAt(t.g, {b}, b);
    RetireKeys(t.g, b);
    var g := Retire(t.g, {b});
    RetireAt(g, {b}, a);
    RetireAt(g, {b}, b);
    RetireKeys(g, b);
    hide Retire, SpecsOf, CleanPath, PlainFile;
    assert {a, b} - {b} - {b} == {a};
  }

  /** The entry is imported, then `a`, which imports it back; then an engine to which
      nothing has changed is reloaded, which bumps the entry. */
  function CycleSteps(a: Id, b: Id): seq<Step> {
    Import(a, b, 0) + FetchSteps(Spec(a, 0)) + [Link(Spec(a, 0), b)] + ScanBoth(0, a, b) + [Bump(b)]
  }

  function Cycle(disk: Disk, a: Id, b: Id): State
    requires a in disk && b in disk
  {
    AfterLink(Loaded(AfterImport(Init(disk), a, b, 0), Spec(a, 0), Some(disk[a]), Some(disk[a])), Spec(a, 0), b)
  }

  /** What the cycle looks like once both modules are loaded. */
  lemma CycleShape(disk: Disk, a: Id, b: Id)
    requires a != b && a in disk && b in disk
    ensures var s := Cycle(disk, a, b);
            && s.g.versions == map[] && s.g.recs == map[b := Rec(Some(disk[b]), {a}), a := Rec(Some(disk[a]), {b})]
            && s.isolate == map[Spec(b, 0) := Inst(Some(disk[b]), {Spec(a, 0)}), Spec(a, 0) := Inst(Some(disk[a]), {Spec(b, 0)})]
            && s.disk == disk && s.inflight == map[] && s.scans == map[] && !s.spawning
  {
    var ids: set<Id>, specs: set<Spec> := {}, {};
    assert ids + {a} == {a} && ids + {b} == {b} && specs + {Spec(a, 0)} == {Spec(a, 0)} && specs + {Spec(b, 0)} == {Spec(b, 0)};
    var s := AfterImport(Init(disk), a, b, 0);
    assert s.g.recs == map[b := Rec(Some(disk[b]), {}), a := Rec(None, {b})];
    assert s.isolate == map[Spec(b, 0) := Inst(Some(disk[b]), {Spec(a, 0)})];
  }

  lemma CycleLoads(w: World, disk: Disk, a: Id, b: Id)
    requires a != b && PlainFile(a) && PlainFile(b) && a in disk && b in disk
    requires a in w(b, Some(disk[b])) && b in w(a, Some(disk[a]))
    ensures var steps := Import(a, b, 0) + FetchSteps(Spec(a, 0)) + [Link(Spec(a, 0), b)];
            Runs(w, Init(disk), steps) && Exec(w, Init(disk), steps) == Cycle(disk, a, b)
  {
    hide Runs, Exec, Import, FetchSteps, MtimeOf;
    var pa := Spec(a, 0);
    ImportRuns(w, Init(disk), a, b, 0);
    var s1 := AfterImport(Init(disk), a, b, 0);
    PlainMtime(disk, a);
    FetchRuns(w, s1, pa);
    var s2 := Loaded(s1, pa, Some(disk[a]), Some(disk[a]));
    RunsOne(w, s2, Link(pa, b));
    RunsAppend(w, Init(disk), Import(a, b, 0), FetchSteps(pa));
    RunsAppend(w, Init(disk), Import(a, b, 0) + FetchSteps(pa), [Link(pa, b)]);
  }

  lemma CycleIsCurrent(disk: Disk, a: Id, b: Id)
    requires a != b && PlainFile(a) && PlainFile(b) && a in disk && b in disk
    ensures var s := Cycle(disk, a, b);
            s.g.recs.Keys == {a, b} && RecordCurrent(s, a) && RecordCurrent(s, b) && 0 !in s.scans
  {
    hide Cycle, PlainFile, MtimeOf;
    CycleShape(disk, a, b);
    PlainMtime(disk, a);
    PlainMtime(disk, b);
  }

  lemma CycleRuns(w: World, disk: Disk, a: Id, b: Id)
    requires a != b && PlainFile(a) && PlainFile(b) && a in disk && b in disk
    requires a in w(b, Some(disk[b])) && b in w(a, Some(disk[a]))
    ensures Runs(w, Init(disk), CycleSteps(a, b))
    ensures Exec(w, Init(disk), CycleSteps(a, b)) == AfterRetire(Cycle(disk, a, b), {b})
  {
    hide Runs, Exec, Import, FetchSteps, ScanBoth, Cycle, RecordCurrent, AfterRetire, PlainFile;
    var s, loads := Cycle(disk, a, b), Import(a, b, 0) + FetchSteps(Spec(a, 0)) + [Link(Spec(a, 0), b)];
    CycleIsCurrent(disk, a, b);
    CycleLoads(w, disk, a, b);
    ScanBothRuns(w, s, 0, a, b);
    RunsOne(w, s, Bump(b));
    RunsAppend(w, Init(disk), loads, ScanBoth(0, a, b));
    RunsAppend(w, Init(disk), loads + ScanBoth(0, a, b), [Bump(b)]);
  }

  lemma CycleEnds(disk: Disk, a: Id, b: Id)
    requires a != b && PlainFile(a) && PlainFile(b) && a in disk && b in disk
    ensures Cut(AfterRetire(Cycle(disk, a, b), {b}), a, b, 1, disk[b]) && AfterRetire(Cycle(disk, a, b), {b}).disk == disk
  {
    hide Retire, SpecsOf, PlainFile, Cycle;
    CycleShape(disk, a, b);
    var s := Cycle(disk, a, b);
    RetireAt(s.g, {b}, a);
    RetireAt(s.g, {b}, b);
    RetireKeys(s.g, b);
    assert s.g.recs.Keys - {b} == {a};
  }

  /** `n` times the entry is edited, one tick later each time, revalidated and asked
      for again. */
  function EditRounds(a: Id, b: Id, v: int, mtime: Time, n: nat): seq<Step>
    decreases n
  {
    if n == 0 then []
    else EditAndRevalidate(a, b, mtime + 1) + Import(a, b, v + 2) + EditRounds(a, b, v + 2, mtime + 1, n - 1)
  }

  /** Imported anew at version `v`, on that disk. */
  ghost predicate ReimportedOn(s: State, a: Id, b: Id, v: int, first: Time, disk: Disk) {
    Reimported(s, a, b, v, first) && s.disk == disk
  }

  lemma EditRoundRuns(w: World, s: State, a: Id, b: Id, v: int, first: Time, disk: Disk, later: Time)
    requires ReimportedOn(s, a, b, v, first, disk) && later != disk[b] && a in w(b, Some(later))
    ensures var steps := EditAndRevalidate(a, b, later) + Import(a, b, v + 2);
            Runs(w, s, steps) && ReimportedOn(Exec(w, s, steps), a, b, v + 2, first, disk[b := later])
  {
    hide OldLink, PlainFile, AfterImport;
    RevalidateRuns(w, s, a, b, v, first, later);
    RevalidateEnds(s, a, b, v, first, later);
    var t := AfterRevalidate(s, b, later);
    ImportEnds(t, a, b, v + 2, first);
    ImportRuns(w, t, a, b, v + 2);
    hide Runs, Exec, EditAndRevalidate, Import, Reimported, Cut;
    RunsAppend(w, s, EditAndRevalidate(a, b, later), Import(a, b, v + 2));
  }

  lemma {:induction false} EditRoundsRun(w: World, s: State, a: Id, b: Id, v: int, first: Time, disk: Disk, mtime: Time, n: nat)
    requires ReimportedOn(s, a, b, v, first, disk[b := mtime]) && forall m :: a in w(b, m)
    ensures Runs(w, s, EditRounds(a, b, v, mtime, n))
    ensures ReimportedOn(Exec(w, s, EditRounds(a, b, v, mtime, n)), a, b, v + 2 * n, first, disk[b := mtime + n])
    decreases n
  {
    assert Runs(w, s, []) && Exec(w, s, []) == s;
    hide Runs, Exec, EditAndRevalidate, Import, ReimportedOn;
    if n > 0 {
      var head := EditAndRevalidate(a, b, mtime + 1) + Import(a, b, v + 2);
      EditRoundRuns(w, s, a, b, v, first, disk[b := mtime], mtime + 1);
      assert disk[b := mtime][b := mtime + 1] == disk[b := mtime + 1];
      EditRoundsRun(w, Exec(w, s, head), a, b, v + 2, first, disk, mtime + 1, n - 1);
      RunsAppend(w, s, head, EditRounds(a, b, v + 2, mtime + 1, n - 1));
    }
  }

  /** The tree of the entry: the entry as it is, `a`, and the entry as it was first. */
  lemma OldGrandchild(w: World, s: State, a: Id, b: Id, v: int, first: Time)
    requires Reimported(s, a, b, v, first) && s.disk[b] != first && a in w(b, Some(s.disk[b])) && b in w(a, Some(s.disk[a]))
    ensures CachedTree(s, Spec(b, v), 2) != DiskTree(w, s.disk, b, 2)
  {
    PlainMtime(s.disk, a);
    PlainMtime(s.disk, b);
    hide MtimeOf, CleanPath, PlainFile;
    assert CachedKids(s, {Spec(b, 0)}, 0) == {CachedTree(s, Spec(b, 0), 0)};
    assert DiskTree(w, s.disk, b, 0) in DiskKids(w, s.disk, w(a, Some(s.disk[a])), 0);
    assert CachedTree(s, Spec(a, 0), 1) != DiskTree(w, s.disk, a, 1);
    assert CachedKids(s, {Spec(a, 0)}, 1) == {CachedTree(s, Spec(a, 0), 1)};
    assert DiskTree(w, s.disk, a, 1) in DiskKids(w, s.disk, w(b, Some(s.disk[b])), 1);
  }

  /** The Start entry is in an import cycle. One reload with nothing changed bumps it
      and cuts its importer off; from then on every edit of the entry, revalidated and
      asked for again, is served with the entry's first code under its importer, until
      a respawn is due. */
  lemma EntryInCycleServesOld(w: World, disk: Disk, a: Id, b: Id, n: nat)
    requires a != b && PlainFile(a) && PlainFile(b) && a in disk && b in disk
    requires (forall m :: a in w(b, m)) && b in w(a, Some(disk[a]))
    requires 0 < n && 2 * n + 1 < STALE_MODULE_RESPAWN_THRESHOLD
    ensures var steps := CycleSteps(a, b) + Import(a, b, 1) + EditRounds(a, b, 1, disk[b], n);
            && Runs(w, Init(disk), steps)
            && var s := Exec(w, Init(disk), steps);
               && SpecOf(s, b) == Spec(b, 2 * n + 1)
               && CachedTree(s, SpecOf(s, b), 2) != DiskTree(w, s.disk, b, 2)
  {
    hide Runs, Exec, CycleSteps, Import, EditRounds, CachedTree, DiskTree, AfterImport, Cycle, AfterRetire, PlainFile, OldLink;
    CycleRuns(w, disk, a, b);
    CycleEnds(disk, a, b);
    var s := AfterRetire(Cycle(disk, a, b), {b});
    ImportRuns(w, s, a, b, 1);
    ImportEnds(s, a, b, 1, disk[b]);
    var t := AfterImport(s, a, b, 1);
    assert disk[b := disk[b]] == disk;
    EditRoundsRun(w, t, a, b, 1, disk[b], disk, disk[b], n);
    RunsAppend(w, Init(disk), CycleSteps(a, b), Import(a, b, 1));
    RunsAppend(w, Init(disk), CycleSteps(a, b) + Import(a, b, 1), EditRounds(a, b, 1, disk[b], n));
    OldGrandchild(w, Exec(w, t, EditRounds(a, b, 1, disk[b], n)), a, b, 2 * n + 1, disk[b]);
  }
}
