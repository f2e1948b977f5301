/**
What a run tells of its loads: at which mtime each specifier's code was read, at
which mtime its file was looked at, and what was last recorded for each id. These
are kept by following the steps and the disk alone, not the graph; they decide
whether the tree served at the end of a run is the disk's.
*/
module SsrHistory {
  import opened Options
  import opened ModuleGraph
  import opened SsrRun
  import opened SsrCoherence

  datatype History = History(read: map<Spec, Option<Time>>, looked: map<Spec, Option<Time>>, recorded: map<Id, Option<Time>>)

  const NO_HISTORY := History(map[], map[], map[])

  /** One step, taken when the disk is `disk`. */
  function Follow(h: History, disk: Disk, step: Step): History {
    match step
    case Read(sp) => h.(read := h.read[sp := MtimeOf(disk, sp.id)])
    case Look(sp) => h.(looked := h.looked[sp := MtimeOf(disk, sp.id)])
    case Record(sp) => if sp in h.looked then h.(recorded := h.recorded[sp.id := h.looked[sp]]) else h
    case LateRecord(id, seen) => h.(recorded := h.recorded[id := seen])
    case _ => h
  }

  ghost function FollowAll(w: World, s: State, steps: seq<Step>, h: History): History
    requires Runs(w, s, steps)
    decreases |steps|
  {
    if steps == [] then h else FollowAll(w, Next(s, steps[0]), steps[1..], Follow(h, s.disk, steps[0]))
  }

  // ------------------------------------------------- the history and the state

  /** Loads under way and instances are as the history has them. */
  ghost predicate KnowsLoads(s: State, h: History) {
    && (forall sp :: sp in s.inflight ==> sp !in s.isolate && sp in h.read && h.read[sp] == s.inflight[sp].read)
    && (forall sp :: sp in s.inflight && s.inflight[sp].Looked? ==> sp in h.looked && h.looked[sp] == s.inflight[sp].seen)
    && (forall sp :: sp in s.isolate ==> sp in h.read && h.read[sp] == s.isolate[sp].mtime)
  }

  /** And so are the records of live instances. */
  ghost predicate KnowsRecords(s: State, h: History) {
    forall sp :: Live(s, sp) ==> sp.id in s.g.recs && sp.id in h.recorded && h.recorded[sp.id] == s.g.recs[sp.id].mtime
  }

  lemma LoadsFrame(s: State, t: State, h: History)
    requires KnowsLoads(s, h) && t.inflight == s.inflight
    requires forall sp :: sp in t.isolate ==> sp in s.isolate && t.isolate[sp].mtime == s.isolate[sp].mtime
    ensures KnowsLoads(t, h)
  {
  }

  lemma LoadKeepsLoads(w: World, s: State, step: Step, h: History)
    requires KnowsLoads(s, h) && Enabled(w, s, step) && (step.Read? || step.Look? || step.Fail?)
    ensures KnowsLoads(Next(s, step), Follow(h, s.disk, step))
  {
    hide MtimeOf;
  }

  lemma RecordKeepsLoads(w: World, s: State, sp: Spec, h: History)
    requires KnowsLoads(s, h) && Enabled(w, s, Record(sp))
    ensures KnowsLoads(Next(s, Record(sp)), Follow(h, s.disk, Record(sp)))
  {
    hide MtimeOf, RecordMtime;
  }

  lemma StepKeepsLoads(w: World, s: State, step: Step, h: History)
    requires KnowsLoads(s, h) && Enabled(w, s, step)
    ensures KnowsLoads(Next(s, step), Follow(h, s.disk, step))
  {
    hide MtimeOf, Closure, Retire, SpecsOf, AddEdge, RecordMtime;
    if step.Read? || step.Look? || step.Fail? {
      LoadKeepsLoads(w, s, step, h);
    } else if step.Record? {
      RecordKeepsLoads(w, s, step.spec, h);
    } else if step.Spawn? {
    } else {
      hide KnowsLoads;
      LoadsFrame(s, Next(s, step), h);
      assert KnowsLoads(Next(s, step), Follow(h, s.disk, step)) by {
        LoadsIgnoreRecords(Next(s, step), h, Follow(h, s.disk, step));
      }
    }
  }

  lemma LoadsIgnoreRecords(s: State, h: History, h': History)
    requires KnowsLoads(s, h) && h'.read == h.read && h'.looked == h.looked
    ensures KnowsLoads(s, h')
  {
  }

  lemma StepKeepsRecords(w: World, s: State, step: Step, h: History)
    requires Base(s) && KnowsLoads(s, h) && KnowsRecords(s, h) && Enabled(w, s, step)
    ensures KnowsRecords(Next(s, step), Follow(h, s.disk, step))
  {
    var t, h' := Next(s, step), Follow(h, s.disk, step);
    forall sp | Live(t, sp) ensures sp.id in t.g.recs && sp.id in h'.recorded && h'.recorded[sp.id] == t.g.recs[sp.id].mtime {
      if RecordsId(step, sp.id) {
        RecordWrites(w, s, step, sp);
        hide Next, Base, MtimeOf;
      } else {
        StepBack(w, s, step, sp);
        hide Next, Base, MtimeOf, KnowsLoads;
      }
    }
  }

  lemma {:induction false} RunKeepsHistory(w: World, s: State, steps: seq<Step>, h: History)
    requires Base(s) && KnowsLoads(s, h) && KnowsRecords(s, h) && Runs(w, s, steps)
    ensures var t, h' := Exec(w, s, steps), FollowAll(w, s, steps, h); KnowsLoads(t, h') && KnowsRecords(t, h')
    decreases |steps|
  {
    hide Next, Base, KnowsLoads, KnowsRecords, Follow;
    if steps != [] {
      StepKeepsBase(w, s, steps[0]);
      StepKeepsLoads(w, s, steps[0], h);
      StepKeepsRecords(w, s, steps[0], h);
      RunKeepsHistory(w, Next(s, steps[0]), steps[1..], Follow(h, s.disk, steps[0]));
    }
  }

  // ------------------------------------------------------- whole trees, over runs

  /** The last record of the id is of the mtime at which the specifier was read: for
      a record of its own load, the file's mtime at the look was that at the read. */
  predicate Undisturbed(h: History, sp: Spec) {
    sp in h.read && sp.id in h.recorded && h.recorded[sp.id] == h.read[sp]
  }

  /** Some load within `n` links of `sp` was disturbed. */
  ghost predicate DisturbedWithin(s: State, h: History, sp: Spec, n: nat)
    decreases n
  {
    sp in s.isolate &&
    (!Undisturbed(h, sp) || (n > 0 && exists l :: l in s.isolate[sp].links && DisturbedWithin(s, h, l, n - 1)))
  }

  lemma {:induction false} LiesIffDisturbed(s: State, h: History, sp: Spec, n: nat)
    requires KnowsLoads(s, h) && KnowsRecords(s, h) && LinksRecorded(s) && (sp in s.isolate ==> Live(s, sp))
    ensures LiesWithin(s, sp, n) <==> DisturbedWithin(s, h, sp, n)
    decreases n
  {
    if sp in s.isolate && n > 0 {
      forall l | l in s.isolate[sp].links ensures LiesWithin(s, l, n - 1) <==> DisturbedWithin(s, h, l, n - 1) {
        LiesIffDisturbed(s, h, l, n - 1);
      }
    }
  }

  lemma InitHistory(disk: Disk)
    ensures KnowsLoads(Init(disk), NO_HISTORY) && KnowsRecords(Init(disk), NO_HISTORY)
  {
  }

  /** In every run with safe bumps, after a quiet invalidation: the entry's tree is
      served, to depth `n`, as a fresh import from disk would give it, exactly when
      for no module of it within `n` links the file's mtime changed between the read
      of its code and the look that was last recorded for it. */
  lemma ServesDiskIffUndisturbed(w: World, disk: Disk, before: seq<Step>, u: State, k: int, during: seq<Step>, after: seq<Step>,
                                 entry: Id, graph: set<Spec>, n: nat)
    requires Runs(w, Init(disk), before) && SafeBumps(w, Init(disk), before) && u == Exec(w, Init(disk), before)
    requires Runs(w, u, Invalidation(k, during, after)) && SafeBumps(w, u, Invalidation(k, during, after))
    requires QuietInvalidation(u, k, during, after)
    ensures var s := Exec(w, u, Invalidation(k, during, after));
            var h := FollowAll(w, u, Invalidation(k, during, after), FollowAll(w, Init(disk), before, NO_HISTORY));
            Linked(w, s, graph) && SpecOf(s, entry) in graph ==>
              (CachedTree(s, SpecOf(s, entry), n) == DiskTree(w, s.disk, entry, n) <==> !DisturbedWithin(s, h, SpecOf(s, entry), n))
  {
    InitKeeps(disk);
    InitHistory(disk);
    hide Base, LinksRecorded, AllHonest, KnowsLoads, KnowsRecords, Runs, Exec, FollowAll, SafeBumps, QuietInvalidation, Invalidation,
         Linked, CachedTree, DiskTree, LiesWithin, DisturbedWithin;
    var steps, h0 := Invalidation(k, during, after), FollowAll(w, Init(disk), before, NO_HISTORY);
    CacheAgreesWithDisk(w, disk, before, u, k, during, after, entry, graph, n);
    RunKeepsBase(w, Init(disk), before);
    RunKeepsLinks(w, Init(disk), before);
    RunKeepsLinks(w, u, steps);
    RunKeepsHistory(w, Init(disk), before, NO_HISTORY);
    RunKeepsHistory(w, u, steps, h0);
    var s := Exec(w, u, steps);
    LiesIffDisturbed(s, FollowAll(w, u, steps, h0), SpecOf(s, entry), n);
  }
}
