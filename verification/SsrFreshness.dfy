/**
Specifier freshness and the leak bound, over every run and every interleaving:
a retired specifier is never minted again, and the orphaned instances of the
isolate are counted by `stale`, apart from specifiers that outlived a respawn.
*/
module SsrFreshness {
  import opened Options
  import opened ModuleGraph
  import opened SsrRun
  import opened Sets

  // ---------------------------------------------------------------- freshness

  lemma StepVersions(w: World, s: State, step: Step, id: Id)
    requires Enabled(w, s, step)
    ensures VersionOf(s.g, id) <= VersionOf(Next(s, step).g, id) <= VersionOf(s.g, id) + 1
  {
    hide Retire, Closure, MtimeOf;
    match step
    case Walk(k) => RetireAt(s.g, Closure(s.g.recs, s.scans[k].seeds), id);
    case Bump(b) => RetireAt(s.g, {b}, id);
    case _ =>
  }

  lemma {:induction false} VersionsNeverDecrease(w: World, s: State, steps: seq<Step>, id: Id)
    requires Runs(w, s, steps)
    ensures VersionOf(s.g, id) <= VersionOf(Exec(w, s, steps).g, id)
    decreases |steps|
  {
    hide Next;
    if steps != [] {
      StepVersions(w, s, steps[0], id);
      VersionsNeverDecrease(w, Next(s, steps[0]), steps[1..], id);
    }
  }

  /** The specifier a step hands out, if it hands one out. */
  function Minted(s: State, step: Step): Option<Spec> {
    match step
    case Mint(id) => Some(SpecOf(s, id))
    case Link(_, dep) => Some(SpecOf(s, dep))
    case LateEdge(dep, _) => Some(SpecOf(s, dep))
    case _ => None
  }

  /** Once the version of an id has moved past a specifier, no step of any
      continuation hands that specifier out again, respawns included. */
  lemma RetiredIsNeverMintedAgain(w: World, s: State, steps: seq<Step>, step: Step, sp: Spec)
    requires Runs(w, s, steps)
    requires sp.version < VersionOf(s.g, sp.id)
    ensures Minted(Exec(w, s, steps), step) != Some(sp)
  {
    VersionsNeverDecrease(w, s, steps, sp.id);
  }

  // --------------------------------------------------------------- leak bound

  function Orphans(s: State): set<Spec> {
    set sp | sp in s.isolate && sp.version < VersionOf(s.g, sp.id)
  }

  /** Instances whose specifier was already retired when the isolate was booted. */
  function Stragglers(s: State): set<Spec> {
    set sp | sp in s.isolate && sp.version < Current(s.base, sp.id)
  }

  /** No specifier is ahead of its id. */
  ghost predicate Bounded(s: State) {
    && (forall sp :: sp in s.minted ==> sp.version <= VersionOf(s.g, sp.id))
    && (forall sp :: sp in s.isolate || sp in s.inflight ==> sp in s.minted)
  }

  /** `retired` is exactly the versions passed since the last reset, and `stale`
      is how many they are. */
  ghost predicate Ledger(s: State) {
    && (forall sp :: sp in s.retired <==> Current(s.base, sp.id) <= sp.version < VersionOf(s.g, sp.id))
    && (forall id :: Current(s.base, id) <= VersionOf(s.g, id))
    && |s.retired| == s.g.stale
  }

  lemma {:induction false} SpecsOfCount(s: State, d: set<Id>)
    ensures |SpecsOf(s, d)| == |d|
  {
    if d != {} {
      var id :| id in d;
      SpecsOfCount(s, d - {id});
      assert SpecsOf(s, d) == SpecsOf(s, d - {id}) + {SpecOf(s, id)};
      assert d == (d - {id}) + {id};
    }
  }

  lemma RetireKeepsLedger(s: State, d: set<Id>)
    requires Ledger(s)
    ensures Ledger(AfterRetire(s, d))
  {
    var t := AfterRetire(s, d);
    SpecsOfCount(s, d);
    assert s.retired !! SpecsOf(s, d);
    forall id ensures VersionOf(t.g, id) == VersionOf(s.g, id) + (if id in d then 1 else 0) {
      RetireAt(s.g, d, id);
    }
    forall sp ensures sp in t.retired <==> Current(s.base, sp.id) <= sp.version < VersionOf(t.g, sp.id) {
      assert sp in SpecsOf(s, d) <==> sp.id in d && sp.version == VersionOf(s.g, sp.id);
    }
  }

  lemma StepKeepsLedger(w: World, s: State, step: Step)
    requires Enabled(w, s, step) && Ledger(s)
    ensures Ledger(Next(s, step))
  {
    hide Retire, Closure, MtimeOf;
    match step
    case Walk(k) => RetireKeepsLedger(s, Closure(s.g.recs, s.scans[k].seeds));
    case Bump(id) => RetireKeepsLedger(s, {id});
    case _ =>
  }

  lemma StepKeepsBounded(w: World, s: State, step: Step)
    requires Enabled(w, s, step) && Bounded(s)
    ensures Bounded(Next(s, step))
  {
    var t := Next(s, step);
    forall sp | sp in t.minted ensures sp.version <= VersionOf(t.g, sp.id) {
      StepVersions(w, s, step, sp.id);
    }
  }

  lemma {:induction false} RunKeepsLedger(w: World, s: State, steps: seq<Step>)
    requires Runs(w, s, steps) && Ledger(s) && Bounded(s)
    ensures Ledger(Exec(w, s, steps)) && Bounded(Exec(w, s, steps))
    decreases |steps|
  {
    hide Next, Ledger, Bounded;
    if steps != [] {
      StepKeepsLedger(w, s, steps[0]);
      StepKeepsBounded(w, s, steps[0]);
      RunKeepsLedger(w, Next(s, steps[0]), steps[1..]);
    }
  }

  lemma OrphansCounted(s: State)
    requires Ledger(s)
    ensures |Orphans(s)| <= s.g.stale + |Stragglers(s)|
  {
    SubsetCount(Orphans(s), s.retired + Stragglers(s));
    assert |s.retired + Stragglers(s)| <= |s.retired| + |Stragglers(s)|;
  }

  /** In every run the orphans number at most `stale` plus the stragglers. */
  lemma LeakBound(w: World, disk: Disk, steps: seq<Step>)
    requires Runs(w, Init(disk), steps)
    ensures var s := Exec(w, Init(disk), steps); |Orphans(s)| <= s.g.stale + |Stragglers(s)|
  {
    RunKeepsLedger(w, Init(disk), steps);
    OrphansCounted(Exec(w, Init(disk), steps));
  }

  /** Every load is of a specifier that was current at the last reset or later. */
  ghost predicate NoStragglerLoads(w: World, s: State, steps: seq<Step>)
    requires Runs(w, s, steps)
    decreases |steps|
  {
    steps == [] ||
    (&& (steps[0].Record? ==> steps[0].spec.version >= Current(s.base, steps[0].spec.id))
     && NoStragglerLoads(w, Next(s, steps[0]), steps[1..]))
  }

  /** No isolate, or an empty one, while the engine is being replaced. */
  predicate EmptyWhileSpawning(s: State) {
    s.spawning ==> s.isolate == map[] && s.inflight == map[]
  }

  /** A step leaves a straggler exactly when it loads a specifier from before the
      last reset. */
  lemma StepAddsStragglerIff(w: World, s: State, step: Step)
    requires Enabled(w, s, step)
    requires Stragglers(s) == {} && EmptyWhileSpawning(s)
    ensures Stragglers(Next(s, step)) == {} <==> (step.Record? ==> step.spec.version >= Current(s.base, step.spec.id))
    ensures EmptyWhileSpawning(Next(s, step))
  {
    hide Retire, Closure, MtimeOf, SpecsOf;
    assert forall sp :: sp in s.isolate ==> sp !in Stragglers(s);
    if step.Record? && step.spec.version < Current(s.base, step.spec.id) {
      assert step.spec in Stragglers(Next(s, step));
    }
  }

  lemma {:induction false} NoStragglers(w: World, s: State, steps: seq<Step>)
    requires Runs(w, s, steps) && NoStragglerLoads(w, s, steps)
    requires Stragglers(s) == {} && EmptyWhileSpawning(s)
    ensures Stragglers(Exec(w, s, steps)) == {}
    decreases |steps|
  {
    hide Next, Stragglers, EmptyWhileSpawning;
    if steps != [] {
      StepAddsStragglerIff(w, s, steps[0]);
      NoStragglers(w, Next(s, steps[0]), steps[1..]);
    }
  }

  /** Without straggler loads `stale` bounds the orphans, so fewer than 500 exist
      whenever no respawn is due. */
  lemma FewOrphansUntilRespawn(w: World, disk: Disk, steps: seq<Step>)
    requires Runs(w, Init(disk), steps) && NoStragglerLoads(w, Init(disk), steps)
    ensures var s := Exec(w, Init(disk), steps);
            && |Orphans(s)| <= s.g.stale
            && (s.g.stale < STALE_MODULE_RESPAWN_THRESHOLD ==> |Orphans(s)| < 500)
  {
    LeakBound(w, disk, steps);
    NoStragglers(w, Init(disk), steps);
  }

  // ------------------------------------- a discipline that keeps stragglers out

  /** The specifiers handed out since the last reset, one step later. */
  function RecentAfter(s: State, step: Step, recent: set<Spec>): set<Spec> {
    if step.Reset? then {} else if Minted(s, step).Some? then recent + {Minted(s, step).value} else recent
  }

  /** Every load is of a specifier handed out since the last reset: what holding the
      engine from minting to importing gives. */
  ghost predicate LoadsRecent(w: World, s: State, steps: seq<Step>, recent: set<Spec>)
    requires Runs(w, s, steps)
    decreases |steps|
  {
    steps == [] ||
    (&& (steps[0].Record? ==> steps[0].spec in recent)
     && LoadsRecent(w, Next(s, steps[0]), steps[1..], RecentAfter(s, steps[0], recent)))
  }

  ghost predicate RecentAboveBase(s: State, recent: set<Spec>) {
    forall sp :: sp in recent ==> sp.version >= Current(s.base, sp.id)
  }

  lemma StepKeepsRecent(w: World, s: State, step: Step, recent: set<Spec>)
    requires Enabled(w, s, step) && Ledger(s) && RecentAboveBase(s, recent)
    ensures RecentAboveBase(Next(s, step), RecentAfter(s, step, recent))
  {
    hide Retire, Closure, MtimeOf, SpecsOf;
  }

  lemma {:induction false} RecentLoadsAreNoStragglers(w: World, s: State, steps: seq<Step>, recent: set<Spec>)
    requires Runs(w, s, steps) && Ledger(s) && RecentAboveBase(s, recent) && LoadsRecent(w, s, steps, recent)
    ensures NoStragglerLoads(w, s, steps)
    decreases |steps|
  {
    if steps != [] {
      assert steps[0].Record? ==> steps[0].spec.version >= Current(s.base, steps[0].spec.id);
      hide Next, Ledger, RecentAboveBase, RecentAfter;
      StepKeepsLedger(w, s, steps[0]);
      StepKeepsRecent(w, s, steps[0], recent);
      RecentLoadsAreNoStragglers(w, Next(s, steps[0]), steps[1..], RecentAfter(s, steps[0], recent));
    }
  }

  /** An engine that imports only what it minted since its isolate was booted keeps
      its orphans within `stale`, under 500 until a respawn is due. */
  lemma RecentLoadsKeepTheBound(w: World, disk: Disk, steps: seq<Step>)
    requires Runs(w, Init(disk), steps) && LoadsRecent(w, Init(disk), steps, {})
    ensures var s := Exec(w, Init(disk), steps);
            && |Orphans(s)| <= s.g.stale
            && (s.g.stale < STALE_MODULE_RESPAWN_THRESHOLD ==> |Orphans(s)| < 500)
  {
    RecentLoadsAreNoStragglers(w, Init(disk), steps, {});
    FewOrphansUntilRespawn(w, disk, steps);
  }
}
