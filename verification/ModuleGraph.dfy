/**
The versioned module graph of the in-process SSR runner.

A module id carries a version; the engine imports it under the pair of both.
The graph records who imports whom and the mtime each file had when it was
loaded. A change retires the changed id and everything that imports it,
directly or through others.

The value type `Graph` and the functions on it say what each operation does;
the class `VersionGraph` is the operations themselves, proved against them.
*/
module ModuleGraph {
  import opened Options

  type Id = string
  type Time = int
  type Disk = map<string, Time>

  /** What is recorded of one module id: `mtime` is None until it is loaded. */
  datatype Rec = Rec(mtime: Option<Time>, importers: set<Id>)

  datatype Graph = Graph(versions: map<Id, int>, recs: map<Id, Rec>, stale: nat)

  const STALE_MODULE_RESPAWN_THRESHOLD: nat := 500

  const EMPTY_GRAPH := Graph(map[], map[], 0)

  // ---------------------------------------------------------------- mtimes

  /** The file behind an id: what stands before the first `?` of it. */
  function CleanPath(id: Id): (file: string)
    ensures file <= id && '?' !in file
    ensures file != id ==> id[|file|] == '?'
  {
    if id == "" || id[0] == '?' then "" else [id[0]] + CleanPath(id[1..])
  }

  predicate IsAbsolute(path: string) {
    path != "" && path[0] == '/'
  }

  function MtimeOf(disk: Disk, id: Id): Option<Time> {
    var file := CleanPath(id);
    if IsAbsolute(file) && file in disk then Some(disk[file]) else None
  }

  lemma {:induction false} CleanPathOfTagged(file: string, tag: string)
    requires '?' !in file
    ensures CleanPath(file) == file && CleanPath(file + "?" + tag) == file
  {
    var id := file + "?" + tag;
    if file == "" {
      assert id[0] == '?';
    } else {
      assert id[0] == file[0] && id[1..] == file[1..] + "?" + tag;
      CleanPathOfTagged(file[1..], tag);
    }
  }

  /** The mtime of an id, tagged or not, is that of the absolute file it names. */
  lemma MtimeOfFile(disk: Disk, file: string, tag: string)
    requires '?' !in file
    ensures var mtime := if file != "" && file[0] == '/' && file in disk then Some(disk[file]) else None;
            MtimeOf(disk, file) == mtime && MtimeOf(disk, file + "?" + tag) == mtime
  {
    CleanPathOfTagged(file, tag);
  }

  /** `id` is the path `file`, or that path with a tag. */
  predicate Names(id: Id, file: string) {
    id == file || file + "?" <= id
  }

  lemma MtimeOfNamed(disk: Disk, id: Id, file: string)
    requires '?' !in file && Names(id, file)
    ensures MtimeOf(disk, id) == MtimeOf(disk, file) && CleanPath(id) == file
  {
    var tag := if id == file then "" else id[|file| + 1..];
    assert id != file ==> id == file + "?" + tag;
    MtimeOfFile(disk, file, tag);
    CleanPathOfTagged(file, tag);
  }

  lemma NamesItsPath(id: Id)
    ensures Names(id, CleanPath(id))
  {
    var file := CleanPath(id);
    if file != id {
      assert file + "?" == id[..|file| + 1];
    }
  }

  // ------------------------------------------------- operations as functions

  function Current(versions: map<Id, int>, id: Id): int {
    if id in versions then versions[id] else 0
  }

  function VersionOf(g: Graph, id: Id): int {
    Current(g.versions, id)
  }

  function RecOf(g: Graph, id: Id): Rec {
    if id in g.recs then g.recs[id] else Rec(None, {})
  }

  function AddEdge(g: Graph, id: Id, importer: Id): Graph {
    var rec := RecOf(g, id);
    g.(recs := g.recs[id := rec.(importers := rec.importers + {importer})])
  }

  function RecordMtime(g: Graph, id: Id, mtime: Option<Time>): Graph {
    g.(recs := g.recs[id := RecOf(g, id).(mtime := mtime)])
  }

  /** Each id of `d` one version further, every other as it was. */
  function Advance(versions: map<Id, int>, d: set<Id>): map<Id, int> {
    versions + map id | id in d :: Current(versions, id) + 1
  }

  /** Retires the ids of `d`: one version up, record gone, one orphan each. */
  function Retire(g: Graph, d: set<Id>): Graph {
    Graph(Advance(g.versions, d), g.recs - d, g.stale + |d|)
  }

  function ResetGraph(g: Graph): Graph {
    g.(recs := map[], stale := 0)
  }

  /** The recorded ids whose file no longer has the recorded mtime. */
  function Changed(g: Graph, disk: Disk): set<Id> {
    set id | id in g.recs && MtimeOf(disk, id) != g.recs[id].mtime
  }

  /** When every record is current and one absolute file gets a new mtime, or goes,
      the ids found changed are exactly those that name it, whatever their tags. */
  lemma EditSeedsWhatNamesIt(g: Graph, disk: Disk, file: string, later: Option<Time>, id: Id)
    requires '?' !in file && IsAbsolute(file) && file in disk && later != Some(disk[file])
    requires id in g.recs && g.recs[id].mtime == MtimeOf(disk, id)
    ensures id in Changed(g, if later.Some? then disk[file := later.value] else disk - {file}) <==> Names(id, file)
  {
    var disk' := if later.Some? then disk[file := later.value] else disk - {file};
    NamesItsPath(id);
    var own := CleanPath(id);
    MtimeOfNamed(disk, id, own);
    MtimeOfNamed(disk', id, own);
    MtimeOfFile(disk, own, "");
    MtimeOfFile(disk', own, "");
    if Names(id, file) {
      MtimeOfNamed(disk, id, file);
    }
  }

  /** What retiring `d` does to one id. */
  lemma RetireAt(g: Graph, d: set<Id>, id: Id)
    ensures VersionOf(Retire(g, d), id) == VersionOf(g, id) + (if id in d then 1 else 0)
    ensures id in Retire(g, d).recs <==> id in g.recs && id !in d
    ensures id in Retire(g, d).recs ==> Retire(g, d).recs[id] == g.recs[id]
  {
  }

  // ------------------------------------------------------------ reachability

  /** A chain of recorded ids from a seed, each importing the one before it. */
  ghost predicate ImporterChain(recs: map<Id, Rec>, seeds: set<Id>, p: seq<Id>) {
    && |p| > 0 && p[0] in seeds
    && (forall i :: 0 <= i < |p| ==> p[i] in recs)
    && (forall i :: 0 < i < |p| ==> p[i] in recs[p[i - 1]].importers)
  }

  ghost predicate Reaches(recs: map<Id, Rec>, seeds: set<Id>, id: Id) {
    exists p :: ImporterChain(recs, seeds, p) && p[|p| - 1] == id
  }

  ghost function Closure(recs: map<Id, Rec>, seeds: set<Id>): set<Id> {
    set id | id in recs && Reaches(recs, seeds, id)
  }

  /** `d` has every recorded seed and every recorded importer of its members. */
  ghost predicate ClosedUnderImporters(recs: map<Id, Rec>, seeds: set<Id>, d: set<Id>) {
    && (forall id :: id in seeds && id in recs ==> id in d)
    && (forall id, imp :: id in d && id in recs && imp in recs[id].importers && imp in recs ==> imp in d)
  }

  lemma SeedReaches(recs: map<Id, Rec>, seeds: set<Id>, id: Id)
    requires id in seeds && id in recs
    ensures Reaches(recs, seeds, id)
  {
    assert ImporterChain(recs, seeds, [id]);
  }

  lemma ImporterReaches(recs: map<Id, Rec>, seeds: set<Id>, id: Id, imp: Id)
    requires Reaches(recs, seeds, id) && id in recs
    requires imp in recs && imp in recs[id].importers
    ensures Reaches(recs, seeds, imp)
  {
    var p :| ImporterChain(recs, seeds, p) && p[|p| - 1] == id;
    assert ImporterChain(recs, seeds, p + [imp]);
  }

  lemma ClosureIsClosed(recs: map<Id, Rec>, seeds: set<Id>)
    ensures ClosedUnderImporters(recs, seeds, Closure(recs, seeds))
  {
    forall id | id in seeds && id in recs ensures id in Closure(recs, seeds) {
      SeedReaches(recs, seeds, id);
    }
    forall id, imp | id in Closure(recs, seeds) && imp in recs[id].importers && imp in recs
      ensures imp in Closure(recs, seeds)
    {
      ImporterReaches(recs, seeds, id, imp);
    }
  }

  lemma {:induction false} ChainStaysInside(recs: map<Id, Rec>, seeds: set<Id>, d: set<Id>, p: seq<Id>)
    requires ClosedUnderImporters(recs, seeds, d)
    requires ImporterChain(recs, seeds, p)
    ensures p[|p| - 1] in d
  {
    if |p| > 1 {
      var q := p[..|p| - 1];
      assert ImporterChain(recs, seeds, q);
      ChainStaysInside(recs, seeds, d, q);
      assert p[|p| - 1] in recs[p[|p| - 2]].importers;
    }
  }

  /** The closure is the least set closed under importers, so a closed set of
      reachable recorded ids is the closure. */
  lemma ClosureIsLeast(recs: map<Id, Rec>, seeds: set<Id>, d: set<Id>)
    requires ClosedUnderImporters(recs, seeds, d)
    ensures Closure(recs, seeds) <= d
  {
    forall id | id in Closure(recs, seeds) ensures id in d {
      var p :| ImporterChain(recs, seeds, p) && p[|p| - 1] == id;
      ChainStaysInside(recs, seeds, d, p);
    }
  }

  // ------------------------------------------------------ the walk's invariant

  /** Midway through a walk: `d` is visited, `open` is still on the stack, and
      neither leaves `reach`, a set closed under importers. */
  ghost predicate Frontier(recs: map<Id, Rec>, seeds: set<Id>, reach: set<Id>, d: set<Id>, open: set<Id>) {
    && d <= recs.Keys && d <= reach
    && open * recs.Keys <= reach
    && (forall id :: id in seeds && id in recs ==> id in d || id in open)
    && (forall id, imp :: id in d && imp in recs[id].importers && imp in recs ==> imp in d || imp in open)
  }

  lemma FrontierStart(recs: map<Id, Rec>, seeds: set<Id>, reach: set<Id>)
    requires ClosedUnderImporters(recs, seeds, reach)
    ensures Frontier(recs, seeds, reach, {}, seeds)
  {
  }

  lemma FrontierVisit(recs: map<Id, Rec>, seeds: set<Id>, reach: set<Id>, d: set<Id>, open: set<Id>, id: Id, rest: set<Id>)
    requires ClosedUnderImporters(recs, seeds, reach)
    requires Frontier(recs, seeds, reach, d, open)
    requires id in open && id in recs && rest <= open <= rest + {id}
    ensures Frontier(recs, seeds, reach, d + {id}, rest + recs[id].importers)
  {
  }

  lemma FrontierSkip(recs: map<Id, Rec>, seeds: set<Id>, reach: set<Id>, d: set<Id>, open: set<Id>, id: Id, rest: set<Id>)
    requires Frontier(recs, seeds, reach, d, open)
    requires (id in recs ==> id in d) && rest <= open <= rest + {id}
    ensures Frontier(recs, seeds, reach, d, rest)
  {
  }

  lemma FrontierDone(recs: map<Id, Rec>, seeds: set<Id>, d: set<Id>)
    requires Frontier(recs, seeds, Closure(recs, seeds), d, {})
    ensures d == Closure(recs, seeds)
  {
    ClosureIsLeast(recs, seeds, d);
  }

  lemma AdvanceNone(versions: map<Id, int>)
    ensures Advance(versions, {}) == versions
  {
  }

  lemma AdvanceOneMore(from: map<Id, int>, versions: map<Id, int>, d: set<Id>, id: Id)
    requires versions == Advance(from, d) && id !in d
    ensures versions[id := Current(versions, id) + 1] == Advance(from, d + {id})
  {
    assert Current(versions, id) == Current(from, id);
  }

  lemma RemoveOneMore(from: map<Id, Rec>, recs: map<Id, Rec>, d: set<Id>, id: Id)
    requires recs == from - d && id in recs
    ensures recs - {id} == from - (d + {id}) && |recs - {id}| < |recs|
  {
    assert (recs - {id}).Keys == recs.Keys - {id};
  }

  // --------------------------------------------------------------- the class

  function SetOf<T>(s: seq<T>): set<T> {
    set x | x in s
  }

  method Push(stack: seq<Id>, ids: set<Id>) returns (r: seq<Id>)
    ensures SetOf(r) == SetOf(stack) + ids
  {
    var rest := ids;
    r := stack;
    while rest != {}
      invariant SetOf(r) + rest == SetOf(stack) + ids
      decreases |rest|
    {
      var id :| id in rest;
      r, rest := r + [id], rest - {id};
    }
  }

  /** Midway through the walk: the ids of `d` are out of `recs`, each one version
      further in `versions`, and the rest of the closure is behind the stack. */
  ghost predicate MidwayAt(g0: Graph, seeds: set<Id>, versions: map<Id, int>, recs: map<Id, Rec>, dropped: int, stack: seq<Id>, d: set<Id>) {
    && versions == Advance(g0.versions, d) && recs == g0.recs - d && dropped == |d|
    && Frontier(g0.recs, seeds, Closure(g0.recs, seeds), d, SetOf(stack))
  }

  ghost predicate Midway(g0: Graph, seeds: set<Id>, versions: map<Id, int>, recs: map<Id, Rec>, dropped: int, stack: seq<Id>) {
    exists d :: MidwayAt(g0, seeds, versions, recs, dropped, stack, d)
  }

  lemma MidwayStart(g0: Graph, seeds: seq<Id>)
    ensures Midway(g0, SetOf(seeds), g0.versions, g0.recs, 0, seeds)
  {
    hide Closure;
    ClosureIsClosed(g0.recs, SetOf(seeds));
    FrontierStart(g0.recs, SetOf(seeds), Closure(g0.recs, SetOf(seeds)));
    AdvanceNone(g0.versions);
    assert g0.recs - {} == g0.recs;
    assert MidwayAt(g0, SetOf(seeds), g0.versions, g0.recs, 0, seeds, {});
  }

  lemma MidwayVisit(g0: Graph, seeds: set<Id>, versions: map<Id, int>, recs: map<Id, Rec>, dropped: int, stack: seq<Id>, id: Id, pushed: seq<Id>)
    requires Midway(g0, seeds, versions, recs, dropped, stack + [id]) && id in recs
    requires SetOf(pushed) == SetOf(stack) + recs[id].importers
    ensures Midway(g0, seeds, versions[id := Current(versions, id) + 1], recs - {id}, dropped + 1, pushed)
    ensures |recs - {id}| < |recs|
  {
    hide Closure, Frontier, Advance, ClosedUnderImporters;
    var d :| MidwayAt(g0, seeds, versions, recs, dropped, stack + [id], d);
    ClosureIsClosed(g0.recs, seeds);
    FrontierVisit(g0.recs, seeds, Closure(g0.recs, seeds), d, SetOf(stack + [id]), id, SetOf(stack));
    AdvanceOneMore(g0.versions, versions, d, id);
    RemoveOneMore(g0.recs, recs, d, id);
    assert MidwayAt(g0, seeds, versions[id := Current(versions, id) + 1], recs - {id}, dropped + 1, pushed, d + {id});
  }

  lemma MidwaySkip(g0: Graph, seeds: set<Id>, versions: map<Id, int>, recs: map<Id, Rec>, dropped: int, stack: seq<Id>, id: Id)
    requires Midway(g0, seeds, versions, recs, dropped, stack + [id]) && id !in recs
    ensures Midway(g0, seeds, versions, recs, dropped, stack)
  {
    hide Closure, Frontier, Advance;
    var d :| MidwayAt(g0, seeds, versions, recs, dropped, stack + [id], d);
    FrontierSkip(g0.recs, seeds, Closure(g0.recs, seeds), d, SetOf(stack + [id]), id, SetOf(stack));
    assert MidwayAt(g0, seeds, versions, recs, dropped, stack, d);
  }

  lemma MidwayDone(g0: Graph, seeds: set<Id>, versions: map<Id, int>, recs: map<Id, Rec>, dropped: int)
    requires Midway(g0, seeds, versions, recs, dropped, [])
    ensures dropped == |Closure(g0.recs, seeds)|
    ensures Graph(versions, recs, g0.stale + dropped) == Retire(g0, Closure(g0.recs, seeds))
  {
    hide Closure, Frontier, Advance;
    var d :| MidwayAt(g0, seeds, versions, recs, dropped, [], d);
    assert SetOf<Id>([]) == {};
    FrontierDone(g0.recs, seeds, d);
  }

  /** The loop of the walk, under one lock: it pops an id, drops its record if
      it still has one, and pushes the importers of what it dropped. */
  method Visit(g0: Graph, seeds: seq<Id>) returns (g: Graph, dropped: nat)
    ensures g == Retire(g0, Closure(g0.recs, SetOf(seeds)))
    ensures dropped == |Closure(g0.recs, SetOf(seeds))|
  {
    hide Midway, Retire, Closure;
    var stack, recs, versions := seeds, g0.recs, g0.versions;
    dropped := 0;
    MidwayStart(g0, seeds);
    while stack != []
      invariant Midway(g0, SetOf(seeds), versions, recs, dropped, stack)
      decreases |recs|, |stack|
    {
      var id, rest := stack[|stack| - 1], stack[..|stack| - 1];
      assert stack == rest + [id];
      if id in recs {
        stack := Push(rest, recs[id].importers);
        MidwayVisit(g0, SetOf(seeds), versions, recs, dropped, rest, id, stack);
        recs := recs - {id};
        versions := versions[id := Current(versions, id) + 1];
        dropped := dropped + 1;
      } else {
        stack := rest;
        MidwaySkip(g0, SetOf(seeds), versions, recs, dropped, rest, id);
      }
    }
    MidwayDone(g0, SetOf(seeds), versions, recs, dropped);
    g := Graph(versions, recs, g0.stale + dropped);
  }

  class VersionGraph {
    var versions: map<Id, int>
    var recs: map<Id, Rec>
    var stale: nat

    function Value(): Graph
      reads this
    {
      Graph(versions, recs, stale)
    }

    constructor ()
      ensures Value() == EMPTY_GRAPH
    {
      versions, recs, stale := map[], map[], 0;
    }

    method EdgeSpecifier(id: Id, importer: Id) returns (version: int)
      modifies this
      ensures Value() == AddEdge(old(Value()), id, importer)
      ensures version == if id in old(versions) then old(versions)[id] else 0
      ensures versions == old(versions) && stale == old(stale) && recs.Keys == old(recs.Keys) + {id}
      ensures recs[id].importers == (if id in old(recs) then old(recs)[id].importers else {}) + {importer}
      ensures recs[id].mtime == if id in old(recs) then old(recs)[id].mtime else None
      ensures forall other :: other in recs && other != id ==> recs[other] == old(recs)[other]
    {
      if id !in recs {
        recs := recs[id := Rec(None, {})];
      }
      recs := recs[id := recs[id].(importers := recs[id].importers + {importer})];
      version := Current(versions, id);
    }

    method RecordLoaded(id: Id, disk: Disk)
      modifies this
      ensures Value() == RecordMtime(old(Value()), id, MtimeOf(disk, id))
      ensures versions == old(versions) && stale == old(stale) && recs.Keys == old(recs.Keys) + {id}
      ensures recs[id].importers == (if id in old(recs) then old(recs)[id].importers else {})
      ensures recs[id].mtime == MtimeOf(disk, id)
      ensures forall other :: other in recs && other != id ==> recs[other] == old(recs)[other]
    {
      if id !in recs {
        recs := recs[id := Rec(None, {})];
      }
      recs := recs[id := recs[id].(mtime := MtimeOf(disk, id))];
    }

    method Bump(id: Id)
      modifies this
      ensures Value() == Retire(old(Value()), {id})
    {
      versions := versions[id := Current(versions, id) + 1];
      recs := recs - {id};
      stale := stale + 1;
    }

    /** The walk: a record that is visited is removed, and a removed record is
        how a second visit knows to stop. */
    method Walk(seeds: seq<Id>) returns (dropped: nat)
      modifies this
      ensures Value() == Retire(old(Value()), Closure(old(recs), SetOf(seeds)))
      ensures dropped == |Closure(old(recs), SetOf(seeds))|
    {
      var g;
      g, dropped := Visit(Value(), seeds);
      versions, recs, stale := g.versions, g.recs, g.stale;
    }

    /** Stats every recorded file and walks from the changed ones. */
    method InvalidateSeeded(disk: Disk) returns (dropped: nat, seeds: seq<Id>)
      modifies this
      ensures SetOf(seeds) == Changed(old(Value()), disk)
      ensures Value() == Retire(old(Value()), Closure(old(recs), Changed(old(Value()), disk)))
      ensures dropped == |Closure(old(recs), Changed(old(Value()), disk))|
    {
      var todo := recs.Keys;
      seeds := [];
      while todo != {}
        invariant todo <= recs.Keys && Value() == old(Value())
        invariant forall id :: id in seeds <==> id in recs && id !in todo && MtimeOf(disk, id) != recs[id].mtime
        decreases |todo|
      {
        var id :| id in todo;
        todo := todo - {id};
        if MtimeOf(disk, id) != recs[id].mtime {
          seeds := seeds + [id];
        }
      }
      assert SetOf(seeds) == Changed(Value(), disk);
      dropped := Walk(seeds);
    }

    /** An invalidation on behalf of a watch batch: `hit` answers whether one of
        the changed files is a file of the batch, under either spelling. */
    method InvalidateFor(disk: Disk, changed: seq<string>, canonical: map<string, string>) returns (dropped: nat, hit: bool)
      modifies this
      ensures Value() == Retire(old(Value()), Closure(old(recs), Changed(old(Value()), disk)))
      ensures dropped == |Closure(old(recs), Changed(old(Value()), disk))|
      ensures hit <==> BatchHit(Changed(old(Value()), disk), changed, canonical)
    {
      hide Closure, Changed, Retire;
      var seeds;
      dropped, seeds := InvalidateSeeded(disk);
      hit := AnyHit(seeds, changed, canonical);
    }

    method ShouldRespawn() returns (due: bool)
      ensures due <==> stale >= STALE_MODULE_RESPAWN_THRESHOLD
    {
      due := stale >= STALE_MODULE_RESPAWN_THRESHOLD;
    }

    method ResetAfterRespawn()
      modifies this
      ensures Value() == ResetGraph(old(Value()))
      ensures versions == old(versions) && recs == map[] && stale == 0
    {
      recs, stale := map[], 0;
    }
  }

  /** Two spellings of one file: equal as they stand or once canonicalized. */
  predicate SameFile(canonical: map<string, string>, file: string, p: string) {
    || file == p
    || (p in canonical && canonical[p] == file)
    || (file in canonical && canonical[file] == p)
    || (file in canonical && p in canonical && canonical[file] == canonical[p])
  }

  /** Where canonical paths are their own canonical paths, these are exactly the
      spellings of one file: the two paths come to the same place. */
  lemma SameFileIsOneFile(canonical: map<string, string>, file: string, p: string)
    requires forall x :: x in canonical ==> canonical[x] in canonical && canonical[canonical[x]] == canonical[x]
    ensures SameFile(canonical, file, p) <==>
            (if file in canonical then canonical[file] else file) == (if p in canonical then canonical[p] else p)
  {
  }

  /** Some changed id is a file of the batch. */
  predicate BatchHit(ids: set<Id>, changed: seq<string>, canonical: map<string, string>) {
    exists id, p :: id in ids && p in changed && SameFile(canonical, CleanPath(id), p)
  }

  method AnyHit(seeds: seq<Id>, changed: seq<string>, canonical: map<string, string>) returns (hit: bool)
    ensures hit <==> BatchHit(SetOf(seeds), changed, canonical)
  {
    hide CleanPath;
    var spelled := SetOf(changed) + set p | p in changed && p in canonical :: canonical[p];
    for i := 0 to |seeds|
      invariant forall k, p :: 0 <= k < i && p in changed ==> !SameFile(canonical, CleanPath(seeds[k]), p)
    {
      var file := CleanPath(seeds[i]);
      if file in spelled || (file in canonical && canonical[file] in spelled) {
        var p :| p in changed && SameFile(canonical, file, p);
        assert seeds[i] in SetOf(seeds);
        return true;
      }
    }
    return false;
  }

  // ------------------------------------------------- the Start engine's calls

  lemma NothingChangedNothingDropped(g: Graph, disk: Disk)
    ensures Closure(g.recs, Changed(g, disk)) == {} <==> Changed(g, disk) == {}
  {
    ClosureIsClosed(g.recs, Changed(g, disk));
    if Changed(g, disk) == {} {
      ClosureIsLeast(g.recs, {}, {});
    }
  }

  ghost function Invalidated(g: Graph, disk: Disk): Graph {
    Retire(g, Closure(g.recs, Changed(g, disk)))
  }

  /** A respawn that is due and succeeds resets the graph. */
  function Respawned(g: Graph, spawnOk: bool): Graph {
    if g.stale >= STALE_MODULE_RESPAWN_THRESHOLD && spawnOk then ResetGraph(g) else g
  }

  ghost function Revalidated(g: Graph, disk: Disk, entry: Id, spawnOk: bool): Graph {
    var h := Invalidated(g, disk);
    Respawned(if Changed(g, disk) == {} then h else Retire(h, {entry}), spawnOk)
  }

  /** After a reload, respawn or not, the entry's specifier is new, every importer
      of a changed file has moved on by one version, and nothing else has moved. */
  lemma ReloadMovesOnlyTheStale(g: Graph, disk: Disk, entry: Id, spawnOk: bool, id: Id)
    ensures var stale, after := Closure(g.recs, Changed(g, disk)), Respawned(Retire(Invalidated(g, disk), {entry}), spawnOk);
            VersionOf(after, id) == VersionOf(g, id) + (if id in stale then 1 else 0) + (if id == entry then 1 else 0)
  {
    hide Closure, Changed, Retire;
    RetireAt(g, Closure(g.recs, Changed(g, disk)), id);
    RetireAt(Invalidated(g, disk), {entry}, id);
  }

  /** A revalidation renews the entry's specifier exactly when a file changed, and
      without a change it renews nothing at all. */
  lemma RevalidateRenewsIffChanged(g: Graph, disk: Disk, entry: Id, spawnOk: bool)
    ensures VersionOf(Revalidated(g, disk, entry, spawnOk), entry) != VersionOf(g, entry) <==> Changed(g, disk) != {}
    ensures Changed(g, disk) == {} ==> Revalidated(g, disk, entry, spawnOk) == Respawned(g, spawnOk)
  {
    NothingChangedNothingDropped(g, disk);
    ReloadMovesOnlyTheStale(g, disk, entry, spawnOk, entry);
    AdvanceNone(g.versions);
    assert g.recs - {} == g.recs;
    RetireAt(g, {}, entry);
    hide Closure, Changed;
  }

  /** The engine that serves `entry`; `spawnOk` says whether booting a fresh
      isolate would succeed. */
  class StartEngine {
    const graph: VersionGraph
    const entry: Id

    constructor (graph: VersionGraph, entry: Id)
      ensures this.graph == graph && this.entry == entry
    {
      this.graph, this.entry := graph, entry;
    }

    method MaybeRespawn(spawnOk: bool)
      modifies graph
      ensures graph.Value() == Respawned(old(graph.Value()), spawnOk)
      ensures graph.versions == old(graph.versions)
      ensures old(graph.stale) < 500 || !spawnOk ==> graph.Value() == old(graph.Value())
      ensures old(graph.stale) >= 500 && spawnOk ==> graph.recs == map[] && graph.stale == 0
    {
      var due := graph.ShouldRespawn();
      if due && spawnOk {
        graph.ResetAfterRespawn();
      }
    }

    method Reload(disk: Disk, spawnOk: bool)
      modifies graph
      ensures graph.Value() == Respawned(Retire(Invalidated(old(graph.Value()), disk), {entry}), spawnOk)
    {
      hide Closure, Changed, Retire;
      var _, _ := graph.InvalidateSeeded(disk);
      graph.Bump(entry);
      MaybeRespawn(spawnOk);
    }

    /** True exactly when a recorded file changed. */
    method Revalidate(disk: Disk, spawnOk: bool) returns (anyChange: bool)
      modifies graph
      ensures anyChange <==> Changed(old(graph.Value()), disk) != {}
      ensures graph.Value() == Revalidated(old(graph.Value()), disk, entry, spawnOk)
    {
      hide Closure, Changed, Retire;
      NothingChangedNothingDropped(graph.Value(), disk);
      var dropped, _ := graph.InvalidateSeeded(disk);
      if dropped > 0 {
        graph.Bump(entry);
      }
      MaybeRespawn(spawnOk);
      anyChange := dropped > 0;
    }

    /** The same for a watch batch: every stale record goes, but only a change to a
        file of the batch is reported. */
    method RevalidateFor(disk: Disk, changed: seq<string>, canonical: map<string, string>, spawnOk: bool) returns (hit: bool)
      modifies graph
      ensures hit <==> BatchHit(Changed(old(graph.Value()), disk), changed, canonical)
      ensures graph.Value() == Revalidated(old(graph.Value()), disk, entry, spawnOk)
    {
      hide Closure, Changed, Retire, BatchHit;
      NothingChangedNothingDropped(graph.Value(), disk);
      var dropped;
      dropped, hit := graph.InvalidateFor(disk, changed, canonical);
      if dropped > 0 {
        graph.Bump(entry);
      }
      MaybeRespawn(spawnOk);
    }
  }
}
