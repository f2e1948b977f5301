/**
The memoized CommonJS detector: which files a resolution treats as CommonJS, and
which ES modules call a `require` they never declare.

Paths are split at their last slash; a directory is its components, so that going
to the parent drops the last one. package.json files are fixed for the session,
the files themselves are not: every query is given the disk it is asked on.
*/
module CjsCache {
  import opened Options

  datatype Dir = Dir(absolute: bool, parts: seq<string>)

  datatype File = File(dir: Dir, name: string)

  /** What a package.json holds: it may be unreadable or not JSON, and its `type`
      may be missing or not a string. */
  datatype Manifest = Broken | NoType | Typed(kind: string)

  /** The files at one moment: those with a modification time, and those that can
      be read. */
  datatype Disk = Disk(stamps: map<File, int>, texts: map<File, string>)

  datatype World = World(packages: map<Dir, Manifest>, hasEsmSyntax: string -> bool, callsUndeclaredRequire: string -> bool)

  datatype Seen = Seen(stamp: int, verdict: bool)

  const MAX_WALK: int := 40

  // ------------------------------------------------------ the uncached detector

  predicate EndsWith(s: string, suffix: string) {
    |suffix| <= |s| && s[|s| - |suffix|..] == suffix
  }

  predicate IsModule(m: Manifest) {
    m == Typed("module")
  }

  function Ancestor(dir: Dir, k: int): Dir
    requires 0 <= k <= |dir.parts|
  {
    Dir(dir.absolute, dir.parts[..|dir.parts| - k])
  }

  /** The first ancestor is the parent, and each further one the parent of the last. */
  lemma AncestorsAreParents(dir: Dir, name: string, k: int)
    requires 0 <= k <= |dir.parts|
    ensures Ancestor(dir, 0) == dir
    ensures Ancestor(Dir(dir.absolute, dir.parts + [name]), k + 1) == Ancestor(dir, k)
  {
  }

  /** The `k`-th ancestor of `dir` is within reach and is the nearest one holding a
      package.json. */
  predicate NearestAt(packages: map<Dir, Manifest>, dir: Dir, k: int) {
    && 0 <= k < MAX_WALK && k <= |dir.parts|
    && Ancestor(dir, k) in packages
    && forall j :: 0 <= j < k ==> Ancestor(dir, j) !in packages
  }

  ghost predicate InModulePackage(packages: map<Dir, Manifest>, dir: Dir) {
    exists k :: NearestAt(packages, dir, k) && IsModule(packages[Ancestor(dir, k)])
  }

  /** With one package.json, `k` directories up, a directory is in a module package
      exactly when that is within 40 directories and says `module`: a broken one, one
      without a type and one of another type do not. */
  lemma OnlyManifestDecides(dir: Dir, k: int, m: Manifest)
    requires 0 <= k <= |dir.parts|
    ensures InModulePackage(map[Ancestor(dir, k) := m], dir) <==> k < 40 && m == Typed("module")
  {
    var packages := map[Ancestor(dir, k) := m];
    forall j | 0 <= j <= |dir.parts| && Ancestor(dir, j) in packages ensures j == k {
      assert |Ancestor(dir, j).parts| == |dir.parts| - j;
    }
    if k < 40 {
      assert NearestAt(packages, dir, k);
    }
  }

  /** The nearer of two package.json files hides the other. */
  lemma NearerManifestHides(packages: map<Dir, Manifest>, dir: Dir, j: int, k: int)
    requires NearestAt(packages, dir, j) && j < k <= |dir.parts| && Ancestor(dir, k) in packages
    ensures InModulePackage(packages, dir) <==> packages[Ancestor(dir, j)] == Typed("module")
  {
    forall i | NearestAt(packages, dir, i) ensures i == j {
      NearestIsUnique(packages, dir, i, j);
    }
  }

  /** The two questions asked of a file's text; an unreadable file answers no. */
  datatype Question = NoEsmSyntax | CallsRequire

  predicate Judge(w: World, q: Question, d: Disk, f: File) {
    f in d.texts &&
    match q
    case NoEsmSyntax => !w.hasEsmSyntax(d.texts[f])
    case CallsRequire => w.callsUndeclaredRequire(d.texts[f])
  }

  ghost predicate IsCjs(w: World, d: Disk, f: File) {
    || EndsWith(f.name, ".cjs")
    || (EndsWith(f.name, ".js") && !InModulePackage(w.packages, f.dir) && Judge(w, NoEsmSyntax, d, f))
  }

  ghost predicate EsmRequires(w: World, d: Disk, f: File) {
    (EndsWith(f.name, ".js") || EndsWith(f.name, ".mjs")) && !IsCjs(w, d, f) && Judge(w, CallsRequire, d, f)
  }

  /** The detector by a file's name. A `.cjs` file is CommonJS whatever is in it; a
      `.js` file is if it is readable, outside module packages and shows no ESM syntax;
      an `.mjs` file never is. Only the last two can be ES modules that call require. */
  lemma DetectorByName(w: World, d: Disk, dir: Dir, stem: string)
    ensures IsCjs(w, d, File(dir, stem + ".cjs")) && !EsmRequires(w, d, File(dir, stem + ".cjs"))
    ensures var f := File(dir, stem + ".js");
            && (IsCjs(w, d, f) <==> f in d.texts && !w.hasEsmSyntax(d.texts[f]) && !InModulePackage(w.packages, dir))
            && (EsmRequires(w, d, f) <==> f in d.texts && w.callsUndeclaredRequire(d.texts[f]) && !IsCjs(w, d, f))
    ensures var f := File(dir, stem + ".mjs");
            !IsCjs(w, d, f) && (EsmRequires(w, d, f) <==> f in d.texts && w.callsUndeclaredRequire(d.texts[f]))
  {
    EndsAs(stem, ".cjs");
    EndsAs(stem, ".js");
    EndsAs(stem, ".mjs");
    hide InModulePackage;
  }

  lemma EndsAs(stem: string, suffix: string)
    requires suffix == ".cjs" || suffix == ".js" || suffix == ".mjs"
    ensures EndsWith(stem + suffix, ".cjs") <==> suffix == ".cjs"
    ensures EndsWith(stem + suffix, ".js") <==> suffix == ".js"
    ensures EndsWith(stem + suffix, ".mjs") <==> suffix == ".mjs"
  {
    var s := stem + suffix;
    assert s[|s| - 1] == 's' && s[|s| - 2] == 'j';
    assert s[|s| - 3] == suffix[|suffix| - 3];
    assert |suffix| == 4 ==> s[|s| - 4] == '.' && s[|s| - 4..] == suffix;
    assert |suffix| == 3 ==> s[|s| - 3..] == suffix;
  }

  // ------------------------------------------------------------ sound memo tables

  /** Equal modification times mean equal contents, across the moments of `h`. */
  ghost predicate StampsTell(h: set<Disk>) {
    forall d, e, f :: d in h && e in h && f in d.stamps && f in e.stamps && d.stamps[f] == e.stamps[f] ==>
      SameText(d, e, f)
  }

  predicate SameText(d: Disk, e: Disk, f: File) {
    (f in d.texts <==> f in e.texts) && (f in d.texts ==> d.texts[f] == e.texts[f])
  }

  /** Whatever the table would answer on a disk of `h` is what the text there says. */
  ghost predicate Sound(w: World, q: Question, table: map<File, Seen>, h: set<Disk>) {
    forall f, d :: f in table && d in h && f in d.stamps && d.stamps[f] == table[f].stamp ==>
      (table[f].verdict <==> Judge(w, q, d, f))
  }

  ghost predicate SoundWalks(packages: map<Dir, Manifest>, table: map<Dir, bool>) {
    forall dir :: dir in table ==> (table[dir] <==> InModulePackage(packages, dir))
  }

  /** The verdict the table holds for the file's present modification time. */
  function Hit(table: map<File, Seen>, d: Disk, f: File): Option<bool> {
    if f in d.stamps && f in table && table[f].stamp == d.stamps[f] then Some(table[f].verdict) else None
  }

  /** The table after a query; without a modification time nothing is stored. */
  function Stored(table: map<File, Seen>, d: Disk, f: File, verdict: bool): map<File, Seen> {
    if f in d.stamps then table[f := Seen(d.stamps[f], verdict)] else table
  }

  /** A stored verdict answers while the file keeps its modification time, and neither
      afterwards nor for a file that has none. */
  lemma StoredVerdictHits(table: map<File, Seen>, d: Disk, e: Disk, f: File, verdict: bool)
    requires f in d.stamps
    ensures Hit(Stored(table, d, f, verdict), e, f) == if f in e.stamps && e.stamps[f] == d.stamps[f] then Some(verdict) else None
  {
  }

  lemma StoredStaysSound(w: World, q: Question, table: map<File, Seen>, h: set<Disk>, d: Disk, f: File)
    requires Sound(w, q, table, h) && StampsTell(h) && d in h
    ensures Sound(w, q, Stored(table, d, f, Judge(w, q, d, f)), h)
  {
    var after := Stored(table, d, f, Judge(w, q, d, f));
    forall g, e | g in after && e in h && g in e.stamps && e.stamps[g] == after[g].stamp
      ensures after[g].verdict <==> Judge(w, q, e, g)
    {
      if g == f && f in d.stamps {
        assert SameText(d, e, f);
      }
    }
  }

  lemma NearestIsUnique(packages: map<Dir, Manifest>, dir: Dir, j: int, k: int)
    requires NearestAt(packages, dir, j) && NearestAt(packages, dir, k)
    ensures j == k
  {
  }

  // -------------------------------------------------------------------- the cache

  class Cache {
    const world: World
    var pkgIsModule: map<Dir, bool>
    var verdicts: map<File, Seen>
    var calls: map<File, Seen>

    /** Every table answers as the uncached detector does at every moment of `h`. */
    ghost predicate Valid(h: set<Disk>)
      reads this
    {
      && SoundWalks(world.packages, pkgIsModule)
      && Sound(world, NoEsmSyntax, verdicts, h)
      && Sound(world, CallsRequire, calls, h)
    }

    constructor (w: World)
      ensures world == w && forall h :: Valid(h)
    {
      world := w;
      pkgIsModule, verdicts, calls := map[], map[], map[];
    }

    /** The walk up from `start`, stopping at a package.json or after 40 directories. */
    method Walk(start: Dir) returns (isModule: bool)
      ensures isModule <==> InModulePackage(world.packages, start)
    {
      isModule := false;
      var k := 0;
      while k < MAX_WALK && k <= |start.parts|
        invariant 0 <= k <= MAX_WALK && k <= |start.parts| + 1
        invariant forall j :: 0 <= j < k && j <= |start.parts| ==> Ancestor(start, j) !in world.packages
      {
        var dir := Ancestor(start, k);
        if dir in world.packages {
          isModule := IsModule(world.packages[dir]);
          assert NearestAt(world.packages, start, k);
          forall j | NearestAt(world.packages, start, j) ensures j == k {
            NearestIsUnique(world.packages, start, j, k);
          }
          return;
        }
        k := k + 1;
      }
    }

    method NearestPkgIsModule(start: Dir) returns (isModule: bool)
      requires SoundWalks(world.packages, pkgIsModule)
      modifies this`pkgIsModule
      ensures isModule <==> InModulePackage(world.packages, start)
      ensures SoundWalks(world.packages, pkgIsModule)
      ensures pkgIsModule == old(pkgIsModule)[start := isModule]
    {
      if start in pkgIsModule {
        isModule := pkgIsModule[start];
        assert pkgIsModule == pkgIsModule[start := isModule];
        return;
      }
      isModule := Walk(start);
      pkgIsModule := pkgIsModule[start := isModule];
    }

    /** Reads the file now: the answer of the text sniff, uncached. */
    method Sniff(q: Question, d: Disk, f: File) returns (verdict: bool)
      ensures verdict <==> Judge(world, q, d, f)
    {
      if f !in d.texts {
        return false;
      }
      match q
      case NoEsmSyntax => verdict := !world.hasEsmSyntax(d.texts[f]);
      case CallsRequire => verdict := world.callsUndeclaredRequire(d.texts[f]);
    }

    /** At any moment `d` of a session `h` in which modification times tell contents,
        the answer is the uncached detector's, and the tables stay right for all of
        `h`, earlier and later. */
    method IsCjsFile(d: Disk, f: File, ghost h: set<Disk>) returns (cjs: bool)
      requires Valid(h) && StampsTell(h) && d in h
      modifies this`pkgIsModule, this`verdicts
      ensures cjs <==> IsCjs(world, d, f)
      ensures Valid(h)
      ensures verdicts == old(verdicts) || verdicts == Stored(old(verdicts), d, f, cjs)
      ensures EndsWith(f.name, ".js") && !InModulePackage(world.packages, f.dir) && !EndsWith(f.name, ".cjs") && f in d.stamps ==>
                f in verdicts && verdicts[f] == Seen(d.stamps[f], cjs)
    {
      if EndsWith(f.name, ".cjs") {
        return true;
      }
      if !EndsWith(f.name, ".js") {
        return false;
      }
      var isModule := NearestPkgIsModule(f.dir);
      if isModule {
        return false;
      }
      var hit := Hit(verdicts, d, f);
      if hit.Some? {
        return hit.value;
      }
      cjs := Sniff(NoEsmSyntax, d, f);
      StoredStaysSound(world, NoEsmSyntax, verdicts, h, d, f);
      verdicts := Stored(verdicts, d, f, cjs);
    }

    method EsmCallsRequire(d: Disk, f: File, ghost h: set<Disk>) returns (requires_: bool)
      requires Valid(h) && StampsTell(h) && d in h
      modifies this
      ensures requires_ <==> EsmRequires(world, d, f)
      ensures Valid(h)
      ensures calls == old(calls) || calls == Stored(old(calls), d, f, requires_)
      ensures (EndsWith(f.name, ".js") || EndsWith(f.name, ".mjs")) && !IsCjs(world, d, f) && f in d.stamps ==>
                f in calls && calls[f] == Seen(d.stamps[f], requires_)
    {
      if !EndsWith(f.name, ".js") && !EndsWith(f.name, ".mjs") {
        return false;
      }
      var cjs := IsCjsFile(d, f, h);
      if cjs {
        return false;
      }
      var hit := Hit(calls, d, f);
      if hit.Some? {
        return hit.value;
      }
      requires_ := Sniff(CallsRequire, d, f);
      StoredStaysSound(world, CallsRequire, calls, h, d, f);
      calls := Stored(calls, d, f, requires_);
    }
  }

  // ------------------------------------------------------------ a whole session

  datatype Event = Edit(disk: Disk) | AskCjs(file: File) | AskRequire(file: File)

  function Moments(d: Disk, events: seq<Event>): set<Disk>
    decreases |events|
  {
    if events == [] then {d}
    else if events[0].Edit? then {d} + Moments(events[0].disk, events[1..])
    else Moments(d, events[1..])
  }

  /** What the uncached detector answers, question by question. */
  ghost function Uncached(w: World, d: Disk, events: seq<Event>): seq<bool>
    decreases |events|
  {
    if events == [] then []
    else match events[0]
      case Edit(e) => Uncached(w, e, events[1..])
      case AskCjs(f) => [IsCjs(w, d, f)] + Uncached(w, d, events[1..])
      case AskRequire(f) => [EsmRequires(w, d, f)] + Uncached(w, d, events[1..])
  }

  function DiskAfter(d: Disk, event: Event): Disk {
    if event.Edit? then event.disk else d
  }

  ghost function Reply(w: World, d: Disk, event: Event): seq<bool> {
    match event
    case Edit(_) => []
    case AskCjs(f) => [IsCjs(w, d, f)]
    case AskRequire(f) => [EsmRequires(w, d, f)]
  }

  lemma OneEvent(w: World, d: Disk, events: seq<Event>)
    requires events != []
    ensures d in Moments(d, events)
    ensures Moments(DiskAfter(d, events[0]), events[1..]) <= Moments(d, events)
    ensures Uncached(w, d, events) == Reply(w, d, events[0]) + Uncached(w, DiskAfter(d, events[0]), events[1..])
  {
    NowIsAMoment(d, events);
  }

  lemma NowIsAMoment(d: Disk, events: seq<Event>)
    ensures d in Moments(d, events)
  {
  }

  lemma NothingLeft(w: World, d: Disk, events: seq<Event>)
    requires events == []
    ensures Uncached(w, d, events) == []
  {
  }

  /** Any interleaving of edits and both questions, on one cache from empty: every
      answer is the uncached one, if equal modification times mean equal contents. */
  method Session(w: World, start: Disk, events: seq<Event>) returns (answers: seq<bool>)
    requires StampsTell(Moments(start, events))
    ensures answers == Uncached(w, start, events)
  {
    ghost var h := Moments(start, events);
    var cache := new Cache(w);
    hide Moments, Uncached, Sound, SoundWalks, StampsTell, IsCjs, EsmRequires, InModulePackage;
    var d, rest := start, events;
    answers := [];
    while rest != []
      invariant cache.Valid(h) && cache.world == w && fresh(cache)
      invariant Moments(d, rest) <= h
      invariant answers + Uncached(w, d, rest) == Uncached(w, start, events)
      decreases |rest|
    {
      OneEvent(w, d, rest);
      var event, answer := rest[0], false;
      ghost var was := answers;
      match event {
        case Edit(_) =>
        case AskCjs(f) =>
          answer := cache.IsCjsFile(d, f, h);
          answers := answers + [answer];
        case AskRequire(f) =>
          answer := cache.EsmCallsRequire(d, f, h);
          answers := answers + [answer];
      }
      assert answers == was + Reply(w, d, event);
      d, rest := DiskAfter(d, event), rest[1..];
    }
    NothingLeft(w, d, rest);
  }
}
