# oj: a verified model of its module cache and Node-API lifecycle

oj serves server-rendered pages from an embedded JavaScript engine and lets native
addons run inside it. This project models, in Dafny, the parts of it that keep
state under interleaving, and proves what they promise over every run.

**The versioned module graph.** V8 caches a module under its specifier forever, so oj
stamps every module id with a version. A change retires the changed ids and everything
that imports them; fresh specifiers then re-link exactly the retired part.

| file | holds |
|---|---|
| `ModuleGraph.dfy` | the graph and its operations as a class, the invalidation worklist, the Start engine's reload and revalidate |
| `SsrRun.dfy` | runs: mint, link, a load's read, look and record, edit, scan, walk, bump, respawn; one lock acquisition, read or stat per step |
| `SsrFreshness.dfy` | retired specifiers never come back; how many orphans an isolate can hold |
| `SsrCoherence.dfy` | when the isolate agrees with importing everything from disk |
| `SsrHistory.dfy` | the same decided by what a run did: reads, looks and records |
| `SsrFindings.dfy` | where it does not: exact conditions, and runs |
| `Specifier.dfy` | percent coding, and ids in and out of specifiers |
| `CjsCache.dfy`, `CjsRaces.dfy` | the mtime-keyed CommonJS detector, one caller at a time and many at once |
| `HtmlEnv.dfy` | the `%KEY%` scan against the regular expression it stands for |

**The Node-API lifecycle.** Garbage collection, addon calls, event-loop tasks, worker
threads and teardown race over finalizers, strings, functions, work items and handles.

| file | holds |
|---|---|
| `RefTracker.dfy`, `Finalizers.dfy` | finalizers of references, from registration to the one call or the drop |
| `ExternalStrings.dfy` | the registry that connects V8's string destructors to addon callbacks |
| `ThreadsafeFunction.dfy`, `AsyncWork.dfy` | reference counts, queue bounds and completions across threads |
| `UvHandles.dfy`, `UvAsync.dfy` | the event-loop reference ledger; closing an async handle under concurrent sends |
| `UvSemaphore.dfy`, `UvCondition.dfy` | semaphores and condition variables for any number of threads |

Code that changes fields in place is a class whose methods are proved against functions
on values; the same functions are the steps of the run models. A run is any sequence of
steps each of which is enabled where it is taken; fields called history record what
happened and influence nothing.

## What the proofs found

- A load reads a module's code, then takes its file's mtime, then records it. A file edited
  between the first two is recorded under an mtime its code was not read at, and no later
  invalidation finds it, although the comment at `crates/oj/src/ssr_host.rs:161-164` leaves
  such a change to the next tick. `EditMidLoadIsNeverNoticed` is the run, for every file and
  however many invalidations follow. `StaleIffEditedMidLoad` is the condition: after a quiet
  invalidation an instance still live is stale if and only if its file's mtime changed between
  its read and its look; `StaleIffLastRecordUntruthful` says the same of any recording, late
  ones of a replaced engine included. `ServesDiskIffUndisturbed` carries it to whole served
  trees over whole runs.
- A request mints its entry's specifier before the invalidation it triggers, so the
  request that first notices a change is served the instances of before the change. The
  header of `crates/oj/src/ssr_host.rs` says the next request's entry specifier is new;
  the code makes it so for the request after. `FirstRequestIsStale` says exactly when this
  shows, `EditedEntryIsServedStale` gives the smallest run, for every file and pair of mtimes.
- The same order lets a specifier retired before a respawn be loaded into the fresh isolate,
  where it is an orphan that `stale`, just reset, does not count. `StragglerBreaksTheBound`
  is such a run of edits and requests, `StepAddsStragglerIff` the exact condition on a step,
  `LeakBound` the bound that holds regardless, and `RecentLoadsKeepTheBound` the bound for an
  engine that mints only while it holds its isolate, as the Start engine does.
- Force-bumping a module that something else live imports cuts that importer off: a later
  edit of the module does not reach it. The Start engine bumps its entry at every reload, so
  an entry in an import cycle is hit: `EntryInCycleServesOld` is the run, in which every edit
  of the entry after one reload is served with the entry's first code beneath its importer,
  until a respawn. `BumpKeepsLinksIff` is the condition on the graph, in every state, and
  `BumpSafeIffNoLiveImporter` that on what is served, from a settled one.
- `percent_decode` panics on text with two bytes after a `%` that do not stand on character
  boundaries, and only then (`PanicsIffBadCut`); it also accepts a plus sign as a first
  hex digit. Neither occurs in encoded text, and its callers in `ssr_host.rs` pass it the path
  of a parsed URL, which is ASCII and never panics (`AsciiNeverPanics`).
- The virtual ids `.` and `..` do not survive their specifier: the URL parser resolves
  them away. All others do (`VirtualIdRecovers`).
- `uv_ref` on an async handle that is closing takes a loop reference nobody gives back
  (`RefWhileClosingLeaks`); `ClosedHandleHoldsIffRefed` says exactly when a closed handle
  still holds the loop.

## Model

| member | source | states |
|---|---|---|
| `ModuleGraph.CleanPath` | crates/oj/src/ssr_host.rs:63-71 | the file of an id is its longest prefix without a `?` |
| `ModuleGraph.MtimeOfFile` | crates/oj/src/ssr_host.rs:63-71 | an id, tagged or not, has the mtime of the absolute file it names, and none if there is no such file |
| `ModuleGraph.EditSeedsWhatNamesIt` | crates/oj/src/ssr_host.rs:173-177 | when one file gets a new mtime or goes, the ids found changed among current records are exactly those that name it, whatever their tags |
| `ModuleGraph.RetireAt` | crates/oj/src/ssr_host.rs:122-127 | retiring a set raises exactly its members' versions, by one, drops exactly their records and keeps every other record whole |
| `ModuleGraph.ClosureIsClosed` | crates/oj/src/ssr_host.rs:129-132 | the ids reachable along importer chains contain the recorded seeds and every recorded importer of a member |
| `ModuleGraph.ClosureIsLeast` | crates/oj/src/ssr_host.rs:129-132 | any set closed in this way contains all of them: they are the least one |
| `ModuleGraph.Visit` | crates/oj/src/ssr_host.rs:178-190 | the worklist, cycles included, ends with exactly the reachable ids retired and counts them |
| `ModuleGraph.VersionGraph.constructor` | crates/oj/src/ssr_host.rs:73-78 | a new graph knows no version, no record and no orphan |
| `ModuleGraph.VersionGraph.EdgeSpecifier` | crates/oj/src/ssr_host.rs:98-107 | adds the importer to the id's record, made unloaded if new, leaves every other record, version and count alone, and returns the version the id has |
| `ModuleGraph.VersionGraph.RecordLoaded` | crates/oj/src/ssr_host.rs:110-118 | sets the record's mtime to the file's, keeps its importers, and leaves every other record, version and count alone |
| `ModuleGraph.VersionGraph.Bump` | crates/oj/src/ssr_host.rs:120-127 | retires exactly the one id |
| `ModuleGraph.VersionGraph.Walk` | crates/oj/src/ssr_host.rs:178-190 | retires exactly the importer closure of the seeds and returns its size |
| `ModuleGraph.VersionGraph.InvalidateSeeded` | crates/oj/src/ssr_host.rs:158-191 | undisturbed, retires exactly the importer closure of the ids whose file changed, and returns its size and those ids |
| `ModuleGraph.VersionGraph.InvalidateFor` | crates/oj/src/ssr_host.rs:137-156 | the same, and answers a hit exactly when a changed id is a batch file under either spelling |
| `ModuleGraph.AnyHit` | crates/oj/src/ssr_host.rs:145-154 | the scan over spelled paths finds a hit exactly when two spellings name one file |
| `ModuleGraph.SameFileIsOneFile` | crates/oj/src/ssr_host.rs:145-154 | two paths match exactly when they canonicalize to one place |
| `ModuleGraph.VersionGraph.ResetAfterRespawn` | crates/oj/src/ssr_host.rs:197-204 | forgets records and orphans and keeps versions |
| `ModuleGraph.NothingChangedNothingDropped` | crates/oj/src/start_host.rs:1463-1472 | an invalidation drops something exactly when a recorded file changed |
| `ModuleGraph.ReloadMovesOnlyTheStale` | crates/oj/src/start_host.rs:1455-1461 | after a reload, respawn or not, versions have moved for the entry and the importers of changed files, by one for each reason, and for nothing else |
| `ModuleGraph.RevalidateRenewsIffChanged` | crates/oj/src/start_host.rs:1463-1486 | a revalidation renews the entry's specifier exactly when a file changed, and otherwise leaves the graph alone |
| `ModuleGraph.StartEngine.Reload` | crates/oj/src/start_host.rs:1455-1461 | invalidation, then a bump of the entry, then the respawn if due: the whole new graph |
| `ModuleGraph.StartEngine.Revalidate` | crates/oj/src/start_host.rs:1463-1472 | true exactly when a recorded file changed, with the whole new graph |
| `ModuleGraph.StartEngine.RevalidateFor` | crates/oj/src/start_host.rs:1474-1486 | reports only changes to batch files, yet retires as much as a full revalidation |
| `ModuleGraph.StartEngine.MaybeRespawn` | crates/oj/src/start_host.rs:1488-1504 | from 500 orphans on and if the boot succeeds, records and orphans are forgotten and versions kept; otherwise nothing changes |
| `SsrRun.RunsAppend` | crates/oj/src/ssr_host.rs:160-191 | runs compose: a run of a concatenation is a run of the parts, in turn |
| `SsrFindings.EditSetsMtime` | crates/oj/src/ssr_host.rs:63-71 | an edit gives exactly the ids of its file the mtime it says |
| `SsrFindings.FailedLoadCanBeRetried` | crates/oj/src/ssr_host.rs:350-354 | a load that fails leaves the state as before it |
| `SsrFreshness.VersionsNeverDecrease` | crates/oj/src/ssr_host.rs:197-204 | in every run, respawns included, no version goes down |
| `SsrFreshness.RetiredIsNeverMintedAgain` | crates/oj/src/ssr_host.rs:82-107 | once an id has moved past a specifier, no continuation hands that specifier out |
| `SsrFreshness.RetireKeepsLedger` | crates/oj/src/ssr_host.rs:178-190 | `stale` stays the exact number of versions passed since the last reset |
| `SsrFreshness.LeakBound` | crates/oj/src/ssr_host.rs:40-44 | in every run orphaned instances number at most `stale` plus those loaded under specifiers retired before the last reset |
| `SsrFreshness.StepAddsStragglerIff` | crates/oj/src/ssr_host.rs:539-551 | a step leaves such an instance exactly when it completes a load of a specifier older than the last reset |
| `SsrFreshness.FewOrphansUntilRespawn` | crates/oj/src/ssr_host.rs:40-44 | without such loads orphans are bounded by `stale`, and are fewer than 500 while no respawn is due |
| `SsrFreshness.RecentLoadsKeepTheBound` | crates/oj/src/start_host.rs:1395-1416 | an engine that loads only specifiers minted since its isolate was booted stays within the bound |
| `SsrFindings.StragglerBreaksTheBound` | crates/oj/src/ssr_host.rs:502-551 | for every file, 500 rounds of load, edit and request make a respawn due in the last request, which then leaves one orphan with `stale` zero |
| `SsrCoherence.StepKeepsBase` | crates/oj/src/ssr_host.rs:80-205 | every step of every run keeps: no specifier ahead of its id, every live instance recorded, nothing loaded while the engine is being replaced |
| `SsrCoherence.StepKeepsLinks` | crates/oj/src/ssr_host.rs:80-205 | every step whose bump hits nothing live imports keeps: what a live instance links to is current and records it as an importer |
| `SsrCoherence.BumpKeepsLinksIff` | crates/oj/src/ssr_host.rs:120-127 | and for a bump this is exact: it keeps the links if and only if nothing else live imports the bumped id |
| `SsrCoherence.StepKeepsCovered` | crates/oj/src/ssr_host.rs:160-191 | while no file changes, every live instance's record is current, found by the scan, or still to be statted as it is |
| `SsrCoherence.RecordsCurrentAfterQuiet` | crates/oj/src/ssr_host.rs:160-191 | if no file changes from a scan's start on, then after its walk every live instance's record is at its file's mtime, in every run and whatever else interleaves |
| `SsrCoherence.StaleIffLastRecordUntruthful` | crates/oj/src/ssr_host.rs:110-118 | after any later quiet invalidation an instance still live is fresh if and only if the last recording of its id was of the mtime the instance was read at |
| `SsrCoherence.StaleIffEditedMidLoad` | crates/oj/src/ssr_host.rs:346-360 | for a load with anything between its read, its look and its record: if and only if its file's mtime did not change between the read and the look |
| `SsrCoherence.StaleIffLies` | crates/oj/src/ssr_host.rs:110-118 | where records are current, something within n links is stale if and only if some record within n links is not of the mtime its code was read at |
| `SsrCoherence.CacheAgreesWithDisk` | crates/oj/src/ssr_host.rs:8-15 | in every run with safe bumps, after a quiet invalidation, the graph linked from the entry's current specifier is to depth n what a fresh import from disk gives, if and only if no record within n links lies about when its code was read |
| `SsrCoherence.StepKeepsHonest` | crates/oj/src/ssr_host.rs:110-118 | a recording that tells the truth about its id's live instance, and every other step, keeps all records truthful |
| `SsrCoherence.TruthfulRunServesDisk` | crates/oj/src/ssr_host.rs:8-15 | if all recordings of the run tell the truth, the entry is served as it is on disk, to every depth |
| `SsrHistory.RunKeepsHistory` | crates/oj/src/ssr_host.rs:346-360 | following only steps and disk gives, for every run, the mtime each instance was read at and the mtime recorded for each live one |
| `SsrHistory.ServesDiskIffUndisturbed` | crates/oj/src/ssr_host.rs:8-15 | in every run with safe bumps, after a quiet invalidation, the entry's tree is the disk's to depth n if and only if for no module within n links the file's mtime changed between the read of its code and the look last recorded for it |
| `SsrCoherence.WalkLeavesTheRest` | crates/oj/src/ssr_host.rs:129-191 | a quiet invalidation moves exactly the importers of files changed at its start; all other ids keep their version, instance and whole record |
| `SsrCoherence.ServesDiskIffNotStale` | crates/oj/src/ssr_host.rs:8-15 | a linked graph serves the disk's tree if and only if nothing in it was read before its file changed |
| `SsrFindings.StaleDropsImporters` | crates/oj/src/ssr_host.rs:129-132 | a scan that has covered everything drops every live id that links, at any depth, to something stale |
| `SsrFindings.FirstRequestIsStale` | crates/oj/src/ssr_host.rs:502-537 | a request that mints, invalidates and imports what it minted gets the disk's tree if and only if nothing was stale, though the entry has a new specifier by then |
| `SsrFindings.EditedEntryIsServedStale` | crates/oj/src/ssr_host.rs:502-537 | for every file loaded and then edited, the next request is served the old instance |
| `SsrFindings.EditMidLoadIsNeverNoticed` | crates/oj/src/ssr_host.rs:346-360 | for every file edited between its read and its look, an invalidation before the record and any number after leave the entry its specifier and the old code |
| `SsrFindings.BumpSafeIffNoLiveImporter` | crates/oj/src/ssr_host.rs:120-127 | from a settled state, after a bump, an edit of the bumped file and a whole scan, every live instance serves the disk to every depth if and only if nothing else live imported the bumped id |
| `SsrFindings.EntryInCycleServesOld` | crates/oj/src/start_host.rs:1455-1461 | for every entry and importer of it in a cycle: after one reload with nothing changed, each edited, revalidated and re-imported entry serves its first code two links down, up to the respawn threshold |
| `Specifier.HexDigit` | crates/oj/src/ssr_host.rs:572-583 | a nibble becomes an upper-case hex digit that reads back as the nibble |
| `Specifier.HexDigitsAre` | crates/oj/src/ssr_host.rs:572-601 | digit n is the n-th of 0 to 9 and A to F, is read in either case, and nothing else is read |
| `Specifier.UnreservedAre` | crates/oj/src/ssr_host.rs:576 | exactly the characters that section 2.3 of RFC 3986 leaves unreserved |
| `Specifier.PlusSignIsTaken` | crates/oj/src/ssr_host.rs:591 | a plus sign before a digit is read as a zero |
| `Specifier.BoundaryByHighBits` | crates/oj/src/ssr_host.rs:591 | text cannot be cut exactly before a byte whose high bits are 10 |
| `Specifier.PercentEncode` | crates/oj/src/ssr_host.rs:572-583 | the loop encodes byte by byte |
| `Specifier.PercentDecode` | crates/oj/src/ssr_host.rs:585-601 | the loop decodes triplets left to right, failing where the text cannot be cut |
| `Specifier.EncodeSafe` | crates/oj/src/ssr_host.rs:572-583 | encoded text is unreserved characters of section 2.3 of RFC 3986 and percent signs |
| `Specifier.DecodeUndoesEncode` | crates/oj/src/ssr_host.rs:572-601 | decoding an encoded byte string gives it back |
| `Specifier.TripletDecodes` | crates/oj/src/ssr_host.rs:585-601 | a percent sign and two digits of either case become the byte they number, and decoding goes on after them |
| `Specifier.NoTripletsNoChange` | crates/oj/src/ssr_host.rs:585-601 | text without triplets is kept as it stands |
| `Specifier.SpecifierExample` | crates/oj/src/ssr_host.rs:238-246 | one specifier, written out |
| `Specifier.PanicsIffBadCut` | crates/oj/src/ssr_host.rs:585-601 | decoding fails if and only if some percent sign is followed by two bytes that are not cut at character boundaries |
| `Specifier.AsciiNeverPanics` | crates/oj/src/ssr_host.rs:585-601 | decoding ASCII text never fails |
| `Specifier.PanicExample` | crates/oj/src/ssr_host.rs:585-601 | one text that is not ASCII on which it does |
| `Specifier.EncodedDotSegment` | crates/oj/src/ssr_host.rs:238-246 | the encoding of an id is a URL dot segment exactly for the ids `.` and `..` |
| `Specifier.VirtualIdRecovers` | crates/oj/src/ssr_host.rs:238-294 | the id comes back from its specifier if and only if it is neither `.` nor `..` |
| `Specifier.SpecifiersAreDistinct` | crates/oj/src/ssr_host.rs:238-246 | two pairs of virtual id and version have one specifier only if they are equal |
| `CjsCache.Cache.constructor` | crates/oj/src/start_host.rs:194-202 | an empty cache is right for every session |
| `CjsCache.Cache.Walk` | crates/oj/src/start_host.rs:209-227 | finds the nearest package.json within 40 directories and answers whether its type is module |
| `CjsCache.OnlyManifestDecides` | crates/oj/src/start_host.rs:209-227 | a single package.json decides exactly if it is within 40 directories and says module; a broken or untyped one does not |
| `CjsCache.NearerManifestHides` | crates/oj/src/start_host.rs:209-227 | of two the nearer one decides |
| `CjsCache.AncestorsAreParents` | crates/oj/src/start_host.rs:226 | the walk goes from parent to parent |
| `CjsCache.DetectorByName` | crates/oj/src/start_host.rs:235-300 | what the detector answers for `.cjs`, `.js` and `.mjs` files, from their text and package |
| `CjsCache.Cache.NearestPkgIsModule` | crates/oj/src/start_host.rs:205-233 | the answer from the table or the walk is that of the walk, and the table stays right |
| `CjsCache.StoredStaysSound` | crates/oj/src/start_host.rs:262-267 | storing a verdict under the file's mtime keeps the table right at every moment of the session |
| `CjsCache.StoredVerdictHits` | crates/oj/src/start_host.rs:251-267 | a stored verdict answers exactly while the file keeps its mtime |
| `CjsCache.Cache.IsCjsFile` | crates/oj/src/start_host.rs:235-269 | answers as the uncached detector does now, stores what it sniffed under the file's mtime, and leaves tables that are right for the whole session |
| `CjsCache.Cache.EsmCallsRequire` | crates/oj/src/start_host.rs:277-300 | the same for ES modules that call an undeclared require |
| `CjsCache.Session` | crates/oj/src/start_host.rs:182-301 | any sequence of edits and both questions on one cache gets the uncached answers, if equal mtimes mean equal contents |
| `CjsRaces.VouchedLater` | crates/oj/src/start_host.rs:251-267 | an edit that gives a file a new mtime or leaves it alone cannot make a stored verdict wrong for its mtime |
| `CjsRaces.AnswersAreRecent` | crates/oj/src/start_host.rs:251-267 | with any threads, and edits between the stat, lookup, read and store of a call, every answer fits the text the file had at some moment since the call began |
| `CjsRaces.StoredVerdictIsReused` | crates/oj/src/start_host.rs:251-267 | what one call stored answers the next one at the same mtime without a read |
| `CjsRaces.MissReadsTheFile` | crates/oj/src/start_host.rs:258-261 | a call that finds nothing for its mtime judges the file as it is when it reads |
| `HtmlEnv.First` | fuzz/fuzz_targets/fuzz_html_env.rs:12-17 | a match that is leftmost and, from there, shortest, or none exists |
| `HtmlEnv.JsWhitespaceIs` | fuzz/fuzz_targets/fuzz_html_env.rs:49-62 | exactly the white space and line terminators of ECMAScript, by code point |
| `HtmlEnv.FirstIs` | fuzz/fuzz_targets/fuzz_html_env.rs:12-17 | there is only one such match |
| `HtmlEnv.SomeMatchIsFirst` | fuzz/fuzz_targets/fuzz_html_env.rs:12-17 | a text with any match has a first one |
| `HtmlEnv.FindClose` | fuzz/fuzz_targets/fuzz_html_env.rs:24-33 | finds the shortest match at the opener or shows that none starts there |
| `HtmlEnv.FindPercent` | fuzz/fuzz_targets/fuzz_html_env.rs:21-23 | finds the first percent sign |
| `HtmlEnv.SkipUnmatched` | fuzz/fuzz_targets/fuzz_html_env.rs:34-38 | text in which no match starts is copied |
| `HtmlEnv.TakeMatch` | fuzz/fuzz_targets/fuzz_html_env.rs:39-43 | a match at the front is consumed whole and its replacement is not scanned again |
| `HtmlEnv.Scan` | fuzz/fuzz_targets/fuzz_html_env.rs:18-47 | the scan equals global replacement by the regular expression, for every text and map |
| `HtmlEnv.ReplaceHtmlEnv` | crates/oj_env/src/html.rs:32-65 | so does the shipped function, its shortcuts included |
| `HtmlEnv.NoKnownKeyIsIdentity` | crates/oj_env/src/html.rs:26-31 | text that holds no placeholder of a known key is unchanged |
| `HtmlEnv.PlaceholderIsReplaced` | crates/oj_env/src/html.rs:56-62 | the first placeholder becomes the value of a known key and stays for an unknown one; what is before and after is as on its own |
| `HtmlEnv.EmptyEnvIsIdentity` | crates/oj_env/src/html.rs:33-35 | with an empty map every text is unchanged |
| `RefTracker.RefTracker.constructor` | crates/oj_deno_napi/lib.rs:401-414 | a new tracker owes nothing |
| `RefTracker.RefTracker.AddFinalizer` | crates/oj_deno_napi/lib.rs:445-465 | registers under the next number and returns it |
| `RefTracker.RefTracker.RemoveFinalizer` | crates/oj_deno_napi/lib.rs:467-475 | true exactly when the entry was pending; takes out that entry alone |
| `RefTracker.RefTracker.DeferFinalizer` | crates/oj_deno_napi/lib.rs:427-435 | appends to the ready list; asks for a drain exactly when none was requested |
| `RefTracker.RefTracker.TakeReady` | crates/oj_deno_napi/lib.rs:437-443 | hands out the ready list whole and lowers the flag |
| `RefTracker.RefTracker.TakePending` | crates/oj_deno_napi/lib.rs:417-425 | hands out the ready list, then the pending ones in registration order, and keeps nothing |
| `RefTracker.ValuesBelowMembers` | crates/oj_deno_napi/lib.rs:395-399 | iterating the map gives exactly its entries |
| `RefTracker.ValuesBelowIncreasing` | crates/oj_deno_napi/lib.rs:395-399 | and gives them in strictly increasing registration order |
| `RefTracker.StepRefines` | crates/oj_deno_napi/lib.rs:392-476 | one operation on the map does to the list, and answers, what the list operation does |
| `RefTracker.MapRefinesList` | crates/oj_deno_napi/lib.rs:392-476 | over every sequence of operations the map's answers are those of a list that deletes by identity |
| `RefTracker.TeardownOrder` | crates/oj_deno_runtime/worker.rs:1140-1153 | teardown runs exactly the surviving registrations, strictly latest first, then what the GC had ready |
| `Finalizers.Reference.constructor` | crates/oj_deno_napi/js_native_api.rs:54-93 | starts weak exactly when the count is zero, and registers its finalizer if it has one |
| `Finalizers.Reference.RefUp` | crates/oj_deno_napi/js_native_api.rs:95-101 | counts up by one and answers the count; a weak reference counted up from zero is strong |
| `Finalizers.Reference.Unref` | crates/oj_deno_napi/js_native_api.rs:103-117 | counts down by one, not below zero, and answers the count; a strong reference that gets to zero is weak |
| `Finalizers.Reference.Reset` | crates/oj_deno_napi/js_native_api.rs:122-131 | gives the finalizer up; true exactly when it was still pending |
| `Finalizers.Reference.WeakCallback` | crates/oj_deno_napi/js_native_api.rs:154-221 | moves a finalizer that is still pending, and no other, to the ready list |
| `Finalizers.StepConserves` | crates/oj_deno_napi/lib.rs:416-476 | every step keeps each registration in exactly one of pending, ready, a batch, run, dropped |
| `Finalizers.CollectedOnlyAtZero` | crates/oj_deno_napi/js_native_api.rs:95-152 | in every run an object is held strongly exactly while its count is positive, so the GC takes it only at zero, and may once it gets there |
| `Finalizers.FreedExactlyWhen` | crates/oj_deno_napi/js_native_api.rs:205-255 | a reference goes when it is deleted and, if the runtime owns it, when its object is collected or unwrapped, and otherwise stays |
| `Finalizers.DrainRunsInOrder` | crates/oj_deno_napi/lib.rs:850-893 | a drain runs what was ready in the order of collection |
| `Finalizers.CollectedFinalizerRuns` | crates/oj_deno_napi/lib.rs:816-893 | a pending finalizer whose object is collected has a drain on its way that runs it |
| `Finalizers.TeardownRunsInOrder` | crates/oj_deno_runtime/worker.rs:1127-1155 | a teardown runs the survivors, latest registered first, then what was ready |
| `Finalizers.StepKeepsInv` | crates/oj_deno_napi/js_native_api.rs:154-255 | and keeps calls faithful, owners unique, drains scheduled and the teardown mark |
| `Finalizers.ExactlyOnce` | crates/oj_deno_napi/lib.rs:467-475 | in every run a registration is waiting, run or dropped, once in all: it runs at most once and never after being dropped |
| `Finalizers.RunsWhatWasRegistered` | crates/oj_deno_napi/lib.rs:850-893 | every callback that ran got its registration's own arguments |
| `Finalizers.TeardownFinishesAll` | crates/oj_deno_runtime/worker.rs:1127-1155 | after a teardown and the batches under way, each earlier registration ran once or was dropped |
| `Finalizers.NeverStranded` | crates/oj_deno_napi/lib.rs:816-893 | a non-empty ready list has its drain requested, and a requested drain has a task queued |
| `Finalizers.OneOwner` | crates/oj_deno_napi/js_native_api.rs:231-255 | a pending entry belongs to exactly one reference that still exists |
| `ExternalStrings.ExternalStringFinalizers.constructor` | crates/oj_deno_napi/js_native_api.rs:1421-1431 | starts empty |
| `ExternalStrings.ExternalStringFinalizers.Register` | crates/oj_deno_napi/js_native_api.rs:1433-1467 | refuses a key that is live, otherwise takes the next number |
| `ExternalStrings.ExternalStringFinalizers.Cancel` | crates/oj_deno_napi/js_native_api.rs:1469-1478 | takes out an entry exactly when the key still points at it |
| `ExternalStrings.ExternalStringFinalizers.Complete` | crates/oj_deno_napi/js_native_api.rs:1493-1502 | takes the entry out and returns it, or nothing if it is gone |
| `ExternalStrings.ExternalStringFinalizers.Queue` | crates/oj_deno_napi/js_native_api.rs:1504-1533 | frees the key and marks the entry ready, or hands it out for a direct call when its env is gone |
| `ExternalStrings.ExternalStringFinalizers.Detach` | crates/oj_deno_napi/js_native_api.rs:1540-1572 | takes out exactly the ready entries of the env and hides the env in exactly the others |
| `ExternalStrings.DetachSparesOthers` | crates/oj_deno_napi/js_native_api.rs:1545-1562 | entries of other envs are left as they are |
| `ExternalStrings.BeginRegistersIff` | crates/oj_deno_napi/js_native_api.rs:1733-1752 | a create call is registered exactly when it brings a callback, its string is not empty and its key is not live |
| `ExternalStrings.StepKeepsInv` | crates/oj_deno_napi/js_native_api.rs:1433-1572 | every step keeps the registry well keyed, truthful, conserved and in step with V8's live strings and the create calls |
| `ExternalStrings.RegistryShape` | crates/oj_deno_napi/js_native_api.rs:1415-1431 | in every run `active` points one to one at exactly the entries not ready, a ready entry has an env and a completion queued or about to be, and an entry has lost its env exactly if that is detached |
| `ExternalStrings.DeliveredAtMostOnce` | crates/oj_deno_napi/js_native_api.rs:1469-1538 | in every run a registration is in the registry, delivered or cancelled, once in all |
| `ExternalStrings.SuccessFinalizesOnce` | crates/oj_deno_napi/js_native_api.rs:1715-1789 | a successful create with a callback is finalized exactly once, at once, or delivered or still owed by the registry; one without a callback never is |
| `ExternalStrings.DestructorFindsItsOwn` | crates/oj_deno_napi/js_native_api.rs:1504-1533 | a destructor reaches the callback and hint its own string was created with, even under a reused key: queued on its env's loop, or called at once exactly if that env is detached |
| `ExternalStrings.DeliveredWithItsEnv` | crates/oj_deno_napi/js_native_api.rs:1480-1491 | every delivery carries the env its string was created in, or none exactly if that was detached before |
| `ExternalStrings.NoEnvAfterDetach` | crates/oj_deno_napi/js_native_api.rs:1540-1572 | once an env is detached no later delivery carries it |
| `ExternalStrings.ImmediateBeforeDetach` | crates/oj_deno_napi/js_native_api.rs:1715-1789 | nor does an immediate call |
| `ThreadsafeFunction.ZeroIsAbsorbing` | crates/oj_deno_napi/node_api.rs:965-987 | after the count reaches zero no continuation gives a thread a reference |
| `ThreadsafeFunction.StepKeepsCounted` | crates/oj_deno_napi/node_api.rs:965-1035 | the count stays the number of references, and only the thread that brought it to zero may spawn the drop |
| `ThreadsafeFunction.AtMostOneDrop` | crates/oj_deno_napi/node_api.rs:989-1035 | at most one drop task is spawned and the finalizer runs at most once |
| `ThreadsafeFunction.LastReleaseDrops` | crates/oj_deno_napi/node_api.rs:1018-1032 | with no reference left and nobody inside a release the drop has been spawned, and with the queue empty the finalizer has run |
| `ThreadsafeFunction.AbortCloses` | crates/oj_deno_napi/node_api.rs:989-1022 | a release with abort or of the last reference closes the function with its next step, and then checks answer closing and woken callers give up |
| `ThreadsafeFunction.AbortIsForGood` | crates/oj_deno_napi/node_api.rs:1006-1016 | from there on in every continuation no call is begun, no reference asked for, and only calls past their check are still answered ok |
| `ThreadsafeFunction.PlainReleaseKeepsOpen` | crates/oj_deno_napi/node_api.rs:989-1035 | a release that neither aborts nor is the last gives up one reference and closes nothing |
| `ThreadsafeFunction.AcquireTakesReference` | crates/oj_deno_napi/node_api.rs:965-987 | an acquire takes a reference exactly when there still is one |
| `ThreadsafeFunction.CallWithRoomSucceeds` | crates/oj_deno_napi/node_api.rs:1062-1144 | a call that finds the function open and room in the queue is answered ok and queued last |
| `ThreadsafeFunction.FullQueueTurnsAway` | crates/oj_deno_napi/node_api.rs:1071-1085 | on a full queue a call parks if it may block and otherwise gives up unanswered; a woken one asks for room again |
| `ThreadsafeFunction.QueueIsExact` | crates/oj_deno_napi/node_api.rs:1062-1144 | the queue size is the number of counted calls not dispatched, within its bound, and never underflows |
| `ThreadsafeFunction.OneCallbackPerCall` | crates/oj_deno_napi/node_api.rs:1062-1144 | a call answered ok is queued or called back, once in all; no other call is |
| `ThreadsafeFunction.FinalizerComesLast` | crates/oj_deno_napi/node_api.rs:945-1035 | if callers hold references, then when the finalizer has run every ok call was called back and none is under way |
| `AsyncWork.StepKeepsLedger` | crates/oj_deno_napi/node_api.rs:801-908 | every step keeps the queue ledger and one loop reference per unfinished task |
| `AsyncWork.QueueLedger` | crates/oj_deno_napi/node_api.rs:801-908 | effective queueings are starts plus effective cancels plus the one queued, which always has a task yet to try it |
| `AsyncWork.TurnedAwayAreTheCancelled` | crates/oj_deno_napi/node_api.rs:894-908 | once every task has tried, those that did not execute number exactly the effective cancels |
| `AsyncWork.OneCompletionPerTask` | crates/oj_deno_napi/node_api.rs:826-888 | each finished task completes once, with ok exactly when it executed |
| `AsyncWork.QueueAndCancelTakeEffectIff` | crates/oj_deno_napi/node_api.rs:801-825 | a queueing takes effect unless the work is queued already, a cancel exactly when it is |
| `AsyncWork.TryDecidesTheStatus` | crates/oj_deno_napi/node_api.rs:835-876 | a task executes exactly when it finds the work queued, and otherwise reports cancelled or a failure by whether it found it idle or running |
| `AsyncWork.IdleWhenFinished` | crates/oj_deno_napi/node_api.rs:847-856 | when all tasks have finished the work is idle and holds no loop reference |
| `UvHandles.CountFollowsClaim` | crates/oj_deno_napi/uv.rs:1085-1168 | every handle call changes the loop's count by the change in the handle's claim, plus one for a close task |
| `UvHandles.UvHandle.constructor` | crates/oj_deno_napi/uv.rs:210-254 | a new handle is refed and inactive; an async one holds the loop |
| `UvHandles.UvHandle.UvRef` | crates/oj_deno_napi/uv.rs:1085-1126 | sets the flag alone, and the count moves by the change in the handle's claim on the loop |
| `UvHandles.UvHandle.UvUnref` | crates/oj_deno_napi/uv.rs:1128-1168 | clears the flag alone, with the same balance |
| `UvHandles.UvHandle.UvCheckStart` | crates/oj_deno_napi/uv.rs:806-828 | active afterwards, with the same balance; every start with a callback queues a call of it |
| `UvHandles.UvHandle.UvCheckStop` | crates/oj_deno_napi/uv.rs:831-841 | inactive afterwards, with the same balance |
| `UvHandles.UvHandle.UvPollStart` | crates/oj_deno_napi/uv.rs:913-986 | fails without a bridge and otherwise is active afterwards, with the same balance |
| `UvHandles.UvHandle.UvPollStop` | crates/oj_deno_napi/uv.rs:1010-1028 | inactive afterwards if it has a bridge, with the same balance |
| `UvHandles.UvHandle.UvClose` | crates/oj_deno_napi/uv.rs:284-352 | an async handle is closing and unrefed afterwards and spawns one close task, the first time only; check and bridged poll handles are inactive afterwards and their close callback is called at once; the count is balanced |
| `UvHandles.CountIsWhatIsOwed` | crates/oj_deno_napi/uv.rs:1315-1347 | in every run the count is refed async handles, active refed check and poll handles, close tasks, queued work, async-work tasks and refed threadsafe functions, and zero exactly when there are none |
| `UvHandles.StepMovesItsClaim` | crates/oj_deno_napi/node_api.rs:1037-1060 | each step adds or takes exactly the claim it is about: work, async work, functions refed and unrefed, close tasks, new handles |
| `UvHandles.ClosedHandleIsStopped` | crates/oj_deno_napi/uv.rs:339-345 | after its close a check or poll handle keeps no loop alive until it is started again |
| `UvHandles.ClosedHandleHoldsIffRefed` | crates/oj_deno_napi/uv.rs:296-330 | a closed async handle holds the loop exactly when the last ref or unref call since its close is a ref |
| `UvHandles.RefWhileClosingLeaks` | crates/oj_deno_napi/uv.rs:1085-1126 | a run that ends with nothing but a closed handle and a count of one |
| `UvAsync.StepKeepsInv` | crates/oj_deno_napi/uv.rs:192-352 | the strong count stays the handle's reference, the clones of senders and of a closing call, and queued sends together |
| `UvAsync.FreedAfterTheLast` | crates/oj_deno_napi/uv.rs:192-208 | the shared state is freed exactly when the handle's reference and every clone are gone |
| `UvAsync.OneCloseCallback` | crates/oj_deno_napi/uv.rs:284-330 | however often close is called, one close callback is due, and has run once when the queue is empty |
| `UvAsync.SilentAfterClose` | crates/oj_deno_napi/uv.rs:256-282 | after close no send is called back, whenever it was queued |
| `UvAsync.SendsAreCalledBackInOrder` | crates/oj_deno_napi/uv.rs:256-279 | sends are called back in the order they were queued, and until close every queued one is called back or still queued |
| `UvAsync.LateSendIsDropped` | crates/oj_deno_napi/uv.rs:256-279 | a send that looks after close queues nothing, one that looks before goes on |
| `UvSemaphore.StepKeepsInv` | crates/oj_deno_napi/uv.rs:1432-1467 | while a thread is parked at least as many threads are notified as the count says |
| `UvSemaphore.WaitTakesIffPositive` | crates/oj_deno_napi/uv.rs:1441-1467 | a wait takes one exactly when there is one, otherwise parks, or if it may not block changes nothing |
| `UvSemaphore.PostWakesOne` | crates/oj_deno_napi/uv.rs:1432-1438 | a post adds one and wakes one of the parked, if any |
| `UvSemaphore.NoWaiterForgotten` | crates/oj_deno_napi/uv.rs:1403-1467 | initial value plus posts is count plus takes, the count is not negative, and a positive count never leaves all waiters asleep |
| `UvCondition.StepKeepsInv` | crates/oj_deno_napi/uv.rs:1628-1688 | each mutex is held by exactly the thread whose place in the code says so |
| `UvCondition.NoLostWakeup` | crates/oj_deno_napi/uv.rs:1555-1559 | at every notification all who gave up the addon mutex to wait are parked: a broadcast wakes all, a signal exactly one if there is any |
| `UvCondition.WaitAnswersItsWaker` | crates/oj_deno_napi/uv.rs:1645-1688 | a wait ends holding the addon mutex and answers a timeout exactly when a timeout woke it |
| `UvCondition.WakersAreToldApart` | crates/oj_deno_napi/uv.rs:1676-1687 | a parked thread is woken by its timeout or a notification, and knows which |
| `UvCondition.LockOrder` | crates/oj_deno_napi/uv.rs:1645-1688 | no thread asks for the addon mutex while it holds the internal one |
| `UvCondition.InternalHolderMoves` | crates/oj_deno_napi/uv.rs:1628-1688 | whoever holds the internal mutex can take a step at once |
| `UvCondition.NoDeadlock` | crates/oj_deno_napi/uv.rs:1628-1688 | whenever a thread is blocked, some thread in the library can move or the addon's own code holds the mutex |

## Left out

- V8, handle scopes, values and properties: garbage collection is only "may collect an object held weakly"; finalizers and callbacks are opaque.
- Integer widths: versions, registration numbers and reference counts are unbounded; the source's `u64` and `u32` do not wrap here.
- `Url::from_file_path` and parsing of file URLs: only virtual specifiers are modelled; `UrlPath` is the parser on one-segment URLs of oj's scheme.
- Specifier.PercentDecode: gives the decoded bytes; replacing invalid UTF-8 in them afterwards is not modelled.
- SsrCoherence.CacheAgreesWithDisk: importers are versioned modules, equal mtimes mean equal contents, and no load under way when the invalidation starts has looked at its file before the file's last change.
- SsrFindings.BumpSafeIffNoLiveImporter: states the case where the bumped id alone stands for its file and nothing else is stale; a bump amid other changes is covered by the links condition of `SsrCoherence.StepKeepsLinks`.
- ModuleGraph.VersionGraph.InvalidateSeeded: states the undisturbed call; the gap between its snapshot and its walk is in the step model of `SsrRun.dfy`, where `SsrCoherence.WalkLeavesTheRest` states the disturbed one.
- ModuleGraph.VersionGraph.InvalidateFor: states the undisturbed call, as the one before.
- CjsCache.Session: package.json files are fixed for the session, and whether a text has ESM syntax or calls an undeclared require is a parameter.
- ThreadsafeFunction.QueueIsExact: progress of callers blocked on a full queue is not stated, nor is reclamation inside a release finer than one atomic operation.
- ThreadsafeFunction.FinalizerComesLast: assumes what Node-API asks of threads, that they call and release only while they hold a reference of their own.
- ThreadsafeFunction and AsyncWork are step models on values: their fields are atomics that several threads write, so no single method call changes them.
- AsyncWork.OneCompletionPerTask: two executions of one item may overlap when it is queued again while running; nothing excludes that in the source.
- UvHandles.UvHandle.UvPollStart: the thread that polls and the bridge it watches are not modelled; only the handle and the loop's count are.
- `uv_timer_*`, `uv_thread_*`, idle handles, handle sizes, and the registries that map addon memory to semaphores and condition variables: platform glue.
- The resolve, load and transform bridge, plugins, HTTP routes and child processes: I/O over libraries outside this model.
