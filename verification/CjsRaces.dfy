/**
The detector's tables shared by several threads while files are edited. The lock
is held for one lookup or one insertion, so a call is four steps: it takes the
modification time, looks the table up, reads the file, and stores the verdict,
and anything may happen between two of them.

`past` is every disk there has been, the present one last; `answers` records each
answer with the moment at which its call took the modification time.
*/
module CjsRaces {
  import opened Options
  import opened CjsCache

  datatype Call =
    | Statted(file: File, since: int, stamp: Option<int>)
    | Missed(file: File, since: int, stamp: Option<int>)
    | Judged(file: File, since: int, stamp: Option<int>, verdict: bool)

  datatype Answer = Answer(file: File, since: int, verdict: bool)

  datatype State = State(past: seq<Disk>, table: map<File, Seen>, calls: map<int, Call>, answers: seq<Answer>)

  datatype Step = Edit(disk: Disk) | Stat(thread: int, file: File) | Look(thread: int) | Read(thread: int) | Store(thread: int)

  predicate Stamped(d: Disk, f: File, stamp: int) {
    f in d.stamps && d.stamps[f] == stamp
  }

  function StampOf(d: Disk, f: File): Option<int> {
    if f in d.stamps then Some(d.stamps[f]) else None
  }

  /** An edit leaves a file alone or gives it a modification time it never had. */
  ghost predicate FreshStamps(past: seq<Disk>, d: Disk)
    requires past != []
  {
    forall f, i :: 0 <= i < |past| && f in d.stamps && Stamped(past[i], f, d.stamps[f]) ==>
      Stamped(past[|past| - 1], f, d.stamps[f]) && SameText(past[|past| - 1], d, f)
  }

  ghost predicate Enabled(s: State, step: Step) {
    s.past != [] &&
    match step
    case Edit(d) => FreshStamps(s.past, d)
    case Stat(t, _) => t !in s.calls
    case Look(t) => t in s.calls && s.calls[t].Statted?
    case Read(t) => t in s.calls && s.calls[t].Missed?
    case Store(t) => t in s.calls && s.calls[t].Judged?
  }

  function Give(s: State, t: int, c: Call, verdict: bool): State {
    s.(calls := s.calls - {t}, answers := s.answers + [Answer(c.file, c.since, verdict)])
  }

  ghost function Next(w: World, q: Question, s: State, step: Step): State
    requires Enabled(s, step)
  {
    var now := s.past[|s.past| - 1];
    match step
    case Edit(d) => s.(past := s.past + [d])
    case Stat(t, f) => s.(calls := s.calls[t := Statted(f, |s.past| - 1, StampOf(now, f))])
    case Look(t) =>
      var c := s.calls[t];
      if c.stamp.Some? && c.file in s.table && s.table[c.file].stamp == c.stamp.value
      then Give(s, t, c, s.table[c.file].verdict)
      else s.(calls := s.calls[t := Missed(c.file, c.since, c.stamp)])
    case Read(t) =>
      var c := s.calls[t];
      s.(calls := s.calls[t := Judged(c.file, c.since, c.stamp, Judge(w, q, now, c.file))])
    case Store(t) =>
      var c := s.calls[t];
      var after := if c.stamp.Some? then s.(table := s.table[c.file := Seen(c.stamp.value, c.verdict)]) else s;
      Give(after, t, c, c.verdict)
  }

  ghost predicate Runs(w: World, q: Question, s: State, steps: seq<Step>)
    decreases |steps|
  {
    steps == [] || (Enabled(s, steps[0]) && Runs(w, q, Next(w, q, s, steps[0]), steps[1..]))
  }

  ghost function Exec(w: World, q: Question, s: State, steps: seq<Step>): State
    requires Runs(w, q, s, steps)
    decreases |steps|
  {
    if steps == [] then s else Exec(w, q, Next(w, q, s, steps[0]), steps[1..])
  }

  // ---------------------------------------------------------------- the invariant

  predicate JudgedAt(w: World, q: Question, past: seq<Disk>, f: File, verdict: bool, k: int) {
    0 <= k < |past| && (verdict <==> Judge(w, q, past[k], f))
  }

  /** The verdict was the right one at moment `i` or at a later one. */
  ghost predicate RightSince(w: World, q: Question, past: seq<Disk>, f: File, verdict: bool, i: int) {
    exists k :: i <= k && JudgedAt(w, q, past, f, verdict, k)
  }

  ghost predicate Shown(past: seq<Disk>, f: File, stamp: int) {
    exists i :: 0 <= i < |past| && Stamped(past[i], f, stamp)
  }

  /** A verdict kept under a modification time has been right since every moment
      that showed this modification time, and there has been one. */
  ghost predicate Vouched(w: World, q: Question, past: seq<Disk>, f: File, stamp: int, verdict: bool) {
    && Shown(past, f, stamp)
    && forall i :: 0 <= i < |past| && Stamped(past[i], f, stamp) ==> RightSince(w, q, past, f, verdict, i)
  }

  ghost predicate GoodCall(w: World, q: Question, past: seq<Disk>, c: Call) {
    && 0 <= c.since < |past|
    && (c.stamp.Some? ==> Stamped(past[c.since], c.file, c.stamp.value))
    && (c.Judged? ==> RightSince(w, q, past, c.file, c.verdict, c.since))
    && (c.Judged? && c.stamp.Some? ==> Vouched(w, q, past, c.file, c.stamp.value, c.verdict))
  }

  ghost predicate Inv(w: World, q: Question, s: State) {
    && s.past != []
    && (forall f :: f in s.table ==> Vouched(w, q, s.past, f, s.table[f].stamp, s.table[f].verdict))
    && (forall t :: t in s.calls ==> GoodCall(w, q, s.past, s.calls[t]))
    && (forall a :: a in s.answers ==> 0 <= a.since < |s.past| && RightSince(w, q, s.past, a.file, a.verdict, a.since))
  }

  lemma RightLater(w: World, q: Question, past: seq<Disk>, d: Disk, f: File, verdict: bool, i: int)
    requires RightSince(w, q, past, f, verdict, i)
    ensures RightSince(w, q, past + [d], f, verdict, i)
  {
    var k :| i <= k && JudgedAt(w, q, past, f, verdict, k);
    assert JudgedAt(w, q, past + [d], f, verdict, k);
  }

  /** The step at which fresh modification times are needed: if the new disk still
      shows `stamp`, so did the disk before it, with the same text. */
  lemma RightNow(w: World, q: Question, past: seq<Disk>, d: Disk, f: File, stamp: int, verdict: bool)
    requires past != [] && FreshStamps(past, d) && Vouched(w, q, past, f, stamp, verdict) && Stamped(d, f, stamp)
    ensures RightSince(w, q, past + [d], f, verdict, |past|)
  {
    var n := |past|;
    var j :| 0 <= j < n && Stamped(past[j], f, stamp);
    assert Stamped(past[n - 1], f, stamp) && SameText(past[n - 1], d, f);
    assert RightSince(w, q, past, f, verdict, n - 1);
    var k :| n - 1 <= k && JudgedAt(w, q, past, f, verdict, k);
    assert JudgedAt(w, q, past + [d], f, verdict, n);
  }

  lemma VouchedLater(w: World, q: Question, past: seq<Disk>, d: Disk, f: File, stamp: int, verdict: bool)
    requires past != [] && FreshStamps(past, d) && Vouched(w, q, past, f, stamp, verdict)
    ensures Vouched(w, q, past + [d], f, stamp, verdict)
  {
    var n, longer := |past|, past + [d];
    var j :| 0 <= j < n && Stamped(past[j], f, stamp);
    assert Stamped(longer[j], f, stamp);
    forall i | 0 <= i < n + 1 && Stamped(longer[i], f, stamp)
      ensures RightSince(w, q, longer, f, verdict, i)
    {
      if i < n {
        assert Stamped(past[i], f, stamp);
        RightLater(w, q, past, d, f, verdict, i);
      } else {
        RightNow(w, q, past, d, f, stamp, verdict);
      }
    }
  }

  lemma CallLater(w: World, q: Question, past: seq<Disk>, d: Disk, c: Call)
    requires past != [] && FreshStamps(past, d) && GoodCall(w, q, past, c)
    ensures GoodCall(w, q, past + [d], c)
  {
    hide RightSince, Vouched, FreshStamps;
    if c.Judged? {
      RightLater(w, q, past, d, c.file, c.verdict, c.since);
      if c.stamp.Some? {
        VouchedLater(w, q, past, d, c.file, c.stamp.value, c.verdict);
      }
    }
  }

  /** What is read now is right since every moment there has been. */
  lemma ReadIsRight(w: World, q: Question, past: seq<Disk>, c: Call)
    requires past != [] && c.Missed? && GoodCall(w, q, past, c)
    ensures GoodCall(w, q, past, Judged(c.file, c.since, c.stamp, Judge(w, q, past[|past| - 1], c.file)))
  {
    assert JudgedAt(w, q, past, c.file, Judge(w, q, past[|past| - 1], c.file), |past| - 1);
  }

  lemma EditKeepsInv(w: World, q: Question, s: State, d: Disk)
    requires Inv(w, q, s) && Enabled(s, Step.Edit(d))
    ensures Inv(w, q, Next(w, q, s, Step.Edit(d)))
  {
    hide RightSince, Vouched, FreshStamps, GoodCall;
    forall f | f in s.table ensures Vouched(w, q, s.past + [d], f, s.table[f].stamp, s.table[f].verdict) {
      VouchedLater(w, q, s.past, d, f, s.table[f].stamp, s.table[f].verdict);
    }
    forall t | t in s.calls ensures GoodCall(w, q, s.past + [d], s.calls[t]) {
      CallLater(w, q, s.past, d, s.calls[t]);
    }
    forall a | a in s.answers ensures RightSince(w, q, s.past + [d], a.file, a.verdict, a.since) {
      RightLater(w, q, s.past, d, a.file, a.verdict, a.since);
    }
  }

  lemma CallKeepsInv(w: World, q: Question, s: State, step: Step)
    requires Inv(w, q, s) && Enabled(s, step) && !step.Edit?
    ensures Inv(w, q, Next(w, q, s, step))
  {
    hide RightSince, FreshStamps;
    if step.Read? {
      ReadIsRight(w, q, s.past, s.calls[step.thread]);
    }
  }

  lemma {:induction false} RunKeepsInv(w: World, q: Question, s: State, steps: seq<Step>)
    requires Inv(w, q, s) && Runs(w, q, s, steps)
    ensures Inv(w, q, Exec(w, q, s, steps))
    decreases |steps|
  {
    hide Inv, Enabled, Next;
    if steps != [] {
      if steps[0].Edit? {
        EditKeepsInv(w, q, s, steps[0].disk);
        assert steps[0] == Step.Edit(steps[0].disk);
      } else {
        CallKeepsInv(w, q, s, steps[0]);
      }
      RunKeepsInv(w, q, Next(w, q, s, steps[0]), steps[1..]);
    }
  }

  /** With any number of threads and edits between any two steps of a call, every
      answer is right for the text the file had at some moment since the call took
      its modification time. */
  lemma AnswersAreRecent(w: World, q: Question, start: Disk, steps: seq<Step>, a: Answer)
    requires Runs(w, q, State([start], map[], map[], []), steps)
    requires a in Exec(w, q, State([start], map[], map[], []), steps).answers
    ensures RightSince(w, q, Exec(w, q, State([start], map[], map[], []), steps).past, a.file, a.verdict, a.since)
  {
    var init := State([start], map[], map[], []);
    assert Inv(w, q, init);
    hide Runs, Exec, RightSince;
    RunKeepsInv(w, q, init, steps);
  }

  /** What one call stored, the next one at the same modification time is answered with,
      without reading the file. */
  lemma StoredVerdictIsReused(w: World, q: Question, s: State, t: int, u: int)
    requires Enabled(s, Store(t)) && s.calls[t].stamp.Some? && u !in s.calls
    requires Stamped(s.past[|s.past| - 1], s.calls[t].file, s.calls[t].stamp.value)
    ensures var c := s.calls[t];
            var s1 := Next(w, q, s, Store(t));
            && Enabled(s1, Stat(u, c.file))
            && var s2 := Next(w, q, s1, Stat(u, c.file));
               && Enabled(s2, Look(u))
               && Next(w, q, s2, Look(u)).answers ==
                  s.answers + [Answer(c.file, c.since, c.verdict)] + [Answer(c.file, |s.past| - 1, c.verdict)]
  {
  }

  /** A call that finds nothing for its modification time reads the file as it is then. */
  lemma MissReadsTheFile(w: World, q: Question, s: State, t: int)
    requires Enabled(s, Look(t)) && (s.calls[t].file in s.table ==> Some(s.table[s.calls[t].file].stamp) != s.calls[t].stamp)
    ensures var s1 := Next(w, q, s, Look(t));
            && Enabled(s1, Read(t)) && s1.answers == s.answers
            && var s2 := Next(w, q, s1, Read(t));
               Enabled(s2, Store(t)) && (s2.calls[t].verdict <==> Judge(w, q, s.past[|s.past| - 1], s.calls[t].file))
  {
  }
}
