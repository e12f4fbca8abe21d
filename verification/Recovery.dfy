/**
 Where the work of a scanned file is at any later moment: still in the file, in the hub's history, or
 in the first side of the conflict the client wrote over it.
 */
module Recovery {
  import opened Text
  import opened Markers
  import opened Reader
  import opened FileHub
  import opened Scan
  import opened PathSync
  import opened CellInvariant
  import opened Options
  import opened Protocol
  import opened SyncTheorems

  /** A reader of the merged file gets the text back, up to one newline at its end. */
  predicate Recovers(merged: Content, text: Content) {
    var ours := Parse(merged).0;
    ours == text || ours == text + [LF]
  }

  /** No line that a reader could take for the opening or the middle marker. */
  predicate Plain(text: Content) { FreeOf(Lines(text), Agreed) && FreeOf(Lines(text), Ours) }

  /** No line that a reader could take for the closing marker. */
  predicate Unclosing(text: Content) { FreeOf(Lines(text), Theirs) }

  predicate UnclosingHistory(past: seq<Write>) {
    forall i :: 0 <= i < |past| ==> Unclosing(past[i].state.content)
  }

  predicate HasText(c: Cell, text: Content) { c.file.Some? && c.file.value.content == text }

  predicate HasConflictOver(c: Cell, text: Content) { c.file.Some? && Recovers(c.file.value.content, text) }

  /** The client wrote a conflict over the text, locked the path and has not touched it since. */
  predicate InConflict(c: Cell, text: Content) {
    && c.file.Some? && c.locked && c.flight.Idle?
    && c.stamp == Some(StampOf(c.file.value))
    && Recovers(c.file.value.content, text)
  }

  /** The text is on disk, or in a conflict on disk, or the hub has held it. */
  ghost predicate Kept(c: Cell, past: seq<Write>, ignored: bool, text: Content) {
    || (c.file.Some? && c.file.value.content == text && CellQuiet(c, ignored))
    || InConflict(c, text)
    || Preserved(past, text)
  }

  /** What may not happen at p: an edit, a discard or a restart, an unlock, a second conflict over the first. */
  predicate Gentle(w: World, s: Step, n: Id, p: Path)
    requires n in w.clients
  {
    && LeavesAlone(s, n, p)
    && (s.Down? && s.n == n ==> p !in s.unlock)
    && (s.Verdict? && s.n == n ==> !At(w.clients[n], p).locked)
  }

  // ---------------------------------------------------------------- one conflict

  /** Marking a plain file against a version without a closing marker line keeps its text readable. */
  lemma MarkedKeepsText(c: Cell, hub: FileState, diff: LineDiff, now: nat)
    requires c.file.Some? && c.flight.Idle? && Plain(c.file.value.content) && Unclosing(hub.content)
    ensures InConflict(MarkCell(c, hub, diff, now), c.file.value.content)
  {
    hide Parse, Lines, Merged, Plain, Unclosing, Recovers;
    MergedRecovers(c.file.value.content, hub.content, diff(c.file.value.content, hub.content), hub.version);
  }

  lemma MergedRecovers(local: Content, hub: Content, edits: seq<Edit>, hubVersion: nat)
    requires ValidScript(local, hub, edits) && Plain(local) && Unclosing(hub)
    ensures Recovers(Merged(local, 0, edits, hubVersion), local)
  {
    assert local[0..] == local;
    PlainTextsReadBack(local, 0, edits);
    hide Parse, Lines, Merged, FreeOf, Ordered, Apply, ReadsBack;
    BothSidesRecovered(local, hub, edits, hubVersion);
    assert local + [] == local;
  }

  // ---------------------------------------------------------------- one step

  lemma AbsorbKeepsText(c: Cell, past: seq<Write>, ignored: bool, text: Content, first: bool, diff: LineDiff, now: nat)
    requires CellOk(c, past) && !c.flight.Sending? && UnclosingHistory(past) && Plain(text)
    requires Kept(c, past, ignored, text)
    ensures Kept(AbsorbCell(c, first, diff, now), past, ignored, text)
  {
    hide Plain, Unclosing, HasConflictMarkers, Recovers, Preserved, StampBacked, Truthful;
    if c.flight.Answered? && c.flight.result.Rejected? && !first && c.file.Some? && c.file.value.content == text {
      assert Unclosing(past[c.flight.result.hub.version - 1].state.content);
      MarkedKeepsText(c.(flight := Idle), c.flight.result.hub, diff, now);
    } else {
      hide MarkCell;
      if CellQuiet(c, ignored) {
        AbsorbKeepsQuiet(c, ignored, past, first, diff, now);
      }
    }
  }

  lemma ViewAbsorbKeepsText(c: Cell, past: seq<Write>, ignored: bool, text: Content, diff: LineDiff, now: nat)
    requires CellOk(c, past) && !c.flight.Sending? && UnclosingHistory(past) && Plain(text)
    requires Kept(c, past, ignored, text)
    ensures Kept(ViewAbsorbCell(c, diff, now), past, ignored, text)
  {
    hide Plain, Unclosing, HasConflictMarkers, Recovers, Preserved, StampBacked, Truthful;
    if c.flight.Answered? && c.flight.result.Rejected? && c.file.Some? && c.file.value.content == text
       && !HasConflictMarkers(text) {
      assert Unclosing(past[c.flight.result.hub.version - 1].state.content);
      MarkedKeepsText(c.(flight := Idle), c.flight.result.hub, diff, now);
    } else {
      hide MarkCell;
      if CellQuiet(c, ignored) {
        ViewAbsorbKeepsQuiet(c, ignored, past, diff, now);
      }
    }
  }

  lemma VerdictKeepsText(c: Cell, past: seq<Write>, ignored: bool, text: Content, diff: LineDiff, now: nat)
    requires CellOk(c, past) && c.flight.Idle? && UnclosingHistory(past) && Plain(text) && !c.locked
    requires Kept(c, past, ignored, text)
    ensures Kept(VerdictCell(c, diff, now), past, ignored, text)
  {
    hide Plain, Unclosing, HasConflictMarkers, Recovers, Preserved;
    if c.copy.Some? && c.file.Some? && c.file.value.content == text {
      assert Unclosing(past[c.copy.value.version - 1].state.content);
      MarkedKeepsText(c.(held := false, copy := None), c.copy.value, diff, now);
    } else if CellQuiet(c, ignored) {
      VerdictKeepsOk(c, past, diff, now);
    }
  }

  lemma DownKeepsText(c: Cell, past: seq<Write>, ignored: bool, text: Content, now: nat)
    requires CellOk(c, past) && WellFormed(past) && c.flight.Idle? && !ignored
    requires Kept(c, past, ignored, text)
    ensures Kept(DownCell(c, past, now), past, ignored, text)
  {
    hide Recovers, Preserved;
    if c.file.Some? && c.file.value.content == text && CellQuiet(c, ignored) {
      DownKeepsOk(c, past, now);
      if DownCell(c, past, now).file != c.file {
        DownLosesNothing(c, past, ignored, now);
      }
    }
  }

  lemma PlanKeepsText(c: Cell, past: seq<Write>, ignored: bool, text: Content)
    requires CellOk(c, past) && c.flight.Idle? && !ignored
    requires Kept(c, past, ignored, text)
    ensures Kept(PlanCell(c, ignored), past, ignored, text)
  {
    hide Recovers, Preserved, HasConflictMarkers;
    PlanKeepsOk(c, past, ignored);
  }

  lemma KeptAsHubGrows(c: Cell, past: seq<Write>, later: seq<Write>, ignored: bool, text: Content)
    requires Kept(c, past, ignored, text) && past <= later
    ensures Kept(c, later, ignored, text)
  {
    hide CellQuiet, InConflict;
    if Preserved(past, text) {
      var v :| Backs(past, v, text);
      assert Backs(later, v, text);
    }
  }

  lemma SendKeepsText(c: Cell, past: seq<Write>, ignored: bool, text: Content)
    requires c.flight.Sending? && Kept(c, past, ignored, text)
    ensures Kept(SendCell(c, past), past, ignored, text)
  {
    hide Recovers, Preserved, PushAnswer;
  }

  lemma OwnStepKeepsText(env: Env, w: World, s: Step, p: Path, text: Content)
    requires ClientStep(s) && s.n in w.clients && Gentle(w, s, s.n, p)
    requires AllowedWhen(w.clients[s.n], s) && AllowedAt(w, s, p)
    requires PathOk(env, w, s.n, p) && HistoryOk(Past(w.hub, p)) && UnclosingHistory(Past(w.hub, p))
    requires Bargain(w, s, s.n, p) && CellBacked(At(w.clients[s.n], p), Past(w.hub, p))
    requires !env.ignored(p) && Plain(text) && Kept(At(w.clients[s.n], p), Past(w.hub, p), false, text)
    ensures Kept(CellAfter(env, w, s, p), Past(w.hub, p), false, text)
  {
    hide Kept, CellShape, CellBacked, Plain, UnclosingHistory, HistoryOk;
    var c := w.clients[s.n];
    var cell, past := At(c, p), Past(w.hub, p);
    match s
    case Plan(_) => PlanKeepsText(cell, past, false, text);
    case Send(_, q) =>
      if p == q {
        SendKeepsText(cell, past, false, text);
      }
    case Absorb(_, now) =>
      AbsorbKeepsText(cell, past, false, text, c.firstBatch, env.diff, now);
      ViewAbsorbKeepsText(cell, past, false, text, env.diff, now);
    case Down(_, _, now) =>
      assert WellFormed(past) by {
        WellFormedOf(past);
      }
      DownKeepsText(cell, past, false, text, now);
    case Verdict(_, now) => VerdictKeepsText(cell, past, false, text, env.diff, now);
    case Resume(_) => ResumeKeepsText(cell, past, text);
    case _ =>
  }

  lemma WellFormedOf(past: seq<Write>)
    requires HistoryOk(past)
    ensures WellFormed(past)
  {
  }

  lemma ResumeKeepsText(c: Cell, past: seq<Write>, text: Content)
    requires c.flight.Idle? && Kept(c, past, false, text)
    ensures Kept(ResumeCell(c, past), past, false, text) && Kept(ViewResumeCell(c, past), past, false, text)
  {
    hide Recovers, Preserved;
  }

  lemma StepKeepsText(env: Env, w: World, s: Step, n: Id, p: Path, text: Content)
    requires Inv(env, w) && Enabled(env, w, s) && n in w.clients && Gentle(w, s, n, p) && Bargain(w, s, n, p)
    requires CellBacked(At(w.clients[n], p), Past(w.hub, p))
    requires !env.ignored(p) && Plain(text) && UnclosingHistory(Past(Next(env, w, s).hub, p))
    requires Kept(At(w.clients[n], p), Past(w.hub, p), false, text)
    ensures n in Next(env, w, s).clients
    ensures Kept(At(Next(env, w, s).clients[n], p), Past(Next(env, w, s).hub, p), false, text)
  {
    hide Kept, CellAfter, Gentle, Plain, CellShape, CellBacked, Bargain;
    NextAt(env, w, s, p);
    HistoryKept(env, w, s, p);
    var past, later := Past(w.hub, p), Past(Next(env, w, s).hub, p);
    UnclosingPrefix(past, later);
    if ClientStep(s) && s.n == n {
      assert PathOk(env, w, n, p) && HistoryOk(past) && AllowedAt(w, s, p);
      OwnStepKeepsText(env, w, s, p, text);
      KeptAsHubGrows(CellAfter(env, w, s, p), past, later, false, text);
    } else {
      KeptAsHubGrows(At(w.clients[n], p), past, later, false, text);
    }
  }

  lemma UnclosingPrefix(past: seq<Write>, later: seq<Write>)
    requires past <= later && UnclosingHistory(later)
    ensures UnclosingHistory(past)
  {
    forall i | 0 <= i < |past| ensures Unclosing(past[i].state.content) {
      assert past[i] == later[i];
    }
  }

  // ---------------------------------------------------------------- whole runs

  ghost predicate GentleRun(env: Env, w: World, steps: seq<Step>, n: Id, p: Path)
    requires Run(env, w, steps)
    decreases |steps|
  {
    |steps| > 0 ==>
      && n in w.clients && Gentle(w, steps[0], n, p)
      && GentleRun(env, Next(env, w, steps[0]), steps[1..], n, p)
  }

  lemma {:induction false} RunKeepsText(env: Env, w: World, steps: seq<Step>, n: Id, p: Path, text: Content)
    requires Inv(env, w) && Run(env, w, steps) && n in w.clients
    requires GentleRun(env, w, steps, n, p) && BargainRun(env, w, steps, n, p)
    requires CellBacked(At(w.clients[n], p), Past(w.hub, p))
    requires !env.ignored(p) && Plain(text) && UnclosingHistory(Past(After(env, w, steps).hub, p))
    requires Kept(At(w.clients[n], p), Past(w.hub, p), false, text)
    ensures n in After(env, w, steps).clients
    ensures Kept(At(After(env, w, steps).clients[n], p), Past(After(env, w, steps).hub, p), false, text)
    decreases |steps|
  {
    hide Kept, Inv, Next, UnclosingHistory, Plain, Gentle, Bargain, CellBacked;
    if |steps| > 0 {
      var w1 := Next(env, w, steps[0]);
      NextKeepsInv(env, w, steps[0]);
      HistoryOnlyGrows(env, w1, steps[1..], p);
      UnclosingPrefix(Past(w1.hub, p), Past(After(env, w1, steps[1..]).hub, p));
      StepKeepsText(env, w, steps[0], n, p, text);
      NextKeepsBacked(env, w, steps[0], n, p);
      RunKeepsText(env, w1, steps[1..], n, p, text);
    }
  }

  /**
   No local text is lost to a conflict: in every run, from a scan of a plain file on, and as long as
   the user leaves the file alone and nothing is discarded or unlocked there, the text is in the
   file, or a reader of the file's conflict gets it back, or the hub has held it. Refused pushes and
   the verdict "resolve" may write conflicts over the file in between.
   */
  lemma ScannedTextIsKept(env: Env, w: World, before: seq<Step>, during: seq<Step>, n: Id, p: Path, text: Content)
    requires Initial(w) && n in w.clients && Run(env, w, before) && BargainRun(env, w, before, n, p)
    requires
      var mid := After(env, w, before);
      && n in mid.clients && HasText(At(mid.clients[n], p), text)
      && Enabled(env, mid, Plan(n)) && Run(env, Next(env, mid, Plan(n)), during)
      && GentleRun(env, Next(env, mid, Plan(n)), during, n, p)
      && BargainRun(env, Next(env, mid, Plan(n)), during, n, p)
      && UnclosingHistory(Past(After(env, Next(env, mid, Plan(n)), during).hub, p))
    requires Plain(text) && !env.ignored(p)
    ensures
      var end := After(env, Next(env, After(env, w, before), Plan(n)), during);
      && n in end.clients
      && (HasText(At(end.clients[n], p), text) || HasConflictOver(At(end.clients[n], p), text)
          || Preserved(Past(end.hub, p), text))
  {
    hide *;
    var mid := After(env, w, before);
    ReachableInv(env, w, before);
    ReachableBacked(env, w, before, n, p);
    var scanned := Next(env, mid, Plan(n));
    NextKeepsInv(env, mid, Plan(n));
    ScanBargain(mid, n, p);
    NextKeepsBacked(env, mid, Plan(n), n, p);
    ScanKeepsText(env, mid, n, p, text);
    RunKeepsText(env, scanned, during, n, p, text);
    var end := After(env, scanned, during);
    KeptMeans(At(end.clients[n], p), Past(end.hub, p), text);
  }

  lemma ScanBargain(w: World, n: Id, p: Path)
    requires n in w.clients
    ensures Bargain(w, Plan(n), n, p)
  {
  }

  lemma KeptMeans(c: Cell, past: seq<Write>, text: Content)
    requires Kept(c, past, false, text)
    ensures HasText(c, text) || HasConflictOver(c, text) || Preserved(past, text)
  {
  }

  lemma ScanKeepsText(env: Env, w: World, n: Id, p: Path, text: Content)
    requires Inv(env, w) && n in w.clients && Enabled(env, w, Plan(n)) && !env.ignored(p)
    requires HasText(At(w.clients[n], p), text) && CellBacked(At(w.clients[n], p), Past(w.hub, p))
    ensures n in Next(env, w, Plan(n)).clients
    ensures Kept(At(Next(env, w, Plan(n)).clients[n], p), Past(Next(env, w, Plan(n)).hub, p), false, text)
  {
    hide CellQuiet, CellBacked, HasConflictMarkers;
    NextAt(env, w, Plan(n), p);
    QuietStep(env, w, Plan(n), n, p);
  }
}
