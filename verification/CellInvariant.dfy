/**
 What every operation of a sync client keeps about one path: how the file on disk, the last-synced
 stamp, the base version, the locks and the hub's history hang together.
 */
module CellInvariant {
  import opened Text
  import opened Markers
  import opened FileHub
  import opened Scan
  import opened PathSync
  import opened Options

  /** Version v of the path was live and holds this content, as it is or LF-normalised. */
  predicate Backs(past: seq<Write>, v: nat, content: Content) {
    && 1 <= v <= |past|
    && !past[v - 1].state.deleted
    && Agrees(content, past[v - 1].state.content)
  }

  predicate Agrees(local: Content, canonical: Content) {
    canonical == local || canonical == NormalizeForTransit(local)
  }

  /** The hub has held this content at the path, as it is or LF-normalised. */
  ghost predicate Preserved(past: seq<Write>, content: Content) {
    exists v :: Backs(past, v, content)
  }

  /** The path's current content is on its way to the hub. */
  predicate Pushing(c: Cell) { !c.flight.Idle? && c.flight.scanned.Some? }

  predicate KnownVersion(past: seq<Write>, v: nat) { 1 <= v <= |past| }

  /** A version of the path, just as the hub stored it. */
  predicate IsVersion(past: seq<Write>, f: FileState) {
    KnownVersion(past, f.version) && past[f.version - 1].state == f
  }

  predicate FlightOk(c: Cell, past: seq<Write>) {
    && (c.flight.Idle? || !Frozen(c))
    && match c.flight
       case Idle => true
       case Sending(ch, scanned) =>
         && ch.base == BaseOf(c)
         && (ch.deleted <==> scanned.None?)
         && (scanned.None? ==> c.base.Some?)
         && (scanned.Some? ==> ch.content == scanned.value.hash.of && !HasConflictMarkers(ch.content))
       case Answered(Applied(v), scanned) =>
         && KnownVersion(past, v)
         && (if scanned.Some? then Backs(past, v, scanned.value.hash.of) else past[v - 1].state.deleted)
       case Answered(Rejected(hub), _) => IsVersion(past, hub)
  }

  /** What the client takes for synced is what the hub held at the client's base version. */
  predicate StampBacked(c: Cell, past: seq<Write>) {
    c.stamp.Some? ==> c.base.Some? && Backs(past, c.base.value, c.stamp.value.hash.of)
  }

  /** What holds of every client at every path in every run, whatever users and operators do. */
  predicate CellShape(c: Cell, past: seq<Write>) {
    && (c.base.Some? ==> KnownVersion(past, c.base.value))
    && (c.held ==> c.copy.Some?)
    && (c.copy.Some? ==> IsVersion(past, c.copy.value))
    && FlightOk(c, past)
  }

  /** What holds as long as nobody breaks the bargain at this path of this client. */
  predicate CellBacked(c: Cell, past: seq<Write>) {
    && Truthful(c.file, c.stamp)
    && (Pushing(c) ==> Truthful(c.file, c.flight.scanned))
    && (Frozen(c) || (Pushing(c) && c.file.Some?) || StampBacked(c, past))
  }

  predicate CellOk(c: Cell, past: seq<Write>) { CellShape(c, past) && CellBacked(c, past) }

  /**
   With no local edit since the last scan, every scanned file is frozen, or being pushed, or exactly
   the last-synced revision.
   */
  predicate CellQuiet(c: Cell, ignored: bool) {
    c.file.Some? && !ignored ==>
      var content := c.file.value.content;
      || Frozen(c)
      || (Pushing(c) && c.flight.scanned.value.hash.of == content)
      || (c.flight.Idle? && c.stamp.Some? && c.stamp.value.hash.of == content)
  }

  /** No marked content was ever pushed (before normalisation). */
  predicate PushedUnmarked(past: seq<Write>) {
    forall i :: 0 <= i < |past| && past[i].origin.ByPush? && !past[i].state.deleted ==>
      !HasConflictMarkers(past[i].origin.raw)
  }

  // ---------------------------------------------------------------- what keeps it

  lemma ShapeAsHubGrows(c: Cell, past: seq<Write>, later: seq<Write>)
    requires CellShape(c, past) && past <= later
    ensures CellShape(c, later)
  {
  }

  lemma BackedAsHubGrows(c: Cell, past: seq<Write>, later: seq<Write>)
    requires CellBacked(c, past) && past <= later
    ensures CellBacked(c, later)
  {
  }

  lemma PlanKeepsOk(c: Cell, past: seq<Write>, ignored: bool)
    requires CellShape(c, past) && c.flight.Idle?
    ensures CellShape(PlanCell(c, ignored), past) && !PlanCell(c, ignored).flight.Answered?
    ensures CellBacked(c, past) ==> CellBacked(PlanCell(c, ignored), past) && CellQuiet(PlanCell(c, ignored), ignored)
  {
    hide HasConflictMarkers;
  }

  lemma SendKeepsOk(c: Cell, past: seq<Write>, node: string)
    requires CellShape(c, past) && WellFormed(past) && PushedUnmarked(past)
    ensures var later := SendPast(c, past, node);
      && past <= later && WellFormed(later) && PushedUnmarked(later)
      && CellShape(SendCell(c, past), later)
      && (CellBacked(c, past) ==> CellBacked(SendCell(c, past), later))
  {
    hide HasConflictMarkers;
  }

  lemma AbsorbKeepsOk(c: Cell, past: seq<Write>, first: bool, diff: LineDiff, now: nat)
    requires CellShape(c, past) && !c.flight.Sending?
    ensures CellShape(AbsorbCell(c, first, diff, now), past) && AbsorbCell(c, first, diff, now).flight.Idle?
    ensures CellBacked(c, past) ==> CellBacked(AbsorbCell(c, first, diff, now), past)
  {
  }

  lemma AbsorbKeepsQuiet(c: Cell, ignored: bool, past: seq<Write>, first: bool, diff: LineDiff, now: nat)
    requires CellShape(c, past) && !c.flight.Sending? && CellQuiet(c, ignored)
    ensures CellQuiet(AbsorbCell(c, first, diff, now), ignored)
  {
  }

  lemma ViewAbsorbKeepsOk(c: Cell, past: seq<Write>, diff: LineDiff, now: nat)
    requires CellShape(c, past) && !c.flight.Sending?
    ensures CellShape(ViewAbsorbCell(c, diff, now), past) && ViewAbsorbCell(c, diff, now).flight.Idle?
    ensures CellBacked(c, past) ==> CellBacked(ViewAbsorbCell(c, diff, now), past)
  {
    hide HasConflictMarkers;
  }

  lemma ViewAbsorbKeepsQuiet(c: Cell, ignored: bool, past: seq<Write>, diff: LineDiff, now: nat)
    requires CellShape(c, past) && !c.flight.Sending? && CellQuiet(c, ignored)
    ensures CellQuiet(ViewAbsorbCell(c, diff, now), ignored)
  {
    hide HasConflictMarkers;
  }

  lemma DownKeepsOk(c: Cell, past: seq<Write>, now: nat)
    requires CellShape(c, past) && WellFormed(past) && c.flight.Idle?
    ensures CellShape(DownCell(c, past, now), past) && DownCell(c, past, now).flight.Idle?
    ensures CellBacked(c, past) ==> CellBacked(DownCell(c, past, now), past)
    ensures forall ignored :: CellQuiet(c, ignored) ==> CellQuiet(DownCell(c, past, now), ignored)
  {
  }

  /**
   Releasing a path and pulling keeps the invariant exactly when the hub is ahead of the client's
   base, so that the pull replaces the file, or nothing is at stake.
   */
  lemma UnlockDownKeepsOk(c: Cell, past: seq<Write>, now: nat)
    requires CellShape(c, past) && WellFormed(past) && c.flight.Idle?
    ensures CellShape(DownCell(UnlockCell(c), past, now), past) && DownCell(UnlockCell(c), past, now).flight.Idle?
    ensures CellBacked(c, past) ==> (
      CellBacked(DownCell(UnlockCell(c), past, now), past) <==> Behind(past, BaseOf(c)) || StampBacked(c, past))
    // in the client's own terms: it never stamped the file
    ensures CellBacked(c, past) && c.stamp.None? ==> CellBacked(DownCell(UnlockCell(c), past, now), past)
    ensures Behind(past, BaseOf(c)) ==>
      forall ignored :: CellQuiet(DownCell(UnlockCell(c), past, now), ignored)
  {
  }

  lemma DiscardKeepsOk(c: Cell, past: seq<Write>, ignored: bool)
    requires CellShape(c, past) && WellFormed(past) && c.flight.Idle?
    ensures CellShape(DiscardCell(c, past, ignored), past) && DiscardCell(c, past, ignored).flight.Idle?
    ensures CellBacked(c, past) ==> CellBacked(DiscardCell(c, past, ignored), past)
  {
  }

  /** A held path that "resolve" finds on disk, or locked anyway, or with nothing at stake. */
  predicate VerdictAllowed(c: Cell, past: seq<Write>) {
    c.copy.Some? && c.file.None? && !c.locked ==> StampBacked(c, past)
  }

  /** The verdict "resolve" ends the hold: exactly a held conflict whose file is there becomes a marked, locked file. */
  lemma VerdictExactly(c: Cell, diff: LineDiff, now: nat)
    ensures
      var d := VerdictCell(c, diff, now);
      && !d.held && d.copy.None? && d.flight == c.flight
      && (c.copy.None? || c.file.None? ==> d == c.(held := false, copy := None))
      && (c.copy.Some? && c.file.Some? ==>
            var hub := c.copy.value;
            var local := c.file.value.content;
            && d.locked && d.base == Some(hub.version)
            && d.file == Some(File(Merged(local, 0, diff(local, hub.content), hub.version), now))
            && d.stamp == Some(StampOf(d.file.value)))
  {
  }

  lemma VerdictKeepsOk(c: Cell, past: seq<Write>, diff: LineDiff, now: nat)
    requires CellShape(c, past) && c.flight.Idle?
    ensures CellShape(VerdictCell(c, diff, now), past) && VerdictCell(c, diff, now).flight.Idle?
    ensures CellBacked(c, past) ==> (CellBacked(VerdictCell(c, diff, now), past) <==> VerdictAllowed(c, past))
    // in the client's own terms: the file is there, or nothing was ever stamped
    ensures CellBacked(c, past) && (c.file.Some? || c.stamp.None?) ==> CellBacked(VerdictCell(c, diff, now), past)
    ensures forall ignored :: CellQuiet(c, ignored) ==> CellQuiet(VerdictCell(c, diff, now), ignored)
  {
  }

  /** A restart forgets everything but the file. */
  lemma RestartForgetsExactly(c: Cell)
    ensures RestartCell(c) == Cell(c.file, None, None, false, false, None, Idle)
  {
  }

  lemma ResumeKeepsOk(c: Cell, past: seq<Write>)
    requires c == RestartCell(c) && WellFormed(past)
    ensures CellOk(ResumeCell(c, past), past) && ResumeCell(c, past).flight.Idle?
    ensures CellOk(ViewResumeCell(c, past), past) && ViewResumeCell(c, past).flight.Idle?
  {
  }

  /**
   A local edit (or removal) of the file: its size or time moves if its content does. While the push
   of a resolved conflict is under way, its file is not removed.
   */
  predicate EditAllowed(c: Cell, past: seq<Write>, file: Option<File>) {
    && Truthful(file, c.stamp)
    && (Pushing(c) ==> Truthful(file, c.flight.scanned) && (file.None? ==> StampBacked(c, past)))
  }

  lemma EditKeepsOk(c: Cell, past: seq<Write>, file: Option<File>)
    requires CellShape(c, past)
    ensures CellShape(c.(file := file), past)
    ensures CellBacked(c, past) ==> (CellBacked(c.(file := file), past) <==> EditAllowed(c, past, file))
    // in the client's own terms: the file is still there, or nothing was ever stamped
    ensures (
      && CellBacked(c, past) && Truthful(file, c.stamp)
      && (Pushing(c) ==> Truthful(file, c.flight.scanned) && (file.Some? || c.stamp.None?))
      ==> CellBacked(c.(file := file), past))
  {
  }

  // ---------------------------------------------------------------- what it gives

  /**
   No lost work: when a pull replaces or deletes a scanned file that was not edited since the last
   scan, the hub has held the file's content.
   */
  lemma DownLosesNothing(c: Cell, past: seq<Write>, ignored: bool, now: nat)
    requires CellOk(c, past) && CellQuiet(c, ignored) && c.flight.Idle? && !ignored
    requires c.file.Some? && DownCell(c, past, now).file != c.file
    ensures Preserved(past, c.file.value.content)
  {
  }

  // ---------------------------------------------------------------- what it does not give

  /** A hub history of one version with the given text. */
  function OneVersion(text: Content): seq<Write> {
    [Write(FileState(text, 1, "peer", false), ByResolve)]
  }

  lemma OnlyThatVersion(text: Content, other: Content)
    requires text != other && CR !in other
    ensures WellFormed(OneVersion(text)) && !Preserved(OneVersion(text), other)
  {
    NoCrIsFixed(other);
  }

  /** A file synced, then edited, then pulled over with no scan in between: the hub never held the edit. */
  lemma PullWithoutScanLosesWork(first: nat, now: nat)
    ensures
      var past := OneVersion([1]);
      var later := past + [Write(FileState([3], 2, "peer", false), ByResolve)];
      var synced := DownCell(EMPTY, past, first);
      var edited := synced.(file := Some(File([2], first + 1)));
      && CellOk(synced, past) && EditAllowed(synced, past, edited.file) && WellFormed(later)
      && Inspect(edited.file, edited.stamp, false).Edited?
      && DownCell(edited, later, now).file == Some(File([3], now))
      && !Preserved(later, [2])
  {
    NoCrIsFixed([2]);
  }

  /**
   The verdict "resolve" on a held path whose file is missing releases it with a stamp the hub knows
   nothing of. The same text put back is then taken for synced: two scans later a pull replaces it
   by the hub's version, and the hub has never held it.
   */
  lemma VanishedHeldFileIsLost(diff: LineDiff, now: nat)
    ensures
      var past := OneVersion([1]);
      var held := EMPTY.(file := Some(File([2], 7)), held := true, copy := Some(Current(past)));
      var scanned := AbsorbCell(PlanCell(held, false), false, diff, now);
      var verdict := VerdictCell(scanned.(file := None), diff, now);
      var again := verdict.(file := Some(File([2], 8)));
      var rescanned := UpCell(again, past, false, false, diff, now);
      && CellOk(held, past) && EditAllowed(scanned, past, None) && EditAllowed(verdict, past, again.file)
      && UpPast(again, past, false, "n") == past
      && rescanned.file == again.file && !Frozen(rescanned)
      && DownCell(rescanned, past, now).file == Some(File([1], now))
      && !Preserved(past, [2])
  {
    OnlyThatVersion([1], [2]);
    var past := OneVersion([1]);
    var held := EMPTY.(file := Some(File([2], 7)), held := true, copy := Some(Current(past)));
    var scanned := AbsorbCell(PlanCell(held, false), false, diff, now);
    assert scanned == held.(stamp := Some(Stamp(1, 7, Fingerprint([2]))));
    var verdict := VerdictCell(scanned.(file := None), diff, now);
    assert verdict == EMPTY.(stamp := Some(Stamp(1, 7, Fingerprint([2]))));
  }

  /**
   Releasing a locked path the hub has not moved past leaves its local text unlocked and taken for
   synced; the next version of any other client then replaces it.
   */
  lemma UnlockWithoutNewsLosesWork(marked: Content, now: nat)
    requires marked != [1] && marked != [3] && CR !in marked
    ensures
      var past := OneVersion([1]);
      var later := past + [Write(FileState([3], 2, "peer", false), ByResolve)];
      var f := File(marked, 7);
      var c := EMPTY.(file := Some(f), locked := true, base := Some(1), stamp := Some(StampOf(f)));
      var released := DownCell(UnlockCell(c), past, now);
      && CellOk(c, past) && WellFormed(later)
      && PlanCell(released, false) == released && released.file == c.file
      && DownCell(released, later, now).file == Some(File([3], now))
      && !Preserved(later, marked)
  {
    NoCrIsFixed(marked);
  }

  /**
   Removing a file while the push of its resolved conflict is under way, and the push then being
   rejected, leaves the marked text's stamp behind, unlocked. The marked text put back is taken for
   synced, and a pull replaces it.
   */
  lemma RemovedInFlightIsLost(marked: Content, fixed: Content, diff: LineDiff, now: nat)
    requires marked != [1] && marked != [3] && CR !in marked
    requires fixed != marked && !HasConflictMarkers(fixed)
    ensures
      var past := OneVersion([1]);
      var later := past + [Write(FileState([3], 2, "peer", false), ByResolve)];
      var f := File(marked, 7);
      var c := EMPTY.(file := Some(f), locked := true, base := Some(1), stamp := Some(StampOf(f)));
      var sent := SendCell(PlanCell(c.(file := Some(File(fixed, 8))), false), later);
      var gone := AbsorbCell(sent.(file := None), false, diff, now);
      var back := PlanCell(gone.(file := Some(File(marked, 9))), false);
      && CellOk(c, past) && WellFormed(later) && !EditAllowed(sent, later, None)
      && back.flight.Idle? && !Frozen(back)
      && DownCell(back, later, now).file == Some(File([3], now))
      && !Preserved(later, marked)
  {
    NoCrIsFixed(marked);
    hide HasConflictMarkers;
  }
}
