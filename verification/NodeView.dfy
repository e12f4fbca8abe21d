/**
 The in-process sync client (core's own seed workspace). It pushes path by path while it walks its
 maps and leaves the marking of conflicts to its caller. Together with that caller it does exactly
 what the remote client does in one batch.
 */
module NodeView {
  import opened Text
  import opened Markers
  import opened FileHub
  import opened Scan
  import opened PathSync
  import opened Options
  import opened NodeClient

  // ---------------------------------------------------------------- per path

  /** SyncUp at one path: an accepted push is recorded at once, a rejected one only reported. */
  function ViewUpCell(c: Cell, past: seq<Write>, ignored: bool): Cell {
    ViewSentCell(PlanCell(c, ignored), past)
  }

  function ViewSentCell(c: Cell, past: seq<Write>): Cell {
    if !c.flight.Sending? then c
    else match PushAnswer(past, c.flight.change)
      case Applied(v) => c.(base := Some(v), stamp := c.flight.scanned, flight := Idle)
      case Rejected(_) => c.(flight := Idle)
  }

  function SentAnswer(c: Cell, past: seq<Write>): PushResult {
    if c.flight.Sending? then PushAnswer(past, c.flight.change) else Applied(0)
  }

  /** The three outcomes of pushing an edited file: the cell, the hub's history, the answer. */
  function EditCell(c: Cell, past: seq<Write>, content: Content, st: Stamp): Cell {
    ViewSentCell(EditedCell(c, content, st), past)
  }

  function EditPast(c: Cell, past: seq<Write>, content: Content, st: Stamp, node: string): seq<Write> {
    SendPast(EditedCell(c, content, st), past, node)
  }

  function EditAnswer(c: Cell, past: seq<Write>, content: Content, st: Stamp): PushResult {
    SentAnswer(EditedCell(c, content, st), past)
  }

  /** The three outcomes of pushing a deletion. */
  function DropCell(c: Cell, past: seq<Write>): Cell { ViewSentCell(DeletionOf(c), past) }

  function DropPast(c: Cell, past: seq<Write>, node: string): seq<Write> { SendPast(DeletionOf(c), past, node) }

  function DropAnswer(c: Cell, past: seq<Write>): PushResult { SentAnswer(DeletionOf(c), past) }

  /** The push of a file the scan did not see, at a path the client knows. */
  function DeletionOf(c: Cell): Cell {
    if c.base.Some? && !Frozen(c) then c.(flight := Sending(Change([], true, c.base.value), None)) else c
  }

  /** SyncUp put together from what it does in turn: touched files, edited files, deletions. */
  lemma ViewAssembled(c: Cell, past: seq<Write>, ignored: bool, node: string,
                      changed: Option<Content>, stampOf: Option<Stamp>, seen: bool,
                      touched: Cell, sent: Cell, pushed: seq<Write>)
    requires c.flight.Idle? && !c.held
    requires
      var found := Inspect(c.file, c.stamp, ignored);
      && changed == (if found.Edited? then Some(found.content) else None)
      && stampOf == (if found.Edited? || found.Touched? then Some(found.stamp) else None)
      && (seen <==> !found.Unseen?)
    requires touched == if stampOf.Some? && changed.None? then c.(stamp := stampOf) else c
    requires sent == if changed.Some? then EditCell(touched, past, changed.value, stampOf.value) else touched
    requires pushed == if changed.Some? then EditPast(touched, past, changed.value, stampOf.value, node) else past
    ensures ViewUpCell(c, past, ignored) == if seen then sent else DropCell(sent, pushed)
    ensures UpPast(c, past, ignored, node) == if seen then pushed else DropPast(sent, pushed, node)
    ensures UpAnswer(c, past, ignored) ==
      if changed.Some? then EditAnswer(touched, past, changed.value, stampOf.value)
      else if seen then Applied(0) else DropAnswer(sent, pushed)
  {
    hide HasConflictMarkers, PushAnswer, PushPast;
  }

  function ViewSyncCell(c: Cell, past: seq<Write>, ignored: bool, diff: LineDiff, now: nat): Cell {
    var answer := UpAnswer(c, past, ignored);
    if answer.Rejected? then ViewMarkCell(ViewUpCell(c, past, ignored), answer.hub, diff, now)
    else ViewUpCell(c, past, ignored)
  }

  /** A marked file that scans now ignore stands at a known, unfrozen path that the hub has moved past. */
  predicate MarkedTwice(c: Cell, past: seq<Write>, ignored: bool) {
    && ignored && c.file.Some? && HasConflictMarkers(c.file.value.content)
    && c.base.Some? && !Frozen(c) && c.base.value != |past|
  }

  /**
   The simulation: push, report and mark is what the remote client does after its first sync with
   nothing held, except that the remote client marks an already marked file again. The two part
   exactly there, as soon as a write moves a file's time.
   */
  lemma ViewSimulatesNode(c: Cell, past: seq<Write>, ignored: bool, diff: LineDiff, now: nat)
    requires c.flight.Idle? && !c.held && WellFormed(past)
    ensures !MarkedTwice(c, past, ignored) ==>
      ViewSyncCell(c, past, ignored, diff, now) == UpCell(c, past, ignored, false, diff, now)
    ensures (c.file.Some? ==> c.file.value.modNano != now) ==>
      (ViewSyncCell(c, past, ignored, diff, now) == UpCell(c, past, ignored, false, diff, now)
       <==> !MarkedTwice(c, past, ignored))
  {
    hide ViewSyncCell, UpCell, WellFormed;
    if MarkedTwice(c, past, ignored) {
      ViewPartsOnIgnoredMarkers(c, past, diff, now);
    } else {
      ViewAgrees(c, past, ignored, diff, now);
    }
  }

  lemma ViewAgrees(c: Cell, past: seq<Write>, ignored: bool, diff: LineDiff, now: nat)
    requires c.flight.Idle? && !c.held && WellFormed(past) && !MarkedTwice(c, past, ignored)
    ensures ViewSyncCell(c, past, ignored, diff, now) == UpCell(c, past, ignored, false, diff, now)
  {
    hide HasConflictMarkers, PushAnswer, WellFormed;
    if c.base.Some? {
      PushAcceptedExactly(past, "", Change([], true, c.base.value));
    }
  }

  /**
   The in-process client as the protocol runs it: scan, pushes, and answers handled in its own way add
   up to push, report and mark, when nothing comes in between.
   */
  lemma ViewSyncIsItsSteps(c: Cell, past: seq<Write>, ignored: bool, diff: LineDiff, now: nat)
    requires c.flight.Idle?
    ensures ViewSyncCell(c, past, ignored, diff, now)
         == ViewAbsorbCell(SendCell(PlanCell(c, ignored), past), diff, now)
  {
    hide HasConflictMarkers, PushAnswer;
  }

  /** What marking leaves, exactly: of a marked file only lock and base, of another the merged text and its stamp. */
  lemma ViewMarksExactly(c: Cell, hub: FileState, diff: LineDiff, now: nat)
    ensures
      var d := ViewMarkCell(c, hub, diff, now);
      && (c.file.None? ==> d == c)
      && (c.file.Some? && HasConflictMarkers(c.file.value.content) ==>
            d == c.(locked := true, base := Some(hub.version)))
      && (c.file.Some? && !HasConflictMarkers(c.file.value.content) ==>
            var local := c.file.value.content;
            var marked := File(Merged(local, 0, diff(local, hub.content), hub.version), now);
            d == c.(file := Some(marked), locked := true, base := Some(hub.version), stamp := Some(StampOf(marked))))
  {
    hide HasConflictMarkers;
  }

  function MarkedBy(c: Cell, hub: FileState, inProcess: bool, diff: LineDiff, now: nat): Cell {
    if inProcess then ViewMarkCell(c, hub, diff, now) else MarkCell(c, hub, diff, now)
  }

  /**
   A conflict ends when its file is free of markers: with either client, once the user has edited the
   marked file so, the next sync against the version it was marked from lands the edit as the hub's text,
   as the next version unless it is the hub's text already, and unlocks the path.
   */
  lemma ResolvedConflictLands(c: Cell, g: File, past: seq<Write>, node: string, inProcess: bool, first: bool,
                              diff: LineDiff, now: nat)
    requires c.flight.Idle? && !c.held && c.file.Some? && WellFormed(past) && |past| > 0
    requires !HasConflictMarkers(g.content)
    requires
      var marked := MarkedBy(c, Current(past), inProcess, diff, now);
      Inspect(Some(g), marked.stamp, false).Edited?
    ensures
      var marked := MarkedBy(c, Current(past), inProcess, diff, now);
      var resolved := marked.(file := Some(g));
      var later := UpPast(resolved, past, false, node);
      var done := if inProcess then ViewSyncCell(resolved, past, false, diff, now)
                  else UpCell(resolved, past, false, first, diff, now);
      && Live(later) && Current(later).content == NormalizeForTransit(g.content)
      && |later| == |past| + (if Live(past) && Current(past).content == NormalizeForTransit(g.content) then 0 else 1)
      && done == resolved.(locked := false, base := Some(|later|), stamp := Some(StampOf(g)))
  {
    hide HasConflictMarkers, NormalizeForTransit, Merged, WellFormed;
    VersionIsLength(past);
  }

  /** Where they part: the view only locks the marked file, the node marks it a second time. */
  lemma ViewPartsOnIgnoredMarkers(c: Cell, past: seq<Write>, diff: LineDiff, now: nat)
    requires c.flight.Idle? && WellFormed(past) && MarkedTwice(c, past, true)
    ensures ViewSyncCell(c, past, true, diff, now).file == c.file
    ensures
      var hub := Current(past);
      var local := c.file.value.content;
      UpCell(c, past, true, false, diff, now).file
      == Some(File(Merged(local, 0, diff(local, hub.content), hub.version), now))
  {
    hide HasConflictMarkers, PushAnswer, WellFormed;
    PushAcceptedExactly(past, "", Change([], true, c.base.value));
  }

  // ---------------------------------------------------------------- resuming

  /** The two clients resume alike exactly where no local file stands at a path the hub has deleted. */
  lemma ResumesAlikeExactly(c: Cell, past: seq<Write>)
    requires c.base.None?
    ensures ViewResumeCell(c, past) == ResumeCell(c, past) <==> c.file.None? || |past| == 0 || Live(past)
  {
  }

  /**
   Where they part, on a file at a path the hub has deleted: the resumed view's first sync brings the
   file back as the hub's next version, the resumed node's is refused and the file held.
   */
  lemma ResumedTombstone(c: Cell, past: seq<Write>, node: string, diff: LineDiff, now: nat)
    requires c == RestartCell(c) && c.file.Some? && !HasConflictMarkers(c.file.value.content)
    requires WellFormed(past) && |past| > 0 && !Live(past)
    ensures
      var view, later := ViewResumeCell(c, past), UpPast(ViewResumeCell(c, past), past, false, node);
      && |later| == |past| + 1 && Live(later)
      && Current(later).content == NormalizeForTransit(c.file.value.content)
      && ViewUpCell(view, past, false).base == Some(|later|)
    ensures
      var remote := ResumeCell(c, past);
      && UpPast(remote, past, false, node) == past
      && UpCell(remote, past, false, true, diff, now).held
      && UpCell(remote, past, false, true, diff, now).file == c.file
  {
    hide HasConflictMarkers, NormalizeForTransit;
    VersionIsLength(past);
  }

  // ---------------------------------------------------------------- the object

  class NodeView {
    const id: string
    var base: map<Path, nat>
    var stamps: map<Path, Stamp>
    var conflicts: set<Path>

    constructor (id: string)
      ensures this.id == id
      ensures forall ws: Workspace, p :: CellAt(ws, p) == RestartCell(CellAt(ws, p))
    {
      this.id := id;
      base, stamps, conflicts := map[], map[], {};
    }

    ghost function CellAt(ws: Workspace, p: Path): Cell
      reads this, ws
    {
      Cell(Lookup(ws.files, p), Lookup(base, p), Lookup(stamps, p), p in conflicts, false, None, Idle)
    }

    ghost function Cells(ws: Workspace): imap<Path, Cell>
      reads this, ws
    {
      imap p: Path | true :: CellAt(ws, p)
    }

    /** Push one edited file, unless it holds markers; remember what was accepted. */
    method PushEdit(ws: Workspace, hub: Hub, p: Path, content: Content, st: Stamp) returns (answer: PushResult)
      requires hub.Valid()
      modifies hub, this
      ensures hub.Valid()
      ensures forall q :: (Past(hub.history, q) ==
        if q == p then EditPast(old(CellAt(ws, p)), old(Past(hub.history, p)), content, st, id)
        else old(Past(hub.history, q)))
      ensures forall q :: (CellAt(ws, q) ==
        if q == p then EditCell(old(CellAt(ws, p)), old(Past(hub.history, p)), content, st)
        else old(CellAt(ws, q)))
      ensures answer == EditAnswer(old(CellAt(ws, p)), old(Past(hub.history, p)), content, st)
    {
      hide HasConflictMarkers, PushAnswer, PushPast, WellFormed, Current;
      if HasConflictMarkers(content) {
        conflicts := conflicts + {p};
        stamps := stamps[p := st];
        return Applied(0);
      }
      conflicts := conflicts - {p};
      answer := hub.Push(id, p, Change(content, false, if p in base then base[p] else 0));
      if answer.Applied? {
        base := base[p := answer.version];
        stamps := stamps[p := st];
      }
    }

    /** Push the deletion of a known path that the scan did not see, unless it is locked. */
    method PushDeletion(ws: Workspace, hub: Hub, p: Path) returns (answer: PushResult)
      requires hub.Valid() && p in base
      modifies hub, this`base, this`stamps
      ensures hub.Valid() && base.Keys == old(base.Keys)
      ensures answer == DropAnswer(old(CellAt(ws, p)), old(Past(hub.history, p)))
      ensures forall q :: (Past(hub.history, q) ==
        if q == p then DropPast(old(CellAt(ws, p)), old(Past(hub.history, p)), id)
        else old(Past(hub.history, q)))
      ensures forall q :: (CellAt(ws, q) ==
        if q == p then DropCell(old(CellAt(ws, p)), old(Past(hub.history, p)))
        else old(CellAt(ws, q)))
    {
      hide PushAnswer, PushPast, WellFormed, Current;
      if p in conflicts {
        return Applied(0); // locked
      }
      answer := hub.Push(id, p, Change([], true, base[p]));
      if answer.Applied? {
        base := base[p := answer.version];
        stamps := stamps - {p};
      }
    }

    /** Push changed files and deletions, returning the rejected ones for the caller to mark. */
    method SyncUp(ws: Workspace, hub: Hub, ignored: Path -> bool) returns (rejected: map<Path, FileState>)
      requires hub.Valid()
      modifies hub, this
      ensures hub.Valid()
      ensures forall p :: (CellAt(ws, p) ==
        ViewUpCell(old(CellAt(ws, p)), old(Past(hub.history, p)), ignored(p)))
      ensures forall p :: (Past(hub.history, p) ==
        UpPast(old(CellAt(ws, p)), old(Past(hub.history, p)), ignored(p), id))
      ensures forall p :: p in rejected <==>
        UpAnswer(old(CellAt(ws, p)), old(Past(hub.history, p)), ignored(p)).Rejected?
      ensures forall p :: p in rejected ==>
        rejected[p] == UpAnswer(old(CellAt(ws, p)), old(Past(hub.history, p)), ignored(p)).hub
    {
      hide ViewUpCell, UpPast, UpAnswer, EditCell, EditPast, EditAnswer, DropCell, DropPast, DropAnswer,
           Inspect, WellFormed, Current, StampOf;
      ghost var was, before := Cells(ws), hub.history;
      var changed, stampOf, seen := ScanChanges(ws.files, ignored, stamps);
      RefreshTouched(ws, changed, stampOf);
      ghost var touched := Cells(ws);
      var refused := PushEdits(ws, hub, changed, stampOf);
      ghost var sent, pushed, known := Cells(ws), hub.history, base.Keys;
      var undeleted := PushDeletions(ws, hub, seen);
      rejected := refused + undeleted;
      forall p
        ensures CellAt(ws, p) == ViewUpCell(was[p], Past(before, p), ignored(p))
        ensures Past(hub.history, p) == UpPast(was[p], Past(before, p), ignored(p), id)
        ensures p in rejected <==> UpAnswer(was[p], Past(before, p), ignored(p)).Rejected?
        ensures p in rejected ==> rejected[p] == UpAnswer(was[p], Past(before, p), ignored(p)).hub
      {
        assert Found(old(ws.files), ignored, old(stamps), p) == Inspect(was[p].file, was[p].stamp, ignored(p));
        if p !in known {
          NothingToDrop(sent[p], Past(pushed, p), id);
        }
        ViewAssembled(was[p], Past(before, p), ignored(p), id, Lookup(changed, p), Lookup(stampOf, p),
                      p in seen, touched[p], sent[p], Past(pushed, p));
      }
    }

    /** Mark one rejected path for resolution in place. */
    method MarkConflict(ws: Workspace, p: Path, hub: FileState, diff: LineDiff, now: nat)
      modifies ws, this
      ensures forall q :: (CellAt(ws, q) ==
        if q == p then ViewMarkCell(old(CellAt(ws, p)), hub, diff, now) else old(CellAt(ws, q)))
    {
      if p !in ws.files {
        return; // no file to write a conflict into
      }
      var local := ws.files[p].content;
      if !HasConflictMarkers(local) {
        var marked := MergeMarkers(local, diff(local, hub.content), hub.version);
        ws.WriteFile(p, marked, now);
        stamps := stamps[p := Stamp(|marked|, now, HashContent(marked))];
      }
      conflicts := conflicts + {p};
      base := base[p := hub.version];
    }

    /** The seed workspace's upward sync: push, then mark every rejected path. */
    method SeedSyncUp(ws: Workspace, hub: Hub, ignored: Path -> bool, diff: LineDiff, now: nat)
      requires hub.Valid()
      modifies ws, hub, this
      ensures hub.Valid()
      ensures forall p :: (CellAt(ws, p) ==
        ViewSyncCell(old(CellAt(ws, p)), old(Past(hub.history, p)), ignored(p), diff, now))
      ensures forall p :: (Past(hub.history, p) ==
        UpPast(old(CellAt(ws, p)), old(Past(hub.history, p)), ignored(p), id))
      // the remote client's SyncUp after its first sync, at every path that is not marked twice
      ensures forall p :: !MarkedTwice(old(CellAt(ws, p)), old(Past(hub.history, p)), ignored(p)) ==> (
        CellAt(ws, p) == UpCell(old(CellAt(ws, p)), old(Past(hub.history, p)), ignored(p), false, diff, now))
    {
      hide ViewMarkCell, ViewUpCell, UpCell, UpPast, UpAnswer, WellFormed, Current, MarkedTwice;
      ghost var was, before := Cells(ws), hub.history;
      forall p ensures WellFormed(Past(before, p)) {
      }
      var rejected := SyncUp(ws, hub, ignored);
      MarkAll(ws, rejected, diff, now);
      forall p
        ensures CellAt(ws, p) == ViewSyncCell(was[p], Past(before, p), ignored(p), diff, now)
        ensures !MarkedTwice(was[p], Past(before, p), ignored(p)) ==>
          ViewSyncCell(was[p], Past(before, p), ignored(p), diff, now)
          == UpCell(was[p], Past(before, p), ignored(p), false, diff, now)
      {
        ViewSimulatesNode(was[p], Past(before, p), ignored(p), diff, now);
      }
    }

    method MarkAll(ws: Workspace, rejected: map<Path, FileState>, diff: LineDiff, now: nat)
      modifies ws, this
      ensures forall p :: (CellAt(ws, p) ==
        if p in rejected then ViewMarkCell(old(CellAt(ws, p)), rejected[p], diff, now) else old(CellAt(ws, p)))
    {
      hide ViewMarkCell;
      var todo := rejected.Keys;
      while todo != {}
        invariant todo <= rejected.Keys
        invariant forall p :: (CellAt(ws, p) ==
          if p in rejected && p !in todo
          then ViewMarkCell(old(CellAt(ws, p)), rejected[p], diff, now)
          else old(CellAt(ws, p)))
        decreases todo
      {
        var p :| p in todo;
        todo := todo - {p};
        MarkConflict(ws, p, rejected[p], diff, now);
      }
    }

    /** At startup against a restored hub: adopt the hub's version of every listed file that is already here. */
    method ResumeFromHub(ws: Workspace, hub: Hub)
      requires hub.Valid()
      modifies this`base
      ensures forall p :: CellAt(ws, p) == ViewResumeCell(old(CellAt(ws, p)), Past(hub.history, p))
    {
      hide WellFormed, Current;
      var listed := hub.List();
      AdoptVersions(ws, listed);
    }

    method AdoptVersions(ws: Workspace, listed: map<Path, FileState>)
      modifies this`base
      ensures forall p :: (CellAt(ws, p) ==
        if p in listed && p in ws.files then old(CellAt(ws, p)).(base := Some(listed[p].version))
        else old(CellAt(ws, p)))
    {
      var todo := listed.Keys;
      while todo != {}
        invariant todo <= listed.Keys
        invariant forall p :: (CellAt(ws, p) ==
          if p in listed && p !in todo && p in ws.files
          then old(CellAt(ws, p)).(base := Some(listed[p].version))
          else old(CellAt(ws, p)))
        decreases todo
      {
        var p :| p in todo;
        todo := todo - {p};
        if p in ws.files {
          base := base[p := listed[p].version];
        }
      }
    }

    method SyncDown(ws: Workspace, hub: Hub, now: nat)
      requires hub.Valid()
      modifies ws, this`base, this`stamps
      ensures forall p :: CellAt(ws, p) == DownCell(old(CellAt(ws, p)), Past(hub.history, p), now)
    {
      hide TakenCell, WellFormed, Current;
      var updates := hub.Pull(base);
      TakeUpdates(ws, updates, now);
    }

    method TakeUpdates(ws: Workspace, updates: map<Path, FileState>, now: nat)
      modifies ws, this`base, this`stamps
      ensures forall p :: (CellAt(ws, p) ==
        var c := old(CellAt(ws, p));
        if p in updates && !Frozen(c) then TakenCell(c, updates[p], now) else c)
    {
      hide TakenCell;
      var todo := updates.Keys;
      while todo != {}
        invariant todo <= updates.Keys
        invariant forall p :: (CellAt(ws, p) ==
          if p in updates && p !in todo && !Frozen(old(CellAt(ws, p)))
          then TakenCell(old(CellAt(ws, p)), updates[p], now)
          else old(CellAt(ws, p)))
        decreases todo
      {
        var p :| p in todo;
        todo := todo - {p};
        if p in conflicts {
          continue; // locked
        }
        TakeUpdate(ws, p, updates[p], now);
      }
    }

    method TakeUpdate(ws: Workspace, p: Path, f: FileState, now: nat)
      modifies ws, this`base, this`stamps
      ensures forall q :: (CellAt(ws, q) ==
        if q == p then TakenCell(old(CellAt(ws, p)), f, now) else old(CellAt(ws, q)))
    {
      ws.ApplyFile(p, f, now);
      base := base[p := f.version];
      if f.deleted {
        stamps := stamps - {p};
      } else {
        stamps := stamps[p := Stamp(|f.content|, now, HashContent(f.content))];
      }
    }

    method RefreshTouched(ws: Workspace, changed: map<Path, Content>, stampOf: map<Path, Stamp>)
      modifies this`stamps
      ensures forall p :: (CellAt(ws, p) ==
        if p in stampOf && p !in changed then old(CellAt(ws, p)).(stamp := Some(stampOf[p]))
        else old(CellAt(ws, p)))
    {
      var todo := stampOf.Keys - changed.Keys;
      while todo != {}
        invariant todo <= stampOf.Keys - changed.Keys
        invariant forall p :: (CellAt(ws, p) ==
          if p in stampOf && p !in changed && p !in todo
          then old(CellAt(ws, p)).(stamp := Some(stampOf[p]))
          else old(CellAt(ws, p)))
        decreases todo
      {
        var p :| p in todo;
        stamps := stamps[p := stampOf[p]];
        todo := todo - {p};
      }
    }

    /** The loop over edited files. */
    method PushEdits(ws: Workspace, hub: Hub, changed: map<Path, Content>, stampOf: map<Path, Stamp>)
      returns (refused: map<Path, FileState>)
      requires hub.Valid() && changed.Keys <= stampOf.Keys
      modifies hub, this
      ensures hub.Valid()
      ensures forall p :: (CellAt(ws, p) ==
        if p in changed
        then EditCell(old(CellAt(ws, p)), old(Past(hub.history, p)), changed[p], stampOf[p])
        else old(CellAt(ws, p)))
      ensures forall p :: (Past(hub.history, p) ==
        if p in changed
        then EditPast(old(CellAt(ws, p)), old(Past(hub.history, p)), changed[p], stampOf[p], id)
        else old(Past(hub.history, p)))
      ensures forall p :: p in refused <==> (
        p in changed
        && EditAnswer(old(CellAt(ws, p)), old(Past(hub.history, p)), changed[p], stampOf[p]).Rejected?)
      ensures forall p :: p in refused ==>
        refused[p] == EditAnswer(old(CellAt(ws, p)), old(Past(hub.history, p)), changed[p], stampOf[p]).hub
    {
      hide *;
      refused := map[];
      var todo := changed.Keys;
      while todo != {}
        invariant hub.Valid() && todo <= changed.Keys
        invariant forall p :: (CellAt(ws, p) ==
          if p in changed && p !in todo
          then EditCell(old(CellAt(ws, p)), old(Past(hub.history, p)), changed[p], stampOf[p])
          else old(CellAt(ws, p)))
        invariant forall p :: (Past(hub.history, p) ==
          if p in changed && p !in todo
          then EditPast(old(CellAt(ws, p)), old(Past(hub.history, p)), changed[p], stampOf[p], id)
          else old(Past(hub.history, p)))
        invariant forall p :: p in refused <==> (
          p in changed && p !in todo
          && EditAnswer(old(CellAt(ws, p)), old(Past(hub.history, p)), changed[p], stampOf[p]).Rejected?)
        invariant forall p :: p in refused ==>
          refused[p] == EditAnswer(old(CellAt(ws, p)), old(Past(hub.history, p)), changed[p], stampOf[p]).hub
        decreases todo
      {
        var p :| p in todo;
        todo := todo - {p};
        var answer := PushEdit(ws, hub, p, changed[p], stampOf[p]);
        if answer.Rejected? {
          refused := refused[p := answer.hub];
        }
      }
    }

    /** The loop over known paths. */
    method PushDeletions(ws: Workspace, hub: Hub, seen: set<Path>) returns (refused: map<Path, FileState>)
      requires hub.Valid()
      modifies hub, this`base, this`stamps
      ensures hub.Valid()
      ensures forall p :: (CellAt(ws, p) ==
        if p in old(base) && p !in seen then DropCell(old(CellAt(ws, p)), old(Past(hub.history, p)))
        else old(CellAt(ws, p)))
      ensures forall p :: (Past(hub.history, p) ==
        if p in old(base) && p !in seen then DropPast(old(CellAt(ws, p)), old(Past(hub.history, p)), id)
        else old(Past(hub.history, p)))
      ensures forall p :: p in refused <==> (
        p in old(base) && p !in seen && DropAnswer(old(CellAt(ws, p)), old(Past(hub.history, p))).Rejected?)
      ensures forall p :: p in refused ==>
        refused[p] == DropAnswer(old(CellAt(ws, p)), old(Past(hub.history, p))).hub
    {
      hide *;
      refused := map[];
      var todo := base.Keys - seen;
      while todo != {}
        invariant hub.Valid() && todo <= old(base).Keys - seen && base.Keys == old(base).Keys
        invariant forall p :: (CellAt(ws, p) ==
          if p in old(base) && p !in seen && p !in todo
          then DropCell(old(CellAt(ws, p)), old(Past(hub.history, p)))
          else old(CellAt(ws, p)))
        invariant forall p :: (Past(hub.history, p) ==
          if p in old(base) && p !in seen && p !in todo
          then DropPast(old(CellAt(ws, p)), old(Past(hub.history, p)), id)
          else old(Past(hub.history, p)))
        invariant forall p :: p in refused <==> (
          p in old(base) && p !in seen && p !in todo
          && DropAnswer(old(CellAt(ws, p)), old(Past(hub.history, p))).Rejected?)
        invariant forall p :: p in refused ==>
          refused[p] == DropAnswer(old(CellAt(ws, p)), old(Past(hub.history, p))).hub
        decreases todo
      {
        var p :| p in todo;
        todo := todo - {p};
        var answer := PushDeletion(ws, hub, p);
        if answer.Rejected? {
          refused := refused[p := answer.hub];
        }
      }
    }
  }

  lemma NothingToDrop(c: Cell, past: seq<Write>, node: string)
    requires c.base.None? && c.flight.Idle?
    ensures DropCell(c, past) == c && DropPast(c, past, node) == past && DropAnswer(c, past).Applied?
  {
  }
}
