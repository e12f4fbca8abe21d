/**
 What a sync client does to one path. Every operation of the client treats paths independently, so
 the whole protocol is this automaton run side by side on every path: a path's cell on the node
 against the path's history at the hub.
 */
module PathSync {
  import opened Text
  import opened Markers
  import opened FileHub
  import opened Scan
  import opened Options

  /** A line diff: for any two texts a valid line-aligned edit script from the first to the second. */
  type LineDiff = d: (Content, Content) -> seq<Edit>
    | forall a, b :: ValidScript(a, b, d(a, b))
    ghost witness AnyDiff()

  ghost function AnyDiff(): (d: (Content, Content) -> seq<Edit>)
    ensures forall a, b :: ValidScript(a, b, d(a, b))
  {
    var d := (a: Content, b: Content) => ReplaceAll(a, b);
    assert forall a, b :: ValidScript(a, b, d(a, b)) by {
      forall a, b ensures ValidScript(a, b, d(a, b)) {
        ReplaceAllValid(a, b);
      }
    }
    d
  }

  /** A push under way: still to be sent, or answered. scanned is the stamp of the file as scanned. */
  datatype Flight =
    | Idle
    | Sending(change: Change, scanned: Option<Stamp>)
    | Answered(result: PushResult, scanned: Option<Stamp>)

  /** One path of one client. */
  datatype Cell = Cell(
    file: Option<File>,        // the file on disk
    base: Option<nat>,         // the hub version the client last saw
    stamp: Option<Stamp>,      // the last-synced revision
    locked: bool,              // conflict markers awaiting resolution
    held: bool,                // startup conflict awaiting the operator's verdict
    copy: Option<FileState>,   // the hub's side of that startup conflict
    flight: Flight)

  const EMPTY := Cell(None, None, None, false, false, None, Idle)

  predicate Frozen(c: Cell) { c.locked || c.held }

  function BaseOf(c: Cell): nat { if c.base.Some? then c.base.value else 0 }

  // ---------------------------------------------------------------- SyncUp, in three steps

  /** The scan: refresh stamps, lock marked files, decide what to push. */
  function PlanCell(c: Cell, ignored: bool): (r: Cell)
    ensures c.flight.Idle? ==> !r.flight.Answered?
  {
    match Inspect(c.file, c.stamp, ignored)
    case Skipped => c
    case Touched(st) => c.(stamp := Some(st))
    case Edited(content, st) => EditedCell(c, content, st)
    case Unseen =>
      if c.base.Some? && !Frozen(c) then c.(flight := Sending(Change([], true, c.base.value), None)) else c
  }

  /** A changed file: kept back while held or marked, pushed otherwise. */
  function EditedCell(c: Cell, content: Content, st: Stamp): Cell {
    if c.held then c.(stamp := Some(st))
    else if HasConflictMarkers(content) then c.(locked := true, stamp := Some(st))
    else c.(locked := false, flight := Sending(Change(content, false, BaseOf(c)), Some(st)))
  }

  /** A changed file's cell once the scan has dealt with it, the push itself left aside. */
  function KeptCell(c: Cell, content: Content, st: Stamp): Cell {
    EditedCell(c, content, st).(flight := Idle)
  }

  /** What SyncUp pushes of a changed file. */
  function PushOf(c: Cell, content: Content, st: Stamp): Option<Change> {
    var edited := EditedCell(c.(flight := Idle), content, st);
    if edited.flight.Sending? then Some(edited.flight.change) else None
  }

  /**
   The plan put together from the pieces SyncUp handles in turn: edited files, touched files, and
   known paths the scan did not see.
   */
  lemma PlanAssembled(c: Cell, ignored: bool, changed: Option<Content>, stampOf: Option<Stamp>, seen: bool,
                      edited: Cell, planned: Cell, wire: Option<Change>)
    requires c.flight.Idle?
    requires
      var found := Inspect(c.file, c.stamp, ignored);
      && changed == (if found.Edited? then Some(found.content) else None)
      && stampOf == (if found.Edited? || found.Touched? then Some(found.stamp) else None)
      && (seen <==> !found.Unseen?)
    requires edited == if changed.Some? then KeptCell(c, changed.value, stampOf.value) else c
    requires planned == if stampOf.Some? && changed.None? then edited.(stamp := stampOf) else edited
    requires wire == (
      if changed.Some? && PushOf(c, changed.value, stampOf.value).Some?
      then PushOf(c, changed.value, stampOf.value)
      else if c.base.Some? && !seen && !Frozen(planned) then Some(Change([], true, c.base.value))
      else None)
    ensures planned == PlanCell(c, ignored).(flight := Idle)
    ensures wire.Some? <==> PlanCell(c, ignored).flight.Sending?
    ensures wire.Some? ==> PlanCell(c, ignored).flight == Sending(wire.value, stampOf)
  {
  }

  /** The hub's answer to the path's push, if one is under way. */
  function SendCell(c: Cell, past: seq<Write>): Cell {
    if c.flight.Sending? then c.(flight := Answered(PushAnswer(past, c.flight.change), c.flight.scanned)) else c
  }

  function SendPast(c: Cell, past: seq<Write>, node: string): seq<Write> {
    if c.flight.Sending? then PushPast(past, node, c.flight.change) else past
  }

  /** Write conflict markers over the local file, adopt the hub's version, lock the path. */
  function MarkCell(c: Cell, hub: FileState, diff: LineDiff, now: nat): Cell {
    if c.file.None? then c // the file vanished: nothing to mark
    else
      var local := c.file.value.content;
      var marked := File(Merged(local, 0, diff(local, hub.content), hub.version), now);
      c.(file := Some(marked), locked := true, base := Some(hub.version), stamp := Some(StampOf(marked)))
  }

  /** Act on the hub's answer. */
  function AbsorbCell(c: Cell, first: bool, diff: LineDiff, now: nat): Cell {
    if !c.flight.Answered? then c
    else match c.flight.result
      case Applied(v) => c.(base := Some(v), stamp := c.flight.scanned, flight := Idle)
      case Rejected(hub) =>
        if first then c.(held := true, copy := Some(hub), flight := Idle)
        else MarkCell(c.(flight := Idle), hub, diff, now)
  }

  /** The in-process client's marking: a file that already holds markers is not marked again. */
  function ViewMarkCell(c: Cell, hub: FileState, diff: LineDiff, now: nat): Cell {
    if c.file.None? then c
    else if HasConflictMarkers(c.file.value.content) then c.(locked := true, base := Some(hub.version))
    else MarkCell(c, hub, diff, now)
  }

  /** The in-process client acts on the hub's answer: it never holds, and marks in its own way. */
  function ViewAbsorbCell(c: Cell, diff: LineDiff, now: nat): Cell {
    if !c.flight.Answered? then c
    else match c.flight.result
      case Applied(v) => c.(base := Some(v), stamp := c.flight.scanned, flight := Idle)
      case Rejected(hub) => ViewMarkCell(c.(flight := Idle), hub, diff, now)
  }

  /** The three steps with nothing in between. */
  function UpCell(c: Cell, past: seq<Write>, ignored: bool, first: bool, diff: LineDiff, now: nat): Cell {
    AbsorbCell(SendCell(PlanCell(c, ignored), past), first, diff, now)
  }

  function UpPast(c: Cell, past: seq<Write>, ignored: bool, node: string): seq<Write> {
    SendPast(PlanCell(c, ignored), past, node)
  }

  /** The hub's answer to what SyncUp pushes at the path; a path it leaves alone counts as accepted. */
  function UpAnswer(c: Cell, past: seq<Write>, ignored: bool): PushResult {
    var flight := PlanCell(c, ignored).flight;
    if flight.Sending? then PushAnswer(past, flight.change) else Applied(0)
  }

  /** The round-trip at one path: what was planned is pushed, and its answer acted on. */
  function AnsweredCell(planned: Cell, past: seq<Write>, change: Option<Change>, scanned: Option<Stamp>,
                        first: bool, diff: LineDiff, now: nat): (r: Cell)
    ensures change.None? ==> r == planned
  {
    if change.Some?
    then AbsorbCell(planned.(flight := Answered(PushAnswer(past, change.value), scanned)), first, diff, now)
    else planned
  }

  /** The three steps put together: only a path with something to send is sent and answered. */
  lemma UpAssembled(c: Cell, past: seq<Write>, ignored: bool, node: string, first: bool, diff: LineDiff, now: nat,
                    planned: Cell, change: Option<Change>, scanned: Option<Stamp>, done: Cell)
    requires c.flight.Idle?
    requires planned == PlanCell(c, ignored).(flight := Idle)
    requires change.Some? <==> PlanCell(c, ignored).flight.Sending?
    requires change.Some? ==> PlanCell(c, ignored).flight == Sending(change.value, scanned)
    requires done == AnsweredCell(planned, past, change, scanned, first, diff, now)
    ensures done == UpCell(c, past, ignored, first, diff, now)
    ensures UpPast(c, past, ignored, node) == if change.Some? then PushPast(past, node, change.value) else past
    ensures UpAnswer(c, past, ignored) == if change.Some? then PushAnswer(past, change.value) else Applied(0)
  {
  }

  /**
   After a SyncUp with no edit in between, the next scan reports nothing and reads nothing at the
   path, except exactly where a first sync had an edited file refused: that file is read once more.
   */
  lemma RescanAfterSyncUpExactly(c: Cell, past: seq<Write>, ignored: bool, first: bool, diff: LineDiff, now: nat)
    requires c.flight.Idle?
    ensures
      var found, done := Inspect(c.file, c.stamp, ignored), UpCell(c, past, ignored, first, diff, now);
      var again := Inspect(done.file, done.stamp, ignored);
      again.Unseen? || again.Skipped? <==> !(found.Edited? && first && UpAnswer(c, past, ignored).Rejected?)
  {
    hide HasConflictMarkers, PushAnswer;
  }

  // ---------------------------------------------------------------- SyncDown and friends

  /** Pull: a path behind the hub takes the hub's state, unless it is frozen. */
  function DownCell(c: Cell, past: seq<Write>, now: nat): Cell {
    if !Behind(past, BaseOf(c)) || Frozen(c) then c else TakenCell(c, Current(past), now)
  }

  /** One pulled file (or deletion) applied and recorded as synced. */
  function TakenCell(c: Cell, f: FileState, now: nat): Cell {
    if f.deleted then c.(file := None, base := Some(f.version), stamp := None)
    else
      var file := File(f.content, now);
      c.(file := Some(file), base := Some(f.version), stamp := Some(StampOf(file)))
  }

  /** Release a path resolved at the hub. */
  function UnlockCell(c: Cell): Cell { c.(locked := false, held := false) }

  /**
   The local half of a resync, against the manifest of an earlier moment: forget everything, keep
   files that match the manifest, delete scanned files it does not list.
   */
  function ResetCell(c: Cell, past: seq<Write>, ignored: bool): Cell {
    var bare := c.(base := None, stamp := None, locked := false, held := false);
    if !Live(past) then
      if ignored then bare else bare.(file := None)
    else if c.file.Some? && !ignored && HashContent(c.file.value.content) == EntryOf(past).checksum then
      bare.(base := Some(EntryOf(past).version), stamp := Some(StampOf(c.file.value)))
    else bare
  }

  /** The local half of a resync put together from its pieces: adopt what matches, delete the unlisted. */
  lemma ResetAssembled(c: Cell, past: seq<Write>, ignored: bool, entry: Option<ManifestEntry>,
                       stampOf: Option<Stamp>, seen: bool, reset: Cell)
    requires entry == if Live(past) then Some(EntryOf(past)) else None
    requires
      var found := Inspect(c.file, None, ignored);
      && stampOf == (if found.Edited? || found.Touched? then Some(found.stamp) else None)
      && (seen <==> !found.Unseen?)
    requires
      var bare := c.(base := None, stamp := None, locked := false, held := false);
      var adopted :=
        if entry.Some? && stampOf.Some? && stampOf.value.hash == entry.value.checksum
        then bare.(base := Some(entry.value.version), stamp := stampOf) else bare;
      reset == if seen && entry.None? then adopted.(file := None) else adopted
    ensures reset == ResetCell(c, past, ignored)
  {
  }

  /** The operator's verdict "resync": the hold and its copy are dropped, then the local half of a resync. */
  function DiscardCell(c: Cell, past: seq<Write>, ignored: bool): Cell {
    ResetCell(c.(held := false, copy := None), past, ignored)
  }

  /** The operator's verdict "resolve" on a held startup conflict. */
  function VerdictCell(c: Cell, diff: LineDiff, now: nat): Cell {
    var released := c.(held := false, copy := None);
    if c.copy.Some? then MarkCell(released, c.copy.value, diff, now) else released
  }

  /** Adopt the hub's version of a file that is already here. */
  function ResumeCell(c: Cell, past: seq<Write>): Cell {
    if Live(past) && c.file.Some? then c.(base := Some(Current(past).version)) else c
  }

  /** The in-process client's way of adopting versions: it does not pass over tombstones. */
  function ViewResumeCell(c: Cell, past: seq<Write>): Cell {
    if |past| > 0 && c.file.Some? then c.(base := Some(Current(past).version)) else c
  }

  /** A restarted client: the tree is all that is left. */
  function RestartCell(c: Cell): Cell { EMPTY.(file := c.file) }
}
