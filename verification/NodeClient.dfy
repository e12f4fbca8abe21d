/**
 The remote sync client as an object: in-memory maps updated in place by SyncUp, SyncDown and the
 operator's verdicts, over a working tree. Each operation is proved to do to every path exactly what
 the per-path automaton says, in whatever order the maps are walked.
 */
module NodeClient {
  import opened Text
  import opened Markers
  import opened FileHub
  import opened Scan
  import opened PathSync
  import opened Options

  /** A working directory. */
  class Workspace {
    var files: Tree

    constructor (files: Tree)
      ensures this.files == files
    {
      this.files := files;
    }

    method WriteFile(p: Path, content: Content, now: nat)
      modifies this
      ensures files == old(files)[p := File(content, now)]
    {
      files := files[p := File(content, now)];
    }

    /** Write or delete one hub file. */
    method ApplyFile(p: Path, f: FileState, now: nat)
      modifies this
      ensures files == if f.deleted then old(files) - {p} else old(files)[p := File(f.content, now)]
    {
      if f.deleted {
        files := files - {p};
      } else {
        WriteFile(p, f.content, now);
      }
    }
  }

  /** Core's side of a push: the changes go to the hub one by one, each with its own answer. */
  method HandlePush(hub: Hub, nodeId: string, changes: map<Path, Change>)
    returns (results: map<Path, PushResult>)
    requires hub.Valid()
    modifies hub
    ensures hub.Valid()
    ensures results.Keys == changes.Keys
    ensures forall p :: p in changes ==> results[p] == PushAnswer(old(Past(hub.history, p)), changes[p])
    ensures forall p :: (Past(hub.history, p) ==
      if p in changes then PushPast(old(Past(hub.history, p)), nodeId, changes[p]) else old(Past(hub.history, p)))
  {
    hide *;
    results := map[];
    var todo := changes.Keys;
    while todo != {}
      invariant hub.Valid() && todo <= changes.Keys
      invariant results.Keys == changes.Keys - todo
      invariant forall p :: p in results ==> results[p] == PushAnswer(old(Past(hub.history, p)), changes[p])
      invariant forall p :: (Past(hub.history, p) ==
        if p in results then PushPast(old(Past(hub.history, p)), nodeId, changes[p]) else old(Past(hub.history, p)))
      decreases todo
    {
      var p :| p in todo;
      var r := hub.Push(nodeId, p, changes[p]);
      results := results[p := r];
      todo := todo - {p};
    }
  }

  datatype Directive = ResyncAll | ResolveHeld

  class Node {
    const id: string
    const ignored: Path -> bool
    const diff: LineDiff
    var base: map<Path, nat>
    var stamps: map<Path, Stamp>
    var conflicts: set<Path>            // locked paths
    var startupHeld: set<Path>          // paths frozen until the operator's verdict
    var held: map<Path, FileState>      // the hub's side of each startup conflict
    var firstSync: bool

    constructor (id: string, ignored: Path -> bool, diff: LineDiff)
      ensures this.id == id && this.ignored == ignored && this.diff == diff && firstSync
      ensures forall ws: Workspace, p :: CellAt(ws, p) == RestartCell(CellAt(ws, p))
    {
      this.id, this.ignored, this.diff := id, ignored, diff;
      base, stamps, conflicts, startupHeld, held, firstSync := map[], map[], {}, {}, map[], true;
    }

    /** One path of this client over its tree. */
    ghost function CellAt(ws: Workspace, p: Path): Cell
      reads this, ws
    {
      Cell(Lookup(ws.files, p), Lookup(base, p), Lookup(stamps, p),
           p in conflicts, p in startupHeld, Lookup(held, p), Idle)
    }

    ghost function Cells(ws: Workspace): imap<Path, Cell>
      reads this, ws
    {
      imap p: Path | true :: CellAt(ws, p)
    }

    /** SyncUp up to the wire: scan, refresh stamps, lock marked files, collect what to push. */
    method ScanAndPlan(ws: Workspace) returns (wire: map<Path, Change>, stampOf: map<Path, Stamp>)
      modifies this`stamps, this`conflicts
      ensures forall p :: CellAt(ws, p) == PlanCell(old(CellAt(ws, p)), ignored(p)).(flight := Idle)
      ensures forall p :: p in wire <==> PlanCell(old(CellAt(ws, p)), ignored(p)).flight.Sending?
      ensures forall p :: p in wire ==>
        var flight := PlanCell(old(CellAt(ws, p)), ignored(p)).flight;
        wire[p] == flight.change && Lookup(stampOf, p) == flight.scanned
    {
      hide KeptCell, PushOf, Inspect, PlanCell, StampOf;
      ghost var was := Cells(ws);
      var changed, seen;
      changed, stampOf, seen := ScanChanges(ws.files, ignored, stamps);
      var edits := PlanEdits(ws, changed, stampOf);
      ghost var edited := Cells(ws);
      RefreshTouched(ws, changed, stampOf);
      var deletions := PlanDeletions(ws, seen);
      wire := edits + deletions;
      forall p
        ensures CellAt(ws, p) == PlanCell(was[p], ignored(p)).(flight := Idle)
        ensures p in wire <==> PlanCell(was[p], ignored(p)).flight.Sending?
        ensures p in wire ==>
          PlanCell(was[p], ignored(p)).flight == Sending(wire[p], Lookup(stampOf, p))
      {
        var found := Inspect(was[p].file, was[p].stamp, ignored(p));
        assert found == Found(old(ws.files), ignored, old(stamps), p);
        PlanAssembled(was[p], ignored(p), Lookup(changed, p), Lookup(stampOf, p), p in seen,
                      edited[p], CellAt(ws, p), Lookup(wire, p));
      }
    }

    method PlanEdits(ws: Workspace, changed: map<Path, Content>, stampOf: map<Path, Stamp>)
      returns (wire: map<Path, Change>)
      requires changed.Keys <= stampOf.Keys
      modifies this`stamps, this`conflicts
      ensures forall p :: (CellAt(ws, p) ==
        if p in changed then KeptCell(old(CellAt(ws, p)), changed[p], stampOf[p])
        else old(CellAt(ws, p)))
      ensures forall p :: (Lookup(wire, p) ==
        if p in changed then PushOf(old(CellAt(ws, p)), changed[p], stampOf[p]) else None)
    {
      hide KeptCell, PushOf;
      wire := map[];
      var todo := changed.Keys;
      while todo != {}
        invariant todo <= changed.Keys
        invariant forall p :: (CellAt(ws, p) ==
          if p in changed && p !in todo then KeptCell(old(CellAt(ws, p)), changed[p], stampOf[p])
          else old(CellAt(ws, p)))
        invariant forall p :: (Lookup(wire, p) ==
          if p in changed && p !in todo then PushOf(old(CellAt(ws, p)), changed[p], stampOf[p]) else None)
        decreases todo
      {
        var p :| p in todo;
        todo := todo - {p};
        var push := PlanEdit(ws, p, changed[p], stampOf[p]);
        if push.Some? {
          wire := wire[p := push.value];
        }
      }
    }

    /** Keep a changed file back while it is held or marked; push it otherwise. */
    method PlanEdit(ws: Workspace, p: Path, content: Content, st: Stamp) returns (push: Option<Change>)
      modifies this`stamps, this`conflicts
      ensures forall q :: (CellAt(ws, q) ==
        if q == p then KeptCell(old(CellAt(ws, p)), content, st) else old(CellAt(ws, q)))
      ensures push == PushOf(old(CellAt(ws, p)), content, st)
    {
      hide HasConflictMarkers;
      if p in startupHeld {
        stamps := stamps[p := st]; // seen, but kept back
        return None;
      }
      if HasConflictMarkers(content) {
        conflicts := conflicts + {p};
        stamps := stamps[p := st];
        return None;
      }
      conflicts := conflicts - {p};
      return Some(Change(content, false, if p in base then base[p] else 0));
    }

    /** Files read but unchanged in content: refresh their stamps. */
    method RefreshTouched(ws: Workspace, changed: map<Path, Content>, stampOf: map<Path, Stamp>)
      modifies this`stamps
      ensures forall p :: (CellAt(ws, p) ==
        if p in stampOf && p !in changed then old(CellAt(ws, p)).(stamp := Some(stampOf[p]))
        else old(CellAt(ws, p)))
    {
      var todo := stampOf.Keys - changed.Keys;
      while todo != {}
        invariant todo <= stampOf.Keys - changed.Keys
        invariant forall p :: (CellAt(ws, p) ==
          if p in stampOf && p !in changed && p !in todo
          then old(CellAt(ws, p)).(stamp := Some(stampOf[p]))
          else old(CellAt(ws, p)))
        decreases todo
      {
        var p :| p in todo;
        stamps := stamps[p := stampOf[p]];
        todo := todo - {p};
      }
    }

    /** Known paths the scan did not see, and that are not frozen, are deletions. */
    method PlanDeletions(ws: Workspace, seen: set<Path>) returns (wire: map<Path, Change>)
      ensures forall p :: p in wire <==> p in base && p !in seen && !Frozen(CellAt(ws, p))
      ensures forall p :: p in wire ==> wire[p] == Change([], true, base[p])
    {
      wire := map[];
      var todo := base.Keys;
      while todo != {}
        invariant todo <= base.Keys
        invariant forall p :: p in wire <==> p in base && p !in todo && p !in seen && !Frozen(CellAt(ws, p))
        invariant forall p :: p in wire ==> wire[p] == Change([], true, base[p])
        decreases todo
      {
        var p :| p in todo;
        if p !in seen && p !in conflicts && p !in startupHeld {
          wire := wire[p := Change([], true, base[p])];
        }
        todo := todo - {p};
      }
    }

    method MarkConflict(ws: Workspace, p: Path, hub: FileState, now: nat)
      modifies ws, this`conflicts, this`base, this`stamps
      ensures forall q :: (CellAt(ws, q) ==
        if q == p then MarkCell(old(CellAt(ws, p)), hub, diff, now) else old(CellAt(ws, q)))
    {
      if p !in ws.files {
        return; // no file to write a conflict into
      }
      var local := ws.files[p].content;
      var marked := MergeMarkers(local, diff(local, hub.content), hub.version);
      ws.WriteFile(p, marked, now);
      conflicts := conflicts + {p};
      base := base[p := hub.version];
      stamps := stamps[p := Stamp(|marked|, now, HashContent(marked))];
    }

    /** Act on one answer of the hub. */
    method AbsorbResult(ws: Workspace, p: Path, result: PushResult, scanned: Option<Stamp>, first: bool, now: nat)
      modifies ws, this`conflicts, this`base, this`stamps, this`startupHeld, this`held
      ensures forall q :: (CellAt(ws, q) ==
        if q == p then AbsorbCell(old(CellAt(ws, p)).(flight := Answered(result, scanned)), first, diff, now)
        else old(CellAt(ws, q)))
    {
      match result {
        case Applied(v) =>
          base := base[p := v];
          if scanned.Some? {
            stamps := stamps[p := scanned.value];
          } else {
            stamps := stamps - {p}; // a deletion
          }
        case Rejected(hub) =>
          if first {
            startupHeld := startupHeld + {p};
            held := held[p := hub];
          } else {
            MarkConflict(ws, p, hub, now);
          }
      }
    }

    /** SyncUp after the round-trip: act on each answer. */
    method AbsorbResults(ws: Workspace, results: map<Path, PushResult>, stampOf: map<Path, Stamp>,
                         first: bool, now: nat)
      returns (rejected: map<Path, FileState>)
      modifies ws, this`conflicts, this`base, this`stamps, this`startupHeld, this`held
      ensures forall p :: (CellAt(ws, p) ==
        if p in results
        then AbsorbCell(old(CellAt(ws, p)).(flight := Answered(results[p], Lookup(stampOf, p))), first, diff, now)
        else old(CellAt(ws, p)))
      ensures forall p :: p in rejected <==> p in results && results[p].Rejected?
      ensures forall p :: p in rejected ==> rejected[p] == results[p].hub
    {
      hide AbsorbCell;
      rejected := map[];
      var todo := results.Keys;
      while todo != {}
        invariant todo <= results.Keys
        invariant forall p :: (CellAt(ws, p) ==
          if p in results && p !in todo
          then AbsorbCell(old(CellAt(ws, p)).(flight := Answered(results[p], Lookup(stampOf, p))), first, diff, now)
          else old(CellAt(ws, p)))
        invariant forall p :: p in rejected <==> p in results && p !in todo && results[p].Rejected?
        invariant forall p :: p in rejected ==> rejected[p] == results[p].hub
        decreases todo
      {
        var p :| p in todo;
        todo := todo - {p};
        AbsorbResult(ws, p, results[p], if p in stampOf then Some(stampOf[p]) else None, first, now);
        if results[p].Rejected? {
          rejected := rejected[p := results[p].hub];
        }
      }
    }

    /** Push local changes and deletions; advance the base of accepted paths, hold or mark the rest. */
    method SyncUp(ws: Workspace, hub: Hub, now: nat) returns (rejected: map<Path, FileState>)
      requires hub.Valid()
      modifies ws, hub, this
      ensures hub.Valid() && !firstSync
      ensures forall p :: (CellAt(ws, p) ==
        UpCell(old(CellAt(ws, p)), old(Past(hub.history, p)), ignored(p), old(firstSync), diff, now))
      ensures forall p :: (Past(hub.history, p) ==
        UpPast(old(CellAt(ws, p)), old(Past(hub.history, p)), ignored(p), id))
      ensures forall p :: p in rejected <==>
        UpAnswer(old(CellAt(ws, p)), old(Past(hub.history, p)), ignored(p)).Rejected?
      ensures forall p :: p in rejected ==>
        rejected[p] == UpAnswer(old(CellAt(ws, p)), old(Past(hub.history, p)), ignored(p)).hub
    {
      hide PlanCell, UpCell, UpPast, UpAnswer, AnsweredCell, PushAnswer, PushPast, WellFormed, Current;
      var wire, stampOf := ScanAndPlan(ws);
      ghost var planned := Cells(ws);
      var first := firstSync;
      firstSync := false;
      rejected := PushPlanned(ws, hub, wire, stampOf, first, now);
      forall p
        ensures CellAt(ws, p) == UpCell(old(CellAt(ws, p)), old(Past(hub.history, p)), ignored(p), first, diff, now)
        ensures Past(hub.history, p) == UpPast(old(CellAt(ws, p)), old(Past(hub.history, p)), ignored(p), id)
        ensures UpAnswer(old(CellAt(ws, p)), old(Past(hub.history, p)), ignored(p))
             == if p in wire then PushAnswer(old(Past(hub.history, p)), wire[p]) else Applied(0)
      {
        UpAssembled(old(CellAt(ws, p)), old(Past(hub.history, p)), ignored(p), id, first, diff, now,
                    planned[p], Lookup(wire, p), Lookup(stampOf, p), CellAt(ws, p));
      }
    }

    /** The round-trip: push what was planned, act on the answers. */
    method PushPlanned(ws: Workspace, hub: Hub, wire: map<Path, Change>, stampOf: map<Path, Stamp>,
                       first: bool, now: nat)
      returns (rejected: map<Path, FileState>)
      requires hub.Valid()
      modifies ws, hub, this`conflicts, this`base, this`stamps, this`startupHeld, this`held
      ensures hub.Valid()
      ensures forall p :: (CellAt(ws, p) ==
        AnsweredCell(old(CellAt(ws, p)), old(Past(hub.history, p)), Lookup(wire, p), Lookup(stampOf, p),
                     first, diff, now))
      ensures forall p :: (Past(hub.history, p) ==
        if p in wire then PushPast(old(Past(hub.history, p)), id, wire[p]) else old(Past(hub.history, p)))
      ensures forall p :: p in rejected <==> p in wire && PushAnswer(old(Past(hub.history, p)), wire[p]).Rejected?
      ensures forall p :: p in rejected ==> rejected[p] == PushAnswer(old(Past(hub.history, p)), wire[p]).hub
    {
      hide AbsorbCell, PushAnswer, PushPast, WellFormed, Current;
      if |wire| == 0 {
        return map[]; // an empty wire is not sent
      }
      var results := HandlePush(hub, id, wire);
      rejected := AbsorbResults(ws, results, stampOf, first, now);
    }

    /** Pull what the hub has moved past the base, except at frozen paths. */
    method SyncDown(ws: Workspace, hub: Hub, now: nat)
      requires hub.Valid()
      modifies ws, this`base, this`stamps
      ensures forall p :: CellAt(ws, p) == DownCell(old(CellAt(ws, p)), Past(hub.history, p), now)
    {
      hide TakenCell, WellFormed, Current;
      var updates := hub.Pull(base);
      TakeUpdates(ws, updates, now);
    }

    method TakeUpdates(ws: Workspace, updates: map<Path, FileState>, now: nat)
      modifies ws, this`base, this`stamps
      ensures forall p :: (CellAt(ws, p) ==
        var c := old(CellAt(ws, p));
        if p in updates && !Frozen(c) then TakenCell(c, updates[p], now) else c)
    {
      hide TakenCell;
      var todo := updates.Keys;
      while todo != {}
        invariant todo <= updates.Keys
        invariant forall p :: (CellAt(ws, p) ==
          if p in updates && p !in todo && !Frozen(old(CellAt(ws, p)))
          then TakenCell(old(CellAt(ws, p)), updates[p], now)
          else old(CellAt(ws, p)))
        decreases todo
      {
        var p :| p in todo;
        todo := todo - {p};
        if p in conflicts || p in startupHeld {
          continue; // frozen
        }
        TakeUpdate(ws, p, updates[p], now);
      }
    }

    /** Apply one pulled file and record it as synced. */
    method TakeUpdate(ws: Workspace, p: Path, f: FileState, now: nat)
      modifies ws, this`base, this`stamps
      ensures forall q :: (CellAt(ws, q) ==
        if q == p then TakenCell(old(CellAt(ws, p)), f, now) else old(CellAt(ws, q)))
    {
      ws.ApplyFile(p, f, now);
      base := base[p := f.version];
      if f.deleted {
        stamps := stamps - {p};
      } else {
        stamps := stamps[p := Stamp(|f.content|, now, HashContent(f.content))];
      }
    }

    /** Release paths resolved at the hub and pull, so that the merged content lands over the markers. */
    method ApplyUnlocks(ws: Workspace, hub: Hub, paths: seq<Path>, now: nat)
      requires hub.Valid()
      modifies ws, this
      ensures paths == [] ==> forall p :: CellAt(ws, p) == old(CellAt(ws, p))
      ensures paths != [] ==> forall p :: (CellAt(ws, p) ==
        var c := old(CellAt(ws, p));
        DownCell(if p in paths then UnlockCell(c) else c, Past(hub.history, p), now))
      ensures firstSync == old(firstSync)
    {
      if |paths| == 0 {
        return;
      }
      for i := 0 to |paths|
        invariant firstSync == old(firstSync)
        invariant forall p :: (CellAt(ws, p) ==
          if p in paths[..i] then UnlockCell(old(CellAt(ws, p))) else old(CellAt(ws, p)))
      {
        conflicts := conflicts - {paths[i]};
        startupHeld := startupHeld - {paths[i]};
        assert paths[..i + 1] == paths[..i] + [paths[i]];
      }
      assert paths[..|paths|] == paths;
      SyncDown(ws, hub, now);
    }

    /** Reconcile the tree against the hub's manifest, discarding local divergence. */
    method Resync(ws: Workspace, hub: Hub, now: nat)
      requires hub.Valid()
      modifies ws, this
      ensures forall p :: (CellAt(ws, p) ==
        DownCell(ResetCell(old(CellAt(ws, p)), Past(hub.history, p), ignored(p)), Past(hub.history, p), now))
      ensures firstSync == old(firstSync)
    {
      hide DownCell, ResetCell, WellFormed;
      DiscardLocal(ws, hub, now);
      SyncDown(ws, hub, now);
    }

    /** The local half of a resync: forget everything, keep what matches the manifest, delete the unlisted. */
    method DiscardLocal(ws: Workspace, hub: Hub, now: nat)
      requires hub.Valid()
      modifies ws, this`base, this`stamps, this`conflicts, this`startupHeld
      ensures forall p :: CellAt(ws, p) == ResetCell(old(CellAt(ws, p)), Past(hub.history, p), ignored(p))
    {
      hide ResetCell, Inspect, WellFormed, Live, EntryOf, StampOf;
      ghost var was := Cells(ws);
      var manifest := hub.Manifest();
      var changed, stampOf, seen := ScanChanges(ws.files, ignored, map[]);
      base, stamps, conflicts, startupHeld := map[], map[], {}, {};
      AdoptMatching(ws, manifest, stampOf);
      DeleteAll(ws, seen - manifest.Keys, now); // whatever the manifest does not list
      forall p ensures CellAt(ws, p) == ResetCell(was[p], Past(hub.history, p), ignored(p)) {
        assert Found(old(ws.files), ignored, map[], p) == Inspect(was[p].file, None, ignored(p));
        ResetAssembled(was[p], Past(hub.history, p), ignored(p), Lookup(manifest, p), Lookup(stampOf, p),
                       p in seen, CellAt(ws, p));
      }
    }

    /** Where the local copy already matches the manifest: adopt the version, skip the download. */
    method AdoptMatching(ws: Workspace, manifest: map<Path, ManifestEntry>, stampOf: map<Path, Stamp>)
      modifies this`base, this`stamps
      ensures forall p :: (CellAt(ws, p) ==
        if p in manifest && p in stampOf && stampOf[p].hash == manifest[p].checksum
        then old(CellAt(ws, p)).(base := Some(manifest[p].version), stamp := Some(stampOf[p]))
        else old(CellAt(ws, p)))
    {
      var todo := manifest.Keys;
      while todo != {}
        invariant todo <= manifest.Keys
        invariant forall p :: (CellAt(ws, p) ==
          if p in manifest && p !in todo && p in stampOf && stampOf[p].hash == manifest[p].checksum
          then old(CellAt(ws, p)).(base := Some(manifest[p].version), stamp := Some(stampOf[p]))
          else old(CellAt(ws, p)))
        decreases todo
      {
        var p :| p in todo;
        todo := todo - {p};
        if p in stampOf && stampOf[p].hash == manifest[p].checksum {
          base := base[p := manifest[p].version];
          stamps := stamps[p := stampOf[p]];
        }
      }
    }

    method DeleteAll(ws: Workspace, paths: set<Path>, now: nat)
      modifies ws
      ensures forall p :: (CellAt(ws, p) ==
        if p in paths then old(CellAt(ws, p)).(file := None) else old(CellAt(ws, p)))
    {
      var todo := paths;
      while todo != {}
        invariant todo <= paths
        invariant forall p :: (CellAt(ws, p) ==
          if p in paths && p !in todo then old(CellAt(ws, p)).(file := None) else old(CellAt(ws, p)))
        decreases todo
      {
        var p :| p in todo;
        ws.ApplyFile(p, NO_FILE.(deleted := true), now);
        todo := todo - {p};
      }
    }

    /** The operator's verdict on held startup conflicts. */
    method ApplyDirective(ws: Workspace, hub: Hub, directive: Directive, now: nat)
      requires hub.Valid()
      modifies ws, this
      ensures forall p :: (CellAt(ws, p) ==
        var c, past := old(CellAt(ws, p)), Past(hub.history, p);
        match directive
        case ResyncAll => DownCell(DiscardCell(c, past, ignored(p)), past, now)
        case ResolveHeld => VerdictCell(c, diff, now))
      ensures firstSync == old(firstSync)
    {
      match directive {
        case ResyncAll =>
          held, startupHeld := map[], {};
          Resync(ws, hub, now);
        case ResolveHeld =>
          var copies := held;
          held, startupHeld := map[], {}; // marking locks the paths anew
          var todo := copies.Keys;
          while todo != {}
            invariant todo <= copies.Keys && firstSync == old(firstSync)
            invariant forall p :: (CellAt(ws, p) ==
              if p in todo
              then old(CellAt(ws, p)).(held := false, copy := None)
              else VerdictCell(old(CellAt(ws, p)), diff, now))
            decreases todo
          {
            var p :| p in todo;
            MarkConflict(ws, p, copies[p], now);
            todo := todo - {p};
          }
      }
    }

    /** Before the first sync: adopt the hub's version of every live file that is already here. */
    method ResumeFromHub(ws: Workspace, hub: Hub)
      requires hub.Valid()
      modifies this`base
      ensures forall p :: CellAt(ws, p) == ResumeCell(old(CellAt(ws, p)), Past(hub.history, p))
    {
      var files := hub.Pull(map[]);
      AdoptVersions(ws, files);
      forall p ensures |Past(hub.history, p)| > 0 ==> Current(Past(hub.history, p)).version > 0 {
        assert WellFormed(Past(hub.history, p));
      }
    }

    method AdoptVersions(ws: Workspace, files: map<Path, FileState>)
      modifies this`base
      ensures forall p :: (CellAt(ws, p) ==
        if p in files && !files[p].deleted && p in ws.files
        then old(CellAt(ws, p)).(base := Some(files[p].version))
        else old(CellAt(ws, p)))
    {
      var todo := files.Keys;
      while todo != {}
        invariant todo <= files.Keys
        invariant forall p :: (CellAt(ws, p) ==
          if p in files && p !in todo && !files[p].deleted && p in ws.files
          then old(CellAt(ws, p)).(base := Some(files[p].version))
          else old(CellAt(ws, p)))
        decreases todo
      {
        var p :| p in todo;
        todo := todo - {p};
        if files[p].deleted {
          continue;
        }
        if p in ws.files {
          base := base[p := files[p].version];
        }
      }
    }

    /** The currently conflicted files: marker-locked and startup-held. */
    method ConflictPaths(ws: Workspace) returns (paths: set<Path>)
      ensures forall p :: p in paths <==> Frozen(CellAt(ws, p))
    {
      paths := conflicts + startupHeld;
    }
  }
}
