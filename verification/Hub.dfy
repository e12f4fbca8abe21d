/**
 The file-sync hub: one canonical copy of every path, one version counter per path. The hub is the
 single point at which writes to a path are ordered.
 */
module FileHub {
  import opened Text

  type Path = string

  datatype FileState = FileState(content: Content, version: nat, writer: string, deleted: bool)

  /** The zero FileState: what a conflict reports for a path the hub has never held. */
  const NO_FILE := FileState([], 0, "", false)

  /** What a node asks to store at a path; base is the version it worked from, 0 for a path new to it. */
  datatype Change = Change(content: Content, deleted: bool, base: nat)

  datatype PushResult = Applied(version: nat) | Rejected(hub: FileState)

  // ---------------------------------------------------------------- the history of a path

  /** Where a stored version came from; raw is the pushed content before normalisation. */
  datatype Origin = ByPush(base: nat, raw: Content) | ByResolve

  datatype Write = Write(state: FileState, origin: Origin)

  /** Everything ever stored at each path, oldest first. */
  type Store = imap<Path, seq<Write>>

  function Past(s: Store, p: Path): seq<Write> { if p in s then s[p] else [] }

  function Current(past: seq<Write>): FileState {
    if |past| == 0 then NO_FILE else past[|past| - 1].state
  }

  predicate Live(past: seq<Write>) { |past| > 0 && !Current(past).deleted }

  function Stored(past: seq<Write>, node: string, content: Content, deleted: bool, v: nat, origin: Origin)
    : seq<Write>
  {
    past + [Write(FileState(content, v, node, deleted), origin)]
  }

  predicate SameAs(cur: FileState, c: Change) {
    || (c.deleted && cur.deleted)
    || (!c.deleted && !cur.deleted && cur.content == NormalizeForTransit(c.content))
  }

  /** What a push makes of a path's history, and what it answers. */
  function PushPast(past: seq<Write>, node: string, c: Change): seq<Write> {
    var content := NormalizeForTransit(c.content);
    var origin := ByPush(c.base, c.content);
    if |past| == 0 then
      if c.base != 0 then past else Stored(past, node, content, c.deleted, 1, origin)
    else if c.base != Current(past).version then past
    else if SameAs(Current(past), c) then past
    else Stored(past, node, content, c.deleted, Current(past).version + 1, origin)
  }

  function PushAnswer(past: seq<Write>, c: Change): PushResult {
    if |past| == 0 then
      if c.base != 0 then Rejected(NO_FILE) else Applied(1)
    else if c.base != Current(past).version then Rejected(Current(past))
    else if SameAs(Current(past), c) then Applied(Current(past).version)
    else Applied(Current(past).version + 1)
  }

  function ResolvePast(past: seq<Write>, node: string, merged: Content): seq<Write> {
    Stored(past, node, NormalizeForTransit(merged), false,
           if |past| == 0 then 1 else Current(past).version + 1, ByResolve)
  }

  // ---------------------------------------------------------------- the object

  /** Versions count 1, 2, 3, ...; a pushed version was edited from the one just before it. */
  ghost predicate WellFormed(past: seq<Write>) {
    forall i :: 0 <= i < |past| ==>
      && past[i].state.version == i + 1
      && (past[i].origin.ByPush? ==>
            && past[i].origin.base == i
            && past[i].state.content == NormalizeForTransit(past[i].origin.raw))
  }

  lemma StoredKeepsHistory(past: seq<Write>, node: string, content: Content, deleted: bool, v: nat, origin: Origin)
    requires WellFormed(past) && v == |past| + 1
    requires origin.ByPush? ==> origin.base == v - 1 && content == NormalizeForTransit(origin.raw)
    ensures WellFormed(Stored(past, node, content, deleted, v, origin))
  {
  }

  class Hub {
    var files: map<Path, FileState>
    var dirty: bool
    ghost var history: Store

    ghost predicate Valid()
      reads this
    {
      forall p ::
        && (p in files <==> |Past(history, p)| > 0)
        && (p in files ==> files[p] == Current(Past(history, p)))
        && WellFormed(Past(history, p))
    }

    constructor ()
      ensures Valid() && !dirty
      ensures forall p :: Past(history, p) == []
    {
      files, dirty := map[], false;
      history := imap[];
    }

    /** Writes a change at version v. */
    method StoreFile(node: string, p: Path, content: Content, deleted: bool, v: nat, ghost origin: Origin)
      requires Valid()
      requires v == |Past(history, p)| + 1
      requires origin.ByPush? ==> origin.base == v - 1 && content == NormalizeForTransit(origin.raw)
      modifies this
      ensures Valid() && dirty
      ensures forall q :: (Past(history, q) ==
        if q == p then Stored(old(Past(history, p)), node, content, deleted, v, origin)
        else old(Past(history, q)))
    {
      StoredKeepsHistory(Past(history, p), node, content, deleted, v, origin);
      files := files[p := FileState(content, v, node, deleted)];
      history := history[p := Stored(Past(history, p), node, content, deleted, v, origin)];
      dirty := true;
    }

    method Push(node: string, p: Path, c: Change) returns (r: PushResult)
      requires Valid()
      modifies this
      ensures Valid()
      ensures r == PushAnswer(old(Past(history, p)), c)
      ensures forall q :: (Past(history, q) ==
        if q == p then PushPast(old(Past(history, p)), node, c) else old(Past(history, q)))
      ensures dirty <==> old(dirty) || Past(history, p) != old(Past(history, p))
    {
      var content := NormalizeForTransit(c.content);
      if p !in files {
        // an unknown path has no version to build on
        if c.base != 0 {
          return Rejected(NO_FILE);
        }
        StoreFile(node, p, content, c.deleted, 1, ByPush(c.base, c.content));
        return Applied(1);
      }
      var cur := files[p];
      if c.base != cur.version {
        return Rejected(cur);
      }
      if (c.deleted && cur.deleted) || (!c.deleted && !cur.deleted && cur.content == content) {
        return Applied(cur.version);
      }
      StoreFile(node, p, content, c.deleted, cur.version + 1, ByPush(c.base, c.content));
      return Applied(cur.version + 1);
    }

    method Resolve(node: string, p: Path, merged: Content) returns (r: PushResult)
      requires Valid()
      modifies this
      ensures Valid() && dirty
      ensures forall q :: (Past(history, q) ==
        if q == p then ResolvePast(old(Past(history, p)), node, merged) else old(Past(history, q)))
      ensures r == Applied(Current(Past(history, p)).version)
    {
      var next := 1;
      if p in files {
        next := files[p].version + 1;
      }
      StoreFile(node, p, NormalizeForTransit(merged), false, next, ByResolve);
      return Applied(next);
    }

    /** The files whose version differs from the node's base, deletions included. */
    method Pull(base: map<Path, nat>) returns (out: map<Path, FileState>)
      requires Valid()
      ensures forall p :: p in out <==> Behind(Past(history, p), if p in base then base[p] else 0)
      ensures forall p :: p in out ==> out[p] == Current(Past(history, p))
    {
      out := map[];
      var todo := files.Keys;
      while todo != {}
        invariant todo <= files.Keys
        invariant forall p :: p in out <==> (
          p in files && p !in todo && Behind(Past(history, p), if p in base then base[p] else 0))
        invariant forall p :: p in out ==> out[p] == Current(Past(history, p))
        decreases todo
      {
        var p :| p in todo;
        var f := files[p];
        var known := if p in base then base[p] else 0;
        if known != f.version {
          out := out[p := f];
        }
        todo := todo - {p};
      }
    }

    /** Every path's current state, tombstones included. */
    method List() returns (out: map<Path, FileState>)
      requires Valid()
      ensures forall p :: p in out <==> |Past(history, p)| > 0
      ensures forall p :: p in out ==> out[p] == Current(Past(history, p))
    {
      out := files;
    }

    /** The fingerprint and version of every live path. */
    method Manifest() returns (out: map<Path, ManifestEntry>)
      requires Valid()
      ensures forall p :: p in out <==> Live(Past(history, p))
      ensures forall p :: p in out ==> out[p] == EntryOf(Past(history, p))
    {
      out := map[];
      var todo := files.Keys;
      while todo != {}
        invariant todo <= files.Keys
        invariant forall p :: p in out <==> p in files && p !in todo && Live(Past(history, p))
        invariant forall p :: p in out ==> out[p] == EntryOf(Past(history, p))
        decreases todo
      {
        var p :| p in todo;
        var f := files[p];
        if !f.deleted {
          out := out[p := ManifestEntry(HashContent(f.content), f.version)];
        }
        todo := todo - {p};
      }
    }
  }

  /** One live path's canonical fingerprint. */
  datatype ManifestEntry = ManifestEntry(checksum: Fingerprint, version: nat)

  function EntryOf(past: seq<Write>): ManifestEntry {
    ManifestEntry(HashContent(Current(past).content), Current(past).version)
  }

  /** The hub holds the path at another version than the one the node last saw. */
  predicate Behind(past: seq<Write>, base: nat) {
    |past| > 0 && base != Current(past).version
  }

  // ---------------------------------------------------------------- what every history keeps

  lemma VersionIsLength(past: seq<Write>)
    requires WellFormed(past)
    ensures Current(past).version == |past|
  {
  }

  lemma PushKeepsHistory(past: seq<Write>, node: string, c: Change)
    requires WellFormed(past)
    ensures WellFormed(PushPast(past, node, c))
    ensures past <= PushPast(past, node, c)
  {
  }

  lemma ResolveKeepsHistory(past: seq<Write>, node: string, merged: Content)
    requires WellFormed(past)
    ensures WellFormed(ResolvePast(past, node, merged))
    ensures past <= ResolvePast(past, node, merged)
  {
  }

  /**
   A push is accepted exactly when it was edited from the current version; then the hub holds the
   pushed content (normalised) at the answered version. A rejected push changes nothing and reports
   the current state.
   */
  lemma PushAcceptedExactly(past: seq<Write>, node: string, c: Change)
    requires WellFormed(past)
    ensures PushAnswer(past, c).Applied? <==> c.base == |past|
    ensures PushAnswer(past, c).Applied? ==>
      var now := PushPast(past, node, c);
      && PushAnswer(past, c).version == |now| >= 1
      && Current(now).deleted == c.deleted
      && (!c.deleted ==> Current(now).content == NormalizeForTransit(c.content))
    ensures PushAnswer(past, c).Rejected? ==>
      PushPast(past, node, c) == past && PushAnswer(past, c).hub == Current(past)
  {
  }

  /**
   Pushing the hub's own text back at its own version stores a new version exactly when the text
   still holds a CR LF pair, that is, when it was pushed with CR CR LF in it.
   */
  lemma RepushBumpsExactly(past: seq<Write>, node: string)
    requires WellFormed(past) && Live(past)
    ensures
      var cur := Current(past);
      PushPast(past, node, Change(cur.content, false, cur.version)) != past
      <==> !Binary(cur.content) && Contains(cur.content, CRLF)
    ensures
      var w := past[|past| - 1];
      w.origin.ByPush? ==>
        (!Binary(w.state.content) && Contains(w.state.content, CRLF)
         <==> !Binary(w.origin.raw) && Contains(w.origin.raw, CRCRLF))
  {
    NormalizeFixesExactly(Current(past).content);
    var w := past[|past| - 1];
    if w.origin.ByPush? {
      DropKeepsNul(w.origin.raw);
      CrlfSurvivesExactly(w.origin.raw);
    }
  }

  /** What the hub holds of content with a NUL byte, pushed or resolved: the very bytes. */
  lemma BytesWithNulAreKept(past: seq<Write>, node: string, c: Change, merged: Content)
    requires WellFormed(past)
    ensures c.base == |past| && !c.deleted && NUL in c.content ==>
      Current(PushPast(past, node, c)).content == c.content && !Current(PushPast(past, node, c)).deleted
    ensures NUL in merged ==> Current(ResolvePast(past, node, merged)).content == merged
  {
    NulDecides(c.content);
    NulDecides(merged);
    PushAcceptedExactly(past, node, c);
  }

  /** No version pushed as text without CR CR LF holds a CR LF pair, and none that was resolved so. */
  lemma TextIsLfOnly(past: seq<Write>, i: nat, node: string, merged: Content)
    requires WellFormed(past) && i < |past|
    ensures past[i].origin.ByPush? && NUL !in past[i].origin.raw && !Contains(past[i].origin.raw, CRCRLF) ==>
      !Contains(past[i].state.content, CRLF)
    ensures NUL !in merged && !Contains(merged, CRCRLF) ==>
      !Contains(Current(ResolvePast(past, node, merged)).content, CRLF)
  {
    if past[i].origin.ByPush? {
      NulDecides(past[i].origin.raw);
    }
    NulDecides(merged);
  }

  /** A resolve always stores: a live next version by its agent, in place of whatever was there. */
  lemma ResolveStoresExactly(past: seq<Write>, node: string, merged: Content)
    requires WellFormed(past)
    ensures
      var later := ResolvePast(past, node, merged);
      && later[..|later| - 1] == past
      && Current(later) == FileState(NormalizeForTransit(merged), |past| + 1, node, false)
  {
  }

  // ---------------------------------------------------------------- runs of the hub

  datatype HubOp =
    | PushOp(node: string, path: Path, change: Change)
    | ResolveOp(node: string, path: Path, merged: Content)

  function StepPast(past: seq<Write>, op: HubOp, p: Path): seq<Write> {
    if op.path != p then past
    else match op
      case PushOp(node, _, c) => PushPast(past, node, c)
      case ResolveOp(node, _, merged) => ResolvePast(past, node, merged)
  }

  /** The history of p after the first operations of a run that began with an empty hub. */
  function HistoryAfter(ops: seq<HubOp>, p: Path): seq<Write> {
    if |ops| == 0 then [] else StepPast(HistoryAfter(ops[..|ops| - 1], p), ops[|ops| - 1], p)
  }

  function StateAt(ops: seq<HubOp>, k: nat, p: Path): FileState
    requires k <= |ops|
  {
    Current(HistoryAfter(ops[..k], p))
  }

  /** Operation k is a stored write to p: a resolve, or a push from the current version with news. */
  predicate Stores(ops: seq<HubOp>, k: nat, p: Path)
    requires k < |ops|
  {
    var cur := StateAt(ops, k, p);
    && ops[k].path == p
    && (ops[k].PushOp? ==>
          && ops[k].change.base == cur.version
          && (cur.version > 0 ==> !SameAs(cur, ops[k].change)))
  }

  function StoreCount(ops: seq<HubOp>, from: nat, to: nat, p: Path): nat
    requires from <= to <= |ops|
  {
    if from == to then 0
    else StoreCount(ops, from, to - 1, p) + if Stores(ops, to - 1, p) then 1 else 0
  }

  lemma HistoryStep(ops: seq<HubOp>, k: nat, p: Path)
    requires k < |ops|
    ensures HistoryAfter(ops[..k + 1], p) == StepPast(HistoryAfter(ops[..k], p), ops[k], p)
  {
    assert ops[..k + 1][..k] == ops[..k];
  }

  lemma {:induction false} HistoryWellFormed(ops: seq<HubOp>, k: nat, p: Path)
    requires k <= |ops|
    ensures WellFormed(HistoryAfter(ops[..k], p))
  {
    if k > 0 {
      HistoryWellFormed(ops, k - 1, p);
      HistoryStep(ops, k - 1, p);
    }
  }

  lemma {:induction false} HistoryGrows(ops: seq<HubOp>, i: nat, j: nat, p: Path)
    requires i <= j <= |ops|
    ensures HistoryAfter(ops[..i], p) <= HistoryAfter(ops[..j], p)
    ensures |HistoryAfter(ops[..j], p)| == |HistoryAfter(ops[..i], p)| + StoreCount(ops, i, j, p)
    decreases j
  {
    if i < j {
      hide HistoryAfter, Stores;
      HistoryGrows(ops, i, j - 1, p);
      OneMoreStored(ops, j - 1, p);
      PrefixTransitive(HistoryAfter(ops[..i], p), HistoryAfter(ops[..j - 1], p), HistoryAfter(ops[..j], p));
    }
  }

  lemma PrefixTransitive<T>(a: seq<T>, b: seq<T>, c: seq<T>)
    requires a <= b <= c
    ensures a <= c
  {
  }

  lemma OneMoreStored(ops: seq<HubOp>, k: nat, p: Path)
    requires k < |ops|
    ensures
      var was, now := HistoryAfter(ops[..k], p), HistoryAfter(ops[..k + 1], p);
      was <= now && |now| == |was| + if Stores(ops, k, p) then 1 else 0
  {
    hide HistoryAfter, NormalizeForTransit;
    HistoryWellFormed(ops, k, p);
    HistoryStep(ops, k, p);
  }

  /**
   Over every run: a path's version never drops, it grows by exactly one per stored write, and as
   long as it stands still the whole state stands still, so a version names one content forever.
   */
  lemma VersionsCountWrites(ops: seq<HubOp>, i: nat, j: nat, p: Path)
    requires i <= j <= |ops|
    ensures StateAt(ops, j, p).version == StateAt(ops, i, p).version + StoreCount(ops, i, j, p)
    ensures StateAt(ops, j, p).version == StateAt(ops, i, p).version
        ==> StateAt(ops, j, p) == StateAt(ops, i, p)
  {
    HistoryGrows(ops, i, j, p);
    HistoryWellFormed(ops, i, p);
    HistoryWellFormed(ops, j, p);
  }

  /** Version n + 1 of a path is stored by a resolve, or by a push whose base was n. */
  lemma VersionProvenance(ops: seq<HubOp>, k: nat, p: Path)
    requires k < |ops|
    requires StateAt(ops, k + 1, p).version != StateAt(ops, k, p).version
    ensures ops[k].path == p
    ensures StateAt(ops, k + 1, p).version == StateAt(ops, k, p).version + 1
    ensures ops[k].PushOp? ==> ops[k].change.base == StateAt(ops, k, p).version
    ensures StateAt(ops, k + 1, p).writer == ops[k].node
  {
    HistoryStep(ops, k, p);
    HistoryWellFormed(ops, k, p);
  }
}
