/**
 The two-stage change scan of a working tree: an unchanged size and modification time skips the
 read; otherwise the content's fingerprint decides.
 */
module Scan {
  import opened Text
  import opened FileHub
  import opened Options

  /** A regular file of a working tree. */
  datatype File = File(content: Content, modNano: nat)

  type Tree = map<Path, File>

  /** A file revision as last synced. */
  datatype Stamp = Stamp(size: nat, modNano: nat, hash: Fingerprint)

  function StampOf(f: File): Stamp { Stamp(|f.content|, f.modNano, HashContent(f.content)) }

  predicate SameStat(f: File, st: Stamp) { st.size == |f.content| && st.modNano == f.modNano }

  /** What the scan makes of one path. */
  datatype Finding =
    | Unseen                                  // no such file, or an ignored one
    | Skipped                                 // size and time unchanged: not read
    | Touched(stamp: Stamp)                   // read, content identical
    | Edited(content: Content, stamp: Stamp)  // read, content differs

  function Inspect(file: Option<File>, prev: Option<Stamp>, ignored: bool): Finding {
    if file.None? || ignored then Unseen
    else if prev.Some? && SameStat(file.value, prev.value) then Skipped
    else if prev.Some? && prev.value.hash == HashContent(file.value.content) then Touched(StampOf(file.value))
    else Edited(file.value.content, StampOf(file.value))
  }

  function Lookup<T>(m: map<Path, T>, p: Path): Option<T> { if p in m then Some(m[p]) else None }

  function Found(tree: Tree, ignored: Path -> bool, prev: map<Path, Stamp>, p: Path): Finding {
    Inspect(Lookup(tree, p), Lookup(prev, p), ignored(p))
  }

  method ScanChanges(tree: Tree, ignored: Path -> bool, prev: map<Path, Stamp>)
    returns (changed: map<Path, Content>, stampOf: map<Path, Stamp>, seen: set<Path>)
    ensures forall p :: p in seen <==> !Found(tree, ignored, prev, p).Unseen?
    ensures forall p :: p in stampOf <==>
              Found(tree, ignored, prev, p).Touched? || Found(tree, ignored, prev, p).Edited?
    ensures forall p :: p in stampOf ==> stampOf[p] == Found(tree, ignored, prev, p).stamp
    ensures forall p :: p in changed <==> Found(tree, ignored, prev, p).Edited?
    ensures forall p :: p in changed ==> changed[p] == Found(tree, ignored, prev, p).content
  {
    changed, stampOf, seen := map[], map[], {};
    var todo := tree.Keys;
    while todo != {}
      invariant todo <= tree.Keys
      invariant forall p :: p in seen <==> p !in todo && !Found(tree, ignored, prev, p).Unseen?
      invariant forall p :: p in stampOf <==> (
        p !in todo && (Found(tree, ignored, prev, p).Touched? || Found(tree, ignored, prev, p).Edited?))
      invariant forall p :: p in stampOf ==> stampOf[p] == Found(tree, ignored, prev, p).stamp
      invariant forall p :: p in changed <==> p !in todo && Found(tree, ignored, prev, p).Edited?
      invariant forall p :: p in changed ==> changed[p] == Found(tree, ignored, prev, p).content
      decreases todo
    {
      var p :| p in todo;
      todo := todo - {p};
      if ignored(p) {
        continue;
      }
      var f := tree[p];
      seen := seen + {p};
      if p in prev && prev[p].size == |f.content| && prev[p].modNano == f.modNano {
        continue; // passes the gate
      }
      var st := Stamp(|f.content|, f.modNano, HashContent(f.content));
      stampOf := stampOf[p := st];
      if p in prev && prev[p].hash == st.hash {
        continue; // same content
      }
      changed := changed[p := f.content];
    }
  }

  // ---------------------------------------------------------------- exactness

  /** The path holds a scanned file whose content is not the one last synced. */
  predicate DiffersFromSynced(tree: Tree, ignored: Path -> bool, prev: map<Path, Stamp>, p: Path) {
    p in tree && !ignored(p) && (p in prev ==> prev[p].hash.of != tree[p].content)
  }

  /** Equal size and time really do mean equal content. */
  predicate Truthful(file: Option<File>, st: Option<Stamp>) {
    file.Some? && st.Some? && SameStat(file.value, st.value) ==> st.value.hash.of == file.value.content
  }

  /**
   What the scan makes of each path, exactly. A file is seen if it is not ignored; it is read unless its
   size and its modification time are both those of the stamp; of the files read, those are reported
   whose fingerprint is not the stamp's. What is read gets a stamp of its size, time and fingerprint.
   */
  lemma FoundExactly(tree: Tree, ignored: Path -> bool, prev: map<Path, Stamp>, p: Path)
    ensures
      var found := Found(tree, ignored, prev, p);
      && (found.Unseen? <==> p !in tree || ignored(p))
      && (p in tree && !ignored(p) ==>
            var f := tree[p];
            && (found.Skipped? <==> p in prev && prev[p].size == |f.content| && prev[p].modNano == f.modNano)
            && (found.Touched? <==> !found.Skipped? && p in prev && prev[p].hash == HashContent(f.content))
            && (found.Edited? <==> !found.Skipped? && (p !in prev || prev[p].hash != HashContent(f.content)))
            && (found.Touched? || found.Edited? ==>
                  found.stamp == Stamp(|f.content|, f.modNano, HashContent(f.content)))
            && (found.Edited? ==> found.content == f.content))
  {
  }

  /**
   The two-stage scan reports exactly the files that a full comparison with the last-synced contents
   would report, if and only if no scanned file hides an edit behind an unchanged size and time.
   */
  lemma ScanIsExact(tree: Tree, ignored: Path -> bool, prev: map<Path, Stamp>)
    ensures (forall p :: Found(tree, ignored, prev, p).Edited? <==> DiffersFromSynced(tree, ignored, prev, p))
       <==> (forall p :: p in tree && !ignored(p) && p in prev
               && prev[p].size == |tree[p].content| && prev[p].modNano == tree[p].modNano
               ==> prev[p].hash.of == tree[p].content)
  {
    forall p
      ensures (Found(tree, ignored, prev, p).Edited? <==> DiffersFromSynced(tree, ignored, prev, p))
         <==> (p in tree && !ignored(p) && p in prev
               && prev[p].size == |tree[p].content| && prev[p].modNano == tree[p].modNano
               ==> prev[p].hash.of == tree[p].content)
    {
    }
  }

  /** With the stamps of every file it read refreshed, a second scan reports nothing and reads nothing. */
  lemma RescanIsSilent(tree: Tree, ignored: Path -> bool, prev: map<Path, Stamp>, refreshed: map<Path, Stamp>)
    requires forall p :: Lookup(refreshed, p) == (
               var found := Found(tree, ignored, prev, p);
               if found.Touched? || found.Edited? then Some(found.stamp) else Lookup(prev, p))
    ensures forall p :: Found(tree, ignored, refreshed, p).Unseen? || Found(tree, ignored, refreshed, p).Skipped?
  {
  }
}
