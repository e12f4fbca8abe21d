/**
 Git-style conflict markers: the printer that writes both sides of a divergent edit into one file,
 the test that recognises such a file, and a parser that takes the two sides apart again.
 */
module Markers {
  import opened Text
  import Decimal

  const MARKER_START: Content := Ascii("<<<<<<< local (your edit)")
  const MARKER_MID: Content := Ascii("=======")
  const MARKER_END: Content := Ascii(">>>>>>> hub")

  /** The label on the closing marker: " v" and the hub version. */
  function VersionTag(hubVersion: nat): Content {
    Ascii(" v" + Decimal.Print(hubVersion))
  }

  predicate HasConflictMarkers(b: Content) {
    Contains(b, MARKER_START) && Contains(b, [LF] + MARKER_MID + [LF])
  }

  // ---------------------------------------------------------------- edit scripts

  /** Replace local[start..end] by text. */
  datatype Edit = Edit(start: nat, end: nat, text: Content)

  predicate LineStart(b: Content, i: nat)
    requires i <= |b|
  {
    i == 0 || b[i - 1] == LF
  }

  /**
   One line-aligned edit: it starts and ends on line boundaries, and its new text ends a line
   unless it runs to the end of the file.
   */
  predicate LineAligned(local: Content, e: Edit) {
    && e.start <= e.end <= |local|
    && LineStart(local, e.start)
    && (LineStart(local, e.end) || e.end == |local|)
    && (Terminated(e.text) || e.end == |local|)
  }

  /** Line-aligned edits in order of position, none overlapping, an unterminated text only last. */
  predicate Ordered(local: Content, pos: nat, edits: seq<Edit>)
    decreases |edits|
  {
    if |edits| == 0 then pos <= |local|
    else
      && LineAligned(local, edits[0])
      && pos <= edits[0].start
      && (|edits| > 1 ==> Terminated(edits[0].text))
      && Ordered(local, edits[0].end, edits[1..])
  }

  /** The text the script makes of local from byte pos on. */
  function Apply(local: Content, pos: nat, edits: seq<Edit>): Content
    requires Ordered(local, pos, edits)
    decreases |edits|
  {
    if |edits| == 0 then local[pos..]
    else local[pos..edits[0].start] + edits[0].text + Apply(local, edits[0].end, edits[1..])
  }

  /** What udiff.Lines promises: a line-aligned script from local to hub, empty only on equal texts. */
  ghost predicate ValidScript(local: Content, hub: Content, edits: seq<Edit>) {
    && Ordered(local, 0, edits)
    && Apply(local, 0, edits) == hub
    && (edits == [] <==> local == hub)
  }

  function ReplaceAll(local: Content, hub: Content): seq<Edit> {
    if local == hub then [] else [Edit(0, |local|, hub)]
  }

  lemma ReplaceAllValid(local: Content, hub: Content)
    ensures ValidScript(local, hub, ReplaceAll(local, hub))
  {
    if local != hub {
      var e := Edit(0, |local|, hub);
      assert [e][1..] == [];
      assert local[0..0] + hub + local[|local|..] == hub;
    }
  }

  // ---------------------------------------------------------------- the printer

  /** One side of a hunk, ended by a newline so that the next marker has a line of its own. */
  function Side(content: Content): (r: Content)
    ensures Terminated(r)
  {
    if Terminated(content) then content else content + [LF]
  }

  function Hunk(ours: Content, theirs: Content, hubVersion: nat): Content {
    Chain(MARKER_START, [LF], Side(ours), MARKER_MID, [LF], Side(theirs), MARKER_END, VersionTag(hubVersion), [LF])
  }

  /** Nine pieces written one after the other. */
  function Chain(a: Content, b: Content, c: Content, d: Content, e: Content,
                 f: Content, g: Content, h: Content, i: Content): Content
  {
    a + b + c + d + e + f + g + h + i
  }

  lemma ChainAfter(w: Content, a: Content, b: Content, c: Content, d: Content, e: Content,
                   f: Content, g: Content, h: Content, i: Content)
    ensures w + Chain(a, b, c, d, e, f, g, h, i) == w + a + b + c + d + e + f + g + h + i
  {
    Assoc(w, a, b);
    Assoc(w, a + b, c);
    Assoc(w, a + b + c, d);
    Assoc(w, a + b + c + d, e);
    Assoc(w, a + b + c + d + e, f);
    Assoc(w, a + b + c + d + e + f, g);
    Assoc(w, a + b + c + d + e + f + g, h);
    Assoc(w, a + b + c + d + e + f + g + h, i);
  }

  lemma ChainBefore(a: Content, b: Content, c: Content, d: Content, e: Content,
                    f: Content, g: Content, h: Content, i: Content, r: Content)
    ensures Chain(a, b, c, d, e, f, g, h, i) + r
         == a + (b + (c + (d + (e + (f + (g + (h + (i + r))))))))
  {
    Assoc(a + b + c + d + e + f + g + h, i, r);
    Assoc(a + b + c + d + e + f + g, h, i + r);
    Assoc(a + b + c + d + e + f, g, h + (i + r));
    Assoc(a + b + c + d + e, f, g + (h + (i + r)));
    Assoc(a + b + c + d, e, f + (g + (h + (i + r))));
    Assoc(a + b + c, d, e + (f + (g + (h + (i + r)))));
    Assoc(a + b, c, d + (e + (f + (g + (h + (i + r))))));
    Assoc(a, b, c + (d + (e + (f + (g + (h + (i + r)))))));
  }

  /** What the printer writes for local from byte pos on. */
  function Merged(local: Content, pos: nat, edits: seq<Edit>, hubVersion: nat): Content
    requires Ordered(local, pos, edits)
    decreases |edits|
  {
    if |edits| == 0 then local[pos..]
    else
      local[pos..edits[0].start]
      + Hunk(local[edits[0].start..edits[0].end], edits[0].text, hubVersion)
      + Merged(local, edits[0].end, edits[1..], hubVersion)
  }

  method WriteSide(b: Content, content: Content) returns (r: Content)
    ensures r == b + Side(content)
  {
    r := b;
    if |content| == 0 {
      return;
    }
    r := r + content;
    if content[|content| - 1] != LF {
      r := r + [LF];
    }
  }

  /** The printer: one pass over the sorted edits, appending to a buffer. */
  method MergeMarkers(local: Content, edits: seq<Edit>, hubVersion: nat) returns (b: Content)
    requires Ordered(local, 0, edits)
    ensures b == Merged(local, 0, edits, hubVersion)
  {
    if |edits| == 0 {
      return local;
    }
    b := [];
    var pos := 0;
    var i := 0;
    while i < |edits|
      invariant 0 <= i <= |edits| && 0 <= pos
      invariant Ordered(local, pos, edits[i..])
      invariant b + Merged(local, pos, edits[i..], hubVersion) == Merged(local, 0, edits, hubVersion)
    {
      var e := edits[i];
      ghost var common, was := local[pos..e.start], b;
      ghost var ours := local[e.start..e.end];
      ghost var rest := Merged(local, e.end, edits[i..][1..], hubVersion);
      b := b + local[pos..e.start];
      b := b + MARKER_START + [LF];
      b := WriteSide(b, local[e.start..e.end]);
      b := b + MARKER_MID + [LF];
      b := WriteSide(b, e.text);
      b := b + MARKER_END + VersionTag(hubVersion) + [LF];
      HunkWritten(was, common, ours, e.text, hubVersion, rest);
      pos := e.end;
      assert edits[i..][1..] == edits[i + 1..];
      i := i + 1;
    }
    b := b + local[pos..];
  }

  lemma HunkWritten(was: Content, common: Content, ours: Content, theirs: Content, hubVersion: nat, rest: Content)
    ensures was + common + MARKER_START + [LF] + Side(ours) + MARKER_MID + [LF] + Side(theirs)
            + MARKER_END + VersionTag(hubVersion) + [LF] + rest
         == was + (common + Hunk(ours, theirs, hubVersion) + rest)
  {
    ChainAfter(was + common, MARKER_START, [LF], Side(ours), MARKER_MID, [LF], Side(theirs),
               MARKER_END, VersionTag(hubVersion), [LF]);
    Assoc(was, common, Hunk(ours, theirs, hubVersion));
    Assoc(was, common + Hunk(ours, theirs, hubVersion), rest);
  }

  // ---------------------------------------------------------------- recognition

  lemma MiddleMarked(open: Content, close: Content)
    requires |open| > 0 && Terminated(open)
    ensures Contains(open + (MARKER_MID + [LF]) + close, [LF] + MARKER_MID + [LF])
  {
    var head := open[..|open| - 1];
    assert open == head + [LF];
    assert open + (MARKER_MID + [LF]) == head + ([LF] + MARKER_MID + [LF]);
    ContainsAt(head, [LF] + MARKER_MID + [LF], close);
  }

  lemma HunkIsMarked(before: Content, ours: Content, theirs: Content, hubVersion: nat, after: Content)
    ensures HasConflictMarkers(before + Hunk(ours, theirs, hubVersion) + after)
  {
    var hunk := Hunk(ours, theirs, hubVersion);
    var last := MARKER_END + (VersionTag(hubVersion) + ([LF] + after));
    var close := Side(theirs) + last;
    var tail := [LF] + (Side(ours) + (MARKER_MID + ([LF] + close)));
    ChainBefore(MARKER_START, [LF], Side(ours), MARKER_MID, [LF], Side(theirs),
                MARKER_END, VersionTag(hubVersion), [LF], after);
    Assoc(before, hunk, after);
    Assoc(before, MARKER_START, tail);
    ContainsAt(before, MARKER_START, tail);
    var open := before + MARKER_START + ([LF] + Side(ours));
    Assoc([LF], Side(ours), MARKER_MID + ([LF] + close));
    Assoc(before + MARKER_START, [LF] + Side(ours), MARKER_MID + ([LF] + close));
    Assoc(MARKER_MID, [LF], close);
    Assoc(open, MARKER_MID + [LF], close);
    assert open[|open| - 1] == LF;
    MiddleMarked(open, close);
  }

  /** A conflicting file is recognised as one whenever the two sides differ, and only then. */
  lemma MergedIsMarked(local: Content, hub: Content, edits: seq<Edit>, hubVersion: nat)
    requires ValidScript(local, hub, edits)
    ensures HasConflictMarkers(Merged(local, 0, edits, hubVersion))
       <==> local != hub || HasConflictMarkers(local)
  {
    if |edits| == 0 {
      assert Merged(local, 0, edits, hubVersion) == local;
    } else {
      var e := edits[0];
      HunkIsMarked(local[0..e.start], local[e.start..e.end], e.text, hubVersion,
                   Merged(local, e.end, edits[1..], hubVersion));
    }
  }

  // ---------------------------------------------------------------- line ends

  lemma MarkersHaveNoNewline(hubVersion: nat)
    ensures LF !in MARKER_START && LF !in MARKER_MID && LF !in MARKER_END + VersionTag(hubVersion)
    ensures MARKER_END + Ascii(" v") <= MARKER_END + VersionTag(hubVersion)
  {
    MarkersAreOneLine();
    var digits := Decimal.Print(hubVersion);
    assert forall i :: 0 <= i < |digits| ==> Decimal.IsDigit(digits[i]);
    assert VersionTag(hubVersion) == Ascii(" v") + Ascii(digits);
    hide VersionTag;
    assert LF !in Ascii(" v") && LF !in Ascii(digits) && LF !in MARKER_END;
  }

  lemma HeadAndRest(a: Content, b: Content)
    requires |a| > 0
    ensures (a + b)[0] == a[0] && (a + b)[1..] == a[1..] + b && a == [a[0]] + a[1..]
  {
  }

  lemma {:induction false} DropAfterCrFree(a: Content, b: Content)
    requires CR !in a
    ensures DropCarriageReturns(a + b) == a + DropCarriageReturns(b)
  {
    if |a| == 0 {
      assert a + b == b;
    } else {
      DropAfterCrFree(a[1..], b);
      HeadAndRest(a, b);
      Assoc([a[0]], a[1..], DropCarriageReturns(b));
    }
  }

  /** Text with an opening marker whose middle marker line ends in CR LF wherever it stands. */
  predicate SlipsThrough(b: Content) {
    && !Binary(b)
    && Contains(b, MARKER_START)
    && Contains(b, [LF] + MARKER_MID + CRLF)
    && !Contains(b, [LF] + MARKER_MID + [LF])
  }

  /** Seven of the same sign each, as in git: less-than, equals, greater-than; then who the side is. */
  lemma MarkersAreGitStyle()
    ensures MARKER_START[..7] == [60, 60, 60, 60, 60, 60, 60] && MARKER_START[7..] == Ascii(" local (your edit)")
    ensures MARKER_MID == [61, 61, 61, 61, 61, 61, 61]
    ensures MARKER_END[..7] == [62, 62, 62, 62, 62, 62, 62] && MARKER_END[7..] == Ascii(" hub")
  {
  }

  lemma MarkersAreOneLine()
    ensures EndsFree(MARKER_START) && EndsFree(MARKER_MID) && |MARKER_START| > 0
  {
  }

  /** Markers are looked for before line ends are normalised; exactly which texts pass for unmarked. */
  lemma SlipsThroughExactly(b: Content)
    ensures HasConflictMarkers(NormalizeForTransit(b)) && !HasConflictMarkers(b) <==> SlipsThrough(b)
  {
    hide Contains;
    MarkersAreOneLine();
    if !Binary(b) {
      PlainOccurs(b, MARKER_START);
      LineOccurs(b, MARKER_MID);
    }
  }

  /** A conflict file with CR LF line ends, as an editor on Windows may save it. */
  function CrlfConflict(): Content { MARKER_START + (CRLF + (MARKER_MID + CRLF)) }

  /** Markers are looked for before line ends are normalised, so such a file passes for unmarked. */
  lemma CrlfMarkersSlipThrough()
    ensures !HasConflictMarkers(CrlfConflict())
    ensures HasConflictMarkers(NormalizeForTransit(CrlfConflict()))
  {
    var raw := CrlfConflict();
    var pat := [LF] + MARKER_MID + [LF];
    NewlinesOfCrlfConflict();
    forall i | 0 <= i <= |raw| ensures !OccursAt(raw, pat, i) {
      if OccursAt(raw, pat, i) {
        EndsOfOccurrence(raw, pat, i);
      }
    }
    NormalCrlfConflict();
    ContainsAt([], MARKER_START, [LF] + MARKER_MID + [LF]);
    ContainsAt(MARKER_START, pat, []);
    assert [] + MARKER_START + ([LF] + MARKER_MID + [LF]) == MARKER_START + ([LF] + MARKER_MID + [LF]);
    assert MARKER_START + pat + [] == MARKER_START + pat;
  }

  lemma NewlinesOfCrlfConflict()
    ensures forall i :: 0 <= i < |CrlfConflict()| && CrlfConflict()[i] == LF ==>
              i == |MARKER_START| + 1 || i == |MARKER_START| + 10
  {
    MarkersHaveNoNewline(0);
  }

  lemma EndsOfOccurrence(b: Content, pat: Content, i: nat)
    requires OccursAt(b, pat, i) && |pat| > 0
    ensures b[i] == pat[0] && b[i + |pat| - 1] == pat[|pat| - 1]
  {
    assert b[i..i + |pat|][0] == pat[0] && b[i..i + |pat|][|pat| - 1] == pat[|pat| - 1];
  }

  lemma NormalCrlfConflict()
    ensures NormalizeForTransit(CrlfConflict()) == MARKER_START + ([LF] + MARKER_MID + [LF])
  {
    var tail := MARKER_MID + CRLF;
    assert CR !in MARKER_START && NUL !in MARKER_START;
    assert CR !in MARKER_MID && NUL !in MARKER_MID;
    DropAfterCrFree(MARKER_START, CRLF + tail);
    assert (CRLF + tail)[2..] == tail;
    assert DropCarriageReturns(CRLF + tail) == [LF] + DropCarriageReturns(tail);
    DropAfterCrFree(MARKER_MID, CRLF);
    assert CRLF[2..] == [];
    assert DropCarriageReturns(CRLF) == [LF] + [];
    assert [LF] + [] == [LF];
    Assoc([LF], MARKER_MID, [LF]);
  }
}
