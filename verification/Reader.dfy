/**
 Reading a merged file back: a reader takes the two sides of a conflict file apart again, line by
 line. The theorem says for which texts, exactly, the reader gets back what the printer was given.
 */
module Reader {
  import opened Text
  import opened Markers
  import Decimal

  // ---------------------------------------------------------------- the reader

  datatype Region = Agreed | Ours | Theirs

  /** The line is the marker that ends the region. */
  predicate Ends(line: Content, region: Region) {
    match region
    case Agreed => Strip(line) == MARKER_START
    case Ours => Strip(line) == MARKER_MID
    case Theirs => MARKER_END + Ascii(" v") <= Strip(line)
  }

  function Following(region: Region): Region {
    match region case Agreed => Ours case Ours => Theirs case Theirs => Agreed
  }

  /** The lines of the two sides: agreed lines go to both, hunk lines to the side they stand on. */
  function Read(lines: seq<Content>, at: Region): (seq<Content>, seq<Content>) {
    if |lines| == 0 then ([], [])
    else if Ends(lines[0], at) then Read(lines[1..], Following(at))
    else
      var (ours, theirs) := Read(lines[1..], at);
      (if at.Theirs? then ours else [lines[0]] + ours, if at.Ours? then theirs else [lines[0]] + theirs)
  }

  /** The two texts that a reader of the merged file gets. */
  function Parse(merged: Content): (Content, Content) {
    var (ours, theirs) := Read(Lines(merged), Agreed);
    (Concat(ours), Concat(theirs))
  }

  predicate FreeOf(lines: seq<Content>, region: Region) {
    forall i :: 0 <= i < |lines| ==> !Ends(lines[i], region)
  }

  lemma FreeOfConcat(a: seq<Content>, b: seq<Content>, region: Region)
    ensures FreeOf(a + b, region) <==> FreeOf(a, region) && FreeOf(b, region)
  {
    if FreeOf(a + b, region) {
      assert forall i :: 0 <= i < |a| ==> (a + b)[i] == a[i];
      assert forall i :: 0 <= i < |b| ==> (a + b)[|a| + i] == b[i];
    }
  }

  /** A stretch of lines none of which ends the region goes to the region's sides. */
  lemma {:induction false} ReadStretch(lines: seq<Content>, rest: seq<Content>, at: Region)
    requires FreeOf(lines, at)
    ensures
      var (ours, theirs) := Read(rest, at);
      Read(lines + rest, at)
      == (if at.Theirs? then ours else lines + ours, if at.Ours? then theirs else lines + theirs)
  {
    var (ours, theirs) := Read(rest, at);
    if |lines| == 0 {
      assert lines + rest == rest && lines + ours == ours && lines + theirs == theirs;
    } else {
      assert !Ends(lines[0], at);
      assert (lines + rest)[0] == lines[0] && (lines + rest)[1..] == lines[1..] + rest;
      ReadStretch(lines[1..], rest, at);
      assert [lines[0]] + lines[1..] == lines;
      AssocLines([lines[0]], lines[1..], ours);
      AssocLines([lines[0]], lines[1..], theirs);
    }
  }

  lemma ReadMarker(line: Content, rest: seq<Content>, at: Region)
    requires Ends(line, at)
    ensures Read([line] + rest, at) == Read(rest, Following(at))
  {
    assert ([line] + rest)[1..] == rest;
  }

  // ---------------------------------------------------------------- lines of texts

  /** A marker line: one line, and what it is once its newline is stripped. */
  lemma MarkerLine(mark: Content, rest: Content)
    requires LF !in mark
    ensures Lines(mark + [LF] + rest) == [mark + [LF]] + Lines(rest)
    ensures Strip(mark + [LF]) == mark
  {
    OneLine(mark);
    LinesOfConcat(mark + [LF], rest);
  }

  /** Nonempty lines, an LF only at the end of each, and at the end of all but the last. */
  predicate Proper(lines: seq<Content>) {
    |lines| > 0 ==>
      && |lines[0]| > 0
      && (forall i :: 0 <= i < |lines[0]| - 1 ==> lines[0][i] != LF)
      && (|lines| > 1 ==> lines[0][|lines[0]| - 1] == LF)
      && Proper(lines[1..])
  }

  lemma {:induction false} LinesAreProper(b: Content)
    ensures Proper(Lines(b))
  {
    if |b| > 0 {
      var n := LineLength(b);
      LinesAreProper(b[n..]);
      FirstLine(b);
      assert ([b[..n]] + Lines(b[n..]))[1..] == Lines(b[n..]);
    }
  }

  lemma {:induction false} LinesOfProper(lines: seq<Content>)
    requires Proper(lines)
    ensures Lines(Concat(lines)) == lines
  {
    if |lines| > 0 {
      var first, rest := lines[0], lines[1..];
      LinesOfProper(rest);
      assert [first] + rest == lines;
      if |rest| == 0 {
        assert first + [] == first;
        OneProperLine(first);
      } else {
        LinesOfConcat(first, Concat(rest));
        OneProperLine(first);
      }
    }
  }

  lemma OneProperLine(line: Content)
    requires |line| > 0 && forall i :: 0 <= i < |line| - 1 ==> line[i] != LF
    ensures Lines(line) == [line]
  {
    FirstLineUnique(line, |line|);
    assert line[..|line|] == line && line[|line|..] == [];
  }

  /** What the reader keeps of proper lines are proper lines. */
  lemma {:induction false} ReadIsProper(lines: seq<Content>, at: Region)
    requires Proper(lines)
    ensures Proper(Read(lines, at).0) && Proper(Read(lines, at).1)
    ensures |Read(lines, at).0| <= |lines| && |Read(lines, at).1| <= |lines|
  {
    hide Ends;
    if |lines| > 0 {
      if Ends(lines[0], at) {
        ReadIsProper(lines[1..], Following(at));
      } else {
        ReadIsProper(lines[1..], at);
        var (ours, theirs) := Read(lines[1..], at);
        assert ([lines[0]] + ours)[1..] == ours && ([lines[0]] + theirs)[1..] == theirs;
      }
    }
  }

  lemma OneFree(line: Content, region: Region)
    ensures FreeOf([line], region) <==> !Ends(line, region)
  {
    assert [line][0] == line;
  }

  /** Ending a text's last line changes no line as a reader sees it. */
  lemma {:induction false} SideLines(b: Content, region: Region)
    ensures FreeOf(Lines(Side(b)), region) <==> FreeOf(Lines(b), region)
  {
    hide FreeOf;
    if !Terminated(b) {
      var n := LineLength(b);
      if n < |b| {
        var head, tail := b[..n], b[n..];
        SideOfTail(b, n);
        LinesOfConcat(head, tail);
        LinesOfConcat(head, Side(tail));
        SideLines(tail, region);
        FreeOfConcat(Lines(head), Lines(tail), region);
        FreeOfConcat(Lines(head), Lines(Side(tail)), region);
      } else {
        OneLine(b);
        StripEnded(b);
        OneFree(b, region);
        OneFree(b + [LF], region);
      }
    }
  }

  lemma StripEnded(b: Content)
    requires !Terminated(b)
    ensures Strip(b + [LF]) == b == Strip(b)
  {
  }

  lemma SideOfTail(b: Content, n: nat)
    requires n < |b| && !Terminated(b)
    ensures b == b[..n] + b[n..] && Side(b) == b[..n] + Side(b[n..])
  {
    Assoc(b[..n], b[n..], [LF]);
  }

  // ---------------------------------------------------------------- the merged file, line by line

  /** The two texts a reader of the merged file gets back, from byte pos of local on. */
  function OursFrom(local: Content, pos: nat, edits: seq<Edit>): Content
    requires Ordered(local, pos, edits)
    decreases |edits|
  {
    if |edits| == 0 then local[pos..]
    else
      local[pos..edits[0].start] + Side(local[edits[0].start..edits[0].end])
      + OursFrom(local, edits[0].end, edits[1..])
  }

  function TheirsFrom(local: Content, pos: nat, edits: seq<Edit>): Content
    requires Ordered(local, pos, edits)
    decreases |edits|
  {
    if |edits| == 0 then local[pos..]
    else
      local[pos..edits[0].start] + Side(edits[0].text)
      + TheirsFrom(local, edits[0].end, edits[1..])
  }

  predicate Boundary(local: Content, pos: nat)
    requires pos <= |local|
  {
    LineStart(local, pos) || pos == |local|
  }

  lemma SplitAtEdit(local: Content, pos: nat, start: nat, end: nat)
    requires pos <= start <= end <= |local|
    ensures local[pos..] == local[pos..start] + (local[start..end] + local[end..])
  {
  }

  /** What the first edit of a script cuts the text into. */
  lemma FirstEdit(local: Content, pos: nat, edits: seq<Edit>)
    requires |edits| > 0 && Ordered(local, pos, edits) && Boundary(local, pos)
    ensures
      var e := edits[0];
      && pos <= e.start <= e.end <= |local| && Ordered(local, e.end, edits[1..])
      && local[pos..] == local[pos..e.start] + (local[e.start..e.end] + local[e.end..])
      && Apply(local, pos, edits) == local[pos..e.start] + e.text + Apply(local, e.end, edits[1..])
      && Terminated(local[pos..e.start])
      && (Terminated(local[e.start..e.end]) || local[e.end..] == [])
      && (Terminated(e.text) || Apply(local, e.end, edits[1..]) == [])
  {
    var e, rest := edits[0], edits[1..];
    SplitAtEdit(local, pos, e.start, e.end);
    EndsALine(local, pos, e.start);
    EndsALine(local, e.start, e.end);
    if !Terminated(e.text) {
      NothingFollows(local, e.end, rest);
    }
    hide Terminated, Ordered;
  }

  lemma EndsALine(local: Content, from: nat, to: nat)
    requires from <= to <= |local|
    ensures LineStart(local, to) ==> Terminated(local[from..to])
    ensures to == |local| ==> local[to..] == []
  {
    if from < to {
      assert local[from..to][|local[from..to]| - 1] == local[to - 1];
    }
  }

  /** Only the last edit has an unterminated text, and it runs to the end. */
  lemma NothingFollows(local: Content, pos: nat, edits: seq<Edit>)
    requires Ordered(local, pos, edits) && |edits| == 0 && pos == |local|
    ensures Apply(local, pos, edits) == []
  {
  }

  const OPENING: Content := MARKER_START + [LF]
  const MIDDLE: Content := MARKER_MID + [LF]

  function Closing(hubVersion: nat): Content { MARKER_END + VersionTag(hubVersion) + [LF] }

  lemma MarkerLinesEnd(hubVersion: nat)
    ensures Ends(OPENING, Agreed) && Ends(MIDDLE, Ours) && Ends(Closing(hubVersion), Theirs)
  {
    MarkersHaveNoNewline(hubVersion);
    MarkerLine(MARKER_START, []);
    MarkerLine(MARKER_MID, []);
    MarkerLine(MARKER_END + VersionTag(hubVersion), []);
  }

  function MergedLines(local: Content, pos: nat, edits: seq<Edit>, hubVersion: nat): seq<Content>
    requires Ordered(local, pos, edits)
    decreases |edits|
  {
    if |edits| == 0 then Lines(local[pos..])
    else
      Lines(local[pos..edits[0].start])
      + ([OPENING] + (Lines(Side(local[edits[0].start..edits[0].end]))
      + ([MIDDLE] + (Lines(Side(edits[0].text))
      + ([Closing(hubVersion)] + MergedLines(local, edits[0].end, edits[1..], hubVersion))))))
  }

  lemma LinesOfHunk(ours: Content, theirs: Content, hubVersion: nat, rest: Content)
    ensures Lines(Hunk(ours, theirs, hubVersion) + rest)
         == [OPENING] + (Lines(Side(ours)) + ([MIDDLE] + (Lines(Side(theirs)) + ([Closing(hubVersion)] + Lines(rest)))))
  {
    hide Lines, VersionTag, Side;
    MarkersHaveNoNewline(hubVersion);
    var closing := MARKER_END + VersionTag(hubVersion);
    var c3 := closing + [LF] + rest;
    var c2 := Side(theirs) + c3;
    var c1 := MARKER_MID + [LF] + c2;
    var c0 := Side(ours) + c1;
    ChainBefore(MARKER_START, [LF], Side(ours), MARKER_MID, [LF], Side(theirs),
                MARKER_END, VersionTag(hubVersion), [LF], rest);
    Assoc(MARKER_END, VersionTag(hubVersion), [LF] + rest);
    Assoc(closing, [LF], rest);
    Assoc(MARKER_MID, [LF], c2);
    Assoc(MARKER_START, [LF], c0);
    MarkerLine(closing, rest);
    LinesOfConcat(Side(theirs), c3);
    MarkerLine(MARKER_MID, c2);
    LinesOfConcat(Side(ours), c1);
    MarkerLine(MARKER_START, c0);
  }

  lemma {:induction false} LinesOfMerged(local: Content, pos: nat, edits: seq<Edit>, hubVersion: nat)
    requires Ordered(local, pos, edits) && Boundary(local, pos)
    ensures Lines(Merged(local, pos, edits, hubVersion)) == MergedLines(local, pos, edits, hubVersion)
    decreases |edits|
  {
    hide Lines, Hunk, Closing, Side, Terminated;
    if |edits| > 0 {
      var e, rest := edits[0], edits[1..];
      FirstEdit(local, pos, edits);
      LinesOfMerged(local, e.end, rest, hubVersion);
      var common, ours := local[pos..e.start], local[e.start..e.end];
      var m := Merged(local, e.end, rest, hubVersion);
      LinesOfHunk(ours, e.text, hubVersion, m);
      Assoc(common, Hunk(ours, e.text, hubVersion), m);
      LinesOfConcat(common, Hunk(ours, e.text, hubVersion) + m);
    }
  }

  function OursLines(local: Content, pos: nat, edits: seq<Edit>): seq<Content>
    requires Ordered(local, pos, edits)
    decreases |edits|
  {
    if |edits| == 0 then Lines(local[pos..])
    else
      Lines(local[pos..edits[0].start])
      + (Lines(Side(local[edits[0].start..edits[0].end])) + OursLines(local, edits[0].end, edits[1..]))
  }

  function TheirsLines(local: Content, pos: nat, edits: seq<Edit>): seq<Content>
    requires Ordered(local, pos, edits)
    decreases |edits|
  {
    if |edits| == 0 then Lines(local[pos..])
    else
      Lines(local[pos..edits[0].start])
      + (Lines(Side(edits[0].text)) + TheirsLines(local, edits[0].end, edits[1..]))
  }

  lemma {:induction false} LinesOfSides(local: Content, pos: nat, edits: seq<Edit>)
    requires Ordered(local, pos, edits) && Boundary(local, pos)
    ensures Lines(OursFrom(local, pos, edits)) == OursLines(local, pos, edits)
    ensures Lines(TheirsFrom(local, pos, edits)) == TheirsLines(local, pos, edits)
    decreases |edits|
  {
    hide Lines, Terminated, Side;
    if |edits| > 0 {
      var e, rest := edits[0], edits[1..];
      FirstEdit(local, pos, edits);
      LinesOfSides(local, e.end, rest);
      var common, ours := local[pos..e.start], local[e.start..e.end];
      var o, t := OursFrom(local, e.end, rest), TheirsFrom(local, e.end, rest);
      Assoc(common, Side(ours), o);
      Assoc(common, Side(e.text), t);
      LinesOfConcat(common, Side(ours) + o);
      LinesOfConcat(common, Side(e.text) + t);
      LinesOfConcat(Side(ours), o);
      LinesOfConcat(Side(e.text), t);
    }
  }

  // ---------------------------------------------------------------- when it reads back

  /**
   No line is where the reader would take it for a marker: no opening marker in an agreed stretch, no
   middle marker on our side of a hunk, no closing marker on theirs.
   */
  predicate ReadsBack(local: Content, pos: nat, edits: seq<Edit>)
    requires Ordered(local, pos, edits)
    decreases |edits|
  {
    if |edits| == 0 then FreeOf(Lines(local[pos..]), Agreed)
    else
      && FreeOf(Lines(local[pos..edits[0].start]), Agreed)
      && FreeOf(Lines(local[edits[0].start..edits[0].end]), Ours)
      && FreeOf(Lines(edits[0].text), Theirs)
      && ReadsBack(local, edits[0].end, edits[1..])
  }

  lemma ReadHunk(common: seq<Content>, ours: seq<Content>, theirs: seq<Content>, hubVersion: nat, rest: seq<Content>)
    requires FreeOf(common, Agreed) && FreeOf(ours, Ours) && FreeOf(theirs, Theirs)
    ensures
      var (o, t) := Read(rest, Agreed);
      Read(common + ([OPENING] + (ours + ([MIDDLE] + (theirs + ([Closing(hubVersion)] + rest))))), Agreed)
      == (common + (ours + o), common + (theirs + t))
  {
    hide *;
    MarkerLinesEnd(hubVersion);
    var l3 := [Closing(hubVersion)] + rest;
    var l2 := [MIDDLE] + (theirs + l3);
    var l1 := [OPENING] + (ours + l2);
    FollowingIs();
    ReadMarker(Closing(hubVersion), rest, Theirs);
    ReadStretch(theirs, l3, Theirs);
    ReadMarker(MIDDLE, theirs + l3, Ours);
    ReadStretch(ours, l2, Ours);
    ReadMarker(OPENING, ours + l2, Agreed);
    ReadStretch(common, l1, Agreed);
  }

  lemma FollowingIs()
    ensures Following(Agreed) == Ours && Following(Ours) == Theirs && Following(Theirs) == Agreed
  {
  }

  lemma {:induction false} ReadsBackIfFree(local: Content, pos: nat, edits: seq<Edit>, hubVersion: nat)
    requires Ordered(local, pos, edits) && ReadsBack(local, pos, edits)
    ensures Read(MergedLines(local, pos, edits, hubVersion), Agreed)
         == (OursLines(local, pos, edits), TheirsLines(local, pos, edits))
    decreases |edits|
  {
    hide Lines, Closing, Read, FreeOf, Side;
    if |edits| == 0 {
      var all := Lines(local[pos..]);
      ReadStretch(all, [], Agreed);
      ReadNothing();
      assert all + [] == all;
    } else {
      var e, rest := edits[0], edits[1..];
      var ours := local[e.start..e.end];
      ReadsBackIfFree(local, e.end, rest, hubVersion);
      SideLines(ours, Ours);
      SideLines(e.text, Theirs);
      ReadHunk(Lines(local[pos..e.start]), Lines(Side(ours)), Lines(Side(e.text)), hubVersion,
               MergedLines(local, e.end, rest, hubVersion));
    }
  }

  lemma ReadNothing()
    ensures Read([], Agreed) == ([], [])
  {
  }

  // ---------------------------------------------------------------- only when

  function Count(lines: seq<Content>, region: Region): nat {
    if |lines| == 0 then 0 else (if Ends(lines[0], region) then 1 else 0) + Count(lines[1..], region)
  }

  lemma {:induction false} CountConcat(a: seq<Content>, b: seq<Content>, region: Region)
    ensures Count(a + b, region) == Count(a, region) + Count(b, region)
  {
    if |a| == 0 {
      assert a + b == b;
    } else {
      assert (a + b)[0] == a[0] && (a + b)[1..] == a[1..] + b;
      CountConcat(a[1..], b, region);
    }
  }

  lemma {:induction false} CountZero(lines: seq<Content>, region: Region)
    ensures Count(lines, region) == 0 <==> FreeOf(lines, region)
  {
    if |lines| > 0 {
      CountZero(lines[1..], region);
      assert lines == [lines[0]] + lines[1..];
      FreeOfConcat([lines[0]], lines[1..], region);
      OneFree(lines[0], region);
    }
  }

  lemma OneKind(line: Content, a: Region, b: Region)
    requires Ends(line, a) && Ends(line, b)
    ensures a == b
  {
    hide Strip;
    FirstBytes();
  }

  /** The three markers differ in their first bytes, and a closing marker is longer than a middle one. */
  lemma FirstBytes()
    ensures MARKER_START[0] != MARKER_MID[0]
    ensures var end := MARKER_END + Ascii(" v"); end[0] != MARKER_START[0] && end[0] != MARKER_MID[0]
  {
  }

  /** How often the reader, starting in region at, takes a line for the marker that ends the region. */
  function Turns(lines: seq<Content>, at: Region, region: Region): nat {
    if |lines| == 0 then 0
    else if Ends(lines[0], at) then (if at == region then 1 else 0) + Turns(lines[1..], Following(at), region)
    else Turns(lines[1..], at, region)
  }

  /**
   Every marker-looking line is taken for a marker or kept: a middle one only on their side alone or
   on both, a closing one only on ours or both, an opening one only on one.
   */
  lemma {:induction false} Tally(lines: seq<Content>, at: Region)
    ensures
      var (ours, theirs) := Read(lines, at);
      && Count(lines, Ours) == Turns(lines, at, Ours) + Count(theirs, Ours)
      && Count(lines, Theirs) == Turns(lines, at, Theirs) + Count(ours, Theirs)
      && Count(lines, Agreed) == Turns(lines, at, Agreed) + Count(ours, Agreed) + Count(theirs, Agreed)
  {
    if |lines| > 0 {
      hide Ends;
      var line := lines[0];
      forall a, b | Ends(line, a) && Ends(line, b) ensures a == b {
        OneKind(line, a, b);
      }
      if Ends(line, at) {
        Tally(lines[1..], Following(at));
      } else {
        Tally(lines[1..], at);
        var (ours, theirs) := Read(lines[1..], at);
        assert ([line] + ours)[1..] == ours && ([line] + theirs)[1..] == theirs;
      }
    }
  }

  /** The reader opens, parts and closes in turn. */
  lemma {:induction false} TurnsBalance(lines: seq<Content>, at: Region)
    ensures Turns(lines, at, Agreed) + (if at.Agreed? then 0 else 1)
         >= Turns(lines, at, Ours) + (if at.Theirs? then 1 else 0)
    ensures Turns(lines, at, Ours) + (if at.Theirs? then 1 else 0) >= Turns(lines, at, Theirs)
  {
    hide Ends;
    if |lines| > 0 {
      TurnsBalance(lines[1..], if Ends(lines[0], at) then Following(at) else at);
    }
  }

  /** Lines in agreed stretches that the reader would take for an opening marker. */
  function FalseOpenings(local: Content, pos: nat, edits: seq<Edit>): nat
    requires Ordered(local, pos, edits)
    decreases |edits|
  {
    if |edits| == 0 then Count(Lines(local[pos..]), Agreed)
    else Count(Lines(local[pos..edits[0].start]), Agreed) + FalseOpenings(local, edits[0].end, edits[1..])
  }

  /** Lines on our side of hunks that it would take for a middle marker. */
  function FalseMiddles(local: Content, pos: nat, edits: seq<Edit>): nat
    requires Ordered(local, pos, edits)
    decreases |edits|
  {
    if |edits| == 0 then 0
    else
      Count(Lines(Side(local[edits[0].start..edits[0].end])), Ours) + FalseMiddles(local, edits[0].end, edits[1..])
  }

  /** Lines on their side of hunks that it would take for a closing marker. */
  function FalseClosings(local: Content, pos: nat, edits: seq<Edit>): nat
    requires Ordered(local, pos, edits)
    decreases |edits|
  {
    if |edits| == 0 then 0
    else Count(Lines(Side(edits[0].text)), Theirs) + FalseClosings(local, edits[0].end, edits[1..])
  }

  lemma {:induction false} NoneFalse(local: Content, pos: nat, edits: seq<Edit>)
    requires Ordered(local, pos, edits)
    requires FalseOpenings(local, pos, edits) == 0
    requires FalseMiddles(local, pos, edits) == 0 && FalseClosings(local, pos, edits) == 0
    ensures ReadsBack(local, pos, edits)
    decreases |edits|
  {
    hide Count, Lines, Side, FreeOf;
    if |edits| == 0 {
      CountZero(Lines(local[pos..]), Agreed);
    } else {
      var e, rest := edits[0], edits[1..];
      var ours := local[e.start..e.end];
      NoneFalse(local, e.end, rest);
      CountZero(Lines(local[pos..e.start]), Agreed);
      CountZero(Lines(Side(ours)), Ours);
      CountZero(Lines(Side(e.text)), Theirs);
      SideLines(ours, Ours);
      SideLines(e.text, Theirs);
    }
  }

  /** How the marker-looking lines of one hunk and what is before it add up. */
  lemma CountHunk(common: seq<Content>, ours: seq<Content>, theirs: seq<Content>, hubVersion: nat,
                  rest: seq<Content>, region: Region)
    ensures Count(common + ([OPENING] + (ours + ([MIDDLE] + (theirs + ([Closing(hubVersion)] + rest))))), region)
         == Count(common, region) + Count(ours, region) + Count(theirs, region) + 1 + Count(rest, region)
  {
    hide *;
    var l3 := [Closing(hubVersion)] + rest;
    CountConcat(common, [OPENING] + (ours + ([MIDDLE] + (theirs + l3))), region);
    CountConcat([OPENING], ours + ([MIDDLE] + (theirs + l3)), region);
    CountConcat(ours, [MIDDLE] + (theirs + l3), region);
    CountConcat([MIDDLE], theirs + l3, region);
    CountConcat(theirs, l3, region);
    CountConcat([Closing(hubVersion)], rest, region);
    CountMarkers(hubVersion, region);
  }

  lemma CountMarkers(hubVersion: nat, region: Region)
    ensures Count([OPENING], region) + Count([MIDDLE], region) + Count([Closing(hubVersion)], region) == 1
  {
    hide Ends, Closing;
    MarkerLinesEnd(hubVersion);
    CountOne(OPENING, Agreed, region);
    CountOne(MIDDLE, Ours, region);
    CountOne(Closing(hubVersion), Theirs, region);
  }

  lemma CountOne(line: Content, kind: Region, region: Region)
    requires Ends(line, kind)
    ensures Count([line], region) == if region == kind then 1 else 0
  {
    hide Ends;
    assert [line][1..] == [];
    if Ends(line, region) {
      OneKind(line, kind, region);
    }
  }

  lemma CountTwo(common: seq<Content>, side: seq<Content>, rest: seq<Content>, region: Region)
    ensures Count(common + (side + rest), region) == Count(common, region) + Count(side, region) + Count(rest, region)
  {
    CountConcat(common, side + rest, region);
    CountConcat(side, rest, region);
  }

  /** The merged file's marker-looking lines against those of the two sides. */
  lemma {:induction false} Balance(local: Content, pos: nat, edits: seq<Edit>, hubVersion: nat)
    requires Ordered(local, pos, edits)
    ensures
      var all := MergedLines(local, pos, edits, hubVersion);
      var ours, theirs := OursLines(local, pos, edits), TheirsLines(local, pos, edits);
      && Count(all, Ours) == |edits| + FalseMiddles(local, pos, edits) + Count(theirs, Ours)
      && Count(all, Theirs) == |edits| + FalseClosings(local, pos, edits) + Count(ours, Theirs)
      && Count(all, Agreed) + FalseOpenings(local, pos, edits)
         == |edits| + Count(ours, Agreed) + Count(theirs, Agreed)
    decreases |edits|
  {
    hide Count, Lines, Side, Closing;
    if |edits| > 0 {
      var e, rest := edits[0], edits[1..];
      Balance(local, e.end, rest, hubVersion);
      var common := Lines(local[pos..e.start]);
      var o, t := Lines(Side(local[e.start..e.end])), Lines(Side(e.text));
      var all := MergedLines(local, e.end, rest, hubVersion);
      CountHunk(common, o, t, hubVersion, all, Agreed);
      CountHunk(common, o, t, hubVersion, all, Ours);
      CountHunk(common, o, t, hubVersion, all, Theirs);
      CountTwo(common, o, OursLines(local, e.end, rest), Agreed);
      CountTwo(common, o, OursLines(local, e.end, rest), Theirs);
      CountTwo(common, t, TheirsLines(local, e.end, rest), Agreed);
      CountTwo(common, t, TheirsLines(local, e.end, rest), Ours);
    }
  }

  /** The reader's lines are the lines of the two sides. */
  predicate ReadsItsSides(local: Content, edits: seq<Edit>, hubVersion: nat)
    requires Ordered(local, 0, edits)
  {
    Read(MergedLines(local, 0, edits, hubVersion), Agreed)
    == (OursLines(local, 0, edits), TheirsLines(local, 0, edits))
  }

  lemma SidesRead(local: Content, edits: seq<Edit>, hubVersion: nat)
    requires Ordered(local, 0, edits)
    ensures ReadsItsSides(local, edits, hubVersion) <==>
      Read(MergedLines(local, 0, edits, hubVersion), Agreed)
      == (OursLines(local, 0, edits), TheirsLines(local, 0, edits))
  {
  }

  lemma FreeIfReadsBack(local: Content, edits: seq<Edit>, hubVersion: nat)
    requires Ordered(local, 0, edits)
    requires ReadsItsSides(local, edits, hubVersion)
    ensures ReadsBack(local, 0, edits)
  {
    hide *;
    var all := MergedLines(local, 0, edits, hubVersion);
    SidesRead(local, edits, hubVersion);
    Balance(local, 0, edits, hubVersion);
    Tally(all, Agreed);
    TurnsBalance(all, Agreed);
    NoneFalse(local, 0, edits);
  }

  // ---------------------------------------------------------------- the round trip

  /** A newline is added to our side exactly when the last hunk takes in an unterminated last line. */
  function OursPadding(local: Content, edits: seq<Edit>): Content {
    if |edits| > 0 && edits[|edits| - 1].start < edits[|edits| - 1].end == |local| && !Terminated(local)
    then [LF] else []
  }

  /** A newline is added to their side exactly when the last hunk brings an unterminated last line. */
  function TheirsPadding(edits: seq<Edit>): Content {
    if |edits| > 0 && !Terminated(edits[|edits| - 1].text) then [LF] else []
  }

  /** The last hunk's side, ended by a newline, and whatever follows it. */
  lemma LastHunk(common: Content, side: Content, tail: Content)
    requires !Terminated(side) ==> tail == []
    ensures common + Side(side) + tail == common + (side + tail) + (if Terminated(side) then [] else [LF])
  {
    if Terminated(side) {
      Assoc(common, side, tail);
      assert common + side + tail + [] == common + side + tail;
    } else {
      Assoc(common, side, [LF]);
      assert side + [] == side && common + Side(side) + [] == common + Side(side);
    }
  }

  /** An earlier hunk's side needs no newline. */
  lemma InnerHunk(common: Content, side: Content, tail: Content, pad: Content)
    requires Terminated(side)
    ensures common + Side(side) + (tail + pad) == common + (side + tail) + pad
  {
    Assoc(common, side, tail);
    Assoc(common + side, tail, pad);
  }

  lemma PaddingOfRest(local: Content, edits: seq<Edit>)
    requires |edits| > 1
    ensures OursPadding(local, edits[1..]) == OursPadding(local, edits)
    ensures TheirsPadding(edits[1..]) == TheirsPadding(edits)
  {
    assert edits[1..][|edits| - 2] == edits[|edits| - 1];
  }

  lemma PaddingOfLast(local: Content, edits: seq<Edit>)
    requires |edits| == 1 && LineAligned(local, edits[0])
    ensures
      var ours := local[edits[0].start..edits[0].end];
      && OursPadding(local, edits) == (if Terminated(ours) then [] else [LF])
      && (!Terminated(ours) ==> local[edits[0].end..] == [])
  {
    EndsALine(local, edits[0].start, edits[0].end);
  }

  /** An edit with another one behind it ends on a line boundary. */
  lemma InnerEditTerminated(local: Content, edits: seq<Edit>)
    requires |edits| > 1 && Ordered(local, 0, edits)
    ensures Terminated(local[edits[0].start..edits[0].end])
  {
    EndsALine(local, edits[0].start, edits[0].end);
    SortedEnds(local, edits[0].end, edits[1..]);
  }

  lemma {:induction false} OursIsLocal(local: Content, pos: nat, edits: seq<Edit>)
    requires Ordered(local, pos, edits)
    ensures OursFrom(local, pos, edits) == local[pos..] + OursPadding(local, edits)
    decreases |edits|
  {
    if |edits| == 0 {
      assert local[pos..] + [] == local[pos..];
    } else {
      var e, rest := edits[0], edits[1..];
      var common, ours, tail := local[pos..e.start], local[e.start..e.end], local[e.end..];
      SplitAtEdit(local, pos, e.start, e.end);
      OursIsLocal(local, e.end, rest);
      if |rest| == 0 {
        PaddingOfLast(local, edits);
        hide Terminated, Side, OursPadding;
        LastHunk(common, ours, tail);
      } else {
        InnerEditTerminated(local, edits);
        PaddingOfRest(local, edits);
        hide Terminated, Side, OursPadding;
        InnerHunk(common, ours, tail, OursPadding(local, rest));
      }
    }
  }

  lemma {:induction false} TheirsIsHub(local: Content, pos: nat, edits: seq<Edit>)
    requires Ordered(local, pos, edits)
    ensures TheirsFrom(local, pos, edits) == Apply(local, pos, edits) + TheirsPadding(edits)
    decreases |edits|
  {
    if |edits| == 0 {
    } else {
      var e, rest := edits[0], edits[1..];
      TheirsIsHub(local, e.end, rest);
      var common, after := local[pos..e.start], Apply(local, e.end, rest);
      Assoc(common, e.text, after);
      if |rest| == 0 {
        assert !Terminated(e.text) ==> after == [];
        LastHunk(common, e.text, after);
      } else {
        assert rest[|rest| - 1] == edits[|edits| - 1];
        InnerHunk(common, e.text, after, TheirsPadding(rest));
      }
    }
  }

  /** With an edit still to come, the script has not passed an unterminated end of the text. */
  lemma SortedEnds(local: Content, pos: nat, edits: seq<Edit>)
    requires |edits| > 0 && Ordered(local, pos, edits)
    ensures pos == |local| ==> Terminated(local)
  {
  }

  /** The reader's texts are the two sides exactly when its lines are. */
  lemma ParseIsRead(local: Content, edits: seq<Edit>, hubVersion: nat)
    requires Ordered(local, 0, edits)
    ensures Parse(Merged(local, 0, edits, hubVersion)) == (OursFrom(local, 0, edits), TheirsFrom(local, 0, edits))
       <==> ReadsItsSides(local, edits, hubVersion)
  {
    hide Lines, Concat, Read, Merged, MergedLines, OursLines, TheirsLines, OursFrom, TheirsFrom, Proper;
    var merged := Merged(local, 0, edits, hubVersion);
    LinesOfMerged(local, 0, edits, hubVersion);
    LinesOfSides(local, 0, edits);
    LinesAreProper(merged);
    ReadIsProper(Lines(merged), Agreed);
    LinesOfProper(Read(Lines(merged), Agreed).0);
    LinesOfProper(Read(Lines(merged), Agreed).1);
    LinesJoin(OursFrom(local, 0, edits));
    LinesJoin(TheirsFrom(local, 0, edits));
  }

  /**
   When nothing is lost, exactly: for every line-aligned script, a reader of the file the printer
   writes gets back the local text and the hub text, each up to one newline at its very end, if and
   only if no line stands where the reader takes it for a marker.
   */
  lemma BothSidesRecovered(local: Content, hub: Content, edits: seq<Edit>, hubVersion: nat)
    requires ValidScript(local, hub, edits)
    ensures Parse(Merged(local, 0, edits, hubVersion))
         == (local + OursPadding(local, edits), hub + TheirsPadding(edits))
       <==> ReadsBack(local, 0, edits)
  {
    assert local[0..] == local;
    OursIsLocal(local, 0, edits);
    TheirsIsHub(local, 0, edits);
    hide *;
    ParseIsRead(local, edits, hubVersion);
    SidesRead(local, edits, hubVersion);
    if ReadsBack(local, 0, edits) {
      ReadsBackIfFree(local, 0, edits, hubVersion);
    } else if ReadsItsSides(local, edits, hubVersion) {
      FreeIfReadsBack(local, edits, hubVersion);
    }
  }

  // ---------------------------------------------------------------- the hub's version

  function Chars(b: Content): (s: string)
    ensures |s| == |b|
  {
    seq(|b|, i requires 0 <= i < |b| => b[i] as char)
  }

  /** The number on a closing marker, after the " v". */
  function VersionOn(line: Content): nat
    requires Ends(line, Theirs)
  {
    var digits := Chars(Strip(line)[|MARKER_END| + 2..]);
    if forall i :: 0 <= i < |digits| ==> Decimal.IsDigit(digits[i]) then Decimal.Value(digits) else 0
  }

  lemma CharsOfAscii(s: string)
    requires forall i :: 0 <= i < |s| ==> Decimal.IsDigit(s[i])
    ensures Chars(Ascii(s)) == s
  {
  }

  lemma VersionOnClosing(hubVersion: nat)
    ensures Ends(Closing(hubVersion), Theirs) && VersionOn(Closing(hubVersion)) == hubVersion
  {
    MarkerLinesEnd(hubVersion);
    MarkersHaveNoNewline(hubVersion);
    MarkerLine(MARKER_END + VersionTag(hubVersion), []);
    var digits := Decimal.Print(hubVersion);
    assert VersionTag(hubVersion) == Ascii(" v") + Ascii(digits);
    assert (MARKER_END + VersionTag(hubVersion))[|MARKER_END| + 2..] == Ascii(digits);
    CharsOfAscii(digits);
    Decimal.ValueOfPrint(hubVersion);
  }

  /** The versions on the closing markers that the reader takes, in order. */
  function ReadVersions(lines: seq<Content>, at: Region): seq<nat> {
    if |lines| == 0 then []
    else if Ends(lines[0], at) then
      (if at.Theirs? then [VersionOn(lines[0])] else []) + ReadVersions(lines[1..], Following(at))
    else ReadVersions(lines[1..], at)
  }

  lemma {:induction false} NoVersionInStretch(lines: seq<Content>, rest: seq<Content>, at: Region)
    requires FreeOf(lines, at)
    ensures ReadVersions(lines + rest, at) == ReadVersions(rest, at)
  {
    hide Ends, VersionOn;
    if |lines| == 0 {
      assert lines + rest == rest;
    } else {
      assert !Ends(lines[0], at);
      assert (lines + rest)[0] == lines[0] && (lines + rest)[1..] == lines[1..] + rest;
      NoVersionInStretch(lines[1..], rest, at);
    }
  }

  lemma VersionAtMarker(line: Content, rest: seq<Content>, at: Region)
    requires Ends(line, at)
    ensures ReadVersions([line] + rest, at)
         == (if at.Theirs? then [VersionOn(line)] else []) + ReadVersions(rest, Following(at))
  {
    assert ([line] + rest)[1..] == rest;
    hide VersionOn;
  }

  lemma VersionOfHunk(common: seq<Content>, ours: seq<Content>, theirs: seq<Content>, hubVersion: nat,
                      rest: seq<Content>)
    requires FreeOf(common, Agreed) && FreeOf(ours, Ours) && FreeOf(theirs, Theirs)
    ensures ReadVersions(common + ([OPENING] + (ours + ([MIDDLE] + (theirs + ([Closing(hubVersion)] + rest))))), Agreed)
         == [hubVersion] + ReadVersions(rest, Agreed)
  {
    hide *;
    MarkerLinesEnd(hubVersion);
    VersionOnClosing(hubVersion);
    FollowingIs();
    var l3 := [Closing(hubVersion)] + rest;
    var l2 := [MIDDLE] + (theirs + l3);
    NoVersionInStretch(common, [OPENING] + (ours + l2), Agreed);
    VersionAtMarker(OPENING, ours + l2, Agreed);
    NoVersionInStretch(ours, l2, Ours);
    VersionAtMarker(MIDDLE, theirs + l3, Ours);
    NoVersionInStretch(theirs, l3, Theirs);
    VersionAtMarker(Closing(hubVersion), rest, Theirs);
  }

  lemma {:induction false} VersionsOfMerged(local: Content, pos: nat, edits: seq<Edit>, hubVersion: nat)
    requires Ordered(local, pos, edits) && ReadsBack(local, pos, edits)
    ensures ReadVersions(MergedLines(local, pos, edits, hubVersion), Agreed) == seq(|edits|, _ => hubVersion)
    decreases |edits|
  {
    hide Lines, Closing, ReadVersions, FreeOf, Side;
    if |edits| == 0 {
      var all := Lines(local[pos..]);
      NoVersionInStretch(all, [], Agreed);
      NoVersions();
      assert all + [] == all;
    } else {
      var e, rest := edits[0], edits[1..];
      var ours := local[e.start..e.end];
      VersionsOfMerged(local, e.end, rest, hubVersion);
      SideLines(ours, Ours);
      SideLines(e.text, Theirs);
      VersionOfHunk(Lines(local[pos..e.start]), Lines(Side(ours)), Lines(Side(e.text)), hubVersion,
                    MergedLines(local, e.end, rest, hubVersion));
      assert [hubVersion] + seq(|rest|, _ => hubVersion) == seq(|edits|, _ => hubVersion);
    }
  }

  lemma NoVersions()
    ensures ReadVersions([], Agreed) == []
  {
  }

  /** With both sides the reader recovers the hub's version, once for each hunk. */
  lemma HubVersionRecovered(local: Content, hub: Content, edits: seq<Edit>, hubVersion: nat)
    requires ValidScript(local, hub, edits) && ReadsBack(local, 0, edits)
    ensures ReadVersions(Lines(Merged(local, 0, edits, hubVersion)), Agreed) == seq(|edits|, _ => hubVersion)
  {
    LinesOfMerged(local, 0, edits, hubVersion);
    VersionsOfMerged(local, 0, edits, hubVersion);
  }

  /** Enough for it: no opening or middle marker line in the local text, no closing one in the hub's. */
  lemma {:induction false} PlainTextsReadBack(local: Content, pos: nat, edits: seq<Edit>)
    requires Ordered(local, pos, edits) && Boundary(local, pos)
    requires FreeOf(Lines(local[pos..]), Agreed) && FreeOf(Lines(local[pos..]), Ours)
    requires FreeOf(Lines(Apply(local, pos, edits)), Theirs)
    ensures ReadsBack(local, pos, edits)
    decreases |edits|
  {
    hide Lines, FreeOf, Terminated;
    if |edits| > 0 {
      var e, rest := edits[0], edits[1..];
      FirstEdit(local, pos, edits);
      var common, ours, tail := local[pos..e.start], local[e.start..e.end], local[e.end..];
      var after := Apply(local, e.end, rest);
      LinesOfCut(common, ours, tail, Agreed);
      LinesOfCut(common, ours, tail, Ours);
      Assoc(common, e.text, after);
      LinesOfCut(common, e.text, after, Theirs);
      PlainTextsReadBack(local, e.end, rest);
    }
  }

  lemma LinesOfCut(common: Content, middle: Content, tail: Content, region: Region)
    requires Terminated(common) && (Terminated(middle) || tail == [])
    requires FreeOf(Lines(common + (middle + tail)), region)
    ensures FreeOf(Lines(common), region) && FreeOf(Lines(middle), region) && FreeOf(Lines(tail), region)
  {
    hide FreeOf;
    LinesOfConcat(common, middle + tail);
    FreeOfConcat(Lines(common), Lines(middle + tail), region);
    if tail == [] {
      assert middle + tail == middle;
      NoLines(region);
    } else {
      LinesOfConcat(middle, tail);
      FreeOfConcat(Lines(middle), Lines(tail), region);
    }
  }

  lemma NoLines(region: Region)
    ensures Lines([]) == [] && FreeOf([], region)
  {
  }

  /**
   A text it fails on: a local file whose one line is a row of seven equals signs (an underlined
   heading, say) comes back empty, against any other hub text without a closing marker line.
   */
  lemma MarkerLineIsMisread(theirs: Content, hubVersion: nat)
    requires theirs != MIDDLE && FreeOf(Lines(theirs), Theirs)
    ensures
      var edits := ReplaceAll(MIDDLE, theirs);
      && ValidScript(MIDDLE, theirs, edits)
      && !ReadsBack(MIDDLE, 0, edits)
      && Parse(Merged(MIDDLE, 0, edits, hubVersion)).0 == []
  {
    ReplaceAllValid(MIDDLE, theirs);
    LinesOfMiddle();
    MisreadHunk(theirs, hubVersion);
    hide Lines, Hunk, Parse, Ends;
    var edits := ReplaceAll(MIDDLE, theirs);
    assert edits[1..] == [];
    assert MIDDLE[0..|MIDDLE|] == MIDDLE && MIDDLE[0..0] == [] && MIDDLE[|MIDDLE|..] == [];
    assert [] + Hunk(MIDDLE, theirs, hubVersion) == Hunk(MIDDLE, theirs, hubVersion);
    assert Lines(MIDDLE)[0] == MIDDLE;
  }

  lemma LinesOfMiddle()
    ensures Lines(MIDDLE) == [MIDDLE] && Side(MIDDLE) == MIDDLE && Ends(MIDDLE, Ours) && !Ends(MIDDLE, Theirs)
  {
    MarkerLinesEnd(0);
    MarkerLine(MARKER_MID, []);
    NoLines(Agreed);
    assert MIDDLE + [] == MIDDLE;
    hide Ends;
    if Ends(MIDDLE, Theirs) {
      OneKind(MIDDLE, Ours, Theirs);
    }
  }

  /** After the opening marker, a text line equal to the middle marker ends our side at once. */
  lemma MisreadHunk(theirs: Content, hubVersion: nat)
    requires FreeOf(Lines(theirs), Theirs)
    ensures Parse(Hunk(MIDDLE, theirs, hubVersion) + []).0 == []
  {
    LinesOfMiddle();
    NoLines(Theirs);
    FollowingIs();
    ReadNothing();
    var side := Lines(Side(theirs));
    SideLines(theirs, Theirs);
    OneFree(MIDDLE, Theirs);
    LinesOfHunk(MIDDLE, theirs, hubVersion, []);
    MarkerLinesEnd(hubVersion);
    hide Lines, Side, Hunk, Ends, FreeOf, Closing, Following, Read;
    var l3 := [Closing(hubVersion)] + [];
    var l2 := [MIDDLE] + (side + l3);
    ReadMarker(OPENING, [MIDDLE] + l2, Agreed);
    ReadMarker(MIDDLE, l2, Ours);
    ReadStretch([MIDDLE], side + l3, Theirs);
    ReadStretch(side, l3, Theirs);
    ReadMarker(Closing(hubVersion), [], Theirs);
  }
}
