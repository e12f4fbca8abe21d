/**
 File contents as byte strings: substring search, the split into lines, and the line-ending
 normalisation the hub applies to text on its way in.
 */
module Text {

  newtype byte = x: int | 0 <= x < 0x100

  type Content = seq<byte>

  const NUL: byte := 0
  const LF: byte := 10
  const CR: byte := 13

  const CRLF: Content := [CR, LF]
  const CRCRLF: Content := [CR, CR, LF]

  /**
   A content fingerprint. Fingerprints of different contents differ: the 64-bit hash of the program
   is taken to be free of collisions on the contents in play.
   */
  datatype Fingerprint = Fingerprint(of: Content)

  function HashContent(b: Content): Fingerprint { Fingerprint(b) }

  /** The bytes of an ASCII literal. */
  function Ascii(s: string): (b: Content)
    ensures |b| == |s|
    ensures forall i :: 0 <= i < |s| ==> b[i] as int == s[i] as int % 0x100
  {
    seq(|s|, i requires 0 <= i < |s| => ((s[i] as int) % 0x100) as byte)
  }

  /** Concatenation is associative; stated once so that longer chains need no new proof. */
  lemma Assoc(a: Content, b: Content, c: Content)
    ensures a + (b + c) == a + b + c
  {
  }

  predicate OccursAt(b: Content, pat: Content, i: nat) {
    i + |pat| <= |b| && b[i..i + |pat|] == pat
  }

  /** bytes.Contains */
  predicate Contains(b: Content, pat: Content) {
    exists i | 0 <= i <= |b| :: OccursAt(b, pat, i)
  }

  lemma ContainsAt(before: Content, pat: Content, after: Content)
    ensures Contains(before + pat + after, pat)
  {
    assert OccursAt(before + pat + after, pat, |before|);
  }

  /** A pattern occurs in a nonempty text at the front or in the tail. */
  lemma ContainsCases(b: Content, pat: Content)
    requires |b| > 0 && |pat| > 0
    ensures Contains(b, pat) <==> pat <= b || Contains(b[1..], pat)
  {
    if Contains(b, pat) {
      var i :| 0 <= i <= |b| && OccursAt(b, pat, i);
      if i > 0 {
        assert b[1..][i - 1..i - 1 + |pat|] == b[i..i + |pat|];
        assert OccursAt(b[1..], pat, i - 1);
      }
    }
    if pat <= b {
      assert OccursAt(b, pat, 0);
    }
    if Contains(b[1..], pat) {
      var i :| 0 <= i <= |b[1..]| && OccursAt(b[1..], pat, i);
      assert b[1..][i..i + |pat|] == b[i + 1..i + 1 + |pat|];
      assert OccursAt(b, pat, i + 1);
    }
  }

  // ---------------------------------------------------------------- line endings

  /** bytes.ReplaceAll(b, "\r\n", "\n"): leftmost, non-overlapping. */
  function DropCarriageReturns(b: Content): Content {
    if |b| < 2 then b
    else if b[0] == CR && b[1] == LF then [LF] + DropCarriageReturns(b[2..])
    else [b[0]] + DropCarriageReturns(b[1..])
  }

  predicate Binary(b: Content) { NUL in b }

  /** Text content is LF-normalised in transit; content with a NUL byte is left as it is. */
  function NormalizeForTransit(b: Content): Content {
    if Binary(b) then b else DropCarriageReturns(b)
  }

  lemma {:induction false} DropKeepsNul(b: Content)
    ensures NUL in DropCarriageReturns(b) <==> NUL in b
  {
    if |b| < 2 {
    } else if b[0] == CR && b[1] == LF {
      DropKeepsNul(b[2..]);
      assert b == [CR, LF] + b[2..];
    } else {
      DropKeepsNul(b[1..]);
      assert b == [b[0]] + b[1..];
    }
  }

  lemma {:induction false} DropShrinks(b: Content)
    ensures |DropCarriageReturns(b)| <= |b|
    ensures Contains(b, CRLF) ==> |DropCarriageReturns(b)| < |b|
    ensures !Contains(b, CRLF) ==> DropCarriageReturns(b) == b
  {
    if |b| < 2 {
    } else if b[0] == CR && b[1] == LF {
      DropShrinks(b[2..]);
      assert OccursAt(b, CRLF, 0);
    } else {
      DropShrinks(b[1..]);
      ContainsCases(b, CRLF);
      assert b == [b[0]] + b[1..];
    }
  }

  /** The first byte of the result is LF only when the input starts with LF or CR LF. */
  lemma DropHead(b: Content)
    requires |b| > 0
    ensures |DropCarriageReturns(b)| > 0
    ensures DropCarriageReturns(b)[0] == if CRLF <= b then LF else b[0]
  {
  }

  /** A CR LF pair is left in the output exactly when the input holds CR CR LF. */
  lemma {:induction false} CrlfSurvivesExactly(b: Content)
    ensures Contains(DropCarriageReturns(b), CRLF) <==> Contains(b, CRCRLF)
  {
    var d := DropCarriageReturns(b);
    if |b| < 2 {
    } else if b[0] == CR && b[1] == LF {
      var rest := b[2..];
      CrlfSurvivesExactly(rest);
      assert d[1..] == DropCarriageReturns(rest);
      ContainsCases(d, CRLF);
      ContainsCases(b, CRCRLF);
      ContainsCases(b[1..], CRCRLF);
      assert b[1..][1..] == rest;
      assert d[0] == LF && b[1..][0] == LF;
    } else {
      var rest := b[1..];
      CrlfSurvivesExactly(rest);
      assert d[1..] == DropCarriageReturns(rest);
      ContainsCases(d, CRLF);
      ContainsCases(b, CRCRLF);
      DropHead(rest);
      assert CRCRLF <= b <==> b[0] == CR && CRLF <= rest;
      assert CRLF <= d <==> d[0] == CR && d[1..] != [] && d[1] == LF;
    }
  }

  /** Normalising twice is normalising once exactly on binary content and on text without CR CR LF. */
  lemma NormalizeIdempotentExactly(b: Content)
    ensures NormalizeForTransit(NormalizeForTransit(b)) == NormalizeForTransit(b)
       <==> Binary(b) || !Contains(b, CRCRLF)
  {
    if !Binary(b) {
      DropKeepsNul(b);
      CrlfSurvivesExactly(b);
      DropShrinks(DropCarriageReturns(b));
    }
  }

  /** Content is a fixed point of normalisation exactly when it is binary or holds no CR LF. */
  lemma NormalizeFixesExactly(b: Content)
    ensures NormalizeForTransit(b) == b <==> Binary(b) || !Contains(b, CRLF)
  {
    DropShrinks(b);
  }

  /**
   Which contents are normalised, by their bytes alone: content with a NUL byte is left as it is, and
   content without one is left as it is exactly when no CR LF stands in it.
   */
  lemma NulDecides(b: Content)
    ensures NUL in b ==> NormalizeForTransit(b) == b
    ensures NUL !in b ==> (NormalizeForTransit(b) == b <==> !Contains(b, CRLF))
    ensures NUL !in b ==> (Contains(NormalizeForTransit(b), CRLF) <==> Contains(b, CRCRLF))
  {
    DropShrinks(b);
    CrlfSurvivesExactly(b);
  }

  /**
   What becomes of text, in full: without a CR LF pair nothing, and otherwise the first pair becomes an
   LF, what is before it stays, and what is behind it is treated in the same way.
   */
  lemma {:induction false} FirstPairGoes(a: Content, c: Content)
    requires !Contains(a, CRLF) && NUL !in a && NUL !in c
    ensures NormalizeForTransit(a) == a
    ensures NormalizeForTransit(a + CRLF + c) == a + [LF] + NormalizeForTransit(c)
  {
    DropShrinks(a);
    assert NUL !in a + CRLF + c;
    DropFirstPair(a, c);
  }

  lemma PairInFront(a: Content)
    ensures |a| > 1 && a[0] == CR && a[1] == LF ==> CRLF <= a
  {
  }

  lemma {:induction false} DropFirstPair(a: Content, c: Content)
    requires !Contains(a, CRLF)
    ensures DropCarriageReturns(a + CRLF + c) == a + [LF] + DropCarriageReturns(c)
  {
    var all := a + CRLF + c;
    if |a| == 0 {
      assert all == CRLF + c && all[2..] == c;
      assert a + [LF] + DropCarriageReturns(c) == [LF] + DropCarriageReturns(c);
    } else {
      ContainsCases(a, CRLF);
      assert all[0] == a[0] && all[1..] == a[1..] + CRLF + c;
      PairInFront(a);
      DropFirstPair(a[1..], c);
      assert a == [a[0]] + a[1..];
      Assoc([a[0]], a[1..] + [LF], DropCarriageReturns(c));
      Assoc([a[0]], a[1..], [LF]);
    }
  }

  lemma CrlfHasCr(b: Content)
    requires Contains(b, CRLF)
    ensures CR in b
  {
    var i :| 0 <= i <= |b| && OccursAt(b, CRLF, i);
    assert b[i] == b[i..i + 2][0] == CR;
  }

  lemma NoCrIsFixed(b: Content)
    requires CR !in b
    ensures NormalizeForTransit(b) == b
  {
    if Contains(b, CRLF) {
      CrlfHasCr(b);
    }
    DropShrinks(b);
  }

  // ---------------------------------------------------------------- patterns across normalisation

  predicate EndsFree(pat: Content) { CR !in pat && LF !in pat }

  lemma {:induction false} PlainPrefix(b: Content, pat: Content)
    requires EndsFree(pat)
    ensures pat <= DropCarriageReturns(b) <==> pat <= b
    decreases |pat|
  {
    if |pat| > 0 && |b| >= 2 && b[0] == pat[0] {
      PlainPrefix(b[1..], pat[1..]);
      var d := DropCarriageReturns(b);
      assert d[1..] == DropCarriageReturns(b[1..]);
      PrefixCases(d, pat);
      PrefixCases(b, pat);
    } else if |pat| > 0 && |b| >= 2 {
      DropHead(b);
    }
  }

  lemma PrefixCases(b: Content, pat: Content)
    requires |b| > 0 && |pat| > 0
    ensures pat <= b <==> pat[0] == b[0] && pat[1..] <= b[1..]
  {
    if pat[0] == b[0] && pat[1..] <= b[1..] {
      assert pat == [pat[0]] + pat[1..] && b == [b[0]] + b[1..];
    }
  }

  /** A line ended by LF after normalisation was ended by LF or by CR LF before. */
  lemma {:induction false} LinePrefix(b: Content, line: Content)
    requires EndsFree(line)
    ensures line + [LF] <= DropCarriageReturns(b) <==> line + [LF] <= b || line + CRLF <= b
    decreases |line|
  {
    if |line| == 0 {
      assert line + [LF] == [LF] && line + CRLF == CRLF;
      if |b| > 0 {
        DropHead(b);
      }
    } else if |b| >= 2 {
      var d := DropCarriageReturns(b);
      DropHead(b);
      assert (line + [LF])[1..] == line[1..] + [LF] && (line + CRLF)[1..] == line[1..] + CRLF;
      PrefixCases(b, line + [LF]);
      PrefixCases(b, line + CRLF);
      PrefixCases(d, line + [LF]);
      if b[0] == line[0] {
        assert d[1..] == DropCarriageReturns(b[1..]);
        LinePrefix(b[1..], line[1..]);
      }
    }
  }

  /** Normalisation neither makes nor destroys an occurrence of a pattern without line ends. */
  lemma {:induction false} PlainOccurs(b: Content, pat: Content)
    requires |pat| > 0 && EndsFree(pat)
    ensures Contains(DropCarriageReturns(b), pat) <==> Contains(b, pat)
  {
    hide Contains;
    if |b| >= 2 {
      var d := DropCarriageReturns(b);
      PlainPrefix(b, pat);
      ContainsCases(d, pat);
      ContainsCases(b, pat);
      if b[0] == CR && b[1] == LF {
        assert d[1..] == DropCarriageReturns(b[2..]) && b[1..][1..] == b[2..];
        ContainsCases(b[1..], pat);
        assert b[1..][0] == LF;
        PlainOccurs(b[2..], pat);
      } else {
        assert d[1..] == DropCarriageReturns(b[1..]);
        PlainOccurs(b[1..], pat);
      }
    }
  }

  /** A whole line stands in the normalised text exactly when it stands in the text, ended by LF or CR LF. */
  lemma {:induction false} LineOccurs(b: Content, line: Content)
    requires EndsFree(line)
    ensures Contains(DropCarriageReturns(b), [LF] + line + [LF])
       <==> Contains(b, [LF] + line + [LF]) || Contains(b, [LF] + line + CRLF)
  {
    hide Contains;
    var q, r := [LF] + line + [LF], [LF] + line + CRLF;
    if |b| < 2 {
      ShortContainsNot(b, r);
    } else {
      var d := DropCarriageReturns(b);
      ContainsCases(d, q);
      ContainsCases(b, q);
      ContainsCases(b, r);
      assert q[1..] == line + [LF] && r[1..] == line + CRLF;
      PrefixCases(d, q);
      PrefixCases(b, q);
      PrefixCases(b, r);
      if b[0] == CR && b[1] == LF {
        assert d[1..] == DropCarriageReturns(b[2..]) && b[1..][1..] == b[2..];
        ContainsCases(b[1..], q);
        ContainsCases(b[1..], r);
        PrefixCases(b[1..], q);
        PrefixCases(b[1..], r);
        LinePrefix(b[2..], line);
        LineOccurs(b[2..], line);
      } else {
        assert d[1..] == DropCarriageReturns(b[1..]);
        LinePrefix(b[1..], line);
        LineOccurs(b[1..], line);
      }
    }
  }

  lemma ShortContainsNot(b: Content, pat: Content)
    requires |b| < |pat|
    ensures !Contains(b, pat)
  {
  }

  // ---------------------------------------------------------------- lines

  /** A text that is empty or ends in LF: what follows it starts on a line of its own. */
  predicate Terminated(b: Content) { |b| == 0 || b[|b| - 1] == LF }

  /** The length of the first line, its LF included. */
  function LineLength(b: Content): (n: nat)
    requires |b| > 0
    ensures 1 <= n <= |b|
    ensures n < |b| ==> b[n - 1] == LF
    ensures forall i :: 0 <= i < n - 1 ==> b[i] != LF
  {
    if b[0] == LF || |b| == 1 then 1
    else 1 + LineLength(b[1..])
  }

  /** strings.SplitAfter(b, "\n"), without the empty last piece. */
  function Lines(b: Content): seq<Content> {
    if |b| == 0 then [] else [b[..LineLength(b)]] + Lines(b[LineLength(b)..])
  }

  function Concat(lines: seq<Content>): Content {
    if |lines| == 0 then [] else lines[0] + Concat(lines[1..])
  }

  /** A line without its LF. */
  function Strip(line: Content): Content {
    if |line| > 0 && line[|line| - 1] == LF then line[..|line| - 1] else line
  }

  lemma FirstLineUnique(b: Content, n: nat)
    requires 1 <= n <= |b| && (n < |b| ==> b[n - 1] == LF)
    requires forall i :: 0 <= i < n - 1 ==> b[i] != LF
    ensures LineLength(b) == n
  {
  }

  lemma FirstLineOfConcat(a: Content, b: Content)
    requires Terminated(a) && |a| > 0
    ensures LineLength(a + b) == LineLength(a)
  {
    var n := LineLength(a);
    assert a[n - 1] == LF;
    FirstLineUnique(a + b, n);
  }

  lemma {:induction false} LinesOfConcat(a: Content, b: Content)
    requires Terminated(a)
    ensures Lines(a + b) == Lines(a) + Lines(b)
  {
    if |a| == 0 {
      assert a + b == b;
      assert Lines(b) == [] + Lines(b);
    } else {
      hide *;
      FirstLineOfConcat(a, b);
      CutInFirst(a, b, LineLength(a));
      FirstLine(a);
      FirstLine(a + b);
      RestTerminated(a);
      LinesOfConcat(a[LineLength(a)..], b);
      AssocLines([a[..LineLength(a)]], Lines(a[LineLength(a)..]), Lines(b));
    }
  }

  lemma CutInFirst(a: Content, b: Content, n: nat)
    requires n <= |a|
    ensures (a + b)[..n] == a[..n] && (a + b)[n..] == a[n..] + b
  {
  }

  lemma AssocLines(a: seq<Content>, b: seq<Content>, c: seq<Content>)
    ensures a + (b + c) == a + b + c
  {
  }

  lemma RestTerminated(a: Content)
    requires |a| > 0 && Terminated(a)
    ensures Terminated(a[LineLength(a)..]) && |a[LineLength(a)..]| < |a|
  {
  }

  lemma FirstLine(b: Content)
    requires |b| > 0
    ensures Lines(b) == [b[..LineLength(b)]] + Lines(b[LineLength(b)..])
  {
  }

  lemma {:induction false} LinesJoin(b: Content)
    ensures Concat(Lines(b)) == b
  {
    hide LineLength;
    if |b| > 0 {
      var n := LineLength(b);
      var first, rest := b[..n], b[n..];
      LinesJoin(rest);
      assert ([first] + Lines(rest))[1..] == Lines(rest);
      assert first + rest == b;
    }
  }

  lemma OneLine(line: Content)
    requires LF !in line
    ensures Lines(line + [LF]) == [line + [LF]]
    ensures line != [] ==> Lines(line) == [line]
  {
    var t := line + [LF];
    FirstLineUnique(t, |t|);
    assert t[..|t|] == t && t[|t|..] == [];
    if line != [] {
      FirstLineUnique(line, |line|);
      assert line[..|line|] == line;
    }
  }
}
