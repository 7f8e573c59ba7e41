/** Splitting a skill file into frontmatter and body (internal/app/skills/parse.go). */
module Frontmatter {
  import opened Prelude
  import opened Hex

  type Bytes = seq<byte>

  const LF: byte := 10
  const UTF8_BOM: Bytes := [0xEF, 0xBB, 0xBF]
  const FENCE: Bytes := [45, 45, 45]

  datatype Split = Split(fm: Bytes, body: Bytes) | NoFrontmatter | Unterminated

  predicate Blank(x: byte) { x == 32 || x == 9 || x == 13 }

  function TrimPrefix(s: Bytes, prefix: Bytes): Bytes {
    if prefix <= s then s[|prefix|..] else s
  }

  function TrimRight(s: Bytes): Bytes {
    if s != [] && Blank(s[|s| - 1]) then TrimRight(s[..|s| - 1]) else s
  }

  predicate IsFence(line: Bytes) { TrimRight(line) == FENCE }

  /** Where the line starting at off ends: at a newline, or at the end of the text. */
  function NextLf(b: Bytes, off: nat): (n: nat)
    requires off <= |b|
    ensures off <= n <= |b| && (forall i :: off <= i < n ==> b[i] != LF) && (n < |b| ==> b[n] == LF)
    decreases |b| - off
  {
    if off == |b| || b[off] == LF then off else NextLf(b, off + 1)
  }

  function ReadLine(b: Bytes, off: nat): (r: (Bytes, nat))
    requires off <= |b|
    ensures off <= r.1 <= |b| && (off < |b| ==> off < r.1)
  {
    var n := NextLf(b, off);
    if n == |b| then (b[off..], |b|) else (b[off..n], n + 1)
  }

  method SplitFrontmatter(raw: Bytes) returns (r: Split)
    ensures r == SplitByLines(raw)
  {
    var content := TrimPrefix(raw, UTF8_BOM);
    var (first, afterFirst) := ReadLine(content, 0);
    ghost var lines := Lines(content);
    Begin(content);
    hide Lines, Flatten, FirstFence, ReadLine, IsFence, TrimPrefix;
    if !IsFence(first) {
      return NoFrontmatter;
    }
    var off := afterFirst;
    ghost var k := 1;
    while off < |content|
      invariant afterFirst <= off <= |content| && 1 <= k <= |lines|
      invariant Scanned(content, afterFirst, off, lines, k)
      invariant FirstFence(lines, 1) == FirstFence(lines, k)
      decreases |content| - off
    {
      var (line, next) := ReadLine(content, off);
      ScanLine(content, afterFirst, off, lines, k);
      if IsFence(line) {
        LinesJoin(content[next..]);
        return Split(content[afterFirst..off], content[next..]);
      }
      off, k := next, k + 1;
    }
    ScanEnds(content, lines, k);
    r := Unterminated;
  }

  // ---------- the reference: a text is a list of lines ----------

  /** The lines of a text, each with its newline. */
  function Lines(b: Bytes): seq<Bytes>
    decreases |b|
  {
    if b == [] then [] else
      var next := ReadLine(b, 0).1;
      [b[..next]] + Lines(b[next..])
  }

  /** A line without its newline. */
  function Bare(line: Bytes): Bytes {
    if line != [] && line[|line| - 1] == LF then line[..|line| - 1] else line
  }

  predicate FenceLine(line: Bytes) { IsFence(Bare(line)) }

  /** Index of the first fence at or after k, or the number of lines. */
  function FirstFence(lines: seq<Bytes>, k: nat): (i: nat)
    requires k <= |lines|
    ensures k <= i <= |lines|
    ensures forall j :: k <= j < i ==> !FenceLine(lines[j])
    ensures i < |lines| ==> FenceLine(lines[i])
    decreases |lines| - k
  {
    if k == |lines| || FenceLine(lines[k]) then k else FirstFence(lines, k + 1)
  }

  function SplitByLines(raw: Bytes): Split {
    var lines := Lines(TrimPrefix(raw, UTF8_BOM));
    if lines == [] || !FenceLine(lines[0]) then NoFrontmatter
    else
      var k := FirstFence(lines, 1);
      if k == |lines| then Unterminated else Split(Flatten(lines[1..k]), Flatten(lines[k + 1..]))
  }

  /** One line: a newline can only be its last byte. */
  predicate OneLine(line: Bytes) { line != [] && forall i :: 0 <= i < |line| - 1 ==> line[i] != LF }

  predicate Ended(b: Bytes) { b == [] || b[|b| - 1] == LF }

  lemma NextLfUnique(b: Bytes, off: nat, n: nat)
    requires off <= n <= |b| && (forall i :: off <= i < n ==> b[i] != LF) && (n < |b| ==> b[n] == LF)
    ensures NextLf(b, off) == n
  {
    var m := NextLf(b, off);
    assert m < |b| && n < |b| ==> b[m] == b[n];
  }

  /** Reading at an offset is taking the first line of what is left. */
  lemma ReadLineReads(b: Bytes, off: nat)
    requires off <= |b|
    ensures var (line, next) := ReadLine(b, off);
            && (off == |b| ==> line == [])
            && (off < |b| ==> Lines(b[off..]) == [b[off..next]] + Lines(b[next..]) && Bare(b[off..next]) == line)
  {
    hide Lines, Bare, NextLf;
    var rest := b[off..];
    var n, next := NextLf(b, off), ReadLine(b, off).1;
    if off < |b| {
      assert forall i :: 0 <= i < |rest| ==> rest[i] == b[off + i];
      NextLfUnique(rest, 0, n - off);
      BareAt(b, off, n);
      Cut(b, off, next, |b|);
      FirstLine(rest);
    }
  }

  lemma FirstLine(b: Bytes)
    requires b != []
    ensures var next := ReadLine(b, 0).1; Lines(b) == [b[..next]] + Lines(b[next..])
  { }

  lemma BareAt(b: Bytes, off: nat, n: nat)
    requires off <= n <= |b| && off < |b| && (forall i :: off <= i < n ==> b[i] != LF) && (n < |b| ==> b[n] == LF)
    ensures Bare(b[off..if n == |b| then n else n + 1]) == b[off..n]
  {
    if n < |b| {
      var got := b[off..n + 1];
      assert got[|got| - 1] == b[n] && got[..|got| - 1] == b[off..n];
    } else {
      assert b[off..n][n - off - 1] == b[n - 1];
    }
  }

  /** Slices of slices. */
  lemma Cut(b: Bytes, i: nat, j: nat, k: nat)
    requires i <= j <= k <= |b|
    ensures b[i..k] == b[i..j] + b[j..k]
    ensures b[i..][..j - i] == b[i..j] && b[i..][j - i..] == b[j..]
  { }

  /** The scan has passed lines 1 to k of the content. */
  ghost predicate Scanned(content: Bytes, start: nat, off: nat, lines: seq<Bytes>, k: nat)
    requires start <= off <= |content| && 1 <= k <= |lines|
  {
    lines[k..] == Lines(content[off..]) && content[start..off] == Flatten(lines[1..k])
  }

  lemma Begin(content: Bytes)
    ensures var lines, (first, next) := Lines(content), ReadLine(content, 0);
            && (content == [] ==> lines == [] && !IsFence(first))
            && (content != [] ==> lines != [] && (FenceLine(lines[0]) <==> IsFence(first)) && Scanned(content, next, next, lines, 1))
  {
    ReadLineReads(content, 0);
    assert content[0..] == content;
    if content != [] {
      assert Lines(content)[1..1] == [];
    }
  }

  lemma ScanLine(content: Bytes, start: nat, off: nat, lines: seq<Bytes>, k: nat)
    requires start <= off < |content| && 1 <= k <= |lines| && Scanned(content, start, off, lines, k)
    ensures var (line, next) := ReadLine(content, off);
            && k < |lines| && (FenceLine(lines[k]) <==> IsFence(line))
            && Scanned(content, start, next, lines, k + 1)
            && FirstFence(lines, k) == if FenceLine(lines[k]) then k else FirstFence(lines, k + 1)
  {
    var next := ReadLine(content, off).1;
    ReadLineReads(content, off);
    hide Lines, ReadLine, IsFence, Bare;
    var rest := Lines(content[next..]);
    assert lines[k..] == [content[off..next]] + rest;
    Tail(lines, k, content[off..next], rest);
    Cut(content, start, off, next);
    FlattenSnoc(lines[1..k], lines[k]);
  }

  lemma Tail(lines: seq<Bytes>, k: nat, line: Bytes, rest: seq<Bytes>)
    requires 1 <= k <= |lines| && lines[k..] == [line] + rest
    ensures k < |lines| && lines[k] == line && lines[k + 1..] == rest && lines[1..k + 1] == lines[1..k] + [lines[k]]
  {
    assert lines[k] == lines[k..][0] && lines[k + 1..] == lines[k..][1..];
  }

  lemma ScanEnds(content: Bytes, lines: seq<Bytes>, k: nat)
    requires 1 <= k <= |lines| && lines[k..] == Lines(content[|content|..])
    ensures FirstFence(lines, k) == |lines|
  { }

  /** Cutting into lines loses nothing. */
  lemma {:induction false} LinesJoin(b: Bytes)
    ensures Flatten(Lines(b)) == b
    decreases |b|
  {
    hide Lines, Flatten, ReadLine;
    if b == [] {
      NothingLeft();
    } else {
      var next := ReadLine(b, 0).1;
      FirstLine(b);
      LinesJoin(b[next..]);
      FlattenCons(b[..next], Lines(b[next..]));
    }
  }

  lemma {:induction false} LinesAreLines(b: Bytes)
    ensures forall i :: 0 <= i < |Lines(b)| ==> OneLine(Lines(b)[i])
    ensures forall i :: 0 <= i < |Lines(b)| - 1 ==> Ended(Lines(b)[i])
    ensures Ended(b) && b != [] ==> Lines(b) != [] && Ended(Lines(b)[|Lines(b)| - 1])
    decreases |b|
  {
    if b != [] {
      var n, next := NextLf(b, 0), ReadLine(b, 0).1;
      LinesAreLines(b[next..]);
      assert next < |b| ==> b[next..][|b[next..]| - 1] == b[|b| - 1];
      var line := b[..next];
    }
  }

  lemma LinesOfOne(line: Bytes)
    requires OneLine(line)
    ensures Lines(line) == [line]
  {
    var last := |line| - 1;
    NextLfUnique(line, 0, if line[last] == LF then last else |line|);
    hide Lines, NextLf;
    FirstLine(line);
    NothingLeft();
    assert line[..|line|] == line && line[|line|..] == [];
  }

  lemma {:induction false} LinesConcat(a: Bytes, b: Bytes)
    requires Ended(a)
    ensures Lines(a + b) == Lines(a) + Lines(b)
    decreases |a|
  {
    if a == [] {
      assert a + b == b;
    } else {
      var n, next := NextLf(a, 0), ReadLine(a, 0).1;
      assert a[|a| - 1] == LF;
      NextLfUnique(a + b, 0, n);
      assert (a + b)[..next] == a[..next] && (a + b)[next..] == a[next..] + b;
      assert next < |a| ==> a[next..][|a[next..]| - 1] == LF;
      LinesConcat(a[next..], b);
      hide NextLf, ReadLine;
      Associate([a[..next]], Lines(a[next..]), Lines(b));
    }
  }

  /** A fence is three dashes at column 0 followed by blanks only. */
  lemma {:induction false} FenceShape(line: Bytes)
    ensures IsFence(line) <==>
            && |line| >= 3 && line[0] == line[1] == line[2] == 45
            && forall i :: 3 <= i < |line| ==> line[i] in {9, 13, 32}
  {
    if line != [] && Blank(line[|line| - 1]) {
      var front := line[..|line| - 1];
      FenceShape(front);
      assert line[|line| - 1] != 45;
    } else if |line| > 3 {
      assert !Blank(line[|line| - 1]);
    }
  }

  // ---------- what splitting means ----------

  /** No line of the text is a fence. */
  predicate FenceFree(b: Bytes) {
    forall i :: 0 <= i < |Lines(b)| ==> !FenceLine(Lines(b)[i])
  }

  /** The text is an optional byte-order mark, an opening fence line, fm, a closing fence line
      and body; no line of fm is a fence. */
  predicate Framed(raw: Bytes, mark: Bytes, open: Bytes, fm: Bytes, close: Bytes, body: Bytes) {
    && raw == mark + open + fm + close + body
    && (mark == UTF8_BOM || mark == [])
    && OneLine(open) && FenceLine(open) && Ended(open)
    && Ended(fm) && FenceFree(fm)
    && OneLine(close) && FenceLine(close) && (Ended(close) || body == [])
  }

  lemma FlattenOne(line: Bytes)
    ensures Flatten([line]) == line
  {
    assert Flatten<byte>([line][1..]) == [];
  }

  /** Fences are not marks. */
  lemma FencesAreNotMarks(mark: Bytes, open: Bytes, rest: Bytes)
    requires (mark == UTF8_BOM || mark == []) && FenceLine(open)
    ensures TrimPrefix(mark + open + rest, UTF8_BOM) == open + rest
  {
    FenceShape(Bare(open));
    var raw := mark + open + rest;
    if mark == [] {
      assert raw == open + rest;
      assert Bare(open)[0] == FENCE[0];
      assert raw[0] == 45;
      assert UTF8_BOM[0] == 0xEF;
    } else {
      assert raw[3..] == open + rest;
    }
  }

  lemma FramedLines(open: Bytes, fm: Bytes, close: Bytes, body: Bytes)
    requires OneLine(open) && Ended(open) && Ended(fm) && OneLine(close) && (Ended(close) || body == [])
    ensures Lines(open + (fm + (close + body))) == [open] + (Lines(fm) + ([close] + Lines(body)))
  {
    LinesConcat(open, fm + (close + body));
    LinesConcat(fm, close + body);
    LinesOfOne(open);
    LinesOfOne(close);
    if Ended(close) {
      LinesConcat(close, body);
    } else {
      assert close + body == close && Lines(body) == [];
      assert [close] + Lines(body) == [close];
    }
  }

  /** Whatever is framed by fences is read back exactly, with or without a mark. */
  lemma FramedIsSplit(raw: Bytes, mark: Bytes, open: Bytes, fm: Bytes, close: Bytes, body: Bytes)
    requires Framed(raw, mark, open, fm, close, body)
    ensures SplitByLines(raw) == Split(fm, body)
  {
    hide Lines, FirstFence, Flatten, FenceLine, FenceFree, TrimPrefix;
    var rest := fm + (close + body);
    Associate(mark + open + fm, close, body);
    Associate(mark + open, fm, close + body);
    FencesAreNotMarks(mark, open, rest);
    FramedLines(open, fm, close, body);
    assert forall j :: 0 <= j < |Lines(fm)| ==> !FenceLine(Lines(fm)[j]) by { FreeLines(fm); }
    FenceFound(open, Lines(fm), close, Lines(body));
    LinesJoin(fm);
    LinesJoin(body);
  }

  lemma FreeLines(b: Bytes)
    requires FenceFree(b)
    ensures forall j :: 0 <= j < |Lines(b)| ==> !FenceLine(Lines(b)[j])
  { }

  lemma FenceFound(open: Bytes, inner: seq<Bytes>, close: Bytes, rest: seq<Bytes>)
    requires FenceLine(close) && forall j :: 0 <= j < |inner| ==> !FenceLine(inner[j])
    ensures var lines, k := [open] + (inner + ([close] + rest)), 1 + |inner|;
            FirstFence(lines, 1) == k && lines[0] == open && lines[1..k] == inner && lines[k + 1..] == rest
  {
    hide FenceLine, FirstFence;
    var lines, m := [open] + (inner + ([close] + rest)), 1 + |inner|;
    assert lines[m] == close;
    forall j | 1 <= j < m ensures !FenceLine(lines[j]) {
      assert lines[j] == inner[j - 1];
    }
    assert FirstFence(lines, 1) == m;
  }

  /** A successful split reassembles byte for byte around the earliest closing fence. */
  lemma SplitIsFramed(raw: Bytes) returns (mark: Bytes, open: Bytes, close: Bytes)
    requires SplitByLines(raw).Split?
    ensures Framed(raw, mark, open, SplitByLines(raw).fm, close, SplitByLines(raw).body)
  {
    hide Framed, TrimPrefix, FenceLine, Lines, FirstFence, Flatten;
    var content := TrimPrefix(raw, UTF8_BOM);
    mark := Mark(raw);
    var lines := Lines(content);
    var k := FirstFence(lines, 1);
    open, close := lines[0], lines[k];
    Unframe(content, lines, k);
    Reframe(raw, content, open, Flatten(lines[1..k]), close, Flatten(lines[k + 1..]));
  }

  function Mark(raw: Bytes): Bytes {
    if UTF8_BOM <= raw then UTF8_BOM else []
  }

  lemma MarkIsTrimmed(raw: Bytes)
    ensures raw == Mark(raw) + TrimPrefix(raw, UTF8_BOM)
  { }

  lemma Reframe(raw: Bytes, content: Bytes, open: Bytes, fm: Bytes, close: Bytes, body: Bytes)
    requires content == TrimPrefix(raw, UTF8_BOM) && content == open + (fm + (close + body))
    requires FenceLine(open) && FenceLine(close)
    requires OneLine(open) && Ended(open) && Ended(fm) && FenceFree(fm) && OneLine(close) && (Ended(close) || body == [])
    ensures Framed(raw, Mark(raw), open, fm, close, body)
  {
    var mark := Mark(raw);
    MarkIsTrimmed(raw);
    hide TrimPrefix, FenceLine, OneLine, Ended, FenceFree;
    Associate(mark, open, fm + (close + body));
    Associate(mark + open, fm, close + body);
    Associate(mark + open + fm, close, body);
  }

  lemma Unframe(content: Bytes, lines: seq<Bytes>, k: nat)
    requires lines == Lines(content) && 1 <= k < |lines| && forall j :: 1 <= j < k ==> !FenceLine(lines[j])
    ensures var open, fm, close, body := lines[0], Flatten(lines[1..k]), lines[k], Flatten(lines[k + 1..]);
            && content == open + (fm + (close + body))
            && OneLine(open) && Ended(open) && Ended(fm) && FenceFree(fm) && OneLine(close) && (Ended(close) || body == [])
  {
    hide Lines, FenceLine, Flatten, OneLine, Ended;
    LinesAreLines(content);
    LinesJoin(content);
    Regroup(lines, k);
    LinesOfParts(lines, 1, k);
    NothingLeft();
    assert k + 1 == |lines| ==> lines[k + 1..] == [];
  }

  lemma Regroup(lines: seq<Bytes>, k: nat)
    requires 1 <= k < |lines|
    ensures Flatten(lines) == lines[0] + (Flatten(lines[1..k]) + (lines[k] + Flatten(lines[k + 1..])))
  {
    assert lines[1..] == lines[1..k] + lines[k..];
    FlattenAppend(lines[1..k], lines[k..]);
    assert lines[k..][1..] == lines[k + 1..];
  }

  /** Some lines, all ended but perhaps the last, are the lines of their concatenation. */
  lemma {:induction false} LinesOfParts(lines: seq<Bytes>, i: nat, k: nat)
    requires i <= k <= |lines|
    requires forall j :: 0 <= j < |lines| ==> OneLine(lines[j])
    requires forall j :: 0 <= j < |lines| - 1 ==> Ended(lines[j])
    ensures Lines(Flatten(lines[i..k])) == lines[i..k]
    ensures k < |lines| ==> Ended(Flatten(lines[i..k]))
    decreases k - i
  {
    if i < k {
      LinesOfParts(lines, i + 1, k);
      var line, rest := lines[i], Flatten(lines[i + 1..k]);
      assert lines[i..k] == [line] + lines[i + 1..k];
      FlattenCons(line, lines[i + 1..k]);
      LinesOfOne(line);
      if i + 1 == k {
        NothingLeft();
      } else {
        LinesConcat(line, rest);
      }
      hide Lines, Flatten, OneLine;
      assert i + 1 == k ==> line + rest == line && lines[i..k] == [line];
      assert rest != [] ==> (line + rest)[|line + rest| - 1] == rest[|rest| - 1];
    }
  }

  lemma FlattenCons(line: Bytes, rest: seq<Bytes>)
    ensures Flatten([line] + rest) == line + Flatten(rest)
  {
    FlattenAppend([line], rest);
    FlattenOne(line);
  }

  lemma NothingLeft()
    ensures Flatten<byte>([]) == [] && Lines([]) == []
  { }

  /** Splitting yields (fm, body) exactly when the text frames them. */
  lemma SplitIffFramed(raw: Bytes, fm: Bytes, body: Bytes)
    ensures SplitByLines(raw) == Split(fm, body) <==>
            exists mark, open, close :: Framed(raw, mark, open, fm, close, body)
  {
    if SplitByLines(raw) == Split(fm, body) {
      var mark, open, close := SplitIsFramed(raw);
      assert Framed(raw, mark, open, fm, close, body);
    }
    if mark, open, close :| Framed(raw, mark, open, fm, close, body) {
      FramedIsSplit(raw, mark, open, fm, close, body);
    }
  }

  /** The text is an optional byte-order mark, an opening fence line and a rest. */
  predicate Opened(raw: Bytes, mark: Bytes, open: Bytes, rest: Bytes) {
    && raw == mark + open + rest
    && (mark == UTF8_BOM || mark == [])
    && OneLine(open) && FenceLine(open) && (Ended(open) || rest == [])
  }

  lemma OpenedHasFence(raw: Bytes, mark: Bytes, open: Bytes, rest: Bytes)
    requires Opened(raw, mark, open, rest)
    ensures SplitByLines(raw) != NoFrontmatter
  {
    hide Lines, FenceLine, TrimPrefix, FirstFence, Flatten;
    FencesAreNotMarks(mark, open, rest);
    LinesOfOne(open);
    if Ended(open) {
      LinesConcat(open, rest);
    } else {
      assert open + rest == open;
    }
  }

  lemma FenceOpens(raw: Bytes) returns (open: Bytes, rest: Bytes)
    requires SplitByLines(raw) != NoFrontmatter
    ensures Opened(raw, Mark(raw), open, rest)
  {
    hide FenceLine, FirstFence, TrimPrefix;
    var content := TrimPrefix(raw, UTF8_BOM);
    var lines := Lines(content);
    MarkIsTrimmed(raw);
    LinesAreLines(content);
    LinesJoin(content);
    open, rest := lines[0], Flatten(lines[1..]);
    hide Lines, OneLine;
    FlattenCons(open, lines[1..]);
    assert lines == [open] + lines[1..];
    if |lines| == 1 {
      NothingLeft();
    }
    Associate(Mark(raw), open, rest);
  }

  /** Splitting fails exactly when a fence is missing: the opening one if the text does not
      begin with a fence line, the closing one if it does but frames no frontmatter. */
  lemma FailsIffFenceMissing(raw: Bytes)
    ensures SplitByLines(raw) == NoFrontmatter <==> !exists mark, open, rest :: Opened(raw, mark, open, rest)
    ensures SplitByLines(raw) == Unterminated <==>
            && (exists mark, open, rest :: Opened(raw, mark, open, rest))
            && !exists mark, open, fm, close, body :: Framed(raw, mark, open, fm, close, body)
  {
    hide SplitByLines, Opened, Framed;
    if mark, open, rest :| Opened(raw, mark, open, rest) {
      OpenedHasFence(raw, mark, open, rest);
    }
    if SplitByLines(raw) != NoFrontmatter {
      var open, rest := FenceOpens(raw);
    }
    if mark, open, fm, close, body :| Framed(raw, mark, open, fm, close, body) {
      FramedIsSplit(raw, mark, open, fm, close, body);
    }
    if SplitByLines(raw).Split? {
      var mark, open, close := SplitIsFramed(raw);
    }
  }

  /** The plain form: every frontmatter without a fence line, and every body, survive. */
  lemma RoundTrip(fm: Bytes, body: Bytes, marked: bool)
    requires Ended(fm) && FenceFree(fm)
    ensures SplitByLines((if marked then [0xEF, 0xBB, 0xBF] else []) + [45, 45, 45, 10] + fm + [45, 45, 45, 10] + body) == Split(fm, body)
  {
    var mark: Bytes, fence: Bytes := if marked then UTF8_BOM else [], [45, 45, 45, 10];
    PlainFence(fence);
    var raw := mark + fence + fm + fence + body;
    hide FenceLine, OneLine, Ended, FenceFree, SplitByLines;
    FramedIsSplit(raw, mark, fence, fm, fence, body);
  }

  lemma PlainFence(fence: Bytes)
    requires fence == [45, 45, 45, 10]
    ensures OneLine(fence) && FenceLine(fence) && Ended(fence)
  {
    assert Bare(fence) == FENCE;
  }
}
