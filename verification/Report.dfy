/** Fenced blocks of a fault report, and the summary of a tool result put into them
    (internal/app/report/report.go and summarize.go). */
module Report {
  import opened Prelude
  import opened Hex
  import opened Markdown

  const MAX_RESULT_LINES := 40
  const MAX_RESULT_BYTES := 4096

  function Ascii(s: string): Bytes {
    seq(|s|, i requires 0 <= i < |s| => s[i] as int % 256)
  }

  // ---------- the fence ----------

  function Ticks(n: nat): Bytes { seq(n, _ => TICK) }

  /** n backticks in a row, starting at i. */
  predicate RunAt(s: Bytes, i: nat, n: nat) {
    i + n <= |s| && forall j :: i <= j < i + n ==> s[j] == TICK
  }

  ghost predicate HasRun(s: Bytes, n: nat) { exists i :: RunAt(s, i, n) }

  /** How many backticks s ends with. */
  function Trailing(s: Bytes): (n: nat)
    ensures n <= |s|
  {
    if s == [] || s[|s| - 1] != TICK then 0 else Trailing(s[..|s| - 1]) + 1
  }

  function LongestRun(s: Bytes): nat {
    if s == [] then 0 else Max(LongestRun(s[..|s| - 1]), Trailing(s))
  }

  function Max(a: nat, b: nat): nat { if a < b then b else a }

  function FenceFor(s: Bytes): Bytes { Ticks(Max(LongestRun(s) + 1, 3)) }

  method Fence(s: Bytes) returns (f: Bytes)
    ensures f == FenceFor(s)
  {
    var longest, cur := 0, 0;
    for i := 0 to |s|
      invariant cur == Trailing(s[..i]) && longest == LongestRun(s[..i])
    {
      assert s[..i + 1][..i] == s[..i];
      if s[i] == TICK {
        cur := cur + 1;
        if cur > longest {
          longest := cur;
        }
      } else {
        cur := 0;
      }
    }
    assert s[..|s|] == s;
    var n := longest + 1;
    if n < 3 {
      n := 3;
    }
    f := seq(n, _ => TICK);
  }

  lemma {:induction false} TrailingIsRun(s: Bytes)
    ensures RunAt(s, |s| - Trailing(s), Trailing(s))
    ensures Trailing(s) < |s| ==> s[|s| - 1 - Trailing(s)] != TICK
  {
    if s != [] && s[|s| - 1] == TICK {
      TrailingIsRun(s[..|s| - 1]);
    }
  }

  /** LongestRun is the length of the longest run. */
  lemma {:induction false} LongestRunIsLongest(s: Bytes)
    ensures HasRun(s, LongestRun(s))
    ensures forall n :: n > LongestRun(s) ==> !HasRun(s, n)
  {
    if s == [] {
      assert RunAt(s, 0, 0);
    } else {
      var front := s[..|s| - 1];
      LongestRunIsLongest(front);
      TrailingIsRun(s);
      if LongestRun(s) == Trailing(s) {
        assert RunAt(s, |s| - Trailing(s), Trailing(s));
      } else {
        var i :| RunAt(front, i, LongestRun(front));
        assert RunAt(s, i, LongestRun(front));
      }
      forall n, i | n > LongestRun(s) ensures !RunAt(s, i, n) {
        if RunAt(s, i, n) {
          RunEnds(s, i, n);
        }
      }
    }
  }

  /** A run of s lies before its last byte or is part of what s ends with. */
  lemma RunEnds(s: Bytes, i: nat, n: nat)
    requires s != [] && RunAt(s, i, n)
    ensures HasRun(s[..|s| - 1], n) || n <= Trailing(s)
  {
    TrailingIsRun(s);
    if i + n < |s| {
      assert RunAt(s[..|s| - 1], i, n);
    }
  }

  /** The fence is at least three backticks, occurs nowhere in the text, and is no longer
      than that needs. */
  lemma FenceIsLeast(s: Bytes)
    ensures var n := |FenceFor(s)|;
            n >= 3 && FenceFor(s) == Ticks(n) && !HasRun(s, n) && (n > 3 ==> HasRun(s, n - 1))
  {
    LongestRunIsLongest(s);
  }

  // ---------- what is wrapped is read back ----------

  /** A text in its fence, as the report writes it. */
  function Fenced(info: Bytes, s: Bytes): Bytes {
    FenceFor(s) + info + [LF] + s + [LF] + FenceFor(s) + [LF]
  }

  predicate PlainInfo(info: Bytes) { Unbroken(info) && TICK !in info }

  /** The first line of a text followed by a newline ends within them. */
  lemma {:induction false} LineLengthInside(s: Bytes, after: Bytes)
    ensures var n := LineLength(s + [LF] + after);
            0 < n <= |s| + 1 && (n == |s| ==> s[|s| - 1] != CR)
  {
    if s != [] {
      assert (s + [LF] + after)[1..] == s[1..] + [LF] + after;
      LineLengthInside(s[1..], after);
    }
  }

  /** The fence the report opens with: at column 0. */
  function Opened(n: nat, info: Bytes): OpenFence { OpenFence(0, TICK, n, info) }

  lemma OpeningReads(n: nat, info: Bytes)
    requires n >= 3 && PlainInfo(info)
    ensures Opening(Ticks(n) + info + [LF]) == Some(Opened(n, info))
  {
    var line := Ticks(n) + info + [LF];
    assert line[n..] == info + [LF];
    assert Leading(line, SPACE) == 0 by { assert line[0] == TICK; }
    assert line[0..] == line;
    assert Leading(line, TICK) == n by {
      assert forall i :: 0 <= i < n ==> line[i] == TICK;
      assert line[n] == (info + [LF])[0];
    }
    assert (info + [LF])[..|info|] == info;
  }

  /** Backticks that lead a line of a text are a run of the text. */
  lemma RunOfLine(s: Bytes, k: nat, n: nat)
    requires k <= |s| + 1 && n >= 1
    requires var line := (s + [LF])[..k]; Leading(line[Leading(line, SPACE)..], TICK) >= n
    ensures HasRun(s, n)
  {
    var line := (s + [LF])[..k];
    var indent := Leading(line, SPACE);
    var rest := line[indent..];
    assert rest[n - 1] == TICK && rest[n - 1] == line[indent + n - 1];
    assert indent + n - 1 < |s|;
    forall j | indent <= j < indent + n ensures s[j] == TICK {
      assert rest[j - indent] == TICK && rest[j - indent] == line[j] == s[j];
    }
    assert RunAt(s, indent, n);
  }

  /** A line cut from a text without a run of n backticks does not close. */
  lemma LinesStayOpen(s: Bytes, k: nat, f: OpenFence)
    requires k <= |s| + 1 && f.length >= 1 && f.mark == TICK && !HasRun(s, f.length)
    ensures !Closes((s + [LF])[..k], f)
  {
    var line := (s + [LF])[..k];
    if Closes(line, f) {
      RunOfLine(s, k, f.length);
    }
  }

  lemma FenceCloses(f: OpenFence)
    requires f.mark == TICK && f.length >= 1
    ensures Closes(Ticks(f.length) + [LF], f)
  {
    var m := f.length;
    var line := Ticks(m) + [LF];
    assert Leading(line, SPACE) == 0;
    assert line[0..] == line;
    assert line[m] == LF && forall i :: 0 <= i < m ==> line[i] == TICK;
    assert Leading(line, TICK) == m;
  }

  lemma TicksUnbroken(n: nat)
    ensures Unbroken(Ticks(n))
  { }

  /** Reading stops at the written fence, not before. */
  lemma {:induction false} ContentReadsBack(s: Bytes, f: OpenFence, rest: Bytes)
    requires f.length >= 1 && f.mark == TICK && f.indent == 0 && !HasRun(s, f.length)
    ensures ReadContent(s + [LF] + (Ticks(f.length) + [LF] + rest), f) == (s + [LF], rest)
    decreases |s|
  {
    var tail := Ticks(f.length) + [LF] + rest;
    var b := s + [LF] + tail;
    var k := LineLength(b);
    LineLengthInside(s, tail);
    LinesStayOpen(s, k, f);
    EndReads(f, rest);
    hide LineLength, Closes, HasRun, Ticks;
    FirstPart(s, tail, k);
    ContentLine(b, f);
    hide ReadContent;
    if k <= |s| {
      NoRunInside(s, k, f.length);
      ContentReadsBack(s[k..], f, rest);
    }
  }

  lemma ContentLine(b: Bytes, f: OpenFence)
    requires b != [] && f.indent == 0 && !Closes(b[..LineLength(b)], f)
    ensures var k := LineLength(b);
            ReadContent(b, f) == (b[..k] + ReadContent(b[k..], f).0, ReadContent(b[k..], f).1)
  {
    var line := b[..LineLength(b)];
    assert Unindent(line, 0) == line;
    hide Closes, LineLength, Unindent;
  }

  lemma FirstPart(s: Bytes, tail: Bytes, k: nat)
    requires k <= |s| + 1
    ensures var b := s + [LF] + tail;
            && b[..k] == (s + [LF])[..k]
            && (k <= |s| ==> b[k..] == s[k..] + [LF] + tail && b[..k] + (s[k..] + [LF]) == s + [LF])
            && (k == |s| + 1 ==> b[k..] == tail && b[..k] + [] == s + [LF])
  { }

  lemma EndReads(f: OpenFence, rest: Bytes)
    requires f.length >= 1 && f.mark == TICK
    ensures ReadContent(Ticks(f.length) + [LF] + rest, f) == ([], rest)
  {
    var n := f.length;
    var tail := Ticks(n) + [LF] + rest;
    TicksUnbroken(n);
    LineOfUnbroken(Ticks(n), rest);
    FenceCloses(f);
    hide Closes, LineLength, Unindent;
    assert tail[n + 1..] == rest;
  }

  lemma NoRunInside(s: Bytes, k: nat, n: nat)
    requires k <= |s| && !HasRun(s, n)
    ensures !HasRun(s[k..], n)
  {
    forall i ensures !RunAt(s[k..], i, n) {
      if RunAt(s[k..], i, n) {
        assert forall j :: k + i <= j < k + i + n ==> s[j] == s[k..][j - k];
        assert RunAt(s, k + i, n);
      }
    }
  }

  /** Whatever text is fenced, a reader gets back its info string, exactly its lines, and
      exactly what follows the block: no text ends its own block or opens a later one. */
  lemma BlockReadsBack(info: Bytes, s: Bytes, rest: Bytes)
    requires PlainInfo(info)
    ensures ReadBlock(Fenced(info, s) + rest) == Some(Block(info, s + [LF], rest))
  {
    var f := FenceFor(s);
    var n := |f|;
    FenceIsLeast(s);
    var inside := s + [LF] + (f + [LF] + rest);
    FencedParts(f, info, s, rest);
    TicksUnbroken(n);
    LineOfUnbroken(f + info, inside);
    OpeningReads(n, info);
    ContentReadsBack(s, Opened(n, info), rest);
    hide FenceFor, ReadContent, LineLength, Ticks, HasRun, Opening;
    assert (Fenced(info, s) + rest)[..n + |info| + 1] == f + info + [LF];
  }

  lemma FencedParts(f: Bytes, info: Bytes, s: Bytes, rest: Bytes)
    ensures var doc, inside := f + info + [LF] + s + [LF] + f + [LF] + rest, s + [LF] + (f + [LF] + rest);
            && doc == f + info + [LF] + inside
            && doc[|f| + |info| + 1..] == inside
  { }

  /** Without its final line ending what a reader gets is the text, unless the text ends in CR. */
  lemma TextReadsBackIff(info: Bytes, s: Bytes, rest: Bytes)
    requires PlainInfo(info)
    ensures ReadBlock(Fenced(info, s) + rest).Some?
    ensures var text := WithoutEnding(ReadBlock(Fenced(info, s) + rest).value.content);
            if s != [] && s[|s| - 1] == CR then text == s[..|s| - 1] else text == s
  {
    BlockReadsBack(info, s, rest);
    hide ReadBlock, Fenced;
    var line := s + [LF];
    assert line[..|s|] == s;
    assert |s| > 0 ==> line[..|s| - 1] == s[..|s| - 1];
  }

  // ---------- summaries ----------

  /** Cutting at newlines, as strings.Split does: never empty. */
  function SplitLines(s: Bytes): (lines: seq<Bytes>)
    ensures lines != []
  {
    if s == [] then [[]]
    else if s[0] == LF then [[]] + SplitLines(s[1..])
    else
      var rest := SplitLines(s[1..]);
      [[s[0]] + rest[0]] + rest[1..]
  }

  function Join(lines: seq<Bytes>): Bytes {
    if lines == [] then []
    else if |lines| == 1 then lines[0]
    else Join(lines[..|lines| - 1]) + [LF] + lines[|lines| - 1]
  }

  /** How many leading lines fit, found from the longest down. */
  function Fitting(lines: seq<Bytes>, max: nat): (k: nat)
    ensures k <= |lines| && |Join(lines[..k])| <= max
    ensures k < |lines| ==> |Join(lines[..k + 1])| > max
    decreases |lines|
  {
    assert lines[..|lines|] == lines;
    if |Join(lines)| <= max then |lines|
    else
      var k := Fitting(lines[..|lines| - 1], max);
      assert lines[..|lines| - 1][..k] == lines[..k];
      assert k + 1 < |lines| ==> lines[..|lines| - 1][..k + 1] == lines[..k + 1];
      k
  }

  method LineFitInBytes(lines: seq<Bytes>, max: nat) returns (k: nat)
    ensures k == Fitting(lines, max)
  {
    var used := 0;
    for i := 0 to |lines|
      invariant used == |Join(lines[..i])| <= max
    {
      var add := |lines[i]|;
      if i > 0 {
        add := add + 1;
      }
      assert lines[..i + 1][..i] == lines[..i];
      assert |Join(lines[..i + 1])| == used + add;
      if used + add > max {
        FittingIsLargest(lines, max, i);
        return i;
      }
      used := used + add;
    }
    assert lines[..|lines|] == lines;
    k := |lines|;
  }

  lemma {:induction false} JoinGrows(lines: seq<Bytes>, i: nat, j: nat)
    requires i <= j <= |lines|
    ensures |Join(lines[..i])| <= |Join(lines[..j])|
    decreases j
  {
    if i < j {
      JoinGrows(lines, i, j - 1);
      assert lines[..j][..j - 1] == lines[..j - 1];
    }
  }

  /** Fitting is the only place where the joined lines stop fitting. */
  lemma FittingIsLargest(lines: seq<Bytes>, max: nat, k: nat)
    requires k <= |lines| && |Join(lines[..k])| <= max && (k < |lines| ==> |Join(lines[..k + 1])| > max)
    ensures k == Fitting(lines, max)
  {
    var m := Fitting(lines, max);
    if k < m { JoinGrows(lines, k + 1, m); }
    if m < k { JoinGrows(lines, m + 1, k); }
  }

  /** A leading byte of an encoded rune (utf8.RuneStart). */
  predicate RuneStart(x: byte) { x < 0x80 || x >= 0xC0 }

  function RuneCut(s: Bytes, cut: nat): (k: nat)
    requires cut < |s|
    ensures k <= cut && (k > 0 ==> RuneStart(s[k]))
    ensures forall j :: k < j <= cut ==> !RuneStart(s[j])
  {
    if cut == 0 || RuneStart(s[cut]) then cut else RuneCut(s, cut - 1)
  }

  function RunePrefix(s: Bytes, max: nat): Bytes {
    if |s| <= max then s else s[..RuneCut(s, max)]
  }

  method CutRunes(s: Bytes, max: nat) returns (head: Bytes)
    ensures head == RunePrefix(s, max)
  {
    if |s| <= max {
      return s;
    }
    var cut := max;
    while cut > 0 && !RuneStart(s[cut])
      invariant 0 <= cut <= max && RuneCut(s, max) == RuneCut(s, cut)
    {
      cut := cut - 1;
    }
    head := s[..cut];
  }

  function Decimal(n: nat): string {
    if n < 10 then ['0' + n as char] else Decimal(n / 10) + ['0' + (n % 10) as char]
  }

  const ELLIPSIS: Bytes := [0xE2, 0x80, 0xA6]

  function DroppedMarker(n: nat): Bytes {
    [LF] + ELLIPSIS + Ascii(" (truncated ") + Ascii(Decimal(n)) + Ascii(" more lines)")
  }

  const CUT_MARKER: Bytes := [LF] + ELLIPSIS + Ascii(" (truncated)")

  function Least(a: nat, b: nat): nat { if a < b then a else b }

  /** How many lines of a result a summary keeps. */
  function Kept(content: Bytes): nat {
    var lines := SplitLines(content);
    Fitting(lines[..Least(|lines|, MAX_RESULT_LINES)], MAX_RESULT_BYTES)
  }

  function Summary(content: Bytes): Bytes {
    var lines := SplitLines(content);
    var k := Kept(content);
    if k == 0 then RunePrefix(lines[0], MAX_RESULT_BYTES) + CUT_MARKER
    else if k == |lines| then content
    else Join(lines[..k]) + DroppedMarker(|lines| - k)
  }

  method Summarize(content: Bytes) returns (out: Bytes)
    ensures out == Summary(content)
  {
    hide Join, SplitLines, RuneCut, RunePrefix, DroppedMarker;
    SplitJoins(content);
    if content == [] {
      SplitEmpty();
      return [];
    }
    var lines := SplitLines(content);
    var total := |lines|;
    var kept := lines;
    if total > MAX_RESULT_LINES {
      kept := lines[..MAX_RESULT_LINES];
    }
    assert kept == lines[..Least(total, MAX_RESULT_LINES)];
    var keptCount := LineFitInBytes(kept, MAX_RESULT_BYTES);
    if keptCount == 0 {
      var head := CutRunes(kept[0], MAX_RESULT_BYTES);
      return head + CUT_MARKER;
    }
    assert kept[..keptCount] == lines[..keptCount];
    out := Join(kept[..keptCount]);
    var dropped := total - keptCount;
    if dropped <= 0 {
      assert lines[..total] == lines;
      return out;
    }
    out := out + DroppedMarker(dropped);
  }

  lemma SplitEmpty()
    ensures SplitLines([]) == [[]] && Kept([]) == 1
  {
    var lines := SplitLines([]);
    assert lines[..1] == lines && Join(lines) == lines[0];
  }

  lemma {:induction false} JoinFront(line: Bytes, lines: seq<Bytes>)
    requires lines != []
    ensures Join([line] + lines) == line + [LF] + Join(lines)
  {
    var all := [line] + lines;
    if |lines| == 1 {
      assert all[..1] == [line];
    } else {
      assert all[..|all| - 1] == [line] + lines[..|lines| - 1];
      JoinFront(line, lines[..|lines| - 1]);
    }
  }

  lemma {:induction false} JoinHead(x: byte, lines: seq<Bytes>)
    requires lines != []
    ensures Join([[x] + lines[0]] + lines[1..]) == [x] + Join(lines)
  {
    var all := [[x] + lines[0]] + lines[1..];
    if |lines| > 1 {
      var front := lines[..|lines| - 1];
      assert all[..|all| - 1] == [[x] + front[0]] + front[1..];
      JoinHead(x, front);
    }
  }

  /** Joining undoes splitting. */
  lemma {:induction false} SplitJoins(s: Bytes)
    ensures Join(SplitLines(s)) == s
    ensures forall i :: 0 <= i < |SplitLines(s)| ==> LF !in SplitLines(s)[i]
  {
    if s != [] {
      SplitJoins(s[1..]);
      if s[0] == LF {
        JoinFront([], SplitLines(s[1..]));
      } else {
        JoinHead(s[0], SplitLines(s[1..]));
      }
    }
  }

  /** Some leading lines are a prefix of the text, and the text goes on with a newline. */
  lemma {:induction false} JoinPrefix(lines: seq<Bytes>, k: nat)
    requires 0 < k <= |lines|
    ensures Join(lines[..k]) <= Join(lines)
    ensures k < |lines| ==> |Join(lines[..k])| < |Join(lines)| && Join(lines)[|Join(lines[..k])|] == LF
  {
    if k == |lines| {
      assert lines[..k] == lines;
    } else {
      var front := lines[..|lines| - 1];
      JoinPrefix(front, k);
      assert front[..k] == lines[..k];
    }
  }

  /** A summary keeps the text exactly when it is within both limits; otherwise it keeps as
      many whole lines as both limits allow, a prefix that stops at a newline, and states how
      many it dropped; only a first line too long for the limit is itself cut. */
  lemma SummaryKeeps(content: Bytes)
    ensures var lines, k := SplitLines(content), Kept(content);
            && (k == |lines| <==> |lines| <= 40 && |content| <= 4096)
            && (k == |lines| ==> Summary(content) == content)
            && (k == 0 <==> |lines[0]| > 4096)
            && (0 < k < |lines| ==>
                  var text := Join(lines[..k]);
                  && Summary(content) == text + DroppedMarker(|lines| - k)
                  && text < content && content[|text|] == LF
                  && k <= 40 && |text| <= 4096
                  && (k == 40 || |Join(lines[..k + 1])| > 4096))
  {
    SplitJoins(content);
    hide SplitLines, DroppedMarker, RunePrefix, Join;
    var lines, k := SplitLines(content), Kept(content);
    KeptLines(lines);
    if k > 0 {
      JoinPrefix(lines, k);
      assert lines[..|lines|] == lines;
    }
  }

  /** What Fitting says about the first forty of some lines. */
  lemma KeptLines(lines: seq<Bytes>)
    requires lines != []
    ensures var k := Fitting(lines[..Least(|lines|, MAX_RESULT_LINES)], MAX_RESULT_BYTES);
            && k <= |lines| && k <= MAX_RESULT_LINES && |Join(lines[..k])| <= MAX_RESULT_BYTES
            && (k < |lines| ==> k == MAX_RESULT_LINES || |Join(lines[..k + 1])| > MAX_RESULT_BYTES)
            && (k == |lines| <==> |lines| <= MAX_RESULT_LINES && |Join(lines)| <= MAX_RESULT_BYTES)
            && (k == 0 <==> |lines[0]| > MAX_RESULT_BYTES)
  {
    var kept := lines[..Least(|lines|, MAX_RESULT_LINES)];
    var k := Fitting(kept, MAX_RESULT_BYTES);
    OneJoined(lines[0]);
    assert lines[..1] == [lines[0]];
    hide Join, Fitting;
    assert kept[..k] == lines[..k] && lines[..|lines|] == lines;
    assert k < |kept| ==> kept[..k + 1] == lines[..k + 1];
    if k < |lines| <= MAX_RESULT_LINES {
      JoinGrows(lines, k + 1, |lines|);
    }
    if k > 0 {
      JoinGrows(lines, 1, k);
    }
  }

  lemma OneJoined(line: Bytes)
    ensures Join([line]) == line && Join([]) == []
  { }

  // runes

  /** One encoded rune: a leading byte and up to three continuation bytes. */
  predicate Rune(r: Bytes) {
    1 <= |r| <= 4 && RuneStart(r[0]) && forall i :: 1 <= i < |r| ==> !RuneStart(r[i])
  }

  predicate Runes(rs: seq<Bytes>) { forall i :: 0 <= i < |rs| ==> Rune(rs[i]) }

  /** A cut of encoded text is its longest prefix of whole runes that fits. */
  lemma {:induction false} CutKeepsRunesWhole(rs: seq<Bytes>, max: nat) returns (k: nat)
    requires Runes(rs)
    ensures k <= |rs| && RunePrefix(Flatten(rs), max) == Flatten(rs[..k]) && |Flatten(rs[..k])| <= max
    ensures k < |rs| ==> |Flatten(rs[..k])| + |rs[k]| > max
  {
    var s := Flatten(rs);
    if |s| <= max {
      k := |rs|;
      assert rs[..k] == rs;
    } else {
      var r, rest := rs[0], rs[1..];
      assert s == r + Flatten(rest);
      if |r| > max {
        k := 0;
        NoRunesBefore(r, Flatten(rest), max);
      } else {
        var j := CutKeepsRunesWhole(rest, max - |r|);
        CutAfter(r, rest, max);
        k := j + 1;
        assert rs[..k][1..] == rest[..j];
      }
    }
  }

  lemma NoRunesBefore(r: Bytes, rest: Bytes, max: nat)
    requires Rune(r) && max < |r|
    ensures RunePrefix(r + rest, max) == []
  {
    var s := r + rest;
    assert forall j :: 0 <= j < |r| ==> s[j] == r[j];
  }

  lemma CutAfter(r: Bytes, rest: seq<Bytes>, max: nat)
    requires Rune(r) && Runes(rest) && |r| <= max < |r| + |Flatten(rest)|
    ensures RunePrefix(r + Flatten(rest), max) == r + RunePrefix(Flatten(rest), max - |r|)
  {
    var t := Flatten(rest);
    var s := r + t;
    var k, m := RuneCut(s, max), RuneCut(t, max - |r|);
    assert forall j :: 0 <= j < |t| ==> s[|r| + j] == t[j];
    assert RuneStart(t[0]) by {
      assert rest[0][0] == t[0];
    }
    assert RuneStart(s[|r| + m]);
    assert k == |r| + m;
  }

  /** A first line too long for a summary keeps the most whole runes that fit. */
  lemma OverlongLineIsCut(content: Bytes, rs: seq<Bytes>) returns (k: nat)
    requires Runes(rs) && SplitLines(content)[0] == Flatten(rs) && |Flatten(rs)| > 4096
    ensures k < |rs| && Summary(content) == Flatten(rs[..k]) + CUT_MARKER
    ensures |Flatten(rs[..k])| <= 4096 < |Flatten(rs[..k])| + |rs[k]|
  {
    SummaryKeeps(content);
    k := CutKeepsRunesWhole(rs, MAX_RESULT_BYTES);
    assert rs[..|rs|] == rs;
    hide SplitLines, Flatten, Kept, RunePrefix;
  }

  // ---------- the process section ----------

  datatype Entry = Entry(name: Bytes, cached: bool, isError: bool, input: Option<Bytes>, result: Bytes)

  const NEWLINES := Ascii("\n\n")
  const TITLE: Bytes := Ascii("\n## ") + [0xE8, 0xAF, 0x8A, 0xE6, 0x96, 0xAD, 0xE8, 0xBF, 0x87, 0xE7, 0xA8, 0x8B] + NEWLINES
  const NO_CALLS: Bytes :=
    [0xEF, 0xBC, 0x88, 0xE6, 0x97, 0xA0, 0xE5, 0xB7, 0xA5, 0xE5, 0x85, 0xB7, 0xE8, 0xB0, 0x83, 0xE7, 0x94, 0xA8, 0xEF, 0xBC, 0x89, LF]
  const PARAMETERS: Bytes := [0xE5, 0x8F, 0x82, 0xE6, 0x95, 0xB0, 0x3A] + NEWLINES
  const RESULTS: Bytes := [0xE7, 0xBB, 0x93, 0xE6, 0x9E, 0x9C, 0x3A] + NEWLINES

  function Heading(i: nat, e: Entry): Bytes {
    Ascii("### ") + Ascii(Decimal(i + 1)) + Ascii(". ") + e.name
    + (if e.cached then Ascii(" (cached)") else []) + (if e.isError then Ascii(" (error)") else []) + NEWLINES
  }

  function InputPart(e: Entry): Bytes {
    if e.input.None? then [] else PARAMETERS + Fenced(Ascii("json"), e.input.value) + [LF]
  }

  function ResultPart(e: Entry): Bytes { RESULTS + Fenced([], Summary(e.result)) + [LF] }

  function Section(i: nat, e: Entry): Bytes { Heading(i, e) + InputPart(e) + ResultPart(e) }

  /** The parts of the entries from number k on. */
  function SectionsFrom(entries: seq<Entry>, k: nat): Bytes
    requires k <= |entries|
    decreases |entries| - k
  {
    if k == |entries| then [] else Section(k, entries[k]) + SectionsFrom(entries, k + 1)
  }

  function Process(entries: seq<Entry>): Bytes {
    TITLE + if entries == [] then NO_CALLS else SectionsFrom(entries, 0)
  }

  method WriteProcess(entries: seq<Entry>) returns (b: Bytes)
    ensures b == Process(entries)
  {
    b := TITLE;
    hide Heading, Summary, Fenced, Ascii, TITLE, PARAMETERS, RESULTS;
    if |entries| == 0 {
      b := b + NO_CALLS;
      return;
    }
    for i := 0 to |entries|
      invariant b + SectionsFrom(entries, i) == Process(entries)
    {
      var te := entries[i];
      ghost var before := b;
      b := b + Heading(i, te);
      if te.input.Some? {
        var block := WriteFenced(Ascii("json"), te.input.value);
        b := b + (PARAMETERS + block + [LF]);
      } else {
        assert b + [] == b;
      }
      assert b == before + Heading(i, te) + InputPart(te);
      var res := Summarize(te.result);
      var block := WriteFenced([], res);
      b := b + (RESULTS + block + [LF]);
      SectionAppended(before, Heading(i, te), InputPart(te), ResultPart(te), SectionsFrom(entries, i + 1));
    }
    assert b + [] == b;
  }

  lemma SectionAppended(done: Bytes, head: Bytes, input: Bytes, result: Bytes, rest: Bytes)
    ensures done + head + input + result + rest == done + (head + input + result + rest)
  { }

  /** A fenced block of the format strings. */
  method WriteFenced(info: Bytes, s: Bytes) returns (block: Bytes)
    ensures block == Fenced(info, s)
  {
    var f := Fence(s);
    block := f + info + [LF] + s + [LF] + f + [LF];
  }

  // ---------- a reader of the section ----------

  /** The blocks of entry k, whose heading begins at `at`. */
  function EntryBlocks(k: nat, e: Entry, at: nat): seq<Found> {
    var body := at + |Heading(k, e)|;
    (if e.input.None? then [] else [Found(body + |PARAMETERS|, Ascii("json"), e.input.value + [LF])])
    + [Found(body + |InputPart(e)| + |RESULTS|, [], Summary(e.result) + [LF])]
  }

  /** The blocks of the entries from number k on, where the writer puts them. */
  function BlocksFrom(entries: seq<Entry>, k: nat, at: nat): seq<Found>
    requires k <= |entries|
    decreases |entries| - k
  {
    if k == |entries| then []
    else EntryBlocks(k, entries[k], at) + BlocksFrom(entries, k + 1, at + |Section(k, entries[k])|)
  }

  predicate QuietHeadings(entries: seq<Entry>, k: nat) {
    forall i :: k <= i < |entries| ==> Quiet(Heading(i, entries[i]))
  }

  lemma JsonIsPlain()
    ensures PlainInfo(Ascii("json")) && PlainInfo([])
  {
    var info := Ascii("json");
    assert |info| == 4 && info[0] == 106 && info[1] == 115 && info[2] == 111 && info[3] == 110;
  }

  lemma NewlinesAre()
    ensures NEWLINES == [LF] + [LF] && Quiet([LF]) && Quiet(NEWLINES) && Whole([LF]) && Whole(NEWLINES)
  {
    assert NEWLINES == [LF] + [LF];
    assert [] + [LF] == [LF];
    QuietLine([]);
    QuietAppend([LF], [LF]);
  }

  /** A line and a blank one. */
  lemma CaptionIsQuiet(text: Bytes)
    requires Unbroken(text) && text != [] && text[0] !in {SPACE, TICK, TILDE}
    ensures Quiet(text + NEWLINES) && Whole(text + NEWLINES)
  {
    NewlinesAre();
    QuietLine(text);
    hide Quiet, Unbroken;
    assert text + NEWLINES == text + [LF] + [LF];
    QuietAppend(text + [LF], [LF]);
  }

  lemma CaptionsAreQuiet()
    ensures Quiet(PARAMETERS) && Whole(PARAMETERS) && Quiet(RESULTS) && Whole(RESULTS)
  {
    CaptionIsQuiet([0xE5, 0x8F, 0x82, 0xE6, 0x95, 0xB0, 0x3A]);
    CaptionIsQuiet([0xE7, 0xBB, 0x93, 0xE6, 0x9E, 0x9C, 0x3A]);
  }

  lemma TitleIsQuiet()
    ensures Quiet(TITLE) && Whole(TITLE) && Quiet(NO_CALLS) && Whole(NO_CALLS)
  {
    hide Quiet;
    NewlinesAre();
    var title := [35, 35, 32] + [0xE8, 0xAF, 0x8A, 0xE6, 0x96, 0xAD, 0xE8, 0xBF, 0x87, 0xE7, 0xA8, 0x8B];
    assert Ascii("\n## ") == [LF, 35, 35, 32];
    assert TITLE == [LF] + (title + NEWLINES);
    CaptionIsQuiet(title);
    QuietAppend([LF], title + NEWLINES);
    var none := NO_CALLS[..|NO_CALLS| - 1];
    QuietLine(none);
    assert NO_CALLS == none + [LF];
  }

  lemma HeadingIsWhole(i: nat, e: Entry)
    ensures Whole(Heading(i, e))
  {
    NewlinesAre();
  }

  /** A fenced block in a scan. */
  lemma ScanFenced(info: Bytes, s: Bytes, rest: Bytes, at: nat)
    requires PlainInfo(info)
    ensures Scan(Fenced(info, s) + rest, at) == [Found(at, info, s + [LF])] + Scan(rest, at + |Fenced(info, s)|)
  {
    hide ReadBlock, Scan, Fenced, PlainInfo;
    BlockReadsBack(info, s, rest);
    ScanBlock(Fenced(info, s) + rest, at, Block(info, s + [LF], rest));
  }

  /** A caption, its block and the blank line after it. */
  lemma ScanCaptioned(caption: Bytes, info: Bytes, s: Bytes, rest: Bytes, at: nat)
    requires Whole(caption) && Quiet(caption) && PlainInfo(info)
    ensures Scan(caption + Fenced(info, s) + [LF] + rest, at) ==
            [Found(at + |caption|, info, s + [LF])] + Scan(rest, at + |caption + Fenced(info, s) + [LF]|)
  {
    NewlinesAre();
    hide Scan, Quiet, Fenced, Whole, PlainInfo;
    var block := Fenced(info, s);
    assert caption + block + [LF] + rest == caption + (block + ([LF] + rest));
    ScanPasses(caption, block + ([LF] + rest), at);
    ScanFenced(info, s, [LF] + rest, at + |caption|);
    ScanPasses([LF], rest, at + |caption| + |block|);
  }

  /** What a scan finds in the parts of one entry after its heading. */
  lemma ScanParts(e: Entry, rest: Bytes, at: nat)
    ensures Scan(InputPart(e) + ResultPart(e) + rest, at) ==
            (if e.input.None? then [] else [Found(at + |PARAMETERS|, Ascii("json"), e.input.value + [LF])])
            + [Found(at + |InputPart(e)| + |RESULTS|, [], Summary(e.result) + [LF])]
            + Scan(rest, at + |InputPart(e)| + |ResultPart(e)|)
  {
    CaptionsAreQuiet();
    JsonIsPlain();
    hide Scan, Quiet, Fenced, Summary, Ascii, PARAMETERS, RESULTS, PlainInfo, Whole;
    var input, result := InputPart(e), ResultPart(e);
    Associate(input, result, rest);
    ScanCaptioned(RESULTS, [], Summary(e.result), rest, at + |input|);
    if e.input.Some? {
      ScanCaptioned(PARAMETERS, Ascii("json"), e.input.value, result + rest, at);
    } else {
      assert [] + (result + rest) == result + rest;
    }
  }

  lemma ScanSection(k: nat, e: Entry, rest: Bytes, at: nat)
    requires Quiet(Heading(k, e))
    ensures Scan(Section(k, e) + rest, at) == EntryBlocks(k, e, at) + Scan(rest, at + |Section(k, e)|)
  {
    HeadingIsWhole(k, e);
    hide Scan, Quiet, Heading, InputPart, ResultPart, Whole, Summary, Ascii, PARAMETERS, RESULTS;
    var head, input, result := Heading(k, e), InputPart(e), ResultPart(e);
    assert Section(k, e) + rest == head + (input + result + rest);
    ScanPasses(head, input + result + rest, at);
    ScanParts(e, rest, at + |head|);
  }

  lemma ScanMisplaces(k: nat, e: Entry, rest: Bytes, others: seq<Found>, at: nat)
    requires !Quiet(Heading(k, e))
    ensures Scan(Section(k, e) + rest, at) != EntryBlocks(k, e, at) + others
  {
    HeadingIsWhole(k, e);
    hide Scan, Quiet, Heading, InputPart, ResultPart, Whole, Summary, Ascii, PARAMETERS, RESULTS;
    var head, input, result := Heading(k, e), InputPart(e), ResultPart(e);
    assert Section(k, e) + rest == head + (input + result + rest);
    ScanStops(head, input + result + rest, at);
    assert (EntryBlocks(k, e, at) + others)[0] == EntryBlocks(k, e, at)[0];
    assert EntryBlocks(k, e, at)[0].at >= at + |head|;
  }

  lemma {:induction false} ScanFromIff(entries: seq<Entry>, k: nat, at: nat)
    requires k <= |entries|
    ensures Scan(SectionsFrom(entries, k), at) == BlocksFrom(entries, k, at) <==> QuietHeadings(entries, k)
    decreases |entries| - k
  {
    hide Quiet, Heading, Section, EntryBlocks, Scan;
    if k == |entries| {
      ScanNothing(at);
    } else {
      var e, rest := entries[k], SectionsFrom(entries, k + 1);
      var after := at + |Section(k, e)|;
      if Quiet(Heading(k, e)) {
        ScanSection(k, e, rest, at);
        ScanFromIff(entries, k + 1, after);
        CancelPrefix(EntryBlocks(k, e, at), Scan(rest, after), BlocksFrom(entries, k + 1, after));
      } else {
        ScanMisplaces(k, e, rest, BlocksFrom(entries, k + 1, after), at);
      }
    }
  }

  lemma ScanNothing(at: nat)
    ensures Scan([], at) == []
  { }

  lemma NoBlocksReadBack(entries: seq<Entry>)
    requires entries == []
    ensures Scan(Process(entries), 0) == BlocksFrom(entries, 0, |TITLE|) && QuietHeadings(entries, 0)
  {
    hide Scan, Quiet, TITLE, Whole, NO_CALLS;
    TitleIsQuiet();
    ScanPasses(TITLE, NO_CALLS, 0);
    assert NO_CALLS + [] == NO_CALLS;
    ScanPasses(NO_CALLS, [], |TITLE|);
    ScanNothing(|TITLE| + |NO_CALLS|);
  }

  /** A reader of the whole section finds exactly the input and the summarised result of every
      entry, in order, where the writer put them and with the text they had, if and only if no
      line of a heading opens a block: no input or result can hide, forge or move a block. */
  lemma SectionReadsBackIff(entries: seq<Entry>)
    ensures Scan(Process(entries), 0) == BlocksFrom(entries, 0, |TITLE|) <==> QuietHeadings(entries, 0)
  {
    hide Scan, Quiet, TITLE, Whole, SectionsFrom, NO_CALLS, Heading, BlocksFrom, QuietHeadings;
    if entries == [] {
      NoBlocksReadBack(entries);
    } else {
      TitleIsQuiet();
      ScanPasses(TITLE, SectionsFrom(entries, 0), 0);
      ScanFromIff(entries, 0, |TITLE|);
    }
  }

  /** A name on one line makes a quiet heading. */
  lemma OneLineNamesAreQuiet(i: nat, e: Entry)
    requires Unbroken(e.name)
    ensures Quiet(Heading(i, e))
  {
    var head := Ascii("### ") + Ascii(Decimal(i + 1)) + Ascii(". ") + e.name
                + (if e.cached then Ascii(" (cached)") else []) + if e.isError then Ascii(" (error)") else [];
    DigitsUnbroken(i + 1);
    TagsUnbroken();
    assert head[0] == Ascii("### ")[0] == 35;
    hide Ascii, Decimal, Quiet, NEWLINES;
    assert Unbroken(head);
    CaptionIsQuiet(head);
  }

  /** So with names on one line the section is always read back. */
  lemma OneLineNamesReadBack(entries: seq<Entry>)
    requires forall e :: e in entries ==> Unbroken(e.name)
    ensures Scan(Process(entries), 0) == BlocksFrom(entries, 0, |TITLE|)
  {
    hide Scan, Quiet, Heading, Process, BlocksFrom, TITLE;
    forall i | 0 <= i < |entries| ensures Quiet(Heading(i, entries[i])) {
      OneLineNamesAreQuiet(i, entries[i]);
    }
    SectionReadsBackIff(entries);
  }

  lemma MarksUnbroken()
    ensures Unbroken(Ascii("### ")) && Unbroken(Ascii(". "))
  { }

  lemma CachedUnbroken()
    ensures Unbroken(Ascii(" (cached)"))
  { }

  lemma ErrorUnbroken()
    ensures Unbroken(Ascii(" (error)"))
  { }

  lemma TagsUnbroken()
    ensures Unbroken(Ascii("### ")) && Unbroken(Ascii(". ")) && Unbroken(Ascii(" (cached)")) && Unbroken(Ascii(" (error)"))
  {
    hide Ascii, Unbroken;
    MarksUnbroken();
    CachedUnbroken();
    ErrorUnbroken();
  }

  lemma {:induction false} DigitsUnbroken(n: nat)
    ensures Unbroken(Ascii(Decimal(n)))
  {
    if n >= 10 {
      DigitsUnbroken(n / 10);
      var front, last := Decimal(n / 10), ['0' + (n % 10) as char];
      assert Ascii(front + last) == Ascii(front) + Ascii(last);
    }
  }

  /** A name that breaks its line can forge a block. */
  lemma BrokenNameForges(result: Bytes)
    ensures var e := Entry([120, LF, TICK, TICK, TICK], false, false, None, result);
            Scan(Process([e]), 0) != BlocksFrom([e], 0, |TITLE|)
  {
    var e := Entry([120, LF, TICK, TICK, TICK], false, false, None, result);
    var first := Ascii("### ") + Ascii(Decimal(1)) + Ascii(". ") + [120];
    var h := Heading(0, e);
    DigitsUnbroken(1);
    TagsUnbroken();
    NewlinesAre();
    HeadingIsWhole(0, e);
    JsonIsPlain();
    OpeningReads(3, []);
    assert Ticks(3) + [] == Ticks(3) == [TICK, TICK, TICK];
    hide Ascii, Decimal, Opening;
    assert h == first + [LF] + (Ticks(3) + [LF] + [LF]);
    LineOfUnbroken(first, Ticks(3) + [LF] + [LF]);
    assert h[|first| + 1..] == Ticks(3) + [LF] + [LF];
    TicksUnbroken(3);
    LineOfUnbroken(Ticks(3), [LF]);
    assert !Quiet(h[|first| + 1..]);
    assert !Quiet(h);
    hide Quiet, Scan, Heading;
    SectionReadsBackIff([e]);
    assert !QuietHeadings([e], 0) by { assert [e][0] == e; }
  }

  // ---------- what headings and markers say ----------

  predicate IsDigit(x: byte) { 48 <= x <= 57 }

  function DigitsOf(b: Bytes): (n: nat)
    ensures n <= |b|
  {
    if b == [] || !IsDigit(b[0]) then 0 else 1 + DigitsOf(b[1..])
  }

  function NumberOf(digits: Bytes): nat
    requires forall i :: 0 <= i < |digits| ==> IsDigit(digits[i])
  {
    if digits == [] then 0
    else
      assert IsDigit(digits[|digits| - 1]);
      NumberOf(digits[..|digits| - 1]) * 10 + (digits[|digits| - 1] as int - 48)
  }

  lemma {:induction false} DigitsAreDigits(b: Bytes)
    ensures forall i :: 0 <= i < DigitsOf(b) ==> IsDigit(b[i])
  {
    if b != [] && IsDigit(b[0]) {
      DigitsAreDigits(b[1..]);
      assert forall i :: 0 < i < DigitsOf(b) ==> b[i] == b[1..][i - 1];
    }
  }

  /** The number a text begins with, and the text after it. */
  function ReadNumber(b: Bytes): (nat, Bytes) {
    DigitsAreDigits(b);
    (NumberOf(b[..DigitsOf(b)]), b[DigitsOf(b)..])
  }

  predicate AllDigits(ds: Bytes) { forall i :: 0 <= i < |ds| ==> IsDigit(ds[i]) }

  lemma NumberSnoc(ds: Bytes, x: byte)
    requires AllDigits(ds) && IsDigit(x)
    ensures AllDigits(ds + [x]) && NumberOf(ds + [x]) == NumberOf(ds) * 10 + (x as int - 48)
  {
    assert (ds + [x])[..|ds|] == ds;
  }

  lemma AsciiSnoc(s: string, c: char)
    ensures Ascii(s + [c]) == Ascii(s) + [c as int % 256]
  { }

  lemma {:induction false} DecimalIsNumber(n: nat)
    ensures var ds := Ascii(Decimal(n)); |ds| > 0 && AllDigits(ds) && NumberOf(ds) == n
  {
    hide NumberOf, Ascii;
    var last := '0' + (n % 10) as char;
    assert last as int % 256 == 48 + n % 10;
    if n >= 10 {
      DecimalIsNumber(n / 10);
      AsciiSnoc(Decimal(n / 10), last);
      NumberSnoc(Ascii(Decimal(n / 10)), 48 + n % 10);
    } else {
      AsciiSnoc("", last);
      NothingIsZero();
      NumberSnoc([], 48 + n % 10);
      assert "" + [last] == Decimal(n) && [] + [48 + n % 10 as byte] == [48 + n % 10 as byte];
    }
  }

  lemma NothingIsZero()
    ensures NumberOf([]) == 0 && Ascii("") == []
  { }

  lemma {:induction false} DigitsEnd(ds: Bytes, rest: Bytes)
    requires (forall i :: 0 <= i < |ds| ==> IsDigit(ds[i])) && (rest == [] || !IsDigit(rest[0]))
    ensures DigitsOf(ds + rest) == |ds|
  {
    if ds != [] {
      DigitsEnd(ds[1..], rest);
      assert (ds + rest)[1..] == ds[1..] + rest;
    } else {
      assert ds + rest == rest;
    }
  }

  /** A number written in decimal is read back. */
  lemma NumberReadsBack(n: nat, rest: Bytes)
    requires rest == [] || !IsDigit(rest[0])
    ensures ReadNumber(Ascii(Decimal(n)) + rest) == (n, rest)
  {
    var ds := Ascii(Decimal(n));
    DecimalIsNumber(n);
    DigitsEnd(ds, rest);
    hide Decimal, Ascii, DigitsOf, NumberOf;
    assert (ds + rest)[..|ds|] == ds && (ds + rest)[|ds|..] == rest;
  }

  predicate Ends(text: Bytes, tail: Bytes) { |text| >= |tail| && text[|text| - |tail|..] == tail }

  /** The name and the tags of a heading's title. */
  function ReadTags(title: Bytes): (Bytes, bool, bool) {
    var isError := Ends(title, Ascii(" (error)"));
    var t := if isError then title[..|title| - 8] else title;
    var cached := Ends(t, Ascii(" (cached)"));
    (if cached then t[..|t| - 9] else t, cached, isError)
  }

  function Title(e: Entry): Bytes {
    e.name + (if e.cached then Ascii(" (cached)") else []) + if e.isError then Ascii(" (error)") else []
  }

  /** A heading gives back the number of its entry and its title. */
  lemma HeadingReadsBack(i: nat, e: Entry)
    ensures var h := Heading(i, e);
            && h[..4] == Ascii("### ")
            && ReadNumber(h[4..]) == (i + 1, Ascii(". ") + Title(e) + Ascii("\n\n"))
  {
    var rest := Ascii(". ") + Title(e) + Ascii("\n\n");
    assert rest[0] == Ascii(". ")[0] == 46;
    NumberReadsBack(i + 1, rest);
    TagLengths();
    HeadingIs(i, e, rest);
    hide Ascii, Decimal, ReadNumber, Heading, Title;
    HeadCut(Ascii("### "), Ascii(Decimal(i + 1)) + rest);
  }

  lemma HeadCut(a: Bytes, b: Bytes)
    ensures (a + b)[..|a|] == a && (a + b)[|a|..] == b
  { }

  lemma HeadingIs(i: nat, e: Entry, rest: Bytes)
    requires rest == Ascii(". ") + Title(e) + Ascii("\n\n")
    ensures Heading(i, e) == Ascii("### ") + (Ascii(Decimal(i + 1)) + rest)
  {
    var dot, name := Ascii(". "), e.name;
    var cached, error := if e.cached then Ascii(" (cached)") else [], if e.isError then Ascii(" (error)") else [];
    hide Ascii, Decimal;
    Six(Ascii("### "), Ascii(Decimal(i + 1)), dot, name, cached, error, NEWLINES);
  }

  lemma Six(a: Bytes, b: Bytes, c: Bytes, d: Bytes, e: Bytes, f: Bytes, g: Bytes)
    ensures a + b + c + d + e + f + g == a + (b + (c + (d + e + f) + g))
  { }

  lemma TagLengths()
    ensures |Ascii("### ")| == 4 && |Ascii(" (error)")| == 8 && |Ascii(" (cached)")| == 9
  { }

  lemma CachedIsNoError(name: Bytes)
    ensures !Ends(name + Ascii(" (cached)"), Ascii(" (error)"))
  {
    var a, b := Ascii(" (cached)"), Ascii(" (error)");
    assert |a| == 9 && a[7] == 100 && |b| == 8 && b[6] == 114;
    var t := name + a;
    assert t[|t| - 8..][6] == a[7];
  }

  /** A title gives back name and tags exactly when the name does not itself end like a tag
      that the entry does not have. */
  lemma TagsReadBackIff(e: Entry)
    ensures ReadTags(Title(e)) == (e.name, e.cached, e.isError) <==>
            && (e.isError || e.cached || !Ends(e.name, Ascii(" (error)")))
            && (e.cached || !Ends(e.name, Ascii(" (cached)")))
  {
    TagLengths();
    CachedIsNoError(e.name);
    hide Ascii;
    var cachedTag, errorTag := Ascii(" (cached)"), Ascii(" (error)");
    var t := e.name + if e.cached then cachedTag else [];
    assert e.name + [] == e.name && t + [] == t;
    if e.isError {
      assert (t + errorTag)[|t|..] == errorTag && (t + errorTag)[..|t|] == t;
    }
    if e.cached {
      assert t[|e.name|..] == cachedTag && t[..|e.name|] == e.name;
    }
  }

  /** A marker gives back how many lines were dropped. */
  lemma MarkerReadsBack(n: nat)
    ensures |DroppedMarker(n)| > 16 && ReadNumber(DroppedMarker(n)[16..]) == (n, Ascii(" more lines)"))
  {
    var head, tail := [LF] + ELLIPSIS + Ascii(" (truncated "), Ascii(" more lines)");
    assert |head| == 16 && |tail| == 12 && tail[0] == 32;
    NumberReadsBack(n, tail);
    hide Ascii, Decimal, ReadNumber;
    var digits := Ascii(Decimal(n));
    assert DroppedMarker(n) == head + (digits + tail);
    assert DroppedMarker(n)[16..] == digits + tail;
  }

  lemma CutInside(a: Bytes, b: Bytes, k: nat)
    requires k <= |b|
    ensures (a + b)[..|a|] == a && (a + b)[|a| + k..] == b[k..]
  { }

  /** A shortened summary says how many lines it dropped. */
  lemma SummaryCounts(content: Bytes)
    requires 0 < Kept(content) < |SplitLines(content)|
    ensures var text := Join(SplitLines(content)[..Kept(content)]);
            && |Summary(content)| > |text| + 16 && Summary(content)[..|text|] == text
            && ReadNumber(Summary(content)[|text| + 16..]).0 == |SplitLines(content)| - Kept(content)
  {
    var n := |SplitLines(content)| - Kept(content);
    MarkerReadsBack(n);
    SummaryKeeps(content);
    hide SplitLines, Kept, Join, DroppedMarker, ReadNumber, Ascii, Summary;
    CutInside(Join(SplitLines(content)[..Kept(content)]), DroppedMarker(n), 16);
  }
}
