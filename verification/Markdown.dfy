/** A reader of fenced code blocks, after section 4.5 of the CommonMark specification. Text is
    bytes of UTF-8, in which the characters that matter here are always one byte. */
module Markdown {
  import opened Prelude
  import opened Hex

  type Bytes = seq<byte>

  const TAB: byte := 9
  const LF: byte := 10
  const CR: byte := 13
  const SPACE: byte := 32
  const TICK: byte := 96
  const TILDE: byte := 126

  /** Length of the first line, with its line ending: LF, CR, or CR and LF. */
  function LineLength(b: Bytes): (n: nat)
    ensures n <= |b| && (b != [] ==> n > 0)
  {
    if b == [] then 0
    else if b[0] == LF then 1
    else if b[0] == CR then (if |b| > 1 && b[1] == LF then 2 else 1)
    else 1 + LineLength(b[1..])
  }

  function WithoutEnding(line: Bytes): Bytes {
    var n := |line|;
    if n >= 2 && line[n - 2] == CR && line[n - 1] == LF then line[..n - 2]
    else if n >= 1 && line[n - 1] in {CR, LF} then line[..n - 1]
    else line
  }

  function Leading(b: Bytes, x: byte): (n: nat)
    ensures n <= |b| && (n < |b| ==> b[n] != x) && forall i :: 0 <= i < n ==> b[i] == x
  {
    if b == [] || b[0] != x then 0 else 1 + Leading(b[1..], x)
  }

  datatype OpenFence = OpenFence(indent: nat, mark: byte, length: nat, info: Bytes)

  /** An opening fence: up to three spaces, three or more backticks or tildes, and an info
      string, without backticks if the fence is made of them. */
  function Opening(line: Bytes): Option<OpenFence> {
    var indent := Leading(line, SPACE);
    var rest := line[indent..];
    if indent > 3 || rest == [] || rest[0] !in {TICK, TILDE} then None
    else
      var n := Leading(rest, rest[0]);
      if n < 3 || (rest[0] == TICK && TICK in rest[n..]) then None
      else Some(OpenFence(indent, rest[0], n, WithoutEnding(rest[n..])))
  }

  /** A closing fence: up to three spaces, at least as many of the same mark, then blanks only. */
  predicate Closes(line: Bytes, f: OpenFence) {
    var indent := Leading(line, SPACE);
    var run := Leading(line[indent..], f.mark);
    indent <= 3 && run >= f.length && forall i :: indent + run <= i < |line| ==> line[i] in {SPACE, TAB, CR, LF}
  }

  /** A content line loses as much indentation as the opening fence has. */
  function Unindent(line: Bytes, indent: nat): Bytes {
    var n := Leading(line, SPACE);
    line[if n < indent then n else indent..]
  }

  /** The lines up to the closing fence or the end of the document, and what follows. */
  function ReadContent(b: Bytes, f: OpenFence): (r: (Bytes, Bytes))
    ensures |r.1| <= |b|
    decreases |b|
  {
    if b == [] then ([], [])
    else
      var line, after := b[..LineLength(b)], b[LineLength(b)..];
      if Closes(line, f) then ([], after)
      else
        var r := ReadContent(after, f);
        (Unindent(line, f.indent) + r.0, r.1)
  }

  datatype Block = Block(info: Bytes, content: Bytes, rest: Bytes)

  /** The block that begins where the document does, if one does. */
  function ReadBlock(doc: Bytes): (r: Option<Block>)
    ensures r.Some? ==> |r.value.rest| < |doc|
  {
    var line := doc[..LineLength(doc)];
    match Opening(line)
    case None => None
    case Some(f) =>
      var r := ReadContent(doc[|line|..], f);
      Some(Block(f.info, r.0, r.1))
  }

  /** A block, and where in the document it begins. */
  datatype Found = Found(at: nat, info: Bytes, content: Bytes)

  /** All blocks of a document that begins at `at`, in order: where no block begins, the
      reader goes on to the next line. */
  function Scan(doc: Bytes, at: nat): seq<Found>
    decreases |doc|
  {
    if doc == [] then []
    else
      match ReadBlock(doc)
      case Some(b) => [Found(at, b.info, b.content)] + Scan(b.rest, at + |doc| - |b.rest|)
      case None => Scan(doc[LineLength(doc)..], at + LineLength(doc))
  }

  // ---------- text without blocks ----------

  /** Nothing, or text that ends at the end of a line. */
  predicate Whole(text: Bytes) { text == [] || text[|text| - 1] == LF }

  /** No line of the text opens a block. */
  predicate Quiet(text: Bytes)
    decreases |text|
  {
    text == [] || (Opening(text[..LineLength(text)]).None? && Quiet(text[LineLength(text)..]))
  }

  predicate Unbroken(text: Bytes) { forall i :: 0 <= i < |text| ==> text[i] !in {LF, CR} }

  lemma {:induction false} LineOfUnbroken(text: Bytes, after: Bytes)
    requires Unbroken(text)
    ensures LineLength(text + [LF] + after) == |text| + 1
    ensures (text + [LF] + after)[..|text| + 1] == text + [LF]
  {
    if text != [] {
      LineOfUnbroken(text[1..], after);
      assert (text + [LF] + after)[1..] == text[1..] + [LF] + after;
    }
  }

  lemma {:induction false} LineStays(text: Bytes, after: Bytes)
    requires text != [] && Whole(text)
    ensures LineLength(text + after) == LineLength(text)
  {
    if text[0] != LF && text[0] != CR {
      LineStays(text[1..], after);
      assert (text + after)[1..] == text[1..] + after;
    }
  }

  lemma FirstLineStays(text: Bytes, after: Bytes)
    requires text != [] && Whole(text)
    ensures var n := LineLength(text);
            && LineLength(text + after) == n
            && (text + after)[..n] == text[..n] && (text + after)[n..] == text[n..] + after && Whole(text[n..])
  {
    LineStays(text, after);
    var n := LineLength(text);
    assert n < |text| ==> text[n..][|text| - n - 1] == LF;
  }

  lemma {:induction false} QuietAppend(a: Bytes, b: Bytes)
    requires Whole(a) && Quiet(a) && Quiet(b)
    ensures Quiet(a + b)
    decreases |a|
  {
    if a == [] {
      assert a + b == b;
    } else {
      FirstLineStays(a, b);
      hide LineLength, Opening;
      QuietAppend(a[LineLength(a)..], b);
    }
  }

  lemma QuietLine(text: Bytes)
    requires Unbroken(text) && (text == [] || text[0] !in {SPACE, TICK, TILDE})
    ensures Quiet(text + [LF])
  {
    var line := text + [LF];
    assert text + [LF] + [] == line;
    LineOfUnbroken(text, []);
    assert line[..|line|] == line && line[|line|..] == [];
    assert line[0] != SPACE;
    assert Leading(line, SPACE) == 0 && line[0..] == line;
  }

  lemma ScanLine(doc: Bytes, at: nat)
    requires doc != [] && Opening(doc[..LineLength(doc)]).None?
    ensures Scan(doc, at) == Scan(doc[LineLength(doc)..], at + LineLength(doc))
  {
    assert ReadBlock(doc).None?;
    hide Opening, LineLength, ReadBlock;
  }

  lemma ScanBlock(doc: Bytes, at: nat, b: Block)
    requires ReadBlock(doc) == Some(b)
    ensures Scan(doc, at) == [Found(at, b.info, b.content)] + Scan(b.rest, at + |doc| - |b.rest|)
  {
    hide ReadBlock;
  }

  lemma OpeningBlocks(doc: Bytes)
    requires Opening(doc[..LineLength(doc)]).Some?
    ensures ReadBlock(doc).Some?
  {
    hide Opening, LineLength;
  }

  /** Scanning passes over quiet lines. */
  lemma {:induction false} ScanPasses(text: Bytes, rest: Bytes, at: nat)
    requires Whole(text) && Quiet(text)
    ensures Scan(text + rest, at) == Scan(rest, at + |text|)
    decreases |text|
  {
    hide Scan, Opening, LineLength;
    if text == [] {
      assert text + rest == rest;
    } else {
      FirstLineStays(text, rest);
      ScanLine(text + rest, at);
      ScanPasses(text[LineLength(text)..], rest, at + LineLength(text));
    }
  }

  /** Scanning meets the first line that is not quiet. */
  lemma {:induction false} ScanStops(text: Bytes, rest: Bytes, at: nat)
    requires Whole(text) && !Quiet(text)
    ensures Scan(text + rest, at) != [] && Scan(text + rest, at)[0].at < at + |text|
    decreases |text|
  {
    hide Scan, Opening, LineLength, ReadBlock;
    FirstLineStays(text, rest);
    if Opening(text[..LineLength(text)]).None? {
      ScanLine(text + rest, at);
      ScanStops(text[LineLength(text)..], rest, at + LineLength(text));
    } else {
      OpeningBlocks(text + rest);
      ScanBlock(text + rest, at, ReadBlock(text + rest).value);
    }
  }
}
