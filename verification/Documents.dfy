// A file as blocks: each opened by a line of a certain kind and followed by what belongs to it.  The sections of
// `config.yaml` are such blocks, and so are the entries of a list.
module Documents {
  import opened Sequences

  datatype Block = Block(header: string, body: seq<string>)

  /** What comes before the first block, and the blocks. */
  datatype Document = Document(preamble: seq<string>, blocks: seq<Block>)

  function Parsed(opens: string -> bool, lines: seq<string>): Document {
    if lines == [] then Document([], [])
    else
      var rest := Parsed(opens, lines[1..]);
      if opens(lines[0]) then Document([], [Block(lines[0], rest.preamble)] + rest.blocks)
      else Document([lines[0]] + rest.preamble, rest.blocks)
  }

  function BlockLines(b: Block): seq<string> { [b.header] + b.body }

  function Lines(blocks: seq<Block>): seq<string> {
    if blocks == [] then [] else BlockLines(blocks[0]) + Lines(blocks[1..])
  }

  function Written(doc: Document): seq<string> { doc.preamble + Lines(doc.blocks) }

  predicate Inner(opens: string -> bool, lines: seq<string>) { forall i :: 0 <= i < |lines| ==> !opens(lines[i]) }

  predicate Starts(opens: string -> bool, lines: seq<string>) { lines == [] || opens(lines[0]) }

  predicate Proper(opens: string -> bool, blocks: seq<Block>) {
    forall i :: 0 <= i < |blocks| ==> opens(blocks[i].header) && Inner(opens, blocks[i].body)
  }

  lemma {:induction false} ParsedIsProper(opens: string -> bool, lines: seq<string>)
    ensures Inner(opens, Parsed(opens, lines).preamble) && Proper(opens, Parsed(opens, lines).blocks)
    decreases lines
  {
    if lines != [] { ParsedIsProper(opens, lines[1..]); }
  }

  /** Nothing of the file is lost or moved. */
  lemma {:induction false} ParsedIsWritten(opens: string -> bool, lines: seq<string>)
    ensures Written(Parsed(opens, lines)) == lines
    decreases lines
  {
    if lines != [] {
      var blocks, rest := Parsed(opens, lines).blocks, Parsed(opens, lines[1..]);
      ParsedIsWritten(opens, lines[1..]);
      assert lines == [lines[0]] + lines[1..];
      if opens(lines[0]) { assert blocks[1..] == rest.blocks; }
      Associative([lines[0]], rest.preamble, Lines(rest.blocks));
    }
  }

  lemma {:induction false} BodyIsKept(opens: string -> bool, body: seq<string>, more: seq<string>)
    requires Inner(opens, body)
    ensures Parsed(opens, body + more) ==
            Document(body + Parsed(opens, more).preamble, Parsed(opens, more).blocks)
    decreases body
  {
    if body == [] {
      assert body + more == more;
    } else {
      assert (body + more)[1..] == body[1..] + more;
      BodyIsKept(opens, body[1..], more);
    }
  }

  lemma StartsABlock(opens: string -> bool, b: Block, more: seq<string>)
    requires opens(b.header) && Inner(opens, b.body) && Starts(opens, more)
    ensures Parsed(opens, BlockLines(b) + more) == Document([], [b] + Parsed(opens, more).blocks)
  {
    BodyIsKept(opens, b.body, more);
    assert (BlockLines(b) + more)[1..] == b.body + more;
    assert Parsed(opens, more).preamble == [];
    hide Inner, Starts;
    assert b.body + [] == b.body;
  }

  lemma {:induction false} LinesAreParsed(opens: string -> bool, blocks: seq<Block>)
    requires Proper(opens, blocks)
    ensures Parsed(opens, Lines(blocks)) == Document([], blocks) && Starts(opens, Lines(blocks))
    decreases blocks
  {
    if blocks != [] {
      LinesAreParsed(opens, blocks[1..]);
      StartsABlock(opens, blocks[0], Lines(blocks[1..]));
      assert blocks == [blocks[0]] + blocks[1..];
    }
  }

  /** A document survives being written and parsed again. */
  lemma WrittenIsParsed(opens: string -> bool, doc: Document)
    requires Inner(opens, doc.preamble) && Proper(opens, doc.blocks)
    ensures Parsed(opens, Written(doc)) == doc
  {
    LinesAreParsed(opens, doc.blocks);
    BodyIsKept(opens, doc.preamble, Lines(doc.blocks));
    assert doc.preamble + [] == doc.preamble;
  }

  lemma {:induction false} LinesAppend(a: seq<Block>, b: seq<Block>)
    ensures Lines(a + b) == Lines(a) + Lines(b)
    decreases a
  {
    if a == [] {
      assert a + b == b;
    } else {
      assert (a + b)[1..] == a[1..] + b;
      LinesAppend(a[1..], b);
      Associative(BlockLines(a[0]), Lines(a[1..]), Lines(b));
    }
  }

  lemma {:induction false} ParsedAppend(opens: string -> bool, a: seq<string>, b: seq<string>)
    requires Starts(opens, b)
    ensures Parsed(opens, a + b) ==
            Document(Parsed(opens, a).preamble, Parsed(opens, a).blocks + Parsed(opens, b).blocks)
    decreases a
  {
    if a == [] {
      assert a + b == b;
    } else {
      assert (a + b)[1..] == a[1..] + b;
      ParsedAppend(opens, a[1..], b);
    }
  }

  lemma {:induction false} HeadersAreLines(opens: string -> bool, lines: seq<string>, k: nat)
    requires k < |Parsed(opens, lines).blocks|
    ensures Parsed(opens, lines).blocks[k].header in lines && opens(Parsed(opens, lines).blocks[k].header)
    decreases lines
  {
    if opens(lines[0]) {
      if k > 0 { HeadersAreLines(opens, lines[1..], k - 1); }
    } else {
      HeadersAreLines(opens, lines[1..], k);
    }
  }

  // ---------------------------------------------------------------- by index

  /** The lines from `start` up to `end` are one block. */
  predicate IsBlock(opens: string -> bool, lines: seq<string>, start: nat, end: nat) {
    start < end <= |lines| && opens(lines[start]) && Inner(opens, lines[start + 1..end]) && Starts(opens, lines[end..])
  }

  function BlockAt(lines: seq<string>, start: nat, end: nat): Block
    requires start < end <= |lines|
  {
    Block(lines[start], lines[start + 1..end])
  }

  lemma ThreeParts(lines: seq<string>, start: nat, end: nat)
    requires start < end <= |lines|
    ensures lines == lines[..start] + (BlockLines(BlockAt(lines, start, end)) + lines[end..])
  {
  }

  /** The document around the block that the indices bound. */
  lemma BlockByIndex(opens: string -> bool, lines: seq<string>, start: nat, end: nat)
    requires IsBlock(opens, lines, start, end)
    ensures var before, after := Parsed(opens, lines[..start]), Parsed(opens, lines[end..]);
            Parsed(opens, lines) ==
            Document(before.preamble, before.blocks + ([BlockAt(lines, start, end)] + after.blocks))
  {
    var b, more := BlockAt(lines, start, end), lines[end..];
    ThreeParts(lines, start, end);
    StartsABlock(opens, b, more);
    ParsedAppend(opens, lines[..start], BlockLines(b) + more);
  }

  lemma WrittenAround(before: Document, middle: seq<Block>, more: seq<Block>)
    ensures Written(Document(before.preamble, before.blocks + (middle + more))) ==
            Written(before) + Lines(middle) + Lines(more)
  {
    LinesAppend(before.blocks, middle + more);
    LinesAppend(middle, more);
    Associative(before.preamble, Lines(before.blocks), Lines(middle) + Lines(more));
    Associative(Written(before), Lines(middle), Lines(more));
  }

  lemma OneBlock(b: Block)
    ensures Lines([b]) == BlockLines(b)
  {
    assert [b][1..] == [];
  }

  lemma UpdatedAround(a: seq<Block>, x: Block, b: Block, more: seq<Block>)
    ensures (a + ([x] + more))[|a|] == x && (a + ([x] + more))[|a| := b] == a + ([b] + more)
    ensures (a + ([x] + more))[..|a|] == a && (a + ([x] + more))[|a| + 1..] == more
  {
  }

  /** Where the block that the indices bound stands among the blocks. */
  function Rank(opens: string -> bool, lines: seq<string>, start: nat): nat
    requires start <= |lines|
  {
    |Parsed(opens, lines[..start]).blocks|
  }

  lemma WrittenBefore(opens: string -> bool, lines: seq<string>, start: nat, end: nat)
    requires start < end <= |lines| && Starts(opens, lines[end..])
    ensures Written(Parsed(opens, lines[..start])) == lines[..start]
    ensures Lines(Parsed(opens, lines[end..]).blocks) == lines[end..]
  {
    ParsedIsWritten(opens, lines[..start]);
    ParsedIsWritten(opens, lines[end..]);
    assert Parsed(opens, lines[end..]).preamble == [];
  }

  /** Writing another body for the block writes it in place of the lines it had. */
  lemma BodyInPlace(opens: string -> bool, lines: seq<string>, start: nat, end: nat, body: seq<string>)
    requires IsBlock(opens, lines, start, end)
    ensures var doc, n := Parsed(opens, lines), Rank(opens, lines, start);
            && n < |doc.blocks|
            && doc.blocks[n] == BlockAt(lines, start, end)
            && Written(doc.(blocks := doc.blocks[n := Block(lines[start], body)])) ==
               lines[..start + 1] + body + lines[end..]
  {
    var before, after := Parsed(opens, lines[..start]), Parsed(opens, lines[end..]);
    var x, b := BlockAt(lines, start, end), Block(lines[start], body);
    BlockByIndex(opens, lines, start, end);
    UpdatedAround(before.blocks, x, b, after.blocks);
    WrittenBefore(opens, lines, start, end);
    WrittenAround(before, [b], after.blocks);
    OneBlock(b);
    assert lines[..start] + BlockLines(b) == lines[..start + 1] + body;
  }

  /** Writing the document without the block cuts the lines it had. */
  lemma BlockCut(opens: string -> bool, lines: seq<string>, start: nat, end: nat)
    requires IsBlock(opens, lines, start, end)
    ensures var doc, n := Parsed(opens, lines), Rank(opens, lines, start);
            && n < |doc.blocks|
            && doc.blocks[n] == BlockAt(lines, start, end)
            && Written(doc.(blocks := doc.blocks[..n] + doc.blocks[n + 1..])) == lines[..start] + lines[end..]
  {
    var before, after := Parsed(opens, lines[..start]), Parsed(opens, lines[end..]);
    var x := BlockAt(lines, start, end);
    BlockByIndex(opens, lines, start, end);
    UpdatedAround(before.blocks, x, x, after.blocks);
    WrittenBefore(opens, lines, start, end);
    WrittenAround(before, [], after.blocks);
    assert [] + after.blocks == after.blocks;
    assert lines[..start] + [] == lines[..start];
  }

  lemma RankAfter(opens: string -> bool, lines: seq<string>, start: nat, end: nat)
    requires IsBlock(opens, lines, start, end)
    ensures Rank(opens, lines, end) == Rank(opens, lines, start) + 1
  {
    var b := BlockAt(lines, start, end);
    StartsABlock(opens, b, []);
    assert BlockLines(b) + [] == BlockLines(b);
    assert lines[..end] == lines[..start] + BlockLines(b);
    ParsedAppend(opens, lines[..start], BlockLines(b));
  }

  lemma NoRankYet(opens: string -> bool, lines: seq<string>, start: nat)
    requires start <= |lines| && Inner(opens, lines[..start])
    ensures Rank(opens, lines, start) == 0
  {
    BodyIsKept(opens, lines[..start], []);
    assert lines[..start] + [] == lines[..start];
  }

  /** What stands before and after the block that the indices bound. */
  lemma AroundBlock(opens: string -> bool, lines: seq<string>, start: nat, end: nat)
    requires IsBlock(opens, lines, start, end)
    ensures var doc, n := Parsed(opens, lines), Rank(opens, lines, start);
            && n < |doc.blocks|
            && doc.blocks[n] == BlockAt(lines, start, end)
            && Written(Document(doc.preamble, doc.blocks[..n])) == lines[..start]
            && Lines(doc.blocks[n + 1..]) == lines[end..]
  {
    var before, after := Parsed(opens, lines[..start]), Parsed(opens, lines[end..]);
    var x := BlockAt(lines, start, end);
    BlockByIndex(opens, lines, start, end);
    UpdatedAround(before.blocks, x, x, after.blocks);
    WrittenBefore(opens, lines, start, end);
  }
}
