// Editing `config.yaml` and `.env` by the line: `bridge/config/writer.py`.
//
// A file is its lines.  The original edits them by index; the model proves that this is an edit of one block of the
// document, and states what the edit means for whoever reads the file next.
module ConfigEditor {
  import opened Documents
  import opened Sequences
  import opened Text
  import opened Wrappers

  // ---------------------------------------------------------------- the document

  predicate TopLevel(line: string) { line != "" && !Space(line[0]) && line[0] != '#' }

  /** The line opens `word:`, whatever its indentation. */
  predicate Names(line: string, word: string) { word + ":" <= Trimmed(line) }

  predicate Blank(line: string) { Trimmed(line) == "" }

  predicate Comment(line: string) { Trimmed(line) != "" && Trimmed(line)[0] == '#' }

  // ---------------------------------------------------------------- one value

  /** A section or key name: no colon in it, and nothing that would be trimmed or taken for a comment. */
  predicate Word(w: string) { w != "" && ':' !in w && !Space(w[0]) && w[0] != '#' }

  lemma OneName(line: string, a: string, b: string)
    requires Word(a) && Word(b) && Names(line, a) && Names(line, b)
    ensures a == b
  {
    var t := Trimmed(line);
    assert t[|a|] == (a + ":")[|a|] == ':' && t[|b|] == (b + ":")[|b|] == ':';
    assert a == t[..|a|] && b == t[..|b|];
  }

  /** The first line that opens the word, or the end. */
  function Find(lines: seq<string>, word: string): (i: nat)
    ensures i <= |lines|
    ensures i < |lines| ==> Names(lines[i], word)
    ensures forall k :: 0 <= k < i ==> !Names(lines[k], word)
  {
    if lines == [] || Names(lines[0], word) then 0 else 1 + Find(lines[1..], word)
  }

  /** The first block of that name, or the end. */
  function Section(blocks: seq<Block>, word: string): (i: nat)
    ensures i <= |blocks|
    ensures i < |blocks| ==> Names(blocks[i].header, word)
    ensures forall k :: 0 <= k < i ==> !Names(blocks[k].header, word)
  {
    if blocks == [] || Names(blocks[0].header, word) then 0 else 1 + Section(blocks[1..], word)
  }

  /** How much of a body comes before the blank lines that end it. */
  function Filled(body: seq<string>): (n: nat)
    ensures n <= |body| && (n > 0 ==> !Blank(body[n - 1]))
    ensures forall k :: n <= k < |body| ==> Blank(body[k])
  {
    if body == [] then 0 else if Blank(body[|body| - 1]) then Filled(body[..|body| - 1]) else |body|
  }

  function EntryLine(key: string, value: string): string { "  " + key + ": " + value }

  function Inserted(lines: seq<string>, i: nat, line: string): seq<string>
    requires i <= |lines|
  {
    lines[..i] + [line] + lines[i..]
  }

  function BodyWith(body: seq<string>, key: string, line: string): seq<string> {
    if Find(body, key) < |body| then body[Find(body, key) := line] else Inserted(body, Filled(body), line)
  }

  /** `set_config_value`: `None` where there is no such section. */
  function SetIn(blocks: seq<Block>, section: string, key: string, value: string): Option<seq<Block>> {
    var k := Section(blocks, section);
    if k == |blocks| then None
    else Some(blocks[k := Block(blocks[k].header, BodyWith(blocks[k].body, key, EntryLine(key, value)))])
  }

  /** The same on the lines of the file. */
  function ConfigSet(lines: seq<string>, section: string, key: string, value: string): Option<seq<string>> {
    var doc := Parsed(TopLevel, lines);
    var blocks := SetIn(doc.blocks, section, key, value);
    if blocks.None? then None else Some(Written(doc.(blocks := blocks.value)))
  }

  // ---------------------------------------------------------------- what a reader of the document finds

  // The program reads `config.yaml` with a YAML loader, which keeps the last of several sections or keys of one name,
  // and takes only the entries of the section itself, two spaces deep, for its keys.

  /** An entry of the section itself: not blank, not a comment, nothing nested in another entry. */
  predicate IsEntry(line: string) { "  " <= line && |line| > 2 && !Space(line[2]) && line[2] != '#' }

  predicate Gives(line: string, key: string) { IsEntry(line) && Names(line, key) }

  /** The last entry of the key, or the end. */
  function LastEntry(body: seq<string>, key: string): (i: nat)
    ensures i <= |body| && (i < |body| ==> Gives(body[i], key))
    ensures forall k :: 0 <= k < |body| && Gives(body[k], key) ==> k <= i < |body|
  {
    if body == [] then 0
    else
      var last := |body| - 1;
      if Gives(body[last], key) then last
      else
        var i := LastEntry(body[..last], key);
        if i == last then |body| else i
  }

  /** The last block of that name, or the end. */
  function LastSection(blocks: seq<Block>, word: string): (i: nat)
    ensures i <= |blocks| && (i < |blocks| ==> Names(blocks[i].header, word))
    ensures forall k :: 0 <= k < |blocks| && Names(blocks[k].header, word) ==> k <= i < |blocks|
  {
    if blocks == [] then 0
    else
      var last := |blocks| - 1;
      if Names(blocks[last].header, word) then last
      else
        var i := LastSection(blocks[..last], word);
        if i == last then |blocks| else i
  }

  function ValueIn(body: seq<string>, key: string): Option<string> {
    var i := LastEntry(body, key);
    if i == |body| then None else Some(Trimmed(Trimmed(body[i])[|key| + 1..]))
  }

  /** What a reader finds under `section.key`. */
  function Value(blocks: seq<Block>, section: string, key: string): Option<string> {
    var k := LastSection(blocks, section);
    if k == |blocks| then None else ValueIn(blocks[k].body, key)
  }

  /** A second entry of the key comes after the line that is edited. */
  predicate KeyRepeats(body: seq<string>, key: string) {
    exists k :: Find(body, key) < k < |body| && Gives(body[k], key)
  }

  /** A second section of the name comes after the one that is edited. */
  predicate SectionRepeats(blocks: seq<Block>, section: string) {
    exists k :: Section(blocks, section) < k < |blocks| && Names(blocks[k].header, section)
  }

  predicate Repeats(blocks: seq<Block>, section: string, key: string) {
    var n := Section(blocks, section);
    SectionRepeats(blocks, section) || (n < |blocks| && KeyRepeats(blocks[n].body, key))
  }

  lemma EntryIsRead(key: string, value: string)
    requires Word(key)
    ensures var line := EntryLine(key, value);
            Gives(line, key) && !TopLevel(line) && !Comment(line) &&
            Trimmed(Trimmed(line)[|key| + 1..]) == Trimmed(value)
  {
    var line, rest := EntryLine(key, value), " " + value;
    Indented(key + ":" + rest);
    assert line == "  " + (key + ":" + rest);
    TrimmedTail(key + ":", rest);
    assert Trimmed(line) == Trimmed(key + ":" + rest);
    assert (key + ":")[0] == key[0] && Trimmed(line)[0] == key[0];
    assert rest[1..] == value;
  }

  lemma Indented(t: string)
    ensures Trimmed("  " + t) == Trimmed(t)
  {
    var s := "  " + t;
    assert s[1..] == " " + t && s[1..][1..] == t;
    assert Trimmed(s) == Trimmed(s[1..]);
  }

  lemma FindIs(lines: seq<string>, word: string, i: nat)
    requires i <= |lines| && (i < |lines| ==> Names(lines[i], word))
    requires forall k :: 0 <= k < i ==> !Names(lines[k], word)
    ensures Find(lines, word) == i
  {
  }

  lemma LastEntryIs(body: seq<string>, key: string, i: nat)
    requires i <= |body| && (i < |body| ==> Gives(body[i], key))
    requires forall k :: 0 <= k < |body| && Gives(body[k], key) ==> k <= i < |body|
    ensures LastEntry(body, key) == i
  {
  }

  /** The value is read back exactly as far as no later entry hides it: otherwise the reader finds what it found
      before. */
  lemma BodyReadsBack(body: seq<string>, key: string, value: string)
    requires Word(key)
    ensures ValueIn(BodyWith(body, key, EntryLine(key, value)), key) ==
            if KeyRepeats(body, key) then ValueIn(body, key) else Some(Trimmed(value))
  {
    hide Trimmed, EntryLine, Names, IsEntry;
    EntryIsRead(key, value);
    var now, i, last := BodyWith(body, key, EntryLine(key, value)), Find(body, key), LastEntry(body, key);
    if KeyRepeats(body, key) {
      LastEntryIs(now, key, last);
    } else {
      LastEntryIs(now, key, if i < |body| then i else Filled(body));
    }
  }

  lemma BodyKeepsTheRest(body: seq<string>, key: string, value: string, other: string)
    requires Word(key) && Word(other) && key != other
    ensures ValueIn(BodyWith(body, key, EntryLine(key, value)), other) == ValueIn(body, other)
  {
    hide Trimmed, EntryLine, Names, IsEntry;
    var line := EntryLine(key, value);
    EntryIsRead(key, value);
    if Names(line, other) { OneName(line, key, other); }
    var i, j, n := Find(body, key), LastEntry(body, other), Filled(body);
    if i < |body| {
      if Names(body[i], other) { OneName(body[i], key, other); }
      LastEntryIs(body[i := line], other, j);
    } else {
      LastEntryIs(Inserted(body, n, line), other, if j < n then j else j + 1);
    }
  }

  lemma BlocksReadBack(blocks: seq<Block>, section: string, key: string, value: string)
    requires Word(section) && Word(key) && SetIn(blocks, section, key, value).Some?
    ensures Value(SetIn(blocks, section, key, value).value, section, key) ==
            if Repeats(blocks, section, key) then Value(blocks, section, key) else Some(Trimmed(value))
  {
    hide Trimmed, EntryLine, Names, ValueIn, KeyRepeats;
    var n := Section(blocks, section);
    SectionsStay(blocks, SetIn(blocks, section, key, value).value);
    BodyReadsBack(blocks[n].body, key, value);
  }

  lemma BlocksKeepTheRest(blocks: seq<Block>, section: string, key: string, value: string, s: string, k: string)
    requires Word(section) && Word(key) && SetIn(blocks, section, key, value).Some?
    requires Word(s) && Word(k) && (s, k) != (section, key)
    ensures Value(SetIn(blocks, section, key, value).value, s, k) == Value(blocks, s, k)
  {
    hide Trimmed, EntryLine, Names, ValueIn;
    var n := Section(blocks, section);
    SectionsStay(blocks, SetIn(blocks, section, key, value).value);
    if LastSection(blocks, s) == n {
      OneName(blocks[n].header, s, section);
      BodyKeepsTheRest(blocks[n].body, key, value, k);
    }
  }

  lemma LastSectionIs(blocks: seq<Block>, word: string, i: nat)
    requires i <= |blocks| && (i < |blocks| ==> Names(blocks[i].header, word))
    requires forall k :: 0 <= k < |blocks| && Names(blocks[k].header, word) ==> k <= i < |blocks|
    ensures LastSection(blocks, word) == i
  {
  }

  lemma SectionsStay(a: seq<Block>, b: seq<Block>)
    requires |a| == |b| && forall i :: 0 <= i < |a| ==> a[i].header == b[i].header
    ensures forall s :: Section(a, s) == Section(b, s)
    ensures forall s :: LastSection(a, s) == LastSection(b, s)
  {
    hide Names;
    forall s ensures LastSection(a, s) == LastSection(b, s) { LastSectionIs(a, s, LastSection(b, s)); }
  }

  lemma LastLineStays(body: seq<string>, key: string, first: string, last: string)
    requires Word(key)
    ensures BodyWith(BodyWith(body, key, EntryLine(key, first)), key, EntryLine(key, last)) ==
            BodyWith(body, key, EntryLine(key, last))
  {
    hide Trimmed, Names, EntryLine, Find, Filled, Word;
    var a, b := EntryLine(key, first), EntryLine(key, last);
    var i := if Find(body, key) < |body| then Find(body, key) else Filled(body);
    EntryIsRead(key, first);
    FindIs(BodyWith(body, key, a), key, i);
    assert BodyWith(body, key, a)[i := b] == BodyWith(body, key, b);
  }

  lemma LastInBlocksStays(blocks: seq<Block>, section: string, key: string, first: string, last: string)
    requires Word(section) && Word(key) && SetIn(blocks, section, key, first).Some?
    ensures SetIn(SetIn(blocks, section, key, first).value, section, key, last) == SetIn(blocks, section, key, last)
  {
    var n, once := Section(blocks, section), SetIn(blocks, section, key, first).value;
    SectionsStay(blocks, once);
    LastLineStays(blocks[n].body, key, first, last);
    var block := Block(blocks[n].header, BodyWith(blocks[n].body, key, EntryLine(key, last)));
    assert once[n := block] == blocks[n := block];
  }

  lemma BlocksCommute(blocks: seq<Block>, s: string, k: string, v: string, t: string, l: string, w: string)
    requires Word(s) && Word(t) && s != t && SetIn(blocks, s, k, v).Some? && SetIn(blocks, t, l, w).Some?
    ensures SetIn(SetIn(blocks, s, k, v).value, t, l, w) == SetIn(SetIn(blocks, t, l, w).value, s, k, v)
  {
    var a, b := SetIn(blocks, s, k, v).value, SetIn(blocks, t, l, w).value;
    SectionsStay(blocks, a);
    SectionsStay(blocks, b);
    var i, j := Section(blocks, s), Section(blocks, t);
    if i == j { OneName(blocks[i].header, s, t); }
    assert a[j := b[j]] == b[i := a[i]];
  }

  // ---------------------------------------------------------------- the file read again

  /** What a reader of the file finds under `section.key`. */
  function FileValue(lines: seq<string>, section: string, key: string): Option<string> {
    Value(Parsed(TopLevel, lines).blocks, section, key)
  }

  lemma BodyStaysInner(body: seq<string>, key: string, value: string)
    requires Inner(TopLevel, body)
    ensures Inner(TopLevel, BodyWith(body, key, EntryLine(key, value)))
  {
    assert EntryLine(key, value)[0] == ' ';
  }

  /** What is written is read again as the edited document. */
  lemma SetIsParsed(lines: seq<string>, section: string, key: string, value: string)
    requires ConfigSet(lines, section, key, value).Some?
    ensures var was, now := Parsed(TopLevel, lines), Parsed(TopLevel, ConfigSet(lines, section, key, value).value);
            Some(now.blocks) == SetIn(was.blocks, section, key, value) && now.preamble == was.preamble
  {
    hide EntryLine, BodyWith, Trimmed, Names, Parsed, Written, Lines;
    var doc := Parsed(TopLevel, lines);
    var blocks := SetIn(doc.blocks, section, key, value).value;
    ParsedIsProper(TopLevel, lines);
    BodyStaysInner(doc.blocks[Section(doc.blocks, section)].body, key, value);
    WrittenIsParsed(TopLevel, doc.(blocks := blocks));
  }

  /** No other section or key of the file reads differently.  The value itself reads back unless the section or the key
      is repeated below the line that is edited; then the file reads as before. */
  lemma SetReadsBack(lines: seq<string>, section: string, key: string, value: string)
    requires Word(section) && Word(key) && ConfigSet(lines, section, key, value).Some?
    ensures var now := ConfigSet(lines, section, key, value).value;
            && FileValue(now, section, key) ==
               (if Repeats(Parsed(TopLevel, lines).blocks, section, key) then FileValue(lines, section, key)
                else Some(Trimmed(value)))
            && forall s, k :: Word(s) && Word(k) && (s, k) != (section, key) ==>
                 FileValue(now, s, k) == FileValue(lines, s, k)
  {
    hide Value, SetIn, Trimmed, Parsed, ConfigSet, Repeats;
    SetIsParsed(lines, section, key, value);
    var blocks := Parsed(TopLevel, lines).blocks;
    BlocksReadBack(blocks, section, key, value);
    var now := ConfigSet(lines, section, key, value).value;
    forall s, k | Word(s) && Word(k) && (s, k) != (section, key)
      ensures FileValue(now, s, k) == FileValue(lines, s, k)
    {
      BlocksKeepTheRest(blocks, section, key, value, s, k);
    }
  }

  // What the loader then finds, where a name is repeated.

  lemma HeaderOpens(section: string)
    requires Word(section)
    ensures TopLevel(section + ":") && Names(section + ":", section)
  {
    var h := section + ":";
    assert h[0] == section[0] && h[|h| - 1] == ':';
    assert Trimmed(h) == h;
  }

  /** A file written from blocks is edited as they are. */
  lemma SetOf(blocks: seq<Block>, section: string, key: string, value: string)
    requires Proper(TopLevel, blocks) && SetIn(blocks, section, key, value).Some?
    ensures Parsed(TopLevel, Lines(blocks)) == Document([], blocks)
    ensures ConfigSet(Lines(blocks), section, key, value) == Some(Lines(SetIn(blocks, section, key, value).value))
  {
    hide SetIn, TopLevel;
    WrittenIsParsed(TopLevel, Document([], blocks));
    assert [] + Lines(blocks) == Lines(blocks);
    var after := SetIn(blocks, section, key, value).value;
    assert [] + Lines(after) == Lines(after);
  }

  lemma OneBlockLines(h: string, body: seq<string>)
    ensures Lines([Block(h, body)]) == [h] + body
  {
    assert [Block(h, body)][1..] == [];
  }

  lemma TwoBlockLines(h: string, a: string, b: string)
    ensures Lines([Block(h, [a]), Block(h, [b])]) == [h, a, h, b]
  {
    var blocks := [Block(h, [a]), Block(h, [b])];
    assert blocks[1..] == [Block(h, [b])];
    OneBlockLines(h, [b]);
    assert [h] + [a] == [h, a];
  }

  lemma KeyTwice(h: string, section: string, key: string, first: string, last: string, value: string)
    requires Word(section) && Word(key) && Names(h, section)
    ensures var a, b := EntryLine(key, first), EntryLine(key, last);
            var now := SetIn([Block(h, [a, b])], section, key, value);
            && now == Some([Block(h, [EntryLine(key, value), b])])
            && Value(now.value, section, key) == Some(Trimmed(last))
  {
    hide Trimmed, EntryLine, Names, IsEntry;
    var a, b := EntryLine(key, first), EntryLine(key, last);
    EntryIsRead(key, first);
    EntryIsRead(key, last);
    FindIs([a, b], key, 0);
    SectionIs([Block(h, [a, b])], section, 0);
    var now := [EntryLine(key, value), b];
    assert [a, b][0 := EntryLine(key, value)] == now;
    assert [Block(h, [a, b])][0 := Block(h, now)] == [Block(h, now)];
    LastSectionIs([Block(h, now)], section, 0);
    LastEntryIs(now, key, 1);
  }

  /** A section that gives a key twice: the first line is edited, and the second one is still what is read. */
  lemma RepeatedKey(section: string, key: string, first: string, last: string, value: string)
    requires Word(section) && Word(key)
    ensures var lines := [section + ":", EntryLine(key, first), EntryLine(key, last)];
            var now := ConfigSet(lines, section, key, value);
            && now == Some([section + ":", EntryLine(key, value), EntryLine(key, last)])
            && FileValue(now.value, section, key) == Some(Trimmed(last))
  {
    hide Trimmed, EntryLine, TopLevel, Names, IsEntry, Parsed, Lines, ConfigSet, SetIn, Value;
    var h, a, b, c := section + ":", EntryLine(key, first), EntryLine(key, last), EntryLine(key, value);
    HeaderOpens(section);
    EntryIsRead(key, first);
    EntryIsRead(key, last);
    KeyTwice(h, section, key, first, last, value);
    SetOf([Block(h, [a, b])], section, key, value);
    SetIsParsed(Lines([Block(h, [a, b])]), section, key, value);
    OneBlockLines(h, [a, b]);
    OneBlockLines(h, [c, b]);
    assert [h] + [a, b] == [h, a, b] && [h] + [c, b] == [h, c, b];
  }

  lemma SectionTwice(h: string, section: string, key: string, first: string, last: string, value: string)
    requires Word(section) && Word(key) && Names(h, section)
    ensures var a, b := EntryLine(key, first), EntryLine(key, last);
            var now := SetIn([Block(h, [a]), Block(h, [b])], section, key, value);
            && now == Some([Block(h, [EntryLine(key, value)]), Block(h, [b])])
            && Value(now.value, section, key) == Some(Trimmed(last))
  {
    hide Trimmed, EntryLine, Names, IsEntry;
    var a, b, line := EntryLine(key, first), EntryLine(key, last), EntryLine(key, value);
    EntryIsRead(key, first);
    EntryIsRead(key, last);
    FindIs([a], key, 0);
    SectionIs([Block(h, [a]), Block(h, [b])], section, 0);
    var now := [Block(h, [line]), Block(h, [b])];
    assert [a][0 := line] == [line];
    assert [Block(h, [a]), Block(h, [b])][0 := Block(h, [line])] == now;
    LastSectionIs(now, section, 1);
    LastEntryIs([b], key, 0);
  }

  /** Two sections of one name: the first one is edited, and the second one is still what is read. */
  lemma RepeatedSection(section: string, key: string, first: string, last: string, value: string)
    requires Word(section) && Word(key)
    ensures var lines := [section + ":", EntryLine(key, first), section + ":", EntryLine(key, last)];
            var now := ConfigSet(lines, section, key, value);
            && now == Some([section + ":", EntryLine(key, value), section + ":", EntryLine(key, last)])
            && FileValue(now.value, section, key) == Some(Trimmed(last))
  {
    hide Trimmed, EntryLine, TopLevel, Names, IsEntry, Parsed, Lines, ConfigSet, SetIn, Value;
    var h, a, b := section + ":", EntryLine(key, first), EntryLine(key, last);
    HeaderOpens(section);
    EntryIsRead(key, first);
    EntryIsRead(key, last);
    SectionTwice(h, section, key, first, last, value);
    SetOf([Block(h, [a]), Block(h, [b])], section, key, value);
    SetIsParsed(Lines([Block(h, [a]), Block(h, [b])]), section, key, value);
    TwoBlockLines(h, a, b);
    TwoBlockLines(h, EntryLine(key, value), b);
  }

  // Comments, blank lines and what is nested in an entry: the lines that are no entries of a section.

  function Besides(lines: seq<string>): seq<string> {
    if lines == [] then []
    else Besides(lines[..|lines| - 1]) + if IsEntry(lines[|lines| - 1]) then [] else [lines[|lines| - 1]]
  }

  lemma {:induction false} BesidesAppend(a: seq<string>, b: seq<string>)
    ensures Besides(a + b) == Besides(a) + Besides(b)
    decreases |b|
  {
    hide IsEntry;
    if b == [] {
      assert a + b == a;
      assert Besides(a) + [] == Besides(a);
    } else {
      var n := |b| - 1;
      assert (a + b)[..|a| + n] == a + b[..n];
      BesidesAppend(a, b[..n]);
      Associative(Besides(a), Besides(b[..n]), if IsEntry(b[n]) then [] else [b[n]]);
    }
  }

  lemma BesidesReplaced(a: seq<string>, was: string, now: string, b: seq<string>)
    requires IsEntry(now)
    ensures Besides(a + [now] + b) == Besides(a + [was] + b) <==> IsEntry(was)
  {
    hide IsEntry;
    BesidesAppend(a + [now], b);
    BesidesAppend(a, [now]);
    BesidesAppend(a + [was], b);
    BesidesAppend(a, [was]);
    assert Besides([now]) == [];
    if IsEntry(was) {
      assert Besides([was]) == [];
    } else {
      assert |Besides([was])| == 1;
    }
  }

  lemma LineReplaced(lines: seq<string>, j: nat, line: string)
    requires j < |lines| && IsEntry(line)
    ensures Besides(lines[j := line]) == Besides(lines) <==> IsEntry(lines[j])
  {
    hide IsEntry, Besides;
    BesidesReplaced(lines[..j], lines[j], line, lines[j + 1..]);
    assert lines == lines[..j] + [lines[j]] + lines[j + 1..];
    assert lines[j := line] == lines[..j] + [line] + lines[j + 1..];
  }

  /** Comments and nested lines stay exactly when the line that is replaced, if one is, is an entry of its section. */
  lemma CommentsStay(lines: seq<string>, section: string, key: string, value: string)
    requires Word(key) && ConfigSet(lines, section, key, value).Some?
    ensures var blocks := Parsed(TopLevel, lines).blocks;
            var body := blocks[Section(blocks, section)].body;
            Besides(ConfigSet(lines, section, key, value).value) == Besides(lines) <==>
              Find(body, key) == |body| || IsEntry(body[Find(body, key)])
  {
    hide IsEntry, Besides, EntryLine, Names, Trimmed, Parsed, ConfigSet, TopLevel, Filled;
    var start, end := SectionBounds(lines, section, key, value);
    var body, line := lines[start + 1..end], EntryLine(key, value);
    EntryIsRead(key, value);
    SetByIndex(lines, section, key, value, start, end);
    SectionBody(lines, section, start, end);
    var i := Find(body, key);
    if i < |body| {
      LineReplaced(lines, start + 1 + i, line);
    } else {
      BesidesInserted(lines, start + 1 + Filled(body), line);
    }
  }

  lemma BesidesInserted(lines: seq<string>, i: nat, line: string)
    requires i <= |lines| && IsEntry(line)
    ensures Besides(Inserted(lines, i, line)) == Besides(lines)
  {
    hide IsEntry;
    assert lines == lines[..i] + lines[i..];
    BesidesAppend(lines[..i], lines[i..]);
    BesidesAppend(lines[..i] + [line], lines[i..]);
    BesidesAppend(lines[..i], [line]);
    assert Besides([line]) == [];
    assert Besides(lines[..i]) + [] == Besides(lines[..i]);
  }

  lemma SectionBody(lines: seq<string>, section: string, start: nat, end: nat)
    requires IsSection(lines, section, start, end)
    ensures var blocks := Parsed(TopLevel, lines).blocks;
            Section(blocks, section) < |blocks| && blocks[Section(blocks, section)].body == lines[start + 1..end]
  {
    hide Names, Trimmed;
    SectionByIndex(lines, section, start, end);
    AroundBlock(TopLevel, lines, start, end);
  }

  lemma NestedFirst(h: string, section: string, parent: string, key: string, nested: string, value: string)
    requires Word(section) && Word(parent) && Word(key) && parent != key && Names(h, section)
    ensures var p, k := EntryLine(parent, ""), "  " + EntryLine(key, nested);
            && !TopLevel(k) && !IsEntry(k) && Find([p, k], key) == 1 && Section([Block(h, [p, k])], section) == 0
            && SetIn([Block(h, [p, k])], section, key, value) == Some([Block(h, [p, EntryLine(key, value)])])
            && Value([Block(h, [p, k])], section, key) == None
  {
    hide Trimmed, Names, TopLevel;
    var p, k := EntryLine(parent, ""), "  " + EntryLine(key, nested);
    EntryIsRead(parent, "");
    EntryIsRead(key, nested);
    Indented(EntryLine(key, nested));
    SameNames(k, EntryLine(key, nested), key);
    if Names(p, key) { OneName(p, parent, key); }
    hide EntryLine, IsEntry;
    FindIs([p, k], key, 1);
    SectionIs([Block(h, [p, k])], section, 0);
    LastSectionIs([Block(h, [p, k])], section, 0);
    LastEntryIs([p, k], key, 2);
    assert [p, k][1 := EntryLine(key, value)] == [p, EntryLine(key, value)];
    assert [Block(h, [p, k])][0 := Block(h, [p, EntryLine(key, value)])] == [Block(h, [p, EntryLine(key, value)])];
  }

  /** A nested line that names the key comes first: it is what is replaced. */
  lemma NestedLineIsReplaced(section: string, parent: string, key: string, nested: string, value: string)
    requires Word(section) && Word(parent) && Word(key) && parent != key
    ensures var lines := [section + ":", EntryLine(parent, ""), "  " + EntryLine(key, nested)];
            var now := ConfigSet(lines, section, key, value);
            && now == Some([section + ":", EntryLine(parent, ""), EntryLine(key, value)])
            && FileValue(lines, section, key) == None
            && Besides(now.value) != Besides(lines)
  {
    hide Trimmed, EntryLine, TopLevel, Names, IsEntry, Parsed, Lines, ConfigSet, SetIn, Value, Besides;
    var h, p, k := section + ":", EntryLine(parent, ""), "  " + EntryLine(key, nested);
    HeaderOpens(section);
    EntryIsRead(parent, "");
    NestedFirst(h, section, parent, key, nested, value);
    SetOf([Block(h, [p, k])], section, key, value);
    OneBlockLines(h, [p, k]);
    OneBlockLines(h, [p, EntryLine(key, value)]);
    assert [h] + [p, k] == [h, p, k] && [h] + [p, EntryLine(key, value)] == [h, p, EntryLine(key, value)];
    CommentsStay([h, p, k], section, key, value);
  }

  lemma SameNames(a: string, b: string, key: string)
    requires Trimmed(a) == Trimmed(b) && a != "" && a[0] == ' '
    ensures Names(a, key) <==> Names(b, key)
    ensures !TopLevel(a)
  {
  }

  /** The last value written is the one that stays; in particular, writing the same value again changes nothing. */
  lemma LastValueStays(lines: seq<string>, section: string, key: string, first: string, last: string)
    requires Word(section) && Word(key) && ConfigSet(lines, section, key, first).Some?
    ensures ConfigSet(ConfigSet(lines, section, key, first).value, section, key, last) ==
            ConfigSet(lines, section, key, last)
  {
    hide SetIn, Parsed, Written;
    SetIsParsed(lines, section, key, first);
    LastInBlocksStays(Parsed(TopLevel, lines).blocks, section, key, first, last);
  }

  /** Writes to different sections can change places. */
  lemma SectionsCommute(lines: seq<string>, s: string, k: string, v: string, t: string, l: string, w: string)
    requires Word(s) && Word(t) && s != t && ConfigSet(lines, s, k, v).Some? && ConfigSet(lines, t, l, w).Some?
    ensures ConfigSet(ConfigSet(lines, s, k, v).value, t, l, w) == ConfigSet(ConfigSet(lines, t, l, w).value, s, k, v)
  {
    hide SetIn, Parsed, Written;
    SetIsParsed(lines, s, k, v);
    SetIsParsed(lines, t, l, w);
    BlocksCommute(Parsed(TopLevel, lines).blocks, s, k, v, t, l, w);
  }

  // ---------------------------------------------------------------- by index

  predicate Opens(line: string, section: string) { TopLevel(line) && Names(line, section) }

  /** The lines from `start` up to `end` are the first section of that name. */
  predicate IsSection(lines: seq<string>, section: string, start: nat, end: nat) {
    && IsBlock(TopLevel, lines, start, end)
    && Names(lines[start], section)
    && forall k :: 0 <= k < start ==> !Opens(lines[k], section)
  }

  lemma SectionIs(blocks: seq<Block>, section: string, n: nat)
    requires n <= |blocks| && (n < |blocks| ==> Names(blocks[n].header, section))
    requires forall k :: 0 <= k < n ==> !Names(blocks[k].header, section)
    ensures Section(blocks, section) == n
  {
  }

  lemma NoneOpens(lines: seq<string>, section: string, k: nat)
    requires forall i :: 0 <= i < |lines| ==> !Opens(lines[i], section)
    requires k < |Parsed(TopLevel, lines).blocks|
    ensures !Names(Parsed(TopLevel, lines).blocks[k].header, section)
  {
    HeadersAreLines(TopLevel, lines, k);
  }

  lemma SetsNothing(lines: seq<string>, section: string, key: string, value: string)
    requires forall k :: 0 <= k < |lines| ==> !Opens(lines[k], section)
    ensures ConfigSet(lines, section, key, value).None?
  {
    NoSection(lines, section);
  }

  lemma NoSection(lines: seq<string>, section: string)
    requires forall k :: 0 <= k < |lines| ==> !Opens(lines[k], section)
    ensures Section(Parsed(TopLevel, lines).blocks, section) == |Parsed(TopLevel, lines).blocks|
  {
    var n := Section(Parsed(TopLevel, lines).blocks, section);
    if n < |Parsed(TopLevel, lines).blocks| { NoneOpens(lines, section, n); }
  }

  lemma SectionByIndex(lines: seq<string>, section: string, start: nat, end: nat)
    requires IsSection(lines, section, start, end)
    ensures Section(Parsed(TopLevel, lines).blocks, section) == Rank(TopLevel, lines, start)
  {
    hide Names, Trimmed;
    BlockByIndex(TopLevel, lines, start, end);
    var before := Parsed(TopLevel, lines[..start]).blocks;
    forall k | 0 <= k < |before| ensures !Names(before[k].header, section) { NoneOpens(lines[..start], section, k); }
    SectionIs(Parsed(TopLevel, lines).blocks, section, |before|);
  }

  lemma ReplacedInPlace(lines: seq<string>, from: nat, end: nat, i: nat, line: string)
    requires from + i < end <= |lines|
    ensures lines[..from] + lines[from..end][i := line] + lines[end..] == lines[from + i := line]
  {
  }

  lemma InsertedInPlace(lines: seq<string>, from: nat, end: nat, i: nat, line: string)
    requires from + i <= end <= |lines|
    ensures lines[..from] + Inserted(lines[from..end], i, line) + lines[end..] == Inserted(lines, from + i, line)
  {
  }

  lemma SetInPlace(lines: seq<string>, section: string, key: string, value: string, start: nat, end: nat)
    requires IsSection(lines, section, start, end)
    ensures ConfigSet(lines, section, key, value) ==
            Some(lines[..start + 1] + BodyWith(lines[start + 1..end], key, EntryLine(key, value)) + lines[end..])
  {
    hide Trimmed, Names, EntryLine, Parsed, Written;
    SectionByIndex(lines, section, start, end);
    BodyInPlace(TopLevel, lines, start, end, BodyWith(lines[start + 1..end], key, EntryLine(key, value)));
  }

  lemma BodyWithInPlace(lines: seq<string>, from: nat, end: nat, key: string, line: string)
    requires from <= end <= |lines|
    ensures var body := lines[from..end];
            lines[..from] + BodyWith(body, key, line) + lines[end..] ==
            if Find(body, key) < |body| then lines[from + Find(body, key) := line]
            else Inserted(lines, from + Filled(body), line)
  {
    hide Trimmed, Find, Filled;
    var body := lines[from..end];
    if Find(body, key) < |body| {
      ReplacedInPlace(lines, from, end, Find(body, key), line);
    } else {
      InsertedInPlace(lines, from, end, Filled(body), line);
    }
  }

  /** The edit of the document, by index: the line that names the key is replaced, or the new line goes after the last
      line of the section that is not blank. */
  lemma SetByIndex(lines: seq<string>, section: string, key: string, value: string, start: nat, end: nat)
    requires IsSection(lines, section, start, end)
    ensures var body := lines[start + 1..end];
            ConfigSet(lines, section, key, value) ==
            Some(if Find(body, key) < |body| then lines[start + 1 + Find(body, key) := EntryLine(key, value)]
                 else Inserted(lines, start + 1 + Filled(body), EntryLine(key, value)))
  {
    hide Trimmed, Names, EntryLine, ConfigSet, BodyWith, Inserted, Find, Filled;
    SetInPlace(lines, section, key, value, start, end);
    BodyWithInPlace(lines, start + 1, end, key, EntryLine(key, value));
  }

  lemma FilledIs(body: seq<string>, n: nat)
    requires n <= |body| && (n > 0 ==> !Blank(body[n - 1])) && forall k :: n <= k < |body| ==> Blank(body[k])
    ensures Filled(body) == n
  {
  }

  /** `now` is `was` with the line `i`, which named the key, replaced, or with a line put in before it. */
  predicate OneLineOff(was: seq<string>, now: seq<string>, key: string, line: string, i: nat) {
    || (i < |was| && Names(was[i], key) && !TopLevel(was[i]) && now == was[i := line])
    || (i <= |was| && now == Inserted(was, i, line))
  }

  /** One line is replaced or one is inserted; every other line stays, comments among them. */
  lemma OneLineChanges(lines: seq<string>, section: string, key: string, value: string)
    requires ConfigSet(lines, section, key, value).Some?
    ensures var now := ConfigSet(lines, section, key, value).value;
            exists i :: OneLineOff(lines, now, key, "  " + key + ": " + value, i)
  {
    hide Trimmed, Parsed, SetIn, Written, Find, Filled;
    var start, end := SectionBounds(lines, section, key, value);
    var body, line := lines[start + 1..end], EntryLine(key, value);
    var now := ConfigSet(lines, section, key, value).value;
    SetByIndex(lines, section, key, value, start, end);
    var i := Find(body, key);
    if i < |body| {
      assert OneLineOff(lines, now, key, line, start + 1 + i);
    } else {
      assert OneLineOff(lines, now, key, line, start + 1 + Filled(body));
    }
  }

  lemma SectionBounds(lines: seq<string>, section: string, key: string, value: string) returns (start: nat, end: nat)
    requires ConfigSet(lines, section, key, value).Some?
    ensures IsSection(lines, section, start, end)
  {
    hide Trimmed, Names, ConfigSet;
    if forall k :: 0 <= k < |lines| ==> !Opens(lines[k], section) { SetsNothing(lines, section, key, value); }
    start := 0;
    while !Opens(lines[start], section)
      invariant start < |lines| && forall k :: 0 <= k < start ==> !Opens(lines[k], section)
      decreases |lines| - start
    {
      start := start + 1;
    }
    end := start + 1;
    while end < |lines| && !TopLevel(lines[end])
      invariant start < end <= |lines| && forall k :: start < k < end ==> !TopLevel(lines[k])
    {
      end := end + 1;
    }
  }

  // ---------------------------------------------------------------- one bridge

  predicate StartsAnEntry(line: string) { "- " <= TrimmedLeft(line) }

  function WithoutDash(line: string): string {
    var t := TrimmedLeft(line);
    if "- " <= t then t[2..] else t
  }

  /** The `name:` of one list entry, wherever in the entry it sits. */
  function NameIn(lines: seq<string>): Option<string> {
    if lines == [] then None
    else
      var t := Trimmed(WithoutDash(lines[0]));
      if "name:" <= t then Some(Unquoted(Trimmed(t[5..]))) else NameIn(lines[1..])
  }

  function EntryName(b: Block): Option<string> { NameIn(BlockLines(b)) }

  /** A name as a seed writes it: nothing to trim, no quotes of its own. */
  predicate PlainName(name: string) {
    name != "" && !Space(name[0]) && !Quote(name[0]) && !Space(name[|name| - 1]) && !Quote(name[|name| - 1])
  }

  /** Bare or in quotes of one kind. */
  predicate WrittenAs(text: string, name: string) {
    text == name || text == "\"" + name + "\"" || text == "'" + name + "'"
  }

  lemma UnquotedIs(text: string, name: string)
    requires PlainName(name) && WrittenAs(text, name)
    ensures Unquoted(text) == name && Trimmed(" " + text) == text && text != ""
  {
    assert (" " + text)[1..] == text;
    if text != name {
      var rest := text[1..];
      assert Quote(text[0]) && rest[|name|] == text[|text| - 1] && Quote(rest[|name|]) && rest[..|name|] == name;
      assert rest[0] == name[0];
    }
    assert Unquoted(name) == name;
  }

  /** The name is read from the first line of an entry that gives one, with the dash or without, in quotes or bare; the
      lines that give none do not matter. */
  lemma {:induction false} NameIsRead(before: seq<string>, indent: string, dash: bool, text: string, name: string,
                                      after: seq<string>)
    requires AllSpace(indent) && PlainName(name) && WrittenAs(text, name)
    requires forall k :: 0 <= k < |before| ==> !("name:" <= Trimmed(WithoutDash(before[k])))
    ensures NameIn(before + [indent + (if dash then "- " else "") + "name: " + text] + after) == Some(name)
    decreases before
  {
    var line := indent + (if dash then "- " else "") + "name: " + text;
    var all := before + [line] + after;
    if before == [] {
      assert all[0] == line;
      NameOfLine(indent, dash, text, name);
    } else {
      assert all[0] == before[0] && all[1..] == before[1..] + [line] + after;
      NameIsRead(before[1..], indent, dash, text, name, after);
    }
  }

  /** A line `name:` with nothing behind it names the entry, too: with nothing. */
  lemma EmptyNameIsRead(indent: string, dash: bool, after: seq<string>)
    requires AllSpace(indent)
    ensures NameIn([indent + (if dash then "- name:" else "name:")] + after) == Some("")
  {
    var rest, field := if dash then "- name:" else "name:", "name:";
    var line := indent + rest;
    assert ([line] + after)[0] == line;
    LeftSpaceGoes(indent, rest);
    assert WithoutDash(line) == field by { if dash { assert rest[2..] == field; } else { assert field[0] == 'n'; } }
    assert Trimmed(field) == field && field[5..] == "";
  }

  lemma NameOfLine(indent: string, dash: bool, text: string, name: string)
    requires AllSpace(indent) && PlainName(name) && WrittenAs(text, name)
    ensures var t := Trimmed(WithoutDash(indent + (if dash then "- " else "") + "name: " + text));
            "name:" <= t && Unquoted(Trimmed(t[5..])) == name
  {
    var rest := (if dash then "- " else "") + "name: " + text;
    var field := "name: " + text;
    assert indent + (if dash then "- " else "") + "name: " + text == indent + rest;
    UnquotedIs(text, name);
    assert !Space(text[|text| - 1]);
    hide Unquoted, Quote;
    LeftSpaceGoes(indent, rest);
    assert WithoutDash(indent + rest) == field by {
      if dash { assert rest[2..] == field; } else { assert rest == field && field[0] == 'n'; }
    }
    assert Trimmed(field) == field;
    assert field[5..] == " " + text;
  }

  function FirstThat(blocks: seq<Block>, holds: Block -> bool): (i: nat)
    ensures i <= |blocks| && (i < |blocks| ==> holds(blocks[i]))
    ensures forall k :: 0 <= k < i ==> !holds(blocks[k])
  {
    if blocks == [] || holds(blocks[0]) then 0 else 1 + FirstThat(blocks[1..], holds)
  }

  /** The first entry of that name, or the end. */
  function Entry(entries: seq<Block>, name: string): (i: nat)
    ensures i <= |entries| && (i < |entries| ==> EntryName(entries[i]) == Some(name))
    ensures forall k :: 0 <= k < i ==> EntryName(entries[k]) != Some(name)
  {
    FirstThat(entries, b => EntryName(b) == Some(name))
  }

  /** What the seed lists under `bridges:`. */
  function Entries(b: Block): Document { Parsed(StartsAnEntry, b.body) }

  function Without(blocks: seq<Block>, k: nat): seq<Block>
    requires k < |blocks|
  {
    blocks[..k] + blocks[k + 1..]
  }

  /** The document without one bridge; the last one takes the key with it.  `None` where there is no such bridge. */
  function BridgeRemoved(doc: Document, name: string): Option<Document> {
    var n := Section(doc.blocks, "bridges");
    if n == |doc.blocks| then None
    else
      var seed := Entries(doc.blocks[n]);
      var k := Entry(seed.blocks, name);
      if k == |seed.blocks| then None
      else if |seed.blocks| == 1 then Some(doc.(blocks := Without(doc.blocks, n)))
      else
        var body := Written(seed.(blocks := Without(seed.blocks, k)));
        Some(doc.(blocks := doc.blocks[n := Block(doc.blocks[n].header, body)]))
  }

  /** Exactly the first entry of that name is gone, and the others are still there in their order; where it was the
      only one, its section is gone.  Every other block stays as it is, in its place. */
  lemma OneBridgeGoes(doc: Document, name: string)
    requires Proper(TopLevel, doc.blocks) && BridgeRemoved(doc, name).Some?
    ensures var n := Section(doc.blocks, "bridges");
            var seed, now := Entries(doc.blocks[n]).blocks, BridgeRemoved(doc, name).value.blocks;
            && Entry(seed, name) < |seed|
            && (|seed| > 1 ==>
                  && Entries(now[n]) == Document(Entries(doc.blocks[n]).preamble, Without(seed, Entry(seed, name)))
                  && now[n].header == doc.blocks[n].header
                  && |now| == |doc.blocks|
                  && forall i :: 0 <= i < |now| && i != n ==> now[i] == doc.blocks[i])
            && (|seed| == 1 ==> now == Without(doc.blocks, n))
  {
    hide EntryName, Entry, Names, Written, Parsed;
    var n := Section(doc.blocks, "bridges");
    var seed := Entries(doc.blocks[n]);
    var k := Entry(seed.blocks, name);
    ParsedIsProper(StartsAnEntry, doc.blocks[n].body);
    if |seed.blocks| > 1 { WrittenIsParsed(StartsAnEntry, seed.(blocks := Without(seed.blocks, k))); }
  }

  lemma BlockReplaced(blocks: seq<Block>, n: nat, body: seq<string>, section: string, key: string)
    requires n < |blocks| && !Names(blocks[n].header, section)
    ensures Value(blocks[n := Block(blocks[n].header, body)], section, key) == Value(blocks, section, key)
  {
    hide Names, ValueIn;
    LastSectionIs(blocks[n := Block(blocks[n].header, body)], section, LastSection(blocks, section));
  }

  lemma BlockDropped(blocks: seq<Block>, n: nat, section: string, key: string)
    requires n < |blocks| && !Names(blocks[n].header, section)
    ensures Value(Without(blocks, n), section, key) == Value(blocks, section, key)
  {
    hide Names, ValueIn;
    var k := LastSection(blocks, section);
    LastSectionIs(Without(blocks, n), section, if k > n then k - 1 else k);
  }

  /** Every other section reads as before. */
  lemma OthersReadTheSame(doc: Document, name: string, section: string, key: string)
    requires BridgeRemoved(doc, name).Some? && Word(section) && section != "bridges"
    ensures Value(BridgeRemoved(doc, name).value.blocks, section, key) == Value(doc.blocks, section, key)
  {
    hide Names, Value, Entries, EntryName, Written, Without;
    var n := Section(doc.blocks, "bridges");
    if Names(doc.blocks[n].header, section) { OneName(doc.blocks[n].header, section, "bridges"); }
    var seed := Entries(doc.blocks[n]);
    if |seed.blocks| == 1 {
      BlockDropped(doc.blocks, n, section, key);
    } else {
      var left := seed.(blocks := Without(seed.blocks, Entry(seed.blocks, name)));
      BlockReplaced(doc.blocks, n, Written(left), section, key);
    }
  }

  // Whether the bridge is forgotten: the loader reads the last section `bridges`, and every entry of it.

  predicate Named(entries: seq<Block>, name: string) {
    exists k :: 0 <= k < |entries| && EntryName(entries[k]) == Some(name)
  }

  predicate Lists(body: seq<string>, name: string) { Named(Parsed(StartsAnEntry, body).blocks, name) }

  /** The reader finds a bridge of that name. */
  predicate Listed(blocks: seq<Block>, name: string) {
    var k := LastSection(blocks, "bridges");
    k < |blocks| && Lists(blocks[k].body, name)
  }

  predicate NamedAgain(entries: seq<Block>, name: string) {
    exists k :: Entry(entries, name) < k < |entries| && EntryName(entries[k]) == Some(name)
  }

  lemma WithoutTheFirst(entries: seq<Block>, name: string)
    requires Entry(entries, name) < |entries|
    ensures Named(Without(entries, Entry(entries, name)), name) <==> NamedAgain(entries, name)
  {
    hide EntryName;
    var k := Entry(entries, name);
    var kept := Without(entries, k);
    if Named(kept, name) {
      var i :| 0 <= i < |kept| && EntryName(kept[i]) == Some(name);
      assert kept[i] == entries[if i < k then i else i + 1];
    }
    if NamedAgain(entries, name) {
      var i :| k < i < |entries| && EntryName(entries[i]) == Some(name);
      assert kept[i - 1] == entries[i];
    }
  }

  lemma LastAfterReplaced(blocks: seq<Block>, n: nat, b: Block, word: string)
    requires n < |blocks| && b.header == blocks[n].header
    ensures LastSection(blocks[n := b], word) == LastSection(blocks, word)
  {
    hide Names;
    LastSectionIs(blocks[n := b], word, LastSection(blocks, word));
  }

  lemma WithoutAt(blocks: seq<Block>, n: nat, i: nat)
    requires n < |blocks| && i < |blocks| - 1
    ensures Without(blocks, n)[i] == blocks[if i < n then i else i + 1]
  {
  }

  lemma NoOtherIsLast(blocks: seq<Block>, n: nat, word: string)
    requires n < |blocks| && forall i :: 0 <= i < |blocks| && i != n ==> !Names(blocks[i].header, word)
    ensures LastSection(Without(blocks, n), word) == |blocks| - 1
  {
    hide Names, Without, LastSection;
    var kept := Without(blocks, n);
    assert |kept| == |blocks| - 1 by { WithoutLength(blocks, n); }
    forall i | 0 <= i < |kept| ensures !Names(kept[i].header, word) { WithoutAt(blocks, n, i); }
  }

  lemma LaterIsLast(blocks: seq<Block>, n: nat, word: string)
    requires n < LastSection(blocks, word) < |blocks|
    ensures LastSection(Without(blocks, n), word) == LastSection(blocks, word) - 1
  {
    hide Names, Without, LastSection;
    var kept, k := Without(blocks, n), LastSection(blocks, word);
    WithoutLength(blocks, n);
    WithoutAt(blocks, n, k - 1);
    forall i | 0 <= i < |kept| && Names(kept[i].header, word) ensures i <= k - 1 { WithoutAt(blocks, n, i); }
    LastSectionIs(kept, word, k - 1);
  }

  lemma WithoutLength(blocks: seq<Block>, n: nat)
    requires n < |blocks|
    ensures |Without(blocks, n)| == |blocks| - 1
  {
  }

  lemma LastAfterDropped(blocks: seq<Block>, word: string)
    requires Section(blocks, word) < |blocks|
    ensures var n := Section(blocks, word);
            if SectionRepeats(blocks, word)
            then LastSection(blocks, word) > n && LastSection(Without(blocks, n), word) == LastSection(blocks, word) - 1
            else LastSection(blocks, word) == n && LastSection(Without(blocks, n), word) == |blocks| - 1
  {
    hide Names, Without, Section, LastSection;
    var n := Section(blocks, word);
    if SectionRepeats(blocks, word) { LaterIsLast(blocks, n, word); } else { NoOtherIsLast(blocks, n, word); }
  }

  /** After a removal the reader still finds the name exactly when the first section listed it twice or, where a second
      section hides the first one, when that one lists it. */
  lemma BridgeIsForgotten(doc: Document, name: string)
    requires Proper(TopLevel, doc.blocks) && BridgeRemoved(doc, name).Some?
    ensures Listed(BridgeRemoved(doc, name).value.blocks, name) <==>
            if SectionRepeats(doc.blocks, "bridges") then Listed(doc.blocks, name)
            else NamedAgain(Entries(doc.blocks[Section(doc.blocks, "bridges")]).blocks, name)
  {
    hide Names, EntryName, Entry, TopLevel, Written, Parsed, Named, NamedAgain, Proper;
    var n := Section(doc.blocks, "bridges");
    var seed := Entries(doc.blocks[n]).blocks;
    OneBridgeGoes(doc, name);
    WithoutTheFirst(seed, name);
    LastAfterDropped(doc.blocks, "bridges");
    if |seed| == 1 {
      OnlyOneNamed(seed, name);
    } else {
      LastAfterReplaced(doc.blocks, n, BridgeRemoved(doc, name).value.blocks[n], "bridges");
    }
  }

  lemma OnlyOneNamed(entries: seq<Block>, name: string)
    requires |entries| == 1 && Entry(entries, name) == 0
    ensures !NamedAgain(entries, name)
  {
  }

  /** `rstrip` of newlines on the joined lines: empty lines at the end go, but a file has at least one line. */
  function TrimmedEnd(lines: seq<string>): seq<string> {
    if lines == [] then [""]
    else if lines[|lines| - 1] != "" then lines
    else TrimmedEnd(lines[..|lines| - 1])
  }

  /** The empty lines at the end go and nothing else; of a file of empty lines one is left. */
  lemma {:induction false} TrimmedEndIs(lines: seq<string>, n: nat)
    requires lines == [] || lines[|lines| - 1] != ""
    ensures TrimmedEnd(lines + seq(n, _ => "")) == if lines == [] then [""] else lines
    decreases n
  {
    var all := lines + seq(n, _ => "");
    if n > 0 {
      TrimmedEndIs(lines, n - 1);
      assert all[..|all| - 1] == lines + seq(n - 1, _ => "");
    } else {
      assert all == lines;
    }
  }

  function WithoutLastBlanks(lines: seq<string>): seq<string> { lines[..Filled(lines)] }

  /** `remove_config_bridge` on the lines of the file: blank lines go from before a key that is removed, and empty
      ones from the end of the file. */
  function FileWithoutBridge(lines: seq<string>, name: string): Option<seq<string>> {
    var doc := Parsed(TopLevel, lines);
    var now := BridgeRemoved(doc, name);
    if now.None? then None
    else if |now.value.blocks| == |doc.blocks| then Some(TrimmedEnd(Written(now.value)))
    else
      var n := Section(doc.blocks, "bridges");
      var before := Written(Document(doc.preamble, doc.blocks[..n]));
      Some(TrimmedEnd(WithoutLastBlanks(before) + Lines(doc.blocks[n + 1..])))
  }

  // Blank lines carry no value, so the ones that go with a bridge do not matter to a reader.

  /** Blocks that read the same. */
  ghost predicate Alike(a: seq<Block>, b: seq<Block>) {
    && |a| == |b|
    && forall i :: 0 <= i < |a| ==>
         && a[i].header == b[i].header
         && (forall k :: Word(k) ==> ValueIn(a[i].body, k) == ValueIn(b[i].body, k))
         && (forall name :: Lists(a[i].body, name) <==> Lists(b[i].body, name))
  }

  lemma AlikeReadTheSame(a: seq<Block>, b: seq<Block>, section: string, key: string)
    requires Alike(a, b) && Word(key)
    ensures Value(a, section, key) == Value(b, section, key)
  {
    SectionsStay(a, b);
  }

  function WithLine(doc: Document, line: string): Document {
    if doc.blocks == [] then Document(doc.preamble + [line], [])
    else
      var n := |doc.blocks| - 1;
      doc.(blocks := doc.blocks[n := Block(doc.blocks[n].header, doc.blocks[n].body + [line])])
  }

  lemma {:induction false} LastLineJoins(opens: string -> bool, lines: seq<string>, line: string)
    requires !opens(line)
    ensures Parsed(opens, lines + [line]) == WithLine(Parsed(opens, lines), line)
    decreases lines
  {
    if lines == [] {
      assert [] + [line] == [line] && [line][1..] == [];
    } else {
      assert (lines + [line])[1..] == lines[1..] + [line];
      LastLineJoins(opens, lines[1..], line);
    }
  }

  lemma {:induction false} BlankStripsToNothing(line: string)
    requires Blank(line)
    ensures TrimmedLeft(line) == ""
    decreases |line|
  {
    if line != "" {
      if !Space(line[0]) {
        assert [line[0]] + line[1..] == line;
        TrimmedTail([line[0]], line[1..]);
      } else {
        BlankStripsToNothing(line[1..]);
      }
    }
  }

  lemma {:induction false} BlankNamesNothing(lines: seq<string>, line: string)
    requires Blank(line)
    ensures NameIn(lines + [line]) == NameIn(lines)
    decreases lines
  {
    if lines == [] {
      BlankStripsToNothing(line);
      assert [] + [line] == [line] && [line][1..] == [];
      assert WithoutDash(line) == "";
    } else {
      assert (lines + [line])[1..] == lines[1..] + [line];
      BlankNamesNothing(lines[1..], line);
    }
  }

  lemma BlankIsNotListed(body: seq<string>, line: string, name: string)
    requires Blank(line)
    ensures Lists(body + [line], name) <==> Lists(body, name)
  {
    hide Parsed, NameIn, Blank;
    BlankStripsToNothing(line);
    LastLineJoins(StartsAnEntry, body, line);
    var was, now := Parsed(StartsAnEntry, body).blocks, Parsed(StartsAnEntry, body + [line]).blocks;
    if was != [] {
      var n := |was| - 1;
      BlankNamesNothing(BlockLines(was[n]), line);
      assert BlockLines(now[n]) == BlockLines(was[n]) + [line];
    }
    hide EntryName, StartsAnEntry;
    SameNamed(was, now, name);
  }

  lemma SameNamed(a: seq<Block>, b: seq<Block>, name: string)
    requires |a| == |b| && forall k :: 0 <= k < |a| ==> EntryName(a[k]) == EntryName(b[k])
    ensures Named(a, name) <==> Named(b, name)
  {
    hide EntryName;
    if Named(a, name) {
      var k :| 0 <= k < |a| && EntryName(a[k]) == Some(name);
      assert EntryName(b[k]) == Some(name);
    }
  }

  lemma BlankIsNotRead(body: seq<string>, line: string, key: string)
    requires Blank(line) && Word(key)
    ensures ValueIn(body + [line], key) == ValueIn(body, key)
  {
    var i := LastEntry(body, key);
    LastEntryIs(body + [line], key, if i < |body| then i else |body| + 1);
  }

  lemma BlankIsNotTopLevel(line: string)
    requires Blank(line)
    ensures !TopLevel(line)
  {
    if TopLevel(line) {
      assert [line[0]] + line[1..] == line;
      TrimmedTail([line[0]], line[1..]);
    }
  }

  lemma WithBlankIsAlike(doc: Document, line: string)
    requires Blank(line)
    ensures Alike(WithLine(doc, line).blocks, doc.blocks)
  {
    hide Blank, ValueIn, Word, Lists;
    if doc.blocks != [] {
      var body := doc.blocks[|doc.blocks| - 1].body;
      forall k | Word(k) ensures ValueIn(body + [line], k) == ValueIn(body, k) {
        BlankIsNotRead(body, line, k);
      }
      forall name ensures Lists(body + [line], name) <==> Lists(body, name) { BlankIsNotListed(body, line, name); }
    }
  }

  lemma BlankLastLine(lines: seq<string>, line: string)
    requires Blank(line)
    ensures Alike(Parsed(TopLevel, lines + [line]).blocks, Parsed(TopLevel, lines).blocks)
  {
    hide Blank, Alike, WithLine, Parsed, TopLevel;
    BlankIsNotTopLevel(line);
    LastLineJoins(TopLevel, lines, line);
    WithBlankIsAlike(Parsed(TopLevel, lines), line);
  }

  lemma {:induction false} BlanksAtTheEnd(lines: seq<string>)
    ensures Alike(Parsed(TopLevel, WithoutLastBlanks(lines)).blocks, Parsed(TopLevel, lines).blocks)
    decreases |lines|
  {
    var n := |lines| - 1;
    if lines != [] && Blank(lines[n]) {
      BlanksAtTheEnd(lines[..n]);
      BlankLastLine(lines[..n], lines[n]);
      assert lines == lines[..n] + [lines[n]];
      assert WithoutLastBlanks(lines) == WithoutLastBlanks(lines[..n]);
    } else {
      assert WithoutLastBlanks(lines) == lines;
    }
  }

  lemma {:induction false} EmptyLinesAtTheEnd(lines: seq<string>)
    ensures Alike(Parsed(TopLevel, TrimmedEnd(lines)).blocks, Parsed(TopLevel, lines).blocks)
    decreases |lines|
  {
    var n := |lines| - 1;
    if lines == [] {
      BlankLastLine([], "");
      assert [] + [""] == [""];
    } else if lines[n] == "" {
      EmptyLinesAtTheEnd(lines[..n]);
      BlankLastLine(lines[..n], "");
      assert lines == lines[..n] + [""];
    }
  }

  lemma AlikeAppend(a: seq<Block>, b: seq<Block>, more: seq<Block>)
    requires Alike(a, b)
    ensures Alike(a + more, b + more)
  {
  }

  lemma AlikeTrans(a: seq<Block>, b: seq<Block>, c: seq<Block>)
    requires Alike(a, b) && Alike(b, c)
    ensures Alike(a, c)
  {
  }

  /** The file that is written reads as the document without the bridge. */
  lemma FileReadsAsRemoved(lines: seq<string>, name: string)
    requires FileWithoutBridge(lines, name).Some?
    ensures Alike(Parsed(TopLevel, FileWithoutBridge(lines, name).value).blocks,
                  BridgeRemoved(Parsed(TopLevel, lines), name).value.blocks)
  {
    hide Names, EntryName, Entry, Entries;
    var doc := Parsed(TopLevel, lines);
    var now := BridgeRemoved(doc, name).value;
    var n := Section(doc.blocks, "bridges");
    ParsedIsProper(TopLevel, lines);
    if |now.blocks| == |doc.blocks| {
      RemovedIsProper(doc, name);
      WrittenIsParsed(TopLevel, now);
      EmptyLinesAtTheEnd(Written(now));
    } else {
      var before, rest := Document(doc.preamble, doc.blocks[..n]), doc.blocks[n + 1..];
      var kept := WithoutLastBlanks(Written(before));
      WrittenIsParsed(TopLevel, before);
      BlanksAtTheEnd(Written(before));
      LinesAreParsed(TopLevel, rest);
      ParsedAppend(TopLevel, kept, Lines(rest));
      AlikeAppend(Parsed(TopLevel, kept).blocks, before.blocks, rest);
      EmptyLinesAtTheEnd(kept + Lines(rest));
      AlikeTrans(Parsed(TopLevel, TrimmedEnd(kept + Lines(rest))).blocks,
                 Parsed(TopLevel, kept + Lines(rest)).blocks, before.blocks + rest);
    }
  }

  /** Whoever reads the file again finds every other section as it was. */
  lemma OthersReadTheSameInFile(lines: seq<string>, name: string, section: string, key: string)
    requires Word(section) && Word(key) && section != "bridges"
    ensures FileWithoutBridge(lines, name).Some? ==>
              FileValue(FileWithoutBridge(lines, name).value, section, key) == FileValue(lines, section, key)
  {
    hide Value, Parsed, FileWithoutBridge, BridgeRemoved;
    if FileWithoutBridge(lines, name).None? { return; }
    RemovedWhenFileIs(lines, name);
    FileReadsAsRemoved(lines, name);
    OthersReadTheSame(Parsed(TopLevel, lines), name, section, key);
    AlikeReadTheSame(Parsed(TopLevel, FileWithoutBridge(lines, name).value).blocks,
                     BridgeRemoved(Parsed(TopLevel, lines), name).value.blocks, section, key);
  }

  /** The same of the file that is written. */
  lemma BridgeIsForgottenInFile(lines: seq<string>, name: string)
    requires FileWithoutBridge(lines, name).Some?
    ensures var was := Parsed(TopLevel, lines).blocks;
            var now := Parsed(TopLevel, FileWithoutBridge(lines, name).value).blocks;
            Listed(now, name) <==>
              if SectionRepeats(was, "bridges") then Listed(was, name)
              else NamedAgain(Entries(was[Section(was, "bridges")]).blocks, name)
  {
    hide Listed, Lists, Entries, NamedAgain, SectionRepeats, FileWithoutBridge, BridgeRemoved, TopLevel;
    ParsedIsProper(TopLevel, lines);
    RemovedWhenFileIs(lines, name);
    FileReadsAsRemoved(lines, name);
    BridgeIsForgotten(Parsed(TopLevel, lines), name);
    AlikeListTheSame(Parsed(TopLevel, FileWithoutBridge(lines, name).value).blocks,
                     BridgeRemoved(Parsed(TopLevel, lines), name).value.blocks, name);
  }

  lemma AlikeListTheSame(a: seq<Block>, b: seq<Block>, name: string)
    requires Alike(a, b)
    ensures Listed(a, name) <==> Listed(b, name)
  {
    hide Lists, ValueIn;
    SectionsStay(a, b);
  }

  lemma RemovedWhenFileIs(lines: seq<string>, name: string)
    ensures FileWithoutBridge(lines, name).Some? <==> BridgeRemoved(Parsed(TopLevel, lines), name).Some?
  {
  }

  lemma {:induction false} LinesOfPart(part: seq<Block>, all: seq<Block>)
    requires forall b <- part :: b in all
    ensures forall x <- Lines(part) :: exists b :: b in all && x in BlockLines(b)
    decreases part
  {
    if part != [] { LinesOfPart(part[1..], all); }
  }

  lemma {:induction false} LineOfBlock(all: seq<Block>, b: Block, x: string)
    requires b in all && x in BlockLines(b)
    ensures x in Lines(all)
    decreases all
  {
    if b != all[0] { LineOfBlock(all[1..], b, x); }
  }

  lemma LeftIsInner(body: seq<string>, k: nat)
    requires Inner(TopLevel, body) && k < |Parsed(StartsAnEntry, body).blocks|
    ensures var seed := Parsed(StartsAnEntry, body);
            Inner(TopLevel, Written(seed.(blocks := Without(seed.blocks, k))))
  {
    hide TopLevel, StartsAnEntry, Parsed;
    var seed := Parsed(StartsAnEntry, body);
    var kept := Without(seed.blocks, k);
    ParsedIsWritten(StartsAnEntry, body);
    LinesOfPart(kept, seed.blocks);
    forall x | x in seed.preamble + Lines(kept) ensures !TopLevel(x) {
      if x !in seed.preamble {
        var b :| b in seed.blocks && x in BlockLines(b);
        LineOfBlock(seed.blocks, b, x);
      }
      assert x in body;
    }
  }

  lemma RemovedIsProper(doc: Document, name: string)
    requires Proper(TopLevel, doc.blocks) && BridgeRemoved(doc, name).Some?
    ensures Proper(TopLevel, BridgeRemoved(doc, name).value.blocks)
  {
    hide TopLevel, StartsAnEntry, Parsed, Names, EntryName, Entry, Written;
    var n := Section(doc.blocks, "bridges");
    var body := doc.blocks[n].body;
    var seed := Entries(doc.blocks[n]);
    if |seed.blocks| > 1 { LeftIsInner(body, Entry(seed.blocks, name)); }
  }

  // ---------------------------------------------------------------- the entries by index

  /** `starts` are the lines before `upto` that start an entry. */
  predicate AreStarts(lines: seq<string>, starts: seq<nat>, upto: nat) {
    && upto <= |lines|
    && (forall p :: 0 <= p < |starts| ==> starts[p] < upto && StartsAnEntry(lines[starts[p]]))
    && (forall p, q :: 0 <= p < q < |starts| ==> starts[p] < starts[q])
    && (forall i :: 0 <= i < upto && StartsAnEntry(lines[i]) ==> i in starts)
  }

  function EndOf(lines: seq<string>, starts: seq<nat>, p: nat): nat
    requires p < |starts|
  {
    if p + 1 < |starts| then starts[p + 1] else |lines|
  }

  lemma BetweenStarts(lines: seq<string>, starts: seq<nat>, p: nat)
    requires AreStarts(lines, starts, |lines|) && p < |starts|
    ensures IsBlock(StartsAnEntry, lines, starts[p], EndOf(lines, starts, p))
  {
    var first, last := starts[p], EndOf(lines, starts, p);
    forall i | first < i < last ensures !StartsAnEntry(lines[i]) {
      forall q | 0 <= q < |starts| ensures starts[q] != i {
        if q > p + 1 { assert starts[p + 1] < starts[q]; }
      }
      assert i !in starts;
    }
  }

  /** The entry that starts at `starts[p]` is the entry number `p`. */
  lemma {:induction false} StartsAreRanks(lines: seq<string>, starts: seq<nat>, p: nat)
    requires AreStarts(lines, starts, |lines|) && p < |starts|
    ensures Rank(StartsAnEntry, lines, starts[p]) == p
    decreases p
  {
    if p == 0 {
      NoRankYet(StartsAnEntry, lines, starts[0]);
    } else {
      StartsAreRanks(lines, starts, p - 1);
      BetweenStarts(lines, starts, p - 1);
      RankAfter(StartsAnEntry, lines, starts[p - 1], starts[p]);
    }
  }

  lemma EntryByIndex(lines: seq<string>, starts: seq<nat>, p: nat)
    requires AreStarts(lines, starts, |lines|) && p < |starts|
    ensures var entries := Parsed(StartsAnEntry, lines).blocks;
            p < |entries| && entries[p] == BlockAt(lines, starts[p], EndOf(lines, starts, p))
  {
    BetweenStarts(lines, starts, p);
    StartsAreRanks(lines, starts, p);
    BlockCut(StartsAnEntry, lines, starts[p], EndOf(lines, starts, p));
  }

  lemma AsManyEntries(lines: seq<string>, starts: seq<nat>)
    requires AreStarts(lines, starts, |lines|)
    ensures |Parsed(StartsAnEntry, lines).blocks| == |starts|
  {
    assert lines[..|lines|] == lines;
    if starts == [] {
      NoRankYet(StartsAnEntry, lines, |lines|);
    } else {
      var p := |starts| - 1;
      StartsAreRanks(lines, starts, p);
      BetweenStarts(lines, starts, p);
      RankAfter(StartsAnEntry, lines, starts[p], |lines|);
    }
  }

  /** The seed under `bridges:` has no entry of that name before the entry number `p`. */
  predicate NotBefore(body: seq<string>, starts: seq<nat>, name: string, p: nat)
    requires AreStarts(body, starts, |body|) && p <= |starts|
  {
    forall q :: 0 <= q < p ==> EntryName(BlockAt(body, starts[q], EndOf(body, starts, q))) != Some(name)
  }

  lemma EntryIs(body: seq<string>, starts: seq<nat>, name: string, p: nat)
    requires AreStarts(body, starts, |body|) && p <= |starts| && NotBefore(body, starts, name, p)
    requires p < |starts| ==> EntryName(BlockAt(body, starts[p], EndOf(body, starts, p))) == Some(name)
    ensures |Parsed(StartsAnEntry, body).blocks| == |starts|
    ensures Entry(Parsed(StartsAnEntry, body).blocks, name) == p
  {
    hide EntryName, StartsAnEntry;
    var entries := Parsed(StartsAnEntry, body).blocks;
    AsManyEntries(body, starts);
    var k := Entry(entries, name);
    if k < p {
      EntryByIndex(body, starts, k);
    } else if p < k {
      EntryByIndex(body, starts, p);
    }
  }

  lemma NotRemoved(lines: seq<string>, name: string, start: nat, end: nat, starts: seq<nat>)
    requires IsSection(lines, "bridges", start, end)
    requires AreStarts(lines[start + 1..end], starts, end - start - 1)
    requires NotBefore(lines[start + 1..end], starts, name, |starts|)
    ensures FileWithoutBridge(lines, name).None?
  {
    hide Names, Trimmed, EntryName, StartsAnEntry, Written;
    SectionByIndex(lines, "bridges", start, end);
    BlockCut(TopLevel, lines, start, end);
    EntryIs(lines[start + 1..end], starts, name, |starts|);
  }

  /** One of several entries: its lines are cut. */
  lemma EntryRemoved(lines: seq<string>, name: string, start: nat, end: nat, starts: seq<nat>, p: nat)
    requires IsSection(lines, "bridges", start, end) && p < |starts|
    requires AreStarts(lines[start + 1..end], starts, end - start - 1)
    requires var body := lines[start + 1..end];
             NotBefore(body, starts, name, p) && |starts| > 1 &&
             EntryName(BlockAt(body, starts[p], EndOf(body, starts, p))) == Some(name)
    ensures var body := lines[start + 1..end];
            FileWithoutBridge(lines, name) ==
            Some(TrimmedEnd(lines[..start + 1] + (body[..starts[p]] + body[EndOf(body, starts, p)..]) + lines[end..]))
  {
    hide Names, Trimmed, EntryName, StartsAnEntry, Written, TrimmedEnd, Parsed, Lines;
    var body := lines[start + 1..end];
    var first, last := starts[p], EndOf(body, starts, p);
    SectionByIndex(lines, "bridges", start, end);
    EntryIs(body, starts, name, p);
    BetweenStarts(body, starts, p);
    StartsAreRanks(body, starts, p);
    BlockCut(StartsAnEntry, body, first, last);
    BodyInPlace(TopLevel, lines, start, end, body[..first] + body[last..]);
  }

  /** The file, where the section of block `n` has one entry, of that name. */
  lemma KeyGoes(lines: seq<string>, name: string, n: nat)
    requires var blocks := Parsed(TopLevel, lines).blocks;
             && n == Section(blocks, "bridges") < |blocks|
             && |Entries(blocks[n]).blocks| == 1 && Entry(Entries(blocks[n]).blocks, name) == 0
    ensures var doc := Parsed(TopLevel, lines);
            FileWithoutBridge(lines, name) ==
            Some(TrimmedEnd(WithoutLastBlanks(Written(Document(doc.preamble, doc.blocks[..n]))) +
                            Lines(doc.blocks[n + 1..])))
  {
    hide Names, EntryName, Entry, Parsed, Written, Lines, TrimmedEnd, Filled, Section;
  }

  lemma NoSeed(lines: seq<string>, name: string)
    requires forall k :: 0 <= k < |lines| ==> !Opens(lines[k], "bridges")
    ensures FileWithoutBridge(lines, name).None?
  {
    NoSection(lines, "bridges");
  }

  /** The only entry: the key goes with it, and the blank lines before the key. */
  lemma KeyRemoved(lines: seq<string>, name: string, start: nat, end: nat, starts: seq<nat>)
    requires IsSection(lines, "bridges", start, end) && |starts| == 1
    requires AreStarts(lines[start + 1..end], starts, end - start - 1)
    requires EntryName(BlockAt(lines[start + 1..end], starts[0], end - start - 1)) == Some(name)
    ensures FileWithoutBridge(lines, name) ==
            Some(TrimmedEnd(lines[..Filled(lines[..start])] + lines[end..]))
  {
    hide Names, EntryName, StartsAnEntry, TrimmedEnd, Filled, FileWithoutBridge, Parsed, Written, Lines, TopLevel;
    SectionByIndex(lines, "bridges", start, end);
    AroundBlock(TopLevel, lines, start, end);
    EntryIs(lines[start + 1..end], starts, name, 0);
    hide AreStarts, Entry, Section, IsBlock;
    KeyGoes(lines, name, Rank(TopLevel, lines, start));
    assert lines[..start][..Filled(lines[..start])] == lines[..Filled(lines[..start])];
  }

  // ---------------------------------------------------------------- the file

  class ConfigFile {
    var lines: seq<string>

    constructor (text: seq<string>)
      ensures lines == text
    {
      lines := text;
    }

    /** The lines that bound the first section of that name, if there is one. */
    method Locate(section: string) returns (start: Option<nat>, end: nat)
      ensures start.None? ==> forall k :: 0 <= k < |lines| ==> !Opens(lines[k], section)
      ensures start.Some? ==> IsSection(lines, section, start.value, end)
    {
      start, end := None, |lines|;
      for index := 0 to |lines|
        invariant start.None? && forall k :: 0 <= k < index ==> !Opens(lines[k], section)
      {
        if TopLevel(lines[index]) && Names(lines[index], section) {
          start := Some(index);
          break;
        }
      }
      if start.None? { return; }
      for index := start.value + 1 to |lines|
        invariant end == |lines| && forall k :: start.value < k < index ==> !TopLevel(lines[k])
      {
        if TopLevel(lines[index]) {
          end := index;
          break;
        }
      }
    }

    /** False, and nothing written, where the section does not exist. */
    method SetConfigValue(section: string, key: string, value: string) returns (ok: bool)
      modifies this
      ensures var now := ConfigSet(old(lines), section, key, value);
              ok == now.Some? && lines == if ok then now.value else old(lines)
    {
      hide Trimmed, Names, EntryLine, ConfigSet, Find, Filled;
      var found, end := Locate(section);
      if found.None? {
        SetsNothing(lines, section, key, value);
        return false;
      }
      var from := found.value + 1;
      SetByIndex(lines, section, key, value, from - 1, end);
      var index := FindKey(from, end, key);
      if index < end {
        lines := lines[index := EntryLine(key, value)];
      } else {
        var insertAt := BeforeBlanks(from, end);
        lines := Inserted(lines, insertAt, EntryLine(key, value));
      }
      return true;
    }

    /** The first line of the section that names the key, or its end. */
    method FindKey(from: nat, end: nat, key: string) returns (index: nat)
      requires from <= end <= |lines|
      ensures from <= index <= end && Find(lines[from..end], key) == index - from
    {
      ghost var body := lines[from..end];
      index := from;
      while index < end && !Names(lines[index], key)
        invariant from <= index <= end
        invariant forall k :: 0 <= k < index - from ==> !Names(body[k], key)
      {
        index := index + 1;
      }
      FindIs(body, key, index - from);
    }

    /** Where to append to a section: before the blank lines that end it. */
    method BeforeBlanks(from: nat, end: nat) returns (insertAt: nat)
      requires from <= end <= |lines|
      ensures from <= insertAt <= end && Filled(lines[from..end]) == insertAt - from
    {
      ghost var body := lines[from..end];
      insertAt := end;
      while insertAt > from && Blank(lines[insertAt - 1])
        invariant from <= insertAt <= end
        invariant forall k :: insertAt - from <= k < |body| ==> Blank(body[k])
      {
        insertAt := insertAt - 1;
      }
      FilledIs(body, insertAt - from);
    }

    /** False, and nothing written, where there is no such bridge. */
    method RemoveConfigBridge(name: string) returns (removed: bool)
      modifies this
      ensures var now := FileWithoutBridge(old(lines), name);
              removed == now.Some? && lines == if removed then now.value else old(lines)
    {
      hide FileWithoutBridge, TrimmedEnd, Trimmed, Names, NameIn, EntryName, Filled;
      var found, end := Locate("bridges");
      if found.None? {
        NoSeed(lines, name);
        return false;
      }
      var start := found.value;
      var body := lines[start + 1..end];
      var starts := EntryStarts(body);
      var p := Position(body, starts, name);
      if p == |starts| {
        NotRemoved(lines, name, start, end, starts);
        return false;
      }
      var remaining;
      if |starts| == 1 {
        KeyRemoved(lines, name, start, end, starts);
        var cutFrom := BeforeBlanks(0, start);
        assert lines[0..start] == lines[..start];
        remaining := lines[..cutFrom] + lines[end..];
      } else {
        EntryRemoved(lines, name, start, end, starts, p);
        remaining := lines[..start + 1] + (body[..starts[p]] + body[EndOf(body, starts, p)..]) + lines[end..];
      }
      lines := TrimmedEnd(remaining);
      return true;
    }
  }

  /** Where each list entry begins. */
  method EntryStarts(body: seq<string>) returns (starts: seq<nat>)
    ensures AreStarts(body, starts, |body|)
  {
    starts := [];
    for i := 0 to |body|
      invariant AreStarts(body, starts, i)
    {
      if StartsAnEntry(body[i]) {
        ghost var was := starts;
        starts := starts + [i];
        assert starts[|was|] == i && forall x :: x in was ==> x in starts;
      }
    }
  }

  lemma NameByIndex(body: seq<string>, first: nat, last: nat)
    requires first < last <= |body|
    ensures EntryName(BlockAt(body, first, last)) == NameIn(body[first..last])
  {
    hide NameIn;
    assert body[first..last] == BlockLines(BlockAt(body, first, last));
  }

  /** The first entry of that name, or how many there are. */
  method Position(body: seq<string>, starts: seq<nat>, name: string) returns (p: nat)
    requires AreStarts(body, starts, |body|)
    ensures p <= |starts| && NotBefore(body, starts, name, p)
    ensures p < |starts| ==> EntryName(BlockAt(body, starts[p], EndOf(body, starts, p))) == Some(name)
  {
    hide StartsAnEntry, NameIn, EntryName;
    p := 0;
    while p < |starts|
      invariant p <= |starts| && NotBefore(body, starts, name, p)
    {
      var first, last := starts[p], EndOf(body, starts, p);
      NameByIndex(body, first, last);
      if NameIn(body[first..last]) == Some(name) { return; }
      p := p + 1;
    }
  }

  // ---------------------------------------------------------------- secrets

  /** The name an `.env` line assigns: what stands before the first `=`, or the whole line. */
  function Assigned(line: string): string { Trimmed(BeforeSign(line)) }

  function BeforeSign(line: string): (r: string)
    ensures |r| <= |line|
  {
    if line == "" || line[0] == '=' then "" else [line[0]] + BeforeSign(line[1..])
  }

  function Assignment(key: string, value: string): string { key + "=" + value }

  /** A name as callers use it: not empty, nothing to trim, no sign. */
  predicate Name(key: string) { key != "" && '=' !in key && !Space(key[0]) && !Space(key[|key| - 1]) }

  function FindName(lines: seq<string>, key: string): (i: nat)
    ensures i <= |lines|
    ensures i < |lines| ==> Assigned(lines[i]) == key
    ensures forall k :: 0 <= k < i ==> Assigned(lines[k]) != key
  {
    if lines == [] || Assigned(lines[0]) == key then 0 else 1 + FindName(lines[1..], key)
  }

  function EnvSet(lines: seq<string>, key: string, value: string): seq<string> {
    var i := FindName(lines, key);
    if i < |lines| then lines[i := Assignment(key, value)] else lines + [Assignment(key, value)]
  }

  /** The name is what stands before the first sign, trimmed; a line without a sign is all name. */
  lemma {:induction false} AssignedIs(before: string, after: string)
    requires '=' !in before
    ensures Assigned(before) == Trimmed(before) && Assigned(before + "=" + after) == Trimmed(before)
    decreases before
  {
    BeforeTheSign(before, after);
    NoSign(before);
  }

  lemma {:induction false} NoSign(line: string)
    requires '=' !in line
    ensures BeforeSign(line) == line
    decreases line
  {
    if line != "" { NoSign(line[1..]); }
  }

  /** The first line of the name gives way to the new one; without such a line it comes last. */
  lemma EnvSetIs(lines: seq<string>, key: string, value: string, i: nat)
    requires i <= |lines| && (i < |lines| ==> Assigned(lines[i]) == key)
    requires forall k :: 0 <= k < i ==> Assigned(lines[k]) != key
    ensures EnvSet(lines, key, value) ==
            lines[..i] + [key + "=" + value] + if i < |lines| then lines[i + 1..] else []
  {
    hide Assigned;
    FindNameIs(lines, key, i);
    if i == |lines| { assert lines[..i] == lines; }
  }

  function EnvUnset(lines: seq<string>, key: string): seq<string> {
    if lines == [] then []
    else (if Assigned(lines[0]) == key then [] else [lines[0]]) + EnvUnset(lines[1..], key)
  }

  /** The last line that assigns the name, or the end. */
  function LastName(lines: seq<string>, key: string): (i: nat)
    ensures i <= |lines| && (i < |lines| ==> Assigned(lines[i]) == key)
    ensures forall k :: 0 <= k < |lines| && Assigned(lines[k]) == key ==> k <= i < |lines|
  {
    if lines == [] then 0
    else
      var last := |lines| - 1;
      if Assigned(lines[last]) == key then last
      else
        var i := LastName(lines[..last], key);
        if i == last then |lines| else i
  }

  /** What a reader of the file finds under a name: the rest of the last line that assigns it, as `load_dotenv` has
      it. */
  function EnvValue(lines: seq<string>, key: string): Option<string> {
    var i := LastName(lines, key);
    if i == |lines| || |BeforeSign(lines[i])| == |lines[i]| then None else Some(lines[i][|BeforeSign(lines[i])| + 1..])
  }

  /** The name is assigned again below the line that is edited. */
  predicate NameRepeats(lines: seq<string>, key: string) {
    exists k :: FindName(lines, key) < k < |lines| && Assigned(lines[k]) == key
  }

  lemma {:induction false} BeforeTheSign(key: string, more: string)
    requires '=' !in key
    ensures BeforeSign(key + "=" + more) == key
    decreases key
  {
    if key != "" {
      assert (key + "=" + more)[1..] == key[1..] + "=" + more;
      BeforeTheSign(key[1..], more);
    } else {
      assert (key + "=" + more)[0] == '=';
    }
  }

  lemma AssignmentAssigns(key: string, value: string)
    requires Name(key)
    ensures Assigned(Assignment(key, value)) == key
    ensures |BeforeSign(Assignment(key, value))| == |key| && Assignment(key, value)[|key| + 1..] == value
  {
    BeforeTheSign(key, value);
  }

  lemma FindNameIs(lines: seq<string>, key: string, i: nat)
    requires i <= |lines| && (i < |lines| ==> Assigned(lines[i]) == key)
    requires forall k :: 0 <= k < i ==> Assigned(lines[k]) != key
    ensures FindName(lines, key) == i
  {
  }

  lemma LastNameIs(lines: seq<string>, key: string, i: nat)
    requires i <= |lines| && (i < |lines| ==> Assigned(lines[i]) == key)
    requires forall k :: 0 <= k < |lines| && Assigned(lines[k]) == key ==> k <= i < |lines|
    ensures LastName(lines, key) == i
  {
  }

  lemma LongerThanItsName(key: string, value: string)
    ensures |Assignment(key, value)| > |key|
  {
  }

  lemma SecretIsRead(lines: seq<string>, key: string, value: string)
    requires Name(key) && !NameRepeats(lines, key)
    ensures EnvValue(EnvSet(lines, key, value), key) == Some(value)
  {
    var i, now := FindName(lines, key), EnvSet(lines, key, value);
    hide Trimmed, BeforeSign, Assignment, Assigned, FindName, LastName, Name;
    AssignmentAssigns(key, value);
    LastNameIs(now, key, i);
    SignedBy(key, value);
  }

  lemma OthersAreRead(lines: seq<string>, key: string, value: string, other: string)
    requires Name(key) && (other != key || NameRepeats(lines, key))
    ensures EnvValue(EnvSet(lines, key, value), other) == EnvValue(lines, other)
  {
    var now, j := EnvSet(lines, key, value), LastName(lines, other);
    hide Trimmed, BeforeSign, Assignment, Assigned, FindName, LastName, Name;
    AssignmentAssigns(key, value);
    LastNameIs(now, other, if j == |lines| then |now| else j);
  }

  /** Every other name reads as before.  The secret itself reads back unless its name is assigned again below the line
      that is edited; then it, too, reads as before. */
  lemma SecretReadsBack(lines: seq<string>, key: string, value: string, other: string)
    requires Name(key)
    ensures EnvValue(EnvSet(lines, key, value), other) ==
            if other == key && !NameRepeats(lines, key) then Some(value) else EnvValue(lines, other)
  {
    hide EnvValue, EnvSet, NameRepeats, Name;
    if other == key && !NameRepeats(lines, key) {
      SecretIsRead(lines, key, value);
    } else {
      OthersAreRead(lines, key, value, other);
    }
  }

  lemma SignedBy(key: string, value: string)
    requires Name(key)
    ensures var line := Assignment(key, value);
            |BeforeSign(line)| < |line| && line[|BeforeSign(line)| + 1..] == value
  {
    AssignmentAssigns(key, value);
    LongerThanItsName(key, value);
  }

  /** The old secret comes back: a file that assigns the name twice. */
  lemma RepeatedSecret(key: string, first: string, last: string, value: string)
    requires Name(key)
    ensures var now := EnvSet([Assignment(key, first), Assignment(key, last)], key, value);
            now == [Assignment(key, value), Assignment(key, last)] && EnvValue(now, key) == Some(last)
  {
    hide Assigned, BeforeSign, Assignment, Trimmed;
    AssignmentAssigns(key, first);
    AssignmentAssigns(key, last);
    var lines := [Assignment(key, first), Assignment(key, last)];
    assert FindName(lines, key) == 0;
    assert Assigned(lines[1]) == key;
    SecretReadsBack(lines, key, value, key);
    LastNameIs(lines, key, 1);
    SignedBy(key, last);
  }

  lemma {:induction false} UnsetAppend(lines: seq<string>, key: string, line: string)
    ensures EnvUnset(lines + [line], key) == EnvUnset(lines, key) + if Assigned(line) == key then [] else [line]
    decreases lines
  {
    if lines == [] {
      assert [] + [line] == [line] && [line][1..] == [];
    } else {
      assert (lines + [line])[1..] == lines[1..] + [line];
      UnsetAppend(lines[1..], key, line);
    }
  }

  lemma {:induction false} UnsetAbsent(lines: seq<string>, key: string)
    requires forall k :: 0 <= k < |lines| ==> Assigned(lines[k]) != key
    ensures EnvUnset(lines, key) == lines
    decreases lines
  {
    if lines != [] { UnsetAbsent(lines[1..], key); }
  }

  /** No line assigns the name any more, and every other name reads as before. */
  lemma {:induction false} UnsetForgets(lines: seq<string>, key: string, other: string)
    ensures EnvValue(EnvUnset(lines, key), other) == if other == key then None else EnvValue(lines, other)
    decreases |lines|
  {
    hide Assigned, BeforeSign, EnvValue;
    if lines == [] {
      NothingIsRead(other);
    } else {
      var n := |lines| - 1;
      assert lines == lines[..n] + [lines[n]];
      UnsetForgets(lines[..n], key, other);
      UnsetAppend(lines[..n], key, lines[n]);
      ReadsOn(lines[..n], lines[n], other);
      if Assigned(lines[n]) != key {
        ReadsOn(EnvUnset(lines[..n], key), lines[n], other);
      } else {
        assert EnvUnset(lines[..n], key) + [] == EnvUnset(lines[..n], key);
      }
    }
  }

  lemma NothingIsRead(key: string)
    ensures EnvValue([], key) == None && EnvUnset([], key) == []
  {
  }

  lemma LastOfAppended(lines: seq<string>, line: string, key: string)
    ensures var i := LastName(lines, key);
            LastName(lines + [line], key) ==
            if Assigned(line) == key then |lines| else if i < |lines| then i else |lines| + 1
  {
    hide Assigned;
    var now := lines + [line];
    assert now[..|lines|] == lines && now[|lines|] == line;
  }

  lemma ReadsOn(lines: seq<string>, line: string, key: string)
    ensures EnvValue(lines + [line], key) ==
            if Assigned(line) == key then EnvValue([line], key) else EnvValue(lines, key)
  {
    hide Assigned, BeforeSign, LastName;
    LastOfAppended(lines, line, key);
    LastOfAppended([], line, key);
    assert [] + [line] == [line] && (lines + [line])[|lines|] == line;
  }

  /** Some line of the file is not blank. */
  predicate HasText(lines: seq<string>) { exists k :: 0 <= k < |lines| && !Blank(lines[k]) }

  /** The `.env` file, when it exists, and the environment of the process. */
  datatype Env = Env(file: Option<seq<string>>, environ: map<string, string>)

  function EnvAfterSet(e: Env, key: string, value: string): Env {
    Env(Some(EnvSet(if e.file.None? then [] else e.file.value, key, value)), e.environ[key := value])
  }

  function EnvAfterUnset(e: Env, key: string): Env {
    var file := if e.file.None? then None
                else
                  var kept := EnvUnset(e.file.value, key);
                  if HasText(kept) then Some(kept) else None;
    Env(file, e.environ - {key})
  }

  /** Nothing but white space. */
  predicate Textless(lines: seq<string>) { forall k :: 0 <= k < |lines| ==> AllSpace(lines[k]) }

  lemma HasNoText(lines: seq<string>)
    ensures HasText(lines) <==> !Textless(lines)
  {
    hide AllSpace, Trimmed;
    forall k | 0 <= k < |lines| ensures Blank(lines[k]) <==> AllSpace(lines[k]) { BlankIs(lines[k]); }
  }

  /** Forgetting a name takes it from the process and its lines from the file; a file left without text is removed,
      and one that is not there stays away. */
  lemma UnsetLeaves(e: Env, key: string)
    ensures var now := EnvAfterUnset(e, key);
            && now.environ == e.environ - {key}
            && (e.file == None ==> now.file == None)
            && (e.file != None ==>
                  var kept := EnvUnset(e.file.value, key);
                  now.file == if Textless(kept) then None else Some(kept))
  {
    hide Textless, HasText, EnvUnset;
    if e.file.Some? { HasNoText(EnvUnset(e.file.value, key)); }
  }

  predicate Knows(e: Env, key: string) {
    key in e.environ || (e.file.Some? && exists k :: 0 <= k < |e.file.value| && Assigned(e.file.value[k]) == key)
  }

  /** Forgetting a secret that nobody knew before it was set puts everything back, exactly when the file was not there
      or had something in it; a file of blank lines only is removed. */
  lemma UnsetUndoesSet(e: Env, key: string, value: string)
    requires Name(key) && !Knows(e, key)
    ensures EnvAfterUnset(EnvAfterSet(e, key, value), key) == e <==>
            e.file.None? || HasText(e.file.value)
  {
    hide BeforeSign, Trimmed, Assignment;
    var lines := if e.file.None? then [] else e.file.value;
    var line := Assignment(key, value);
    AssignmentAssigns(key, value);
    FindNameIs(lines, key, |lines|);
    UnsetAppend(lines, key, line);
    UnsetAbsent(lines, key);
    assert EnvUnset(lines + [line], key) == lines;
    assert e.environ[key := value] - {key} == e.environ;
  }

  /** What the program has under a name: a variable of the process, else what the file says; a start does not override
      the variables it inherits. */
  function Loaded(e: Env, key: string): Option<string> {
    if key in e.environ then Some(e.environ[key])
    else if e.file.None? then None
    else EnvValue(e.file.value, key)
  }

  /** The running program has the new secret; after a start that does not inherit the name, the program has it exactly
      when the name is not assigned again further down, or is so with the same value. */
  lemma SecretAfterRestart(e: Env, key: string, value: string, inherited: map<string, string>)
    requires Name(key) && key !in inherited
    ensures var now := EnvAfterSet(e, key, value);
            && Loaded(now, key) == Some(value)
            && (Loaded(now.(environ := inherited), key) == Some(value) <==>
                  || e.file.None? || !NameRepeats(e.file.value, key)
                  || EnvValue(e.file.value, key) == Some(value))
  {
    hide EnvSet, EnvValue, Name, NameRepeats;
    var lines := if e.file.None? then [] else e.file.value;
    SecretReadsBack(lines, key, value, key);
    if e.file.None? { NoNameRepeats(key); }
  }

  lemma NoNameRepeats(key: string)
    ensures !NameRepeats([], key)
  {
  }

  class EnvFile {
    var file: Option<seq<string>>
    var environ: map<string, string>

    constructor (e: Env)
      ensures State() == e
    {
      file := e.file;
      environ := e.environ;
    }

    function State(): Env
      reads this
    {
      Env(file, environ)
    }

    method SetEnvValue(key: string, value: string)
      modifies this
      ensures State() == EnvAfterSet(old(State()), key, value)
    {
      hide Assigned;
      var lines := if file.Some? then file.value else [];
      ghost var was := lines;
      var index := 0;
      while index < |lines| && Assigned(lines[index]) != key
        invariant index <= |lines| && forall k :: 0 <= k < index ==> Assigned(lines[k]) != key
      {
        index := index + 1;
      }
      FindNameIs(lines, key, index);
      if index < |lines| {
        lines := lines[index := Assignment(key, value)];
      } else {
        lines := lines + [Assignment(key, value)];
      }
      file := Some(lines);
      environ := environ[key := value];
    }

    method UnsetEnvValue(key: string)
      modifies this
      ensures State() == EnvAfterUnset(old(State()), key)
    {
      hide Assigned;
      environ := environ - {key};
      if file.None? { return; }
      var lines := file.value;
      var kept: seq<string>, any := [], false;
      assert lines[..|lines|] == lines;
      for i := 0 to |lines|
        invariant kept == EnvUnset(lines[..i], key)
        invariant any <==> HasText(kept)
        invariant environ == old(environ) - {key}
      {
        UnsetAppend(lines[..i], key, lines[i]);
        assert lines[..i + 1] == lines[..i] + [lines[i]];
        if Assigned(lines[i]) != key {
          ghost var was := kept;
          kept := kept + [lines[i]];
          any := any || !Blank(lines[i]);
          assert kept[|was|] == lines[i] && kept[..|was|] == was;
        } else {
          assert kept + [] == kept;
        }
      }
      assert lines[..|lines|] == lines;
      file := if any then Some(kept) else None;
    }
  }
}
