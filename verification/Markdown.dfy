// Telegram's formatted ranges rendered as the markdown MAX parses back, and moved along behind a prefix:
// `bridge/formatting/elements.py` and `bridge/formatting/forwards.py`.
//
// Offsets count UTF-16 code units (section 2.1 of RFC 2781), so the text is cut in that encoding.  A cut that would
// split a surrogate pair cannot be decoded; the original raises there, and the model answers `None`.
module Markdown {
  import opened Sequences
  import opened Wrappers

  // ---------------------------------------------------------------- UTF-16

  predicate High(u: int) { 0xD800 <= u < 0xDC00 }

  predicate Low(u: int) { 0xDC00 <= u < 0xE000 }

  function UnitsOf(c: char): (r: seq<int>)
    ensures |r| == 1 ==> r[0] == c as int && !High(r[0]) && !Low(r[0])
    ensures |r| == 1 || (|r| == 2 && High(r[0]) && Low(r[1]))
  {
    var n := c as int;
    if n < 0x10000 then [n] else [0xD800 + (n - 0x10000) / 0x400, 0xDC00 + (n - 0x10000) % 0x400]
  }

  function Encoded(text: string): seq<int> {
    if text == "" then [] else UnitsOf(text[0]) + Encoded(text[1..])
  }

  /** The character at the front of some units, and how many units it took. */
  function FirstOf(units: seq<int>): (r: Option<(char, int)>)
    requires units != []
    ensures r.Some? ==> 1 <= r.value.1 <= |units|
  {
    var u := units[0];
    if High(u) then
      if |units| > 1 && Low(units[1])
      then Some(((0x10000 + (u - 0xD800) * 0x400 + (units[1] - 0xDC00)) as char, 2))
      else None
    else if 0 <= u < 0xD800 || 0xE000 <= u < 0x10000 then Some((u as char, 1))
    else None
  }

  function Decoded(units: seq<int>): Option<string>
    decreases |units|
  {
    if units == [] then Some("")
    else
      var first := FirstOf(units);
      if first.None? then None
      else
        var rest := Decoded(units[first.value.1..]);
        if rest.None? then None else Some([first.value.0] + rest.value)
  }

  /** A character of the first plane is one unit; of the others, two, with ten bits each. */
  lemma UnitsAre(c: char)
    ensures var n := c as int;
            if n < 0x10000 then UnitsOf(c) == [n]
            else |UnitsOf(c)| == 2 &&
                 var high, low := UnitsOf(c)[0] - 0xD800, UnitsOf(c)[1] - 0xDC00;
                 0 <= high < 0x400 && 0 <= low < 0x400 && n == 0x10000 + 0x400 * high + low
  {
    var k := c as int - 0x10000;
    if 0 <= k { assert k == 0x400 * (k / 0x400) + k % 0x400; }
  }

  lemma FirstOfEncoded(c: char, rest: seq<int>)
    ensures FirstOf(UnitsOf(c) + rest) == Some((c, |UnitsOf(c)|))
  {
    var n := c as int;
    if n >= 0x10000 {
      var k := n - 0x10000;
      assert k == (k / 0x400) * 0x400 + k % 0x400;
    }
  }

  lemma {:induction false} DecodeAfterOne(c: char, rest: seq<int>)
    ensures Decoded(UnitsOf(c) + rest) ==
            if Decoded(rest).None? then None else Some([c] + Decoded(rest).value)
  {
    FirstOfEncoded(c, rest);
    assert (UnitsOf(c) + rest)[|UnitsOf(c)|..] == rest;
  }

  lemma {:induction false} EncodingRoundTrips(text: string)
    ensures Decoded(Encoded(text)) == Some(text)
    decreases text
  {
    if text != "" {
      EncodingRoundTrips(text[1..]);
      DecodeAfterOne(text[0], Encoded(text[1..]));
      assert [text[0]] + text[1..] == text;
    }
  }

  lemma {:induction false} EncodedAppend(a: string, b: string)
    ensures Encoded(a + b) == Encoded(a) + Encoded(b)
    decreases a
  {
    if a == "" {
      assert a + b == b;
    } else {
      assert (a + b)[1..] == a[1..] + b;
      EncodedAppend(a[1..], b);
    }
  }

  lemma FirstOfAppend(u: seq<int>, v: seq<int>)
    requires u != [] && FirstOf(u).Some?
    ensures FirstOf(u + v) == FirstOf(u) && (u + v)[FirstOf(u).value.1..] == u[FirstOf(u).value.1..] + v
  {
    assert (u + v)[0] == u[0];
    if |u| > 1 { assert (u + v)[1] == u[1]; }
  }

  lemma {:induction false} DecodedAppend(u: seq<int>, v: seq<int>)
    requires Decoded(u).Some?
    ensures Decoded(u + v) == if Decoded(v).None? then None else Some(Decoded(u).value + Decoded(v).value)
    decreases |u|
  {
    if u == [] {
      assert u + v == v;
      if Decoded(v).Some? { assert "" + Decoded(v).value == Decoded(v).value; }
    } else {
      var n := FirstOf(u).value.1;
      FirstOfAppend(u, v);
      DecodedAppend(u[n..], v);
      if Decoded(v).Some? { Associative([FirstOf(u).value.0], Decoded(u[n..]).value, Decoded(v).value); }
    }
  }

  /** A place in the text between the two halves of one character. */
  predicate Splits(units: seq<int>, i: nat) { i < |units| && Low(units[i]) }

  lemma HalfIsNoCharacter(u: int)
    requires High(u)
    ensures Decoded([u]).None?
  {
  }

  lemma SplitsBehind(first: seq<int>, rest: seq<int>, i: nat)
    requires |first| <= i
    ensures Splits(first + rest, i) <==> Splits(rest, i - |first|)
  {
  }

  lemma CutBehind(first: seq<int>, rest: seq<int>, a: nat, b: nat)
    requires |first| <= b && a <= b <= |first + rest|
    ensures |first| <= a ==> (first + rest)[a..b] == rest[a - |first|..b - |first|]
    ensures (first + rest)[0..b] == first + rest[0..b - |first|]
  {
  }

  /** A cut that starts between characters can be decoded exactly when it ends between characters. */
  lemma {:induction false} CutDecodes(text: string, a: nat, b: nat)
    requires a <= b <= |Encoded(text)| && !Splits(Encoded(text), a)
    ensures Decoded(Encoded(text)[a..b]).Some? <==> !Splits(Encoded(text), b)
    decreases text
  {
    assert Decoded([]).Some?;
    hide Decoded, UnitsOf;
    if text != "" {
      var units, first, rest := Encoded(text), UnitsOf(text[0]), Encoded(text[1..]);
      var w := |first|;
      if a >= w {
        hide Splits, Encoded;
        CutBehind(first, rest, a, b);
        SplitsBehind(first, rest, a);
        SplitsBehind(first, rest, b);
        CutDecodes(text[1..], a - w, b - w);
      } else if b >= w {
        assert a == 0;
        NeverStartsLow(text[1..]);
        hide Splits, Encoded;
        CutBehind(first, rest, a, b);
        DecodeAfterOne(text[0], rest[0..b - w]);
        SplitsBehind(first, rest, b);
        CutDecodes(text[1..], 0, b - w);
      } else if b > 0 {
        assert units[a..b] == [first[0]];
        HalfIsNoCharacter(first[0]);
      }
    }
  }

  lemma NeverStartsLow(text: string)
    ensures !Splits(Encoded(text), 0)
  {
    if text != "" { assert Encoded(text)[0] == UnitsOf(text[0])[0]; }
  }

  // ---------------------------------------------------------------- ranges

  datatype Kind = Bold | Italic | Underline | Strikethrough | Code | Pre | TextLink | Other

  /** `url` and `language` are empty where there is none; only a block of code has a language. */
  datatype Range = Range(kind: Kind, offset: nat, length: nat, url: string, language: string)

  function End(r: Range): nat { r.offset + r.length }

  /** The ranges markdown has a form for. */
  function Known(ranges: seq<Range>): seq<Range> {
    if ranges == [] then []
    else if ranges[0].kind.Other? then Known(ranges[1..])
    else [ranges[0]] + Known(ranges[1..])
  }

  /** What is left out is exactly what markdown has no form for; the order stays. */
  lemma {:induction false} KnownIs(a: seq<Range>, b: seq<Range>)
    ensures Known(a + b) == Known(a) + Known(b)
    ensures |a| == 1 ==> Known(a) == if a[0].kind == Other then [] else a
    decreases a
  {
    if a == [] {
      assert a + b == b;
    } else {
      assert (a + b)[1..] == a[1..] + b;
      KnownIs(a[1..], b);
      if |a| == 1 { assert a[1..] == [] && [a[0]] == a; }
      Associative([a[0]], Known(a[1..]), Known(b));
    }
  }

  /** Sooner first; of two that start together, the longer one. */
  predicate Before(a: Range, b: Range) { a.offset < b.offset || (a.offset == b.offset && a.length > b.length) }

  function Placed(r: Range, ranges: seq<Range>): seq<Range> {
    if ranges == [] || !Before(ranges[0], r) then [r] + ranges else [ranges[0]] + Placed(r, ranges[1..])
  }

  /** The stable sort by `(offset, -length)`. */
  function Sorted(ranges: seq<Range>): seq<Range> {
    if ranges == [] then [] else Placed(ranges[0], Sorted(ranges[1..]))
  }

  predicate Ordered(ranges: seq<Range>) {
    forall i, j :: 0 <= i < j < |ranges| ==> !Before(ranges[j], ranges[i])
  }

  lemma {:induction false} PlacedIsOrdered(r: Range, ranges: seq<Range>)
    requires Ordered(ranges)
    ensures Ordered(Placed(r, ranges))
    ensures forall x :: x in Placed(r, ranges) <==> x == r || x in ranges
    decreases ranges
  {
    if ranges != [] && Before(ranges[0], r) {
      PlacedIsOrdered(r, ranges[1..]);
      var rest := Placed(r, ranges[1..]);
      forall j | 0 <= j < |rest| ensures !Before(rest[j], ranges[0]) {
        assert rest[j] in rest;
      }
    }
  }

  /** The ranges of one offset and one length, in their order. */
  function AtKey(ranges: seq<Range>, offset: nat, length: nat): seq<Range> {
    if ranges == [] then []
    else if ranges[0].offset == offset && ranges[0].length == length
    then [ranges[0]] + AtKey(ranges[1..], offset, length)
    else AtKey(ranges[1..], offset, length)
  }

  lemma {:induction false} PlacedIsStable(r: Range, ranges: seq<Range>, offset: nat, length: nat)
    ensures AtKey(Placed(r, ranges), offset, length) == AtKey([r] + ranges, offset, length)
    decreases ranges
  {
    assert ([r] + ranges)[1..] == ranges;
    if ranges != [] && Before(ranges[0], r) {
      PlacedIsStable(r, ranges[1..], offset, length);
      assert ([r] + ranges[1..])[1..] == ranges[1..];
    }
  }

  lemma {:induction false} PlacedKeepsAll(r: Range, ranges: seq<Range>)
    ensures multiset(Placed(r, ranges)) == multiset([r]) + multiset(ranges)
    decreases ranges
  {
    if ranges != [] && Before(ranges[0], r) {
      PlacedKeepsAll(r, ranges[1..]);
      assert ranges == [ranges[0]] + ranges[1..];
    }
  }

  /** A stable sort: in order, nothing lost or invented, and ranges of one key in the order they came in. */
  lemma {:induction false} SortedIsOrdered(ranges: seq<Range>)
    ensures Ordered(Sorted(ranges)) && multiset(Sorted(ranges)) == multiset(ranges)
    ensures forall x :: x in Sorted(ranges) <==> x in ranges
    ensures forall offset: nat, length: nat :: AtKey(Sorted(ranges), offset, length) == AtKey(ranges, offset, length)
    decreases ranges
  {
    if ranges != [] {
      var first, rest := ranges[0], Sorted(ranges[1..]);
      SortedIsOrdered(ranges[1..]);
      PlacedIsOrdered(first, rest);
      PlacedKeepsAll(first, rest);
      assert ranges == [first] + ranges[1..];
      forall offset: nat, length: nat
        ensures AtKey(Sorted(ranges), offset, length) == AtKey(ranges, offset, length)
      {
        PlacedIsStable(first, rest, offset, length);
        assert ([first] + rest)[1..] == rest;
        assert AtKey(rest, offset, length) == AtKey(ranges[1..], offset, length);
      }
    }
  }

  /** By offset, and the longer of two that start together first. */
  lemma SortedByOffset(ranges: seq<Range>, i: nat, j: nat)
    requires i < j < |Sorted(ranges)|
    ensures var a, b := Sorted(ranges)[i], Sorted(ranges)[j];
            a.offset < b.offset || (a.offset == b.offset && b.length <= a.length)
  {
    SortedIsOrdered(ranges);
    assert !Before(Sorted(ranges)[j], Sorted(ranges)[i]);
  }

  /** The ranges that are rendered: of two that overlap, the one that comes first. */
  function Chosen(ranges: seq<Range>, cursor: nat): seq<Range>
    decreases ranges
  {
    if ranges == [] then []
    else if ranges[0].offset < cursor then Chosen(ranges[1..], cursor)
    else [ranges[0]] + Chosen(ranges[1..], End(ranges[0]))
  }

  /** What is rendered goes left to right without overlap. */
  predicate Apart(ranges: seq<Range>, cursor: nat)
    decreases ranges
  {
    ranges == [] || (cursor <= ranges[0].offset && Apart(ranges[1..], End(ranges[0])))
  }

  predicate StartsInside(r: Range, other: Range) { other.offset <= r.offset < End(other) }

  /** Of the ranges markdown knows, sorted, the chosen ones lie apart, and every one that was dropped starts inside one
      that was chosen, or before the cursor. */
  lemma {:induction false} DroppedStartsInside(ranges: seq<Range>, cursor: nat)
    requires Ordered(ranges)
    ensures Apart(Chosen(ranges, cursor), cursor)
    ensures forall r <- Chosen(ranges, cursor) :: r in ranges
    ensures forall r <- ranges ::
              || r in Chosen(ranges, cursor)
              || r.offset < cursor
              || exists x :: x in Chosen(ranges, cursor) && StartsInside(r, x) && !Before(r, x)
    decreases ranges
  {
    if ranges != [] {
      var first, rest := ranges[0], ranges[1..];
      if first.offset < cursor {
        DroppedStartsInside(rest, cursor);
      } else {
        DroppedStartsInside(rest, End(first));
        var chosen := Chosen(ranges, cursor);
        assert first == chosen[0] && Chosen(rest, End(first)) == chosen[1..];
        forall r | r in ranges
          ensures r in chosen || exists x :: x in chosen && StartsInside(r, x) && !Before(r, x)
        {
          var i :| 0 <= i < |ranges| && ranges[i] == r;
          if r !in chosen {
            assert i > 0 && r in rest && r !in chosen[1..];
            if r.offset < End(first) {
              assert !Before(r, first);
              assert StartsInside(r, first);
            }
          }
        }
      }
    }
  }

  // ---------------------------------------------------------------- rendering

  /** A piece of the output: some of the text, and what is put around it. */
  datatype Piece<T> = Piece(opener: string, body: seq<T>, closer: string)

  function Marks(r: Range): (string, string) {
    match r.kind
    case Bold => ("**", "**")
    case Italic => ("_", "_")
    case Underline => ("__", "__")
    case Strikethrough => ("~~", "~~")
    case Code => ("`", "`")
    case Pre => ("```", "```")
    case TextLink => ("[", "](" + r.url + ")")
    case Other => ("", "")
  }

  function Joined(pieces: seq<Piece<char>>): string {
    if pieces == [] then "" else pieces[0].opener + pieces[0].body + pieces[0].closer + Joined(pieces[1..])
  }

  /** The output with everything that was put in taken out again. */
  function Stripped<T>(pieces: seq<Piece<T>>): seq<T> {
    if pieces == [] then [] else pieces[0].body + Stripped(pieces[1..])
  }

  function Clip(units: seq<int>, i: nat): (k: nat)
    ensures k <= |units| && (i <= |units| ==> k == i) && (i > |units| ==> k == |units|)
  {
    if i <= |units| then i else |units|
  }

  function Cut(units: seq<int>, a: nat, b: nat): seq<int>
    requires a <= b
  {
    units[Clip(units, a)..Clip(units, b)]
  }

  function Plain<T>(body: seq<T>): Piece<T> { Piece("", body, "") }

  function Marked<T>(r: Range, body: seq<T>): Piece<T> { Piece(Marks(r).0, body, Marks(r).1) }

  /** The units from `cursor` on, with the ranges marked. */
  function Laid(units: seq<int>, ranges: seq<Range>, cursor: nat): seq<Piece<int>>
    requires Apart(ranges, cursor)
    decreases ranges
  {
    if ranges == [] then [Plain(units[Clip(units, cursor)..])]
    else
      var r := ranges[0];
      [Plain(Cut(units, cursor, r.offset)), Marked(r, Cut(units, r.offset, End(r)))] + Laid(units, ranges[1..], End(r))
  }

  /** The pieces as words, or `None` when one of them cannot be decoded. */
  function AsWords(pieces: seq<Piece<int>>): Option<seq<Piece<char>>> {
    if pieces == [] then Some([]) else Joins(OneAsWords(pieces[0]), AsWords(pieces[1..]))
  }

  function OneAsWords(p: Piece<int>): Option<Piece<char>> {
    if Decoded(p.body).None? then None else Some(Piece(p.opener, Decoded(p.body).value, p.closer))
  }

  function Joins<T>(first: Option<T>, more: Option<seq<T>>): Option<seq<T>> {
    if first.None? || more.None? then None else Some([first.value] + more.value)
  }

  lemma ChosenAreApart(ranges: seq<Range>, cursor: nat)
    ensures Apart(Chosen(ranges, cursor), cursor)
    decreases ranges
  {
    if ranges != [] {
      ChosenAreApart(ranges[1..], cursor);
      ChosenAreApart(ranges[1..], End(ranges[0]));
    }
  }

  /** The pieces `entities_to_markdown` joins, or `None` where a cut splits a character. */
  function Rendered(text: string, ranges: seq<Range>): Option<seq<Piece<char>>> {
    var known := Known(ranges);
    if known == [] then Some([Plain(text)])
    else
      ChosenAreApart(Sorted(known), 0);
      AsWords(Laid(Encoded(text), Chosen(Sorted(known), 0), 0))
  }

  function Output(text: string, ranges: seq<Range>): Option<string> {
    if Rendered(text, ranges).None? then None else Some(Joined(Rendered(text, ranges).value))
  }

  /** Words as markdown writes them in one of its forms. */
  function MarkedUp(kind: Kind, url: string, words: string): string {
    match kind
    case Bold => "**" + words + "**"
    case Italic => "_" + words + "_"
    case Underline => "__" + words + "__"
    case Strikethrough => "~~" + words + "~~"
    case Code => "`" + words + "`"
    case Pre => "```" + words + "```"
    case TextLink => "[" + words + "](" + url + ")"
    case Other => words
  }

  lemma MarkedWords(r: Range, words: string)
    ensures Marks(r).0 + words + Marks(r).1 == MarkedUp(r.kind, r.url, words)
  {
    if r.kind.TextLink? { assert "[" + words + ("](" + r.url + ")") == "[" + words + "](" + r.url + ")"; }
    if r.kind.Other? { assert "" + words + "" == words; }
  }

  lemma ThreeJoined(a: string, p: Piece<char>, b: string)
    ensures Joined([Plain(a), p, Plain(b)]) == a + (p.opener + p.body + p.closer) + b
  {
    var all := [Plain(a), p, Plain(b)];
    assert all[1..] == [p, Plain(b)] && [p, Plain(b)][1..] == [Plain(b)];
    PlainOutput(b);
    assert "" + a + "" == a;
  }

  lemma OneRangeIsChosen(r: Range)
    requires r.kind != Other
    ensures Chosen(Sorted(Known([r])), 0) == [r] && Known([r]) != []
  {
    assert [r][1..] == [] && [r] + [] == [r];
    assert Known([]) == [] && Known([r]) == [r];
    assert Sorted([]) == [] && Sorted([r]) == [r];
    assert Chosen([], End(r)) == [];
  }

  lemma OneRangeLaid(units: seq<int>, r: Range)
    ensures Laid(units, [r], 0) ==
            [Plain(Cut(units, 0, r.offset)), Marked(r, Cut(units, r.offset, End(r))),
             Plain(units[Clip(units, End(r))..])]
  {
    hide Cut, Clip, Marks;
    assert [r][1..] == [];
    assert Laid(units, [], End(r)) == [Plain(units[Clip(units, End(r))..])];
  }

  lemma ThreeAsWords(a: Piece<int>, b: Piece<int>, c: Piece<int>)
    requires OneAsWords(a).Some? && OneAsWords(b).Some? && OneAsWords(c).Some?
    ensures AsWords([a, b, c]) == Some([OneAsWords(a).value, OneAsWords(b).value, OneAsWords(c).value])
  {
    hide OneAsWords;
    var last := OneAsWords(c).value;
    assert [c][1..] == [] && AsWords([]) == Some([]) && [last] + [] == [last];
    assert AsWords([c]) == Some([last]);
    assert [a, b] + [c] == [a, b, c];
    TwoPieces(a, b, [c]);
    var first, next := OneAsWords(a).value, OneAsWords(b).value;
    assert [first] + ([next] + [last]) == [first, next, last];
  }

  /** One range between what comes before and after it: its words stand between the marks of its kind. */
  lemma OneRangeIsMarked(before: string, words: string, after: string, kind: Kind, url: string, language: string)
    ensures var r := Range(kind, |Encoded(before)|, |Encoded(words)|, url, language);
            Output(before + words + after, [r]) == Some(before + MarkedUp(kind, url, words) + after)
  {
    hide Encoded, Decoded;
    var r := Range(kind, |Encoded(before)|, |Encoded(words)|, url, language);
    assert [r][1..] == [];
    if kind == Other {
      assert Known([r]) == [];
      PlainOutput(before + words + after);
    } else {
      OneRangeIsChosen(r);
      OneRangeRendered(before, words, after, r);
      ThreeJoined(before, Piece(Marks(r).0, words, Marks(r).1), after);
      MarkedWords(r, words);
    }
  }

  lemma OneRangeRendered(before: string, words: string, after: string, r: Range)
    requires r.offset == |Encoded(before)| && r.length == |Encoded(words)|
    ensures AsWords(Laid(Encoded(before + words + after), [r], 0)) ==
            Some([Plain(before), Piece(Marks(r).0, words, Marks(r).1), Plain(after)])
  {
    hide Encoded, Decoded, Marks;
    var b, w, a := Encoded(before), Encoded(words), Encoded(after);
    var units := Encoded(before + words + after);
    EncodedAppend(before + words, after);
    EncodedAppend(before, words);
    ThreeCuts(b, w, a, r);
    assert units == b + w + a;
    hide Cut, Clip;
    OneRangeLaid(units, r);
    EncodingRoundTrips(before);
    EncodingRoundTrips(words);
    EncodingRoundTrips(after);
    ThreeAsWords(Plain(b), Marked(r, w), Plain(a));
  }

  lemma ThreeCuts(b: seq<int>, w: seq<int>, a: seq<int>, r: Range)
    requires r.offset == |b| && r.length == |w|
    ensures var units := b + w + a;
            Cut(units, 0, r.offset) == b && Cut(units, r.offset, End(r)) == w && units[Clip(units, End(r))..] == a
  {
  }

  lemma TwoStripped<T>(a: Piece<T>, b: Piece<T>, more: seq<Piece<T>>)
    ensures Stripped([a, b] + more) == a.body + (b.body + Stripped(more))
  {
    assert ([a, b] + more)[1..] == [b] + more && ([b] + more)[1..] == more;
  }

  lemma CutsJoin(units: seq<int>, from: nat, mid: nat, to: nat)
    requires from <= mid <= to
    ensures Cut(units, from, mid) + (Cut(units, mid, to) + units[Clip(units, to)..]) == units[Clip(units, from)..]
  {
  }

  lemma {:induction false} LaidCoversTheRest(units: seq<int>, ranges: seq<Range>, cursor: nat)
    requires Apart(ranges, cursor)
    ensures Stripped(Laid(units, ranges, cursor)) == units[Clip(units, cursor)..]
    decreases ranges
  {
    if ranges != [] {
      hide Cut, Clip, Stripped;
      var r := ranges[0];
      LaidCoversTheRest(units, ranges[1..], End(r));
      TwoStripped(Plain(Cut(units, cursor, r.offset)), Marked(r, Cut(units, r.offset, End(r))),
                  Laid(units, ranges[1..], End(r)));
      CutsJoin(units, cursor, r.offset, End(r));
    } else {
      assert Stripped(Laid(units, ranges, cursor)[1..]) == [];
    }
  }

  lemma {:induction false} WordsAreDecoded(pieces: seq<Piece<int>>)
    requires AsWords(pieces).Some?
    ensures Decoded(Stripped(pieces)) == Some(Stripped(AsWords(pieces).value))
    decreases pieces
  {
    if pieces != [] {
      WordsAreDecoded(pieces[1..]);
      DecodedAppend(pieces[0].body, Stripped(pieces[1..]));
      assert AsWords(pieces).value[1..] == AsWords(pieces[1..]).value;
    }
  }

  /** Taking the inserted markers out of the output gives back the text, whatever the ranges. */
  lemma MarkersComeOff(text: string, ranges: seq<Range>)
    requires Rendered(text, ranges).Some?
    ensures Stripped(Rendered(text, ranges).value) == text
  {
    var known := Known(ranges);
    if known != [] {
      ChosenAreApart(Sorted(known), 0);
      var pieces := Laid(Encoded(text), Chosen(Sorted(known), 0), 0);
      LaidCoversTheRest(Encoded(text), Chosen(Sorted(known), 0), 0);
      WordsAreDecoded(pieces);
      EncodingRoundTrips(text);
      assert Encoded(text)[0..] == Encoded(text);
    } else {
      assert Stripped([Plain(text)]) == text + Stripped<char>([]);
    }
  }

  predicate Whole(units: seq<int>, ranges: seq<Range>) {
    forall i :: 0 <= i < |ranges| ==> !Splits(units, ranges[i].offset) && !Splits(units, End(ranges[i]))
  }

  lemma ClippedCutDecodes(text: string, a: nat, b: nat)
    requires a <= b && !Splits(Encoded(text), a)
    ensures Decoded(Cut(Encoded(text), a, b)).Some? <==> !Splits(Encoded(text), b)
  {
    var units := Encoded(text);
    CutDecodes(text, Clip(units, a), Clip(units, b));
  }

  lemma TwoPieces(a: Piece<int>, b: Piece<int>, more: seq<Piece<int>>)
    ensures AsWords([a, b] + more) == Joins(OneAsWords(a), Joins(OneAsWords(b), AsWords(more)))
  {
    assert ([a, b] + more)[1..] == [b] + more && ([b] + more)[1..] == more;
  }

  lemma RestDecodes(text: string, cursor: nat)
    requires !Splits(Encoded(text), cursor)
    ensures Decoded(Encoded(text)[Clip(Encoded(text), cursor)..]).Some?
  {
    hide Decoded, Encoded;
    var units := Encoded(text);
    ClippedCutDecodes(text, cursor, cursor + |units|);
    assert units[Clip(units, cursor)..] == Cut(units, cursor, cursor + |units|);
  }

  lemma {:induction false} LaidExactlyWhen(text: string, ranges: seq<Range>, cursor: nat)
    requires Apart(ranges, cursor) && !Splits(Encoded(text), cursor)
    ensures AsWords(Laid(Encoded(text), ranges, cursor)).Some? <==> Whole(Encoded(text), ranges)
    decreases ranges
  {
    var units := Encoded(text);
    if ranges == [] {
      RestDecodes(text, cursor);
      var last := units[Clip(units, cursor)..];
      assert [Plain(last)][1..] == [];
    } else {
      hide Decoded, Encoded, Cut, Splits, AsWords;
      var r := ranges[0];
      TwoPieces(Plain(Cut(units, cursor, r.offset)), Marked(r, Cut(units, r.offset, End(r))),
                Laid(units, ranges[1..], End(r)));
      ClippedCutDecodes(text, cursor, r.offset);
      if !Splits(units, r.offset) {
        ClippedCutDecodes(text, r.offset, End(r));
        if !Splits(units, End(r)) { LaidExactlyWhen(text, ranges[1..], End(r)); }
      }
      assert Whole(units, ranges) <==>
             !Splits(units, r.offset) && !Splits(units, End(r)) && Whole(units, ranges[1..]);
    }
  }

  /** Rendering fails exactly when a range that is rendered begins or ends inside a character. */
  lemma RenderedExactlyWhen(text: string, ranges: seq<Range>)
    ensures Rendered(text, ranges).Some? <==> Whole(Encoded(text), Chosen(Sorted(Known(ranges)), 0))
  {
    ChosenAreApart(Sorted(Known(ranges)), 0);
    NeverStartsLow(text);
    LaidExactlyWhen(text, Chosen(Sorted(Known(ranges)), 0), 0);
  }

  /** Every second piece is a chosen range, marked as its kind asks, around exactly the units it covers; the pieces
      between them are bare. */
  lemma {:induction false} EachRangeIsMarked(units: seq<int>, ranges: seq<Range>, cursor: nat)
    requires Apart(ranges, cursor)
    ensures var pieces := Laid(units, ranges, cursor);
            && |pieces| == 2 * |ranges| + 1
            && forall i :: 0 <= i < |ranges| ==>
                 pieces[2 * i + 1] == Marked(ranges[i], Cut(units, ranges[i].offset, End(ranges[i])))
    ensures var pieces := Laid(units, ranges, cursor);
            forall i :: 0 <= i <= |ranges| ==> pieces[2 * i].opener == pieces[2 * i].closer == ""
    decreases ranges
  {
    if ranges != [] {
      EachRangeIsMarked(units, ranges[1..], End(ranges[0]));
      var pieces, more := Laid(units, ranges, cursor), Laid(units, ranges[1..], End(ranges[0]));
      forall i | 0 < i < |ranges|
        ensures pieces[2 * i + 1] == more[2 * (i - 1) + 1] && ranges[i] == ranges[1..][i - 1]
      {
      }
      forall i | 0 < i <= |ranges| ensures pieces[2 * i] == more[2 * (i - 1)] {
      }
    }
  }

  lemma {:induction false} WordsKeepTheirPlace(pieces: seq<Piece<int>>)
    requires AsWords(pieces).Some?
    ensures |AsWords(pieces).value| == |pieces|
    ensures forall i :: 0 <= i < |pieces| ==> Some(AsWords(pieces).value[i]) == OneAsWords(pieces[i])
    decreases pieces
  {
    if pieces != [] { WordsKeepTheirPlace(pieces[1..]); }
  }

  /** What is rendered: the ranges markdown knows, of two that overlap the first one (the longer of two that start
      together).  They lie apart in ascending order; each is marked as its kind asks around exactly the words it
      covers; nothing else is marked; and a known range that is not rendered starts inside one that is, and does not
      come before it. */
  lemma WhatIsMarked(text: string, ranges: seq<Range>)
    requires Known(ranges) != [] && Rendered(text, ranges).Some?
    ensures var pieces, chosen := Rendered(text, ranges).value, Chosen(Sorted(Known(ranges)), 0);
            && Apart(chosen, 0)
            && |pieces| == 2 * |chosen| + 1
            && (forall i :: 0 <= i <= |chosen| ==> pieces[2 * i].opener == pieces[2 * i].closer == "")
            && (forall i :: 0 <= i < |chosen| ==>
                  && (pieces[2 * i + 1].opener, pieces[2 * i + 1].closer) == Marks(chosen[i])
                  && Some(pieces[2 * i + 1].body) == Decoded(Cut(Encoded(text), chosen[i].offset, End(chosen[i]))))
            && (forall r <- chosen :: r in ranges && !r.kind.Other?)
            && (forall r <- ranges ::
                  || r.kind.Other?
                  || r in chosen
                  || exists x :: x in chosen && StartsInside(r, x) && !Before(r, x))
  {
    hide Known, Sorted, Chosen, Laid, AsWords, Decoded, Encoded, Cut;
    var known := Known(ranges);
    KnownAre(ranges);
    SortedIsOrdered(known);
    DroppedStartsInside(Sorted(known), 0);
    EachRangeIsMarked(Encoded(text), Chosen(Sorted(known), 0), 0);
    WordsKeepTheirPlace(Laid(Encoded(text), Chosen(Sorted(known), 0), 0));
  }

  lemma {:induction false} ApartInOrder(ranges: seq<Range>, cursor: nat, j: nat)
    requires Apart(ranges, cursor) && j < |ranges|
    ensures cursor <= ranges[j].offset
    ensures forall i :: 0 <= i < j ==> End(ranges[i]) <= ranges[j].offset
    decreases ranges
  {
    if j > 0 {
      ApartInOrder(ranges[1..], End(ranges[0]), j - 1);
      assert forall i :: 0 < i < j ==> ranges[i] == ranges[1..][i - 1];
    }
  }

  predicate Overlap(a: Range, b: Range) { StartsInside(a, b) || StartsInside(b, a) }

  predicate ClearOf(r: Range, ranges: seq<Range>) { forall i :: 0 <= i < |ranges| ==> !Overlap(r, ranges[i]) }

  /** No two of the ranges overlap. */
  predicate NoneOverlap(ranges: seq<Range>) {
    ranges == [] || (ClearOf(ranges[0], ranges[1..]) && NoneOverlap(ranges[1..]))
  }

  lemma {:induction false} PlacedOverlaps(r: Range, ranges: seq<Range>)
    ensures NoneOverlap(Placed(r, ranges)) <==> ClearOf(r, ranges) && NoneOverlap(ranges)
    ensures forall x :: ClearOf(x, Placed(r, ranges)) <==> !Overlap(x, r) && ClearOf(x, ranges)
    decreases ranges
  {
    if ranges == [] || !Before(ranges[0], r) {
      var all := [r] + ranges;
      assert all[1..] == ranges;
      forall x ensures ClearOf(x, all) <==> !Overlap(x, r) && ClearOf(x, ranges) { ClearOfHead(x, all); }
    } else {
      var all := Placed(r, ranges);
      PlacedOverlaps(r, ranges[1..]);
      assert all[1..] == Placed(r, ranges[1..]);
      ClearOfHead(r, ranges);
      forall x ensures ClearOf(x, all) <==> !Overlap(x, r) && ClearOf(x, ranges) {
        ClearOfHead(x, all);
        ClearOfHead(x, ranges);
      }
    }
  }

  lemma ClearOfHead(x: Range, ranges: seq<Range>)
    requires ranges != []
    ensures ClearOf(x, ranges) <==> !Overlap(x, ranges[0]) && ClearOf(x, ranges[1..])
  {
    assert ranges == [ranges[0]] + ranges[1..];
  }

  lemma {:induction false} SortedOverlaps(ranges: seq<Range>)
    ensures NoneOverlap(Sorted(ranges)) <==> NoneOverlap(ranges)
    ensures forall x :: ClearOf(x, Sorted(ranges)) <==> ClearOf(x, ranges)
    decreases ranges
  {
    if ranges != [] {
      SortedOverlaps(ranges[1..]);
      PlacedOverlaps(ranges[0], Sorted(ranges[1..]));
      forall x ensures ClearOf(x, Sorted(ranges)) <==> ClearOf(x, ranges) { ClearOfHead(x, ranges); }
    }
  }

  lemma FirstIsClear(first: Range, rest: seq<Range>)
    requires Ordered([first] + rest)
    ensures ClearOf(first, rest) <==> forall i :: 0 <= i < |rest| ==> End(first) <= rest[i].offset
  {
    var all := [first] + rest;
    forall i | 0 <= i < |rest| ensures Overlap(first, rest[i]) <==> End(first) > rest[i].offset {
      assert !Before(all[i + 1], all[0]);
    }
  }

  lemma AllChosenIsClear(first: Range, rest: seq<Range>)
    requires Ordered([first] + rest) && Chosen(rest, End(first)) == rest
    ensures ClearOf(first, rest)
  {
    hide ClearOf, Before;
    ChosenAreApart(rest, End(first));
    forall i | 0 <= i < |rest| ensures End(first) <= rest[i].offset { ApartInOrder(rest, End(first), i); }
    FirstIsClear(first, rest);
  }

  /** In order, ranges that do not overlap are all chosen, and only they are. */
  lemma {:induction false} OrderedChosenExactlyWhen(ranges: seq<Range>, cursor: nat)
    requires Ordered(ranges) && (ranges != [] ==> cursor <= ranges[0].offset)
    ensures Chosen(ranges, cursor) == ranges <==> NoneOverlap(ranges)
    decreases ranges
  {
    if ranges != [] {
      hide ClearOf, Before, StartsInside;
      var first, rest := ranges[0], ranges[1..];
      assert ranges == [first] + rest;
      assert Chosen(ranges, cursor) == [first] + Chosen(rest, End(first));
      assert Chosen(ranges, cursor)[1..] == Chosen(rest, End(first));
      if ClearOf(first, rest) {
        FirstIsClear(first, rest);
        assert Ordered(rest);
        OrderedChosenExactlyWhen(rest, End(first));
      } else if Chosen(rest, End(first)) == rest {
        AllChosenIsClear(first, rest);
      }
    }
  }

  /** All formatting markdown knows survives the rendering exactly when no two of its ranges overlap; so nesting
      never does. */
  lemma AllAreRenderedExactlyWhen(ranges: seq<Range>)
    ensures Chosen(Sorted(Known(ranges)), 0) == Sorted(Known(ranges)) <==> NoneOverlap(Known(ranges))
  {
    SortedIsOrdered(Known(ranges));
    SortedOverlaps(Known(ranges));
    OrderedChosenExactlyWhen(Sorted(Known(ranges)), 0);
  }

  /** Italics inside bold: the italics are gone. */
  lemma NestedPair()
    ensures var bold, italic := Range(Bold, 0, 4, "", ""), Range(Italic, 1, 2, "", "");
            && StartsInside(italic, bold) && End(italic) < End(bold)
            && Chosen(Sorted(Known([bold, italic])), 0) == [bold]
  {
    var bold, italic := Range(Bold, 0, 4, "", ""), Range(Italic, 1, 2, "", "");
    assert [bold, italic][1..] == [italic] && [italic][1..] == [];
    assert Known([italic]) == [italic] && Known([bold, italic]) == [bold] + [italic];
    assert Sorted([]) == [] && Sorted([italic]) == [italic];
    assert Sorted([bold, italic]) == Placed(bold, [italic]) == [bold] + [italic];
    assert ([bold] + [italic])[1..] == [italic];
    assert Chosen([italic], 4) == [];
  }

  /** A range that starts inside one that is rendered is not rendered itself. */
  lemma NestingIsLost(ranges: seq<Range>, outer: Range, inner: Range)
    requires var chosen := Chosen(Sorted(Known(ranges)), 0); outer in chosen && inner in chosen
    requires StartsInside(inner, outer)
    ensures inner == outer
  {
    hide Known, Sorted, Chosen, Apart;
    var chosen := Chosen(Sorted(Known(ranges)), 0);
    ChosenAreApart(Sorted(Known(ranges)), 0);
    var i :| 0 <= i < |chosen| && chosen[i] == outer;
    var j :| 0 <= j < |chosen| && chosen[j] == inner;
    ApartInOrder(chosen, 0, j);
    ApartInOrder(chosen, 0, i);
    SortedIsOrdered(Known(ranges));
    ChosenAreOrdered(Sorted(Known(ranges)), 0);
  }

  lemma {:induction false} ChosenAreOrdered(ranges: seq<Range>, cursor: nat)
    requires Ordered(ranges)
    ensures Ordered(Chosen(ranges, cursor))
    decreases ranges
  {
    if ranges != [] {
      var next := if ranges[0].offset < cursor then cursor else End(ranges[0]);
      ChosenAreOrdered(ranges[1..], next);
      DroppedStartsInside(ranges[1..], next);
      var rest := Chosen(ranges[1..], next);
      forall j | 0 <= j < |rest| ensures !Before(rest[j], ranges[0]) { assert rest[j] in ranges[1..]; }
    }
  }

  lemma {:induction false} KnownAre(ranges: seq<Range>)
    ensures forall r :: r in Known(ranges) <==> r in ranges && !r.kind.Other?
    decreases ranges
  {
    if ranges != [] { KnownAre(ranges[1..]); }
  }

  lemma {:induction false} JoinedAppend(a: seq<Piece<char>>, b: seq<Piece<char>>)
    ensures Joined(a + b) == Joined(a) + Joined(b)
    decreases a
  {
    if a == [] {
      assert a + b == b;
    } else {
      assert (a + b)[1..] == a[1..] + b;
      JoinedAppend(a[1..], b);
    }
  }

  lemma PlainOutput(text: string)
    ensures Joined([Plain(text)]) == text
  {
    assert Joined([Plain(text)]) == "" + text + "" + Joined([]);
  }

  function Prefixed<T>(first: seq<T>, more: Option<seq<T>>): Option<seq<T>> {
    if more.None? then None else Some(first + more.value)
  }

  lemma PrefixedStep<T>(out: seq<T>, a: T, b: T, more: Option<seq<T>>)
    ensures Prefixed(out, Joins(Some(a), Joins(Some(b), more))) == Prefixed(out + [a, b], more)
  {
    if more.Some? { assert out + ([a] + ([b] + more.value)) == out + [a, b] + more.value; }
  }

  /** `entities_to_markdown`: `None` where the original raises. */
  method EntitiesToMarkdown(text: string, entities: seq<Range>) returns (r: Option<string>)
    ensures r == Output(text, entities)
  {
    var ranges := Known(entities);
    if ranges == [] {
      PlainOutput(text);
      return Some(text);
    }
    var units := Encoded(text);
    ranges := Sorted(ranges);
    var out: seq<Piece<char>>, cursor := [], 0;
    ghost var all := Laid(units, Chosen(ranges, 0), 0) by { ChosenAreApart(ranges, 0); }
    if AsWords(all).Some? { assert [] + AsWords(all).value == AsWords(all).value; }
    assert ranges[0..] == ranges;
    for i := 0 to |ranges|
      invariant Apart(Chosen(ranges[i..], cursor), cursor)
      invariant AsWords(all) == Prefixed(out, AsWords(Laid(units, Chosen(ranges[i..], cursor), cursor)))
    {
      var item := ranges[i];
      assert ranges[i..][0] == item && ranges[i..][1..] == ranges[i + 1..];
      if item.offset >= cursor {
        assert Chosen(ranges[i..], cursor)[1..] == Chosen(ranges[i + 1..], End(item));
        ghost var more := Laid(units, Chosen(ranges[i + 1..], End(item)), End(item));
        var before := OneAsWords(Plain(Cut(units, cursor, item.offset)));
        var marked := OneAsWords(Marked(item, Cut(units, item.offset, End(item))));
        TwoPieces(Plain(Cut(units, cursor, item.offset)), Marked(item, Cut(units, item.offset, End(item))), more);
        if before.None? || marked.None? { return None; }
        PrefixedStep(out, before.value, marked.value, AsWords(more));
        out := out + [before.value, marked.value];
        cursor := End(item);
      }
    }
    var last := Decoded(units[Clip(units, cursor)..]);
    assert [Plain(units[Clip(units, cursor)..])][1..] == [];
    if last.None? { return None; }
    assert [Plain(last.value)] + [] == [Plain(last.value)];
    return Some(Joined(out + [Plain(last.value)]));
  }

  // ---------------------------------------------------------------- behind a prefix

  /** `shift_entities` */
  function Shifted(ranges: seq<Range>, distance: nat): seq<Range> {
    if ranges == [] then []
    else [ranges[0].(offset := ranges[0].offset + distance)] + Shifted(ranges[1..], distance)
  }

  /** `utf16_length` */
  function Utf16Length(text: string): nat { |Encoded(text)| }

  lemma {:induction false} ShiftedKnown(ranges: seq<Range>, k: nat)
    ensures Known(Shifted(ranges, k)) == Shifted(Known(ranges), k)
    decreases ranges
  {
    if ranges != [] {
      ShiftedKnown(ranges[1..], k);
      ShiftedHead(ranges, k);
    }
  }

  lemma {:induction false} ShiftedPlaced(r: Range, ranges: seq<Range>, k: nat)
    ensures Placed(r.(offset := r.offset + k), Shifted(ranges, k)) == Shifted(Placed(r, ranges), k)
    decreases ranges
  {
    if ranges != [] {
      ShiftedPlaced(r, ranges[1..], k);
      assert Shifted(ranges, k)[1..] == Shifted(ranges[1..], k);
    }
  }

  lemma {:induction false} ShiftedSorted(ranges: seq<Range>, k: nat)
    ensures Sorted(Shifted(ranges, k)) == Shifted(Sorted(ranges), k)
    decreases ranges
  {
    if ranges != [] {
      ShiftedSorted(ranges[1..], k);
      ShiftedPlaced(ranges[0], Sorted(ranges[1..]), k);
      ShiftedHead(ranges, k);
    }
  }

  lemma {:induction false} ShiftedChosen(ranges: seq<Range>, cursor: nat, k: nat)
    ensures Chosen(Shifted(ranges, k), cursor + k) == Shifted(Chosen(ranges, cursor), k)
    decreases ranges
  {
    if ranges != [] {
      ShiftedHead(ranges, k);
      if ranges[0].offset < cursor {
        ShiftedChosen(ranges[1..], cursor, k);
      } else {
        ShiftedChosen(ranges[1..], End(ranges[0]), k);
      }
    }
  }

  lemma ShiftedHead(ranges: seq<Range>, k: nat)
    requires ranges != []
    ensures var s := Shifted(ranges, k);
            && s != [] && s[1..] == Shifted(ranges[1..], k) && s[0] == ranges[0].(offset := ranges[0].offset + k)
            && End(s[0]) == End(ranges[0]) + k && Marks(s[0]) == Marks(ranges[0])
  {
  }

  lemma {:induction false} ShiftedApart(ranges: seq<Range>, cursor: nat, k: nat)
    requires Apart(ranges, cursor)
    ensures Apart(Shifted(ranges, k), cursor + k)
    decreases ranges
  {
    if ranges != [] {
      ShiftedApart(ranges[1..], End(ranges[0]), k);
      ShiftedHead(ranges, k);
    }
  }

  lemma CutShifts(before: seq<int>, all: seq<int>, units: seq<int>, r: Range, moved: Range)
    requires all == before + units && moved == r.(offset := r.offset + |before|)
    ensures Marked(moved, Cut(all, moved.offset, End(moved))) == Marked(r, Cut(units, r.offset, End(r)))
  {
    var k := |before|;
    assert all[Clip(all, r.offset + k)..Clip(all, End(r) + k)] == units[Clip(units, r.offset)..Clip(units, End(r))];
  }

  lemma GapShifts(before: seq<int>, all: seq<int>, units: seq<int>, a: nat, b: nat, from: nat, upto: nat)
    requires all == before + units && a <= b && from == a + |before| && upto == b + |before|
    ensures Cut(all, from, upto) == Cut(units, a, b)
  {
    assert all[Clip(all, from)..Clip(all, upto)] == units[Clip(units, a)..Clip(units, b)];
  }

  lemma {:induction false} LaidShifts(before: seq<int>, all: seq<int>, units: seq<int>, ranges: seq<Range>,
                                      moved: seq<Range>, cursor: nat)
    requires all == before + units && moved == Shifted(ranges, |before|)
    requires Apart(ranges, cursor) && Apart(moved, cursor + |before|)
    ensures Laid(all, moved, cursor + |before|) == Laid(units, ranges, cursor)
    decreases ranges
  {
    var k := |before|;
    if ranges == [] {
      assert all[Clip(all, cursor + k)..] == units[Clip(units, cursor)..];
    } else {
      ShiftedHead(ranges, k);
      LaidShifts(before, all, units, ranges[1..], moved[1..], End(ranges[0]));
      GapShifts(before, all, units, cursor, ranges[0].offset, cursor + k, moved[0].offset);
      CutShifts(before, all, units, ranges[0], moved[0]);
    }
  }

  lemma CursorOnlyMovesTheFirst(units: seq<int>, ranges: seq<Range>, a: nat, b: nat)
    requires ranges != [] && Apart(ranges, a) && Apart(ranges, b)
    ensures Laid(units, ranges, a)[1..] == Laid(units, ranges, b)[1..]
  {
    LaidTail(units, ranges, a);
    LaidTail(units, ranges, b);
  }

  /** Laid out from the very start, the first piece takes the prefix and nothing else changes. */
  lemma FirstPieceTakesThePrefix(before: seq<int>, all: seq<int>, units: seq<int>, chosen: seq<Range>,
                                 moved: seq<Range>)
    requires all == before + units && moved == Shifted(chosen, |before|)
    requires chosen != [] && Apart(chosen, 0) && Apart(moved, 0)
    ensures Laid(all, moved, 0) ==
            [Plain(before + Cut(units, 0, chosen[0].offset))] + Laid(units, chosen, 0)[1..]
  {
    ShiftedHead(chosen, |before|);
    FirstCutShifts(before, all, units, chosen[0].offset, moved[0].offset);
    ShiftedApart(chosen, 0, |before|);
    LaidShifts(before, all, units, chosen, moved, 0);
    CursorOnlyMovesTheFirst(all, moved, 0, |before|);
    LaidHead(all, moved);
  }

  lemma FirstCutShifts(before: seq<int>, all: seq<int>, units: seq<int>, b: nat, upto: nat)
    requires all == before + units && upto == b + |before|
    ensures Cut(all, 0, upto) == before + Cut(units, 0, b)
  {
  }

  lemma LaidHead(units: seq<int>, ranges: seq<Range>)
    requires ranges != [] && Apart(ranges, 0)
    ensures Laid(units, ranges, 0) == [Plain(Cut(units, 0, ranges[0].offset))] + Laid(units, ranges, 0)[1..]
  {
  }

  lemma LaidTail(units: seq<int>, ranges: seq<Range>, cursor: nat)
    requires ranges != [] && Apart(ranges, cursor)
    ensures Laid(units, ranges, cursor)[1..] ==
            [Marked(ranges[0], Cut(units, ranges[0].offset, End(ranges[0])))] + Laid(units, ranges[1..], End(ranges[0]))
  {
  }

  lemma PrefixDecodes(prefix: string, body: seq<int>, tail: seq<Piece<int>>)
    ensures var was, now := AsWords([Plain(body)] + tail), AsWords([Plain(Encoded(prefix) + body)] + tail);
            if was.None? then now.None? else now.Some? && Joined(now.value) == prefix + Joined(was.value)
  {
    assert ([Plain(body)] + tail)[1..] == tail && ([Plain(Encoded(prefix) + body)] + tail)[1..] == tail;
    EncodingRoundTrips(prefix);
    DecodedAppend(Encoded(prefix), body);
    if Decoded(body).Some? && AsWords(tail).Some? {
      OnlyTheFirstDiffers(prefix, Decoded(body).value, AsWords(tail).value);
    }
  }

  lemma OnlyTheFirstDiffers(prefix: string, words: string, tail: seq<Piece<char>>)
    ensures Joined([Plain(prefix + words)] + tail) == prefix + Joined([Plain(words)] + tail)
  {
    JoinedAppend([Plain(words)], tail);
    JoinedAppend([Plain(prefix + words)], tail);
    PlainOutput(words);
    PlainOutput(prefix + words);
  }

  lemma MarkedOutput(text: string, ranges: seq<Range>)
    requires Known(ranges) != []
    ensures Apart(Chosen(Sorted(Known(ranges)), 0), 0)
    ensures Rendered(text, ranges) == AsWords(Laid(Encoded(text), Chosen(Sorted(Known(ranges)), 0), 0))
  {
    ChosenAreApart(Sorted(Known(ranges)), 0);
  }

  lemma ChosenMove(sorted: seq<Range>, k: nat)
    requires sorted != []
    ensures Chosen(sorted, 0) != [] && Chosen(Shifted(sorted, k), 0) == Shifted(Chosen(sorted, 0), k)
  {
    ShiftedHead(sorted, k);
    ShiftedChosen(sorted, 0, k);
  }

  /** The pieces of the prefixed text decode to the old ones, the first of them prefixed. */
  lemma MovedMarks(prefix: string, text: string, chosen: seq<Range>)
    requires var moved := Shifted(chosen, Utf16Length(prefix)); chosen != [] && Apart(chosen, 0) && Apart(moved, 0)
    ensures var moved := Shifted(chosen, Utf16Length(prefix));
            var was, now := AsWords(Laid(Encoded(text), chosen, 0)), AsWords(Laid(Encoded(prefix + text), moved, 0));
            if was.None? then now.None? else now.Some? && Joined(now.value) == prefix + Joined(was.value)
  {
    hide AsWords, Joined, Cut, Encoded, Laid, Apart;
    var before, units := Encoded(prefix), Encoded(text);
    EncodedAppend(prefix, text);
    FirstPieceTakesThePrefix(before, before + units, units, chosen, Shifted(chosen, |before|));
    LaidHead(units, chosen);
    PrefixDecodes(prefix, Cut(units, 0, chosen[0].offset), Laid(units, chosen, 0)[1..]);
  }

  lemma SortedMove(known: seq<Range>, k: nat)
    requires known != []
    ensures Sorted(known) != [] && Shifted(known, k) != []
    ensures Sorted(Shifted(known, k)) == Shifted(Sorted(known), k)
  {
    SortedIsOrdered(known);
    assert known[0] in Sorted(known);
    ShiftedSorted(known, k);
    ShiftedHead(known, k);
  }

  /** With the prefix before the text and every range moved along by the prefix's length, the output is the prefix
      before the old output: the same words are marked. */
  lemma PrefixShiftsTheOutput(prefix: string, text: string, ranges: seq<Range>)
    ensures Output(prefix + text, Shifted(ranges, Utf16Length(prefix))) ==
            if Output(text, ranges).None? then None else Some(prefix + Output(text, ranges).value)
  {
    hide AsWords, Joined, Encoded, Sorted, Known, Chosen, Laid, Apart;
    var k, known := Utf16Length(prefix), Known(ranges);
    ShiftedKnown(ranges, k);
    if known == [] {
      PlainOutput(prefix + text);
      PlainOutput(text);
    } else {
      hide Rendered, Shifted;
      SortedMove(known, k);
      ChosenMove(Sorted(known), k);
      MarkedOutput(text, ranges);
      MarkedOutput(prefix + text, Shifted(ranges, k));
      MovedMarks(prefix, text, Chosen(Sorted(known), 0));
    }
  }

  // ---------------------------------------------------------------- elements

  /** MAX's element types. */
  datatype ElementKind = Strong | Emphasized | Underlined | Struck | Monospaced | Block | Link | Heading | Unmapped

  /** `url` is empty where there is none. */
  datatype Element = Element(kind: ElementKind, from: Option<nat>, length: nat, url: string)

  function ToMax(k: Kind): Option<ElementKind> {
    match k
    case Bold => Some(Strong)
    case Italic => Some(Emphasized)
    case Underline => Some(Underlined)
    case Strikethrough => Some(Struck)
    case Code => Some(Monospaced)
    case Pre => Some(Block)
    case TextLink => Some(Link)
    case Other => None
  }

  function ToTelegram(k: ElementKind): Option<Kind> {
    match k
    case Strong => Some(Bold)
    case Emphasized => Some(Italic)
    case Underlined => Some(Underline)
    case Struck => Some(Strikethrough)
    case Monospaced => Some(Code)
    case Block => Some(Pre)
    case Link => Some(TextLink)
    case Heading => Some(Bold)
    case Unmapped => None
  }

  function ElementOf(r: Range): Option<Element> {
    if ToMax(r.kind).None? then None
    else Some(Element(ToMax(r.kind).value, Some(r.offset), r.length, if r.kind.TextLink? then r.url else ""))
  }

  function EntityOf(e: Element): Option<Range> {
    var mapped := ToTelegram(e.kind);
    if mapped.None? || e.from.None? || e.length == 0 || (mapped.value.TextLink? && e.url == "") then None
    else Some(Range(mapped.value, e.from.value, e.length, if mapped.value.TextLink? then e.url else "", ""))
  }

  /** The element, or nothing. */
  function Kept<T>(x: Option<T>): seq<T> { if x.None? then [] else [x.value] }

  function Elements(ranges: seq<Range>): seq<Element> {
    if ranges == [] then [] else Kept(ElementOf(ranges[0])) + Elements(ranges[1..])
  }

  function Entities(elements: seq<Element>): seq<Range> {
    if elements == [] then [] else Kept(EntityOf(elements[0])) + Entities(elements[1..])
  }

  lemma Regrouped<T>(out: seq<T>, x: Option<T>, more: seq<T>)
    ensures out + (Kept(x) + more) == out + Kept(x) + more
    ensures x.None? ==> out + Kept(x) == out
  {
  }

  /** `entities_to_elements` */
  method EntitiesToElements(entities: seq<Range>) returns (elements: seq<Element>)
    ensures elements == Elements(entities)
  {
    elements := [];
    assert entities[0..] == entities;
    for i := 0 to |entities|
      invariant elements + Elements(entities[i..]) == Elements(entities)
    {
      var e := entities[i];
      assert Elements(entities[i..]) == Kept(ElementOf(e)) + Elements(entities[i + 1..]) by {
        assert entities[i..][0] == e && entities[i..][1..] == entities[i + 1..];
      }
      Regrouped(elements, ElementOf(e), Elements(entities[i + 1..]));
      var mapped := ToMax(e.kind);
      if mapped.None? { continue; }
      var element := Element(mapped.value, Some(e.offset), e.length, if mapped.value.Link? then e.url else "");
      assert ElementOf(e) == Some(element);
      elements := elements + [element];
    }
  }

  /** `elements_to_entities` */
  method ElementsToEntities(elements: seq<Element>) returns (entities: seq<Range>)
    ensures entities == Entities(elements)
  {
    entities := [];
    assert elements[0..] == elements;
    for i := 0 to |elements|
      invariant entities + Entities(elements[i..]) == Entities(elements)
    {
      var e := elements[i];
      assert Entities(elements[i..]) == Kept(EntityOf(e)) + Entities(elements[i + 1..]) by {
        assert elements[i..][0] == e && elements[i..][1..] == elements[i + 1..];
      }
      Regrouped(entities, EntityOf(e), Entities(elements[i + 1..]));
      var mapped := ToTelegram(e.kind);
      if mapped.None? || e.from.None? || e.length == 0 { continue; }
      if mapped.value.TextLink? && e.url == "" { continue; }
      var entity := Range(mapped.value, e.from.value, e.length, if mapped.value.TextLink? then e.url else "", "");
      assert EntityOf(e) == Some(entity);
      entities := entities + [entity];
    }
  }

  /** The kinds the two protocols share. */
  predicate Same(k: Kind, m: ElementKind) {
    (k, m) in {(Bold, Strong), (Italic, Emphasized), (Underline, Underlined), (Strikethrough, Struck),
               (Code, Monospaced), (Pre, Block), (TextLink, Link)}
  }

  /** A range goes to MAX as the same kind of element over the same words, with its target if it is a link; one MAX has
      no kind for does not go at all. */
  lemma ElementIs(r: Range)
    ensures ElementOf(r).None? <==> forall m :: !Same(r.kind, m)
    ensures ElementOf(r).Some? ==>
              var e := ElementOf(r).value;
              && Same(r.kind, e.kind) && e.from == Some(r.offset) && e.length == r.length
              && e.url == if r.kind == TextLink then r.url else ""
  {
    if ElementOf(r).Some? { assert Same(r.kind, ElementOf(r).value.kind); }
  }

  /** An element comes back as the same kind of range, a heading as bold, over the same words; not without a place, a
      length, or a link its target. */
  lemma EntityIs(e: Element)
    ensures EntityOf(e).None? <==>
              e.kind == Unmapped || e.from == None || e.length == 0 || (e.kind == Link && e.url == "")
    ensures EntityOf(e).Some? ==>
              var r := EntityOf(e).value;
              && (if e.kind == Heading then r.kind == Bold else Same(r.kind, e.kind))
              && Some(r.offset) == e.from && r.length == e.length && r.language == ""
              && r.url == if e.kind == Link then e.url else ""
  {
  }

  /** Both ways, one after the other in order. */
  lemma {:induction false} ElementsAre(a: seq<Range>, b: seq<Range>)
    ensures Elements(a + b) == Elements(a) + Elements(b)
    ensures |a| == 1 ==> Elements(a) == if ElementOf(a[0]) == None then [] else [ElementOf(a[0]).value]
    decreases a
  {
    if a == [] {
      assert a + b == b;
    } else {
      assert (a + b)[1..] == a[1..] + b;
      ElementsAre(a[1..], b);
      if |a| == 1 { assert a[1..] == [] && Kept(ElementOf(a[0])) + [] == Kept(ElementOf(a[0])); }
      Associative(Kept(ElementOf(a[0])), Elements(a[1..]), Elements(b));
    }
  }

  lemma {:induction false} EntitiesAre(a: seq<Element>, b: seq<Element>)
    ensures Entities(a + b) == Entities(a) + Entities(b)
    ensures |a| == 1 ==> Entities(a) == if EntityOf(a[0]) == None then [] else [EntityOf(a[0]).value]
    decreases a
  {
    if a == [] {
      assert a + b == b;
    } else {
      assert (a + b)[1..] == a[1..] + b;
      EntitiesAre(a[1..], b);
      if |a| == 1 { assert a[1..] == [] && Kept(EntityOf(a[0])) + [] == Kept(EntityOf(a[0])); }
      Associative(Kept(EntityOf(a[0])), Entities(a[1..]), Entities(b));
    }
  }

  /** A kind MAX has, some words, and a target if it is a link. */
  predicate Kinded(r: Range) { !r.kind.Other? && r.length > 0 && (r.kind.TextLink? <==> r.url != "") }

  /** What both protocols can say: MAX's elements have no place for the language of a block of code. */
  predicate Shared(r: Range) { Kinded(r) && r.language == "" }

  predicate AllShared(ranges: seq<Range>) { forall i :: 0 <= i < |ranges| ==> Shared(ranges[i]) }

  /** One range, to MAX and back. */
  function ThereAndBack(r: Range): Option<Range> {
    if ElementOf(r).None? then None else EntityOf(ElementOf(r).value)
  }

  lemma ThereAndBackWhenShared(r: Range)
    ensures ThereAndBack(r) == Some(r) <==> Shared(r)
  {
  }

  /** Of a range MAX has the kind for, only the language is lost. */
  lemma OnlyTheLanguageIsLost(r: Range)
    ensures ThereAndBack(r) == Some(r.(language := "")) <==> Kinded(r)
  {
  }

  lemma EntitiesOfKept(x: Option<Element>, more: seq<Element>)
    ensures Entities(Kept(x) + more) == Kept(if x.None? then None else EntityOf(x.value)) + Entities(more)
  {
    if x.Some? { assert (Kept(x) + more)[1..] == more; } else { assert Kept(x) + more == more; }
  }

  /** Formatting survives the way to MAX and back exactly when both protocols can say it; nothing is ever added. */
  lemma {:induction false} FormattingRoundTrips(ranges: seq<Range>)
    ensures Entities(Elements(ranges)) == ranges <==> AllShared(ranges)
    ensures |Entities(Elements(ranges))| <= |ranges|
    decreases ranges
  {
    if ranges != [] {
      var r, rest := ranges[0], ranges[1..];
      FormattingRoundTrips(rest);
      EntitiesOfKept(ElementOf(r), Elements(rest));
      ThereAndBackWhenShared(r);
      assert Entities(Elements(ranges)) == Kept(ThereAndBack(r)) + Entities(Elements(rest));
      OneMore(ThereAndBack(r), Entities(Elements(rest)), r, rest);
      assert ranges == [r] + rest;
      assert AllShared(ranges) <==> Shared(r) && AllShared(rest) by { assert ranges == [r] + rest; }
    }
  }

  lemma OneMore(x: Option<Range>, more: seq<Range>, r: Range, rest: seq<Range>)
    requires |more| <= |rest|
    ensures |Kept(x) + more| <= |[r] + rest|
    ensures Kept(x) + more == [r] + rest <==> x == Some(r) && more == rest
  {
    if Kept(x) + more == [r] + rest {
      assert x.Some? && (Kept(x) + more)[0] == x.value && (Kept(x) + more)[1..] == more;
      assert ([r] + rest)[1..] == rest;
    }
  }
}
