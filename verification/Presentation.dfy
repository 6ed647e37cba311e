// The decorations the bridge draws around a message and the function that takes them off again:
// `bridge/formatting/stamps.py`, `bridge/formatting/forwards.py` and `bridge/formatting/presentation.py`.
//
// `digit` is what the patterns' `\d` accepts: the ten digits of ASCII and whatever else Unicode calls a decimal
// digit, but none of the characters the decorations are built of.
module Presentation {
  import opened Text
  import opened Wrappers

  const ARROW := '↪'
  const EDIT_MARK := "изм."

  ghost predicate DigitClass(digit: char -> bool) {
    && (forall c :: '0' <= c <= '9' ==> digit(c))
    && forall c :: c in "[]() /:\n↪" + EDIT_MARK ==> !digit(c)
  }

  // ---------------------------------------------------------------- the patterns

  predicate Pair(digit: char -> bool, t: string, i: nat) { i + 2 <= |t| && digit(t[i]) && digit(t[i + 1]) }

  predicate At(t: string, i: nat, c: char) { i < |t| && t[i] == c }

  /** `dd:dd` */
  predicate TimeAt(digit: char -> bool, t: string, i: nat) {
    Pair(digit, t, i) && At(t, i + 2, ':') && Pair(digit, t, i + 3)
  }

  /** `dd/dd` */
  predicate DayAt(digit: char -> bool, t: string, i: nat) {
    Pair(digit, t, i) && At(t, i + 2, '/') && Pair(digit, t, i + 3)
  }

  /** `/dddd` */
  predicate YearAt(digit: char -> bool, t: string, i: nat) {
    At(t, i, '/') && Pair(digit, t, i + 1) && Pair(digit, t, i + 3)
  }

  /** How much of the front `_STAMP` takes. */
  function StampLength(digit: char -> bool, t: string): (n: nat)
    ensures n <= |t|
  {
    if !At(t, 0, '[') || !DayAt(digit, t, 1) then 0
    else if At(t, 6, ' ') && TimeAt(digit, t, 7) && At(t, 12, ']') && At(t, 13, ' ') then 14
    else if YearAt(digit, t, 6) && At(t, 11, ' ') && TimeAt(digit, t, 12) && At(t, 17, ']') && At(t, 18, ' ') then 19
    else 0
  }

  /** How much of the text is its first line, the newline included; nothing when there is no newline. */
  function LineLength(t: string): (n: nat)
    ensures n <= |t|
  {
    if t == "" then 0
    else if t[0] == '\n' then 1
    else if LineLength(t[1..]) == 0 then 0
    else 1 + LineLength(t[1..])
  }

  /** How much of the front `_FORWARD` takes. */
  function ForwardLength(t: string): (n: nat)
    ensures n <= |t|
  {
    if At(t, 0, ARROW) && At(t, 1, ' ') then LineLength(t) else 0
  }

  /** The whole of `m` is an edit mark. */
  predicate IsMark(digit: char -> bool, m: string) {
    && |m| >= 13
    && m[..7] == " (" + EDIT_MARK + " "
    && m[|m| - 1] == ')'
    && TimeAt(digit, m, |m| - 6)
    && (|m| == 13
        || (|m| == 19 && DayAt(digit, m, 7) && m[12] == ' ')
        || (|m| == 24 && DayAt(digit, m, 7) && YearAt(digit, m, 12) && m[17] == ' '))
  }

  /** The text ends in a mark of `n` characters. */
  predicate EndsIn(digit: char -> bool, t: string, n: nat) { n <= |t| && IsMark(digit, t[|t| - n..]) }

  function MarkLength(digit: char -> bool, t: string): (n: nat)
    ensures n <= |t|
  {
    if EndsIn(digit, t, 13) then 13 else if EndsIn(digit, t, 19) then 19 else if EndsIn(digit, t, 24) then 24 else 0
  }

  /** `$` also stands before a newline that ends the text. */
  function WithoutMark(digit: char -> bool, t: string): (r: string)
    ensures |r| <= |t|
    ensures |r| == |t| ==> r == t
  {
    if t != "" && t[|t| - 1] == '\n' then
      var line := t[..|t| - 1];
      line[..|line| - MarkLength(digit, line)] + "\n"
    else t[..|t| - MarkLength(digit, t)]
  }

  function WithoutStamp(digit: char -> bool, t: string): string { t[StampLength(digit, t)..] }

  function WithoutForward(t: string): string { t[ForwardLength(t)..] }

  function StripPresentation(digit: char -> bool, t: string): string {
    WithoutMark(digit, WithoutForward(WithoutStamp(digit, t)))
  }

  // ---------------------------------------------------------------- the renderers

  /** A moment as the calendar has it, in a year of four digits. */
  datatype Moment = Moment(day: nat, month: nat, year: nat, hour: nat, minute: nat)

  datatype Style = Off | Compact | Full

  function Digit(n: nat): (c: char)
    ensures '0' <= c <= '9'
  {
    '0' + (n % 10) as char
  }

  function Two(n: nat): string { [Digit(n / 10), Digit(n)] }

  function Day(m: Moment): string { Two(m.day) + "/" + Two(m.month) }

  function Year(m: Moment): string { Two(m.year / 100) + Two(m.year) }

  function Time(m: Moment): string { Two(m.hour) + ":" + Two(m.minute) }

  /** `format_clock`: `None` where there is no time to show. */
  function FormatClock(at: Option<Moment>, now: Moment): string {
    if at.None? then ""
    else
      var m := at.value;
      if m.year == now.year && m.month == now.month && m.day == now.day then Time(m)
      else if m.year == now.year then Day(m) + " " + Time(m)
      else Day(m) + "/" + Year(m) + " " + Time(m)
  }

  function FormatEditMark(at: Option<Moment>, style: Style, now: Moment): string {
    if style.Off? || FormatClock(at, now) == "" then "" else " (" + EDIT_MARK + " " + FormatClock(at, now) + ")"
  }

  /** `age` is how long ago the moment was, in seconds. */
  function FormatStamp(at: Option<Moment>, style: Style, now: Moment, age: real, freshWithin: real): string {
    if style.Off? || at.None? then ""
    else if !style.Full? && freshWithin > 0.0 && -freshWithin <= age <= freshWithin then ""
    else
      var m := at.value;
      if style.Full? || m.year != now.year then "[" + Day(m) + "/" + Year(m) + " " + Time(m) + "] "
      else "[" + Day(m) + " " + Time(m) + "] "
  }

  /** `forward_header`; no name and an empty one are the same. */
  function ForwardHeader(name: string): string {
    if Trimmed(name) == "" then [ARROW] + " Пересланное сообщение\n"
    else [ARROW] + " Переслано от " + Trimmed(name) + "\n"
  }

  // ---------------------------------------------------------------- one decoration at a time

  /** The text starts with a stamp of `n` characters. */
  predicate IsStamp(digit: char -> bool, t: string, n: nat) {
    && At(t, 0, '[') && DayAt(digit, t, 1) && n >= 14
    && ((n == 14 && At(t, 6, ' ')) || (n == 19 && YearAt(digit, t, 6) && At(t, 11, ' ')))
    && TimeAt(digit, t, n - 7) && At(t, n - 2, ']') && At(t, n - 1, ' ')
  }

  /** `_STAMP` takes a stamp and nothing else. */
  lemma StampLengthIs(digit: char -> bool, t: string, k: nat)
    requires DigitClass(digit)
    ensures StampLength(digit, t) > 0 ==> IsStamp(digit, t, StampLength(digit, t))
    ensures IsStamp(digit, t, k) ==> StampLength(digit, t) == k
  {
  }

  lemma {:induction false} LineLengthIs(t: string)
    ensures var n := LineLength(t);
            if '\n' in t then n > 0 && t[n - 1] == '\n' && '\n' !in t[..n - 1] else n == 0
    decreases t
  {
    if t != "" && t[0] != '\n' {
      LineLengthIs(t[1..]);
      assert t == [t[0]] + t[1..];
      var n := LineLength(t);
      if n > 0 { assert t[..n - 1] == [t[0]] + t[1..][..n - 2]; }
    }
  }

  /** `_FORWARD` takes the whole first line where it begins with the arrow and a space and is not the last. */
  lemma ForwardLengthIs(t: string)
    ensures var n := ForwardLength(t);
            && (n > 0 <==> "↪ " <= t && '\n' in t)
            && (n > 0 ==> t[n - 1] == '\n' && '\n' !in t[..n - 1])
  {
    LineLengthIs(t);
    assert "↪ " <= t <==> At(t, 0, '↪') && At(t, 1, ' ');
  }

  /** A mark comes off the end, or off before a newline that ends the text; without one nothing changes. */
  lemma WithoutMarkIs(digit: char -> bool, x: string, mark: string)
    requires DigitClass(digit)
    ensures IsMark(digit, mark) ==> WithoutMark(digit, x + mark + "\n") == x + "\n"
    ensures (forall n: nat :: !EndsIn(digit, x, n)) && (x == "" || x[|x| - 1] != '\n') ==>
              WithoutMark(digit, x) == x && WithoutMark(digit, x + "\n") == x + "\n"
  {
    if IsMark(digit, mark) {
      var line := x + mark;
      assert (line + "\n")[..|line|] == line;
      assert line[|line| - |mark|..] == mark && EndsIn(digit, line, |mark|);
      if MarkLength(digit, line) != |mark| { OneMarkAtMost(digit, line, MarkLength(digit, line), |mark|); }
      assert line[..|x|] == x;
    }
    if forall n: nat :: !EndsIn(digit, x, n) {
      assert MarkLength(digit, x) == 0;
      assert (x + "\n")[..|x|] == x && x[..|x|] == x;
    }
  }

  lemma StampIsTaken(digit: char -> bool, stamp: string, rest: string)
    requires DigitClass(digit) && IsStamp(digit, stamp, |stamp|)
    ensures WithoutStamp(digit, stamp + rest) == rest
  {
    var t := stamp + rest;
    assert forall i, c :: 0 <= i < |stamp| && At(stamp, i, c) ==> At(t, i, c);
    assert StampLength(digit, t) == |stamp|;
    assert t[|stamp|..] == rest;
  }

  lemma ShortStamp(digit: char -> bool, m: Moment)
    requires DigitClass(digit)
    ensures var s := "[" + Day(m) + " " + Time(m) + "] "; |s| == 14 && IsStamp(digit, s, 14)
  {
  }

  lemma DayStands(digit: char -> bool, before: string, m: Moment, after: string)
    requires DigitClass(digit)
    ensures DayAt(digit, before + Day(m) + after, |before|)
  {
  }

  lemma YearStands(digit: char -> bool, before: string, m: Moment, after: string)
    requires DigitClass(digit)
    ensures YearAt(digit, before + "/" + Year(m) + after, |before|)
  {
  }

  lemma TimeStands(digit: char -> bool, before: string, m: Moment, after: string)
    requires DigitClass(digit)
    ensures TimeAt(digit, before + Time(m) + after, |before|)
  {
  }

  lemma LongStamp(digit: char -> bool, m: Moment)
    requires DigitClass(digit)
    ensures var s := "[" + Day(m) + "/" + Year(m) + " " + Time(m) + "] "; |s| == 19 && IsStamp(digit, s, 19)
  {
    hide DayAt, YearAt, TimeAt, DigitClass;
    assert |Day(m)| == 5 && |Year(m)| == 4 && |Time(m)| == 5;
    hide Day, Year, Time;
    var s := "[" + Day(m) + "/" + Year(m) + " " + Time(m) + "] ";
    DayStands(digit, "[", m, "/" + Year(m) + " " + Time(m) + "] ");
    assert s == "[" + Day(m) + ("/" + Year(m) + " " + Time(m) + "] ");
    YearStands(digit, "[" + Day(m), m, " " + Time(m) + "] ");
    assert s == "[" + Day(m) + "/" + Year(m) + (" " + Time(m) + "] ");
    TimeStands(digit, "[" + Day(m) + "/" + Year(m) + " ", m, "] ");
  }

  lemma StampIsRecognised(digit: char -> bool, at: Option<Moment>, style: Style, now: Moment, age: real,
                          freshWithin: real)
    requires DigitClass(digit)
    ensures var stamp := FormatStamp(at, style, now, age, freshWithin);
            stamp != "" ==> IsStamp(digit, stamp, |stamp|)
  {
    if at.Some? {
      ShortStamp(digit, at.value);
      LongStamp(digit, at.value);
    }
  }

  lemma {:induction false} FirstLine(line: string, rest: string)
    requires '\n' !in line
    ensures LineLength(line + "\n" + rest) == |line| + 1
    decreases line
  {
    if line != "" {
      assert (line + "\n" + rest)[1..] == line[1..] + "\n" + rest;
      FirstLine(line[1..], rest);
    } else {
      assert (line + "\n" + rest)[0] == '\n';
    }
  }

  /** The three shapes of a clock: the time, with the day, with the year. */
  predicate IsClock(digit: char -> bool, t: string) {
    || (|t| == 5 && TimeAt(digit, t, 0))
    || (|t| == 11 && DayAt(digit, t, 0) && t[5] == ' ' && TimeAt(digit, t, 6))
    || (|t| == 16 && DayAt(digit, t, 0) && YearAt(digit, t, 5) && t[10] == ' ' && TimeAt(digit, t, 11))
  }

  lemma ClockIsRecognised(digit: char -> bool, at: Option<Moment>, now: Moment)
    requires DigitClass(digit)
    ensures FormatClock(at, now) != "" ==> IsClock(digit, FormatClock(at, now))
  {
  }

  lemma MarkAroundAClock(digit: char -> bool, clock: string)
    requires IsClock(digit, clock)
    ensures IsMark(digit, " (" + EDIT_MARK + " " + clock + ")")
  {
    var m := " (" + EDIT_MARK + " " + clock + ")";
    assert m[..7] == " (" + EDIT_MARK + " ";
    assert forall i :: 0 <= i < |clock| ==> m[i + 7] == clock[i];
  }

  lemma MarkIsRecognised(digit: char -> bool, at: Option<Moment>, style: Style, now: Moment)
    requires DigitClass(digit)
    ensures var mark := FormatEditMark(at, style, now); mark != "" ==> IsMark(digit, mark)
  {
    ClockIsRecognised(digit, at, now);
    if FormatEditMark(at, style, now) != "" { MarkAroundAClock(digit, FormatClock(at, now)); }
  }

  lemma OneMarkAtMost(digit: char -> bool, t: string, a: nat, b: nat)
    requires DigitClass(digit) && EndsIn(digit, t, a) && EndsIn(digit, t, b)
    ensures a == b
  {
  }

  lemma MarkComesOff(digit: char -> bool, x: string, mark: string)
    requires DigitClass(digit) && IsMark(digit, mark)
    ensures WithoutMark(digit, x + mark) == x
  {
    var t := x + mark;
    assert t[|t| - |mark|..] == mark;
    assert EndsIn(digit, t, |mark|);
    if MarkLength(digit, t) != |mark| { OneMarkAtMost(digit, t, MarkLength(digit, t), |mark|); }
    assert t[..|x|] == x;
  }

  lemma MarkIsPlain(digit: char -> bool, mark: string)
    requires DigitClass(digit) && IsMark(digit, mark)
    ensures '[' !in mark && '\n' !in mark && mark[0] == ' '
  {
    assert mark[..7] == " (изм. ";
    forall i | 0 <= i < |mark| ensures mark[i] != '[' && mark[i] != '\n' {
      if i < 7 { assert mark[i] == mark[..7][i]; }
    }
  }

  lemma {:induction false} LineLengthBefore(t: string, more: string)
    requires '\n' !in more
    ensures LineLength(t + more) == LineLength(t)
    decreases |t| + |more|
  {
    if t == "" {
      assert t + more == more;
      if more != "" { LineLengthBefore("", more[1..]); assert "" + more[1..] == more[1..]; }
    } else {
      assert (t + more)[1..] == t[1..] + more;
      LineLengthBefore(t[1..], more);
    }
  }

  // ---------------------------------------------------------------- all together

  /** One line: the arrow, a space, anything, and the newline. */
  predicate IsHeader(h: string) { ForwardLength(h) == |h| > 0 }

  lemma HeaderComesOff(header: string, rest: string)
    requires IsHeader(header)
    ensures WithoutForward(header + rest) == rest
  {
    LineLengthOfPrefix(header, rest);
    assert (header + rest)[|header|..] == rest;
  }

  lemma {:induction false} LineLengthOfPrefix(t: string, more: string)
    requires LineLength(t) > 0
    ensures LineLength(t + more) == LineLength(t)
    decreases t
  {
    if t[0] != '\n' {
      assert (t + more)[1..] == t[1..] + more;
      LineLengthOfPrefix(t[1..], more);
    }
  }

  /** The body would be taken for a decoration that is not there, or the body and the mark together for a stamp. */
  predicate Imitates(digit: char -> bool, stamped: bool, forwarded: bool, marked: bool, body: string, mark: string) {
    || (!stamped && !forwarded && StampLength(digit, body + mark) > 0)
    || (!forwarded && ForwardLength(body) > 0)
    || (!marked && WithoutMark(digit, body) != body)
  }

  predicate MaybeMark(digit: char -> bool, mark: string) { mark == "" || IsMark(digit, mark) }

  lemma OnlyTheMark(digit: char -> bool, body: string, mark: string)
    requires DigitClass(digit) && MaybeMark(digit, mark)
    ensures WithoutMark(digit, body + mark) == body <==> mark != "" || WithoutMark(digit, body) == body
  {
    if mark == "" { assert body + mark == body; } else { MarkComesOff(digit, body, mark); }
  }

  /** Whatever else is taken off the front, what is left is not the body. */
  lemma TooMuch(digit: char -> bool, body: string, mark: string, k: nat)
    requires DigitClass(digit) && MaybeMark(digit, mark) && 0 < k <= |body + mark|
    requires k <= |body| || At(body + mark, 0, '[')
    ensures WithoutMark(digit, (body + mark)[k..]) != body
  {
    var w := (body + mark)[k..];
    if k <= |body| {
      assert w == body[k..] + mark;
      if mark != "" { MarkComesOff(digit, body[k..], mark); }
    } else {
      MarkIsPlain(digit, mark);
      assert w == mark[k - |body|..];
      assert body != "" && body[0] == '[';
      if w != "" {
        assert w[|w| - 1] == mark[|mark| - 1] && w[0] == mark[k - |body|];
        assert WithoutMark(digit, w) != "" ==> WithoutMark(digit, w)[0] == w[0];
      }
    }
  }

  lemma AfterTheStamp(digit: char -> bool, body: string, mark: string)
    requires DigitClass(digit) && MaybeMark(digit, mark)
    ensures WithoutMark(digit, WithoutForward(body + mark)) == body <==>
            !Imitates(digit, true, false, mark != "", body, mark)
  {
    if mark != "" { MarkIsPlain(digit, mark); }
    LineLengthBefore(body, mark);
    assert ForwardLength(body + mark) == ForwardLength(body);
    if ForwardLength(body) > 0 {
      TooMuch(digit, body, mark, ForwardLength(body));
    } else {
      OnlyTheMark(digit, body, mark);
    }
  }

  lemma Undecorated(digit: char -> bool, body: string, mark: string)
    requires DigitClass(digit) && MaybeMark(digit, mark)
    ensures StripPresentation(digit, body + mark) == body <==>
            !Imitates(digit, false, false, mark != "", body, mark)
  {
    var t := body + mark;
    var n := StampLength(digit, t);
    if n > 0 {
      var k := n + ForwardLength(t[n..]);
      assert WithoutForward(t[n..]) == t[k..];
      TooMuch(digit, body, mark, k);
    } else {
      assert t[0..] == t;
      AfterTheStamp(digit, body, mark);
    }
  }

  /** Exactly when no absent decoration is imitated, taking the decorations off gives back the body. */
  lemma DecorationsComeOff(digit: char -> bool, stamp: string, header: string, body: string, mark: string)
    requires DigitClass(digit) && MaybeMark(digit, mark)
    requires stamp == "" || IsStamp(digit, stamp, |stamp|)
    requires header == "" || IsHeader(header)
    ensures StripPresentation(digit, stamp + (header + (body + mark))) == body <==>
            !Imitates(digit, stamp != "", header != "", mark != "", body, mark)
  {
    var rest := header + (body + mark);
    if stamp != "" {
      StampIsTaken(digit, stamp, rest);
    } else {
      assert stamp + rest == rest;
      if header != "" { assert StampLength(digit, rest) == 0 && rest[0..] == rest; }
    }
    if header != "" {
      HeaderComesOff(header, body + mark);
      OnlyTheMark(digit, body, mark);
    } else {
      assert rest == body + mark;
      if stamp != "" { AfterTheStamp(digit, body, mark); } else { Undecorated(digit, body, mark); }
    }
  }

  /** A forward line comes off whole exactly when the name, trimmed, is on one line. */
  lemma ForwardLineComesOff(name: string, rest: string)
    ensures WithoutForward(ForwardHeader(name) + rest) == rest <==> '\n' !in Trimmed(name)
    ensures '\n' !in Trimmed(name) ==> IsHeader(ForwardHeader(name))
  {
    var cleaned := Trimmed(name);
    var line := if cleaned == "" then [ARROW] + " Пересланное сообщение"
                else [ARROW] + " Переслано от " + cleaned;
    var header := ForwardHeader(name);
    assert header == line + "\n";
    assert '\n' in line <==> '\n' in cleaned;
    if '\n' !in cleaned {
      FirstLine(line, "");
      assert line + "\n" + "" == header;
      HeaderComesOff(header, rest);
    } else {
      NewlineEndsTheLine(line, "\n" + rest);
      assert header + rest == line + ("\n" + rest);
    }
  }

  lemma {:induction false} NewlineEndsTheLine(t: string, more: string)
    requires '\n' in t
    ensures LineLength(t + more) <= |t|
    decreases t
  {
    if t[0] != '\n' {
      assert (t + more)[1..] == t[1..] + more;
      NewlineEndsTheLine(t[1..], more);
    }
  }

  // ---------------------------------------------------------------- what the renderers show

  /** The number two digits show. */
  function Shown(t: string, i: nat): int
    requires i + 2 <= |t|
  {
    10 * ((t[i] as int) - ('0' as int)) + (t[i + 1] as int) - ('0' as int)
  }

  lemma TwoShows(n: nat)
    ensures |Two(n)| == 2 && Shown(Two(n), 0) == n % 100
  {
    assert n == 10 * (n / 10) + n % 10 && n / 10 == 10 * (n / 10 / 10) + n / 10 % 10;
    assert n % 100 == 10 * (n / 10 % 10) + n % 10;
  }

  /** The time, the day and the year stand at these places. */
  predicate Shows(t: string, m: Moment, day: Option<nat>, year: Option<nat>, time: nat) {
    && time + 5 <= |t| && Shown(t, time) == m.hour % 100 && Shown(t, time + 3) == m.minute % 100
    && (day.Some? ==> day.value + 5 <= |t|
                      && Shown(t, day.value) == m.day % 100 && Shown(t, day.value + 3) == m.month % 100)
    && (year.Some? ==> year.value + 4 <= |t|
                       && Shown(t, year.value) == m.year / 100 % 100 && Shown(t, year.value + 2) == m.year % 100)
  }

  lemma PartsShow(m: Moment)
    ensures |Day(m)| == |Time(m)| == 5 && |Year(m)| == 4
    ensures Shown(Day(m), 0) == m.day % 100 && Shown(Day(m), 3) == m.month % 100
    ensures Shown(Time(m), 0) == m.hour % 100 && Shown(Time(m), 3) == m.minute % 100
    ensures Shown(Year(m), 0) == m.year / 100 % 100 && Shown(Year(m), 2) == m.year % 100
  {
    TwoShows(m.day);
    TwoShows(m.month);
    TwoShows(m.year / 100);
    TwoShows(m.year);
    TwoShows(m.hour);
    TwoShows(m.minute);
  }

  lemma ShownWithin(before: string, t: string, after: string, i: nat)
    requires i + 2 <= |t|
    ensures Shown(before + t + after, |before| + i) == Shown(t, i)
  {
  }

  lemma DayAndTimeShow(open: string, m: Moment, close: string)
    ensures Shows(open + Day(m) + " " + Time(m) + close, m, Some(|open|), None, |open| + 6)
  {
    hide Day, Time, Shown;
    PartsShow(m);
    var t := open + Day(m) + " " + Time(m) + close;
    assert t == open + Day(m) + (" " + Time(m) + close) && t == open + Day(m) + " " + Time(m) + close;
    ShownWithin(open, Day(m), " " + Time(m) + close, 0);
    ShownWithin(open, Day(m), " " + Time(m) + close, 3);
    ShownWithin(open + Day(m) + " ", Time(m), close, 0);
    ShownWithin(open + Day(m) + " ", Time(m), close, 3);
  }

  lemma AllShow(open: string, m: Moment, close: string)
    ensures var t := open + Day(m) + "/" + Year(m) + " " + Time(m) + close;
            Shows(t, m, Some(|open|), Some(|open| + 6), |open| + 11)
  {
    hide Day, Time, Year, Shown;
    PartsShow(m);
    var t := open + Day(m) + "/" + Year(m) + " " + Time(m) + close;
    assert t == open + Day(m) + ("/" + Year(m) + " " + Time(m) + close);
    assert t == open + Day(m) + "/" + Year(m) + (" " + Time(m) + close);
    ShownWithin(open, Day(m), "/" + Year(m) + " " + Time(m) + close, 0);
    ShownWithin(open, Day(m), "/" + Year(m) + " " + Time(m) + close, 3);
    ShownWithin(open + Day(m) + "/", Year(m), " " + Time(m) + close, 0);
    ShownWithin(open + Day(m) + "/", Year(m), " " + Time(m) + close, 2);
    ShownWithin(open + Day(m) + "/" + Year(m) + " ", Time(m), close, 0);
    ShownWithin(open + Day(m) + "/" + Year(m) + " ", Time(m), close, 3);
  }

  /** A stamp is drawn unless stamps are off, there is no time, or a compact one would be within the margin of now; it
      shows the day and the time, and the year where the style is full or the year is another one. */
  lemma StampShows(at: Option<Moment>, style: Style, now: Moment, age: real, freshWithin: real)
    ensures var stamp := FormatStamp(at, style, now, age, freshWithin);
            && (stamp == "" <==> style == Off || at == None
                                 || (style == Compact && 0.0 < freshWithin && -freshWithin <= age <= freshWithin))
            && (stamp != "" && style == Compact && at.value.year == now.year ==>
                  |stamp| == 14 && Shows(stamp, at.value, Some(1), None, 7))
            && (stamp != "" && (style == Full || at.value.year != now.year) ==>
                  |stamp| == 19 && Shows(stamp, at.value, Some(1), Some(7), 12))
  {
    if at.Some? {
      hide Shows;
      PartsShow(at.value);
      DayAndTimeShow("[", at.value, "] ");
      AllShow("[", at.value, "] ");
    }
  }

  /** The clock shows the time today, the day besides in this year, and the year besides in any other. */
  lemma ClockShows(at: Option<Moment>, now: Moment)
    ensures FormatClock(at, now) == "" <==> at == None
    ensures at.Some? ==>
              var t, m := FormatClock(at, now), at.value;
              if (m.day, m.month, m.year) == (now.day, now.month, now.year) then |t| == 5 && Shows(t, m, None, None, 0)
              else if m.year == now.year then |t| == 11 && Shows(t, m, Some(0), None, 6)
              else |t| == 16 && Shows(t, m, Some(0), Some(6), 11)
  {
    if at.Some? {
      var m := at.value;
      PartsShow(m);
      assert Shows(Time(m), m, None, None, 0);
      hide Shows;
      DayAndTimeShow("", m, "");
      AllShow("", m, "");
      assert "" + Day(m) + " " + Time(m) + "" == Day(m) + " " + Time(m);
      assert "" + Day(m) + "/" + Year(m) + " " + Time(m) + "" == Day(m) + "/" + Year(m) + " " + Time(m);
    }
  }

  /** The edit mark holds that clock, unless marks are off or there is no time. */
  lemma MarkShows(at: Option<Moment>, style: Style, now: Moment)
    ensures var mark, clock := FormatEditMark(at, style, now), FormatClock(at, now);
            if style == Off || at == None then mark == ""
            else |mark| == |clock| + 8 && mark[..7] == " (изм. " && mark[7..|mark| - 1] == clock
  {
    ClockShows(at, now);
  }

  /** The forward line names the author without the white space around the name; a name that is only white space is
      none. */
  lemma HeaderNames(name: string) returns (i: nat, j: nat)
    ensures i <= j <= |name| && AllSpace(name[..i]) && AllSpace(name[j..])
    ensures if i < j then ForwardHeader(name) == "↪ Переслано от " + name[i..j] + "\n"
                          && !Space(name[i]) && !Space(name[j - 1])
            else AllSpace(name) && ForwardHeader(name) == "↪ Пересланное сообщение\n"
  {
    hide Trimmed, AllSpace, Space;
    i, j := TrimmedIs(name);
    assert [ARROW] + " Переслано от " == "↪ Переслано от ";
    assert [ARROW] + " Пересланное сообщение\n" == "↪ Пересланное сообщение\n";
  }

  /** What the bridge renders, it can take apart again: with a stamp, a forward line and an edit mark as the renderers
      draw them, present or not, the body comes back exactly when no absent decoration is imitated in its place. */
  lemma RenderingComesOff(digit: char -> bool, written: Option<Moment>, style: Style, now: Moment, age: real,
                          freshWithin: real, author: Option<string>, body: string, edited: Option<Moment>)
    requires DigitClass(digit) && (author.Some? ==> '\n' !in Trimmed(author.value))
    ensures var stamp := FormatStamp(written, style, now, age, freshWithin);
            var header := if author.None? then "" else ForwardHeader(author.value);
            var mark := FormatEditMark(edited, style, now);
            StripPresentation(digit, stamp + (header + (body + mark))) == body <==>
            !Imitates(digit, stamp != "", author.Some?, mark != "", body, mark)
  {
    var stamp := FormatStamp(written, style, now, age, freshWithin);
    var mark := FormatEditMark(edited, style, now);
    StampIsRecognised(digit, written, style, now, age, freshWithin);
    MarkIsRecognised(digit, edited, style, now);
    if author.Some? { ForwardLineComesOff(author.value, ""); }
    DecorationsComeOff(digit, stamp, if author.None? then "" else ForwardHeader(author.value), body, mark);
  }
}
