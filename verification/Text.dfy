// Strings as the other modules trim and compare them.
module Text {
  /** White space, as Python's `strip` takes it off. */
  predicate Space(c: char) {
    var n := c as int;
    || 9 <= n <= 13 || 28 <= n <= 32 || n == 0x85 || n == 0xA0 || n == 0x1680 || 0x2000 <= n <= 0x200A
    || n == 0x2028 || n == 0x2029 || n == 0x202F || n == 0x205F || n == 0x3000
  }

  /** What Python's `strip` leaves. */
  function Trimmed(s: string): string {
    if s == "" then ""
    else if Space(s[0]) then Trimmed(s[1..])
    else if Space(s[|s| - 1]) then Trimmed(s[..|s| - 1])
    else s
  }

  /** What Python's `lstrip` leaves. */
  function TrimmedLeft(s: string): string {
    if s != "" && Space(s[0]) then TrimmedLeft(s[1..]) else s
  }

  predicate AllSpace(s: string) { forall i :: 0 <= i < |s| ==> Space(s[i]) }

  lemma SpaceInFront(s: string, i: nat, j: nat)
    requires s != "" && Space(s[0]) && 1 <= i <= j <= |s|
    requires AllSpace(s[1..][..i - 1]) && AllSpace(s[1..][j - 1..])
    ensures AllSpace(s[..i]) && AllSpace(s[j..]) && s[1..][i - 1..j - 1] == s[i..j]
  {
    hide Space;
    forall k | 0 <= k < i ensures Space(s[k]) {
      if k > 0 { assert s[k] == s[1..][..i - 1][k - 1]; }
    }
    assert s[j..] == s[1..][j - 1..];
  }

  lemma SpaceBehind(s: string, i: nat, j: nat)
    requires s != "" && Space(s[|s| - 1]) && i <= j < |s|
    requires var t := s[..|s| - 1]; AllSpace(t[..i]) && AllSpace(t[j..])
    ensures AllSpace(s[..i]) && AllSpace(s[j..]) && s[..|s| - 1][i..j] == s[i..j]
  {
    hide Space;
    var t := s[..|s| - 1];
    assert s[..i] == t[..i];
    forall k | 0 <= k < |s| - j ensures Space(s[j..][k]) {
      if j + k < |t| { assert s[j..][k] == t[j..][k]; }
    }
  }

  /** White space comes off both ends, and nothing else does. */
  lemma {:induction false} TrimmedIs(s: string) returns (i: nat, j: nat)
    ensures i <= j <= |s| && Trimmed(s) == s[i..j] && AllSpace(s[..i]) && AllSpace(s[j..])
    ensures if i < j then !Space(s[i]) && !Space(s[j - 1]) else AllSpace(s)
    decreases |s|
  {
    hide Space, AllSpace;
    NoSpace();
    assert s[..0] == "" && s[|s|..] == "";
    if s == "" {
      i, j := 0, 0;
    } else if Space(s[0]) {
      i, j := TrimmedIs(s[1..]);
      i, j := i + 1, j + 1;
      SpaceInFront(s, i, j);
    } else if Space(s[|s| - 1]) {
      i, j := TrimmedIs(s[..|s| - 1]);
      SpaceBehind(s, i, j);
    } else {
      i, j := 0, |s|;
    }
    if i == j { BothSides(s, i); }
  }

  lemma NoSpace()
    ensures AllSpace("")
  {
  }

  lemma BothSides(s: string, i: nat)
    requires i <= |s| && AllSpace(s[..i]) && AllSpace(s[i..])
    ensures AllSpace(s)
  {
    hide Space;
    forall k | 0 <= k < |s| ensures Space(s[k]) {
      if k < i { assert s[k] == s[..i][k]; } else { assert s[k] == s[i..][k - i]; }
    }
  }

  predicate Quote(c: char) { c == '"' || c == '\'' }

  function Unquoted(s: string): string {
    if s == "" then ""
    else if Quote(s[0]) then Unquoted(s[1..])
    else if Quote(s[|s| - 1]) then Unquoted(s[..|s| - 1])
    else s
  }

  lemma {:induction false} LeftSpaceGoes(before: string, s: string)
    requires AllSpace(before) && s != "" && !Space(s[0])
    ensures TrimmedLeft(before + s) == s
    decreases before
  {
    if before == "" {
      assert before + s == s;
    } else {
      assert (before + s)[1..] == before[1..] + s && AllSpace(before[1..]);
      LeftSpaceGoes(before[1..], s);
    }
  }

  /** A line is blank when it is white space throughout. */
  lemma BlankIs(s: string)
    ensures Trimmed(s) == "" <==> AllSpace(s)
  {
    var i, j := TrimmedIs(s);
    if i < j { assert !AllSpace(s); }
  }

  lemma {:induction false} TrimmedWithoutLast(s: string)
    requires s != "" && Space(s[|s| - 1])
    ensures Trimmed(s) == Trimmed(s[..|s| - 1])
    decreases |s|
  {
    if Space(s[0]) && |s| > 1 {
      TrimmedWithoutLast(s[1..]);
      assert s[1..][..|s| - 2] == s[..|s| - 1][1..];
    }
  }

  /** What follows a mark, trimmed, is the same before and after the whole is trimmed. */
  lemma {:induction false} TrimmedTail(s: string, more: string)
    requires s != "" && !Space(s[0]) && !Space(s[|s| - 1])
    ensures s <= Trimmed(s + more) && Trimmed(Trimmed(s + more)[|s|..]) == Trimmed(more)
    decreases |more|
  {
    var t := s + more;
    if more != "" && Space(more[|more| - 1]) {
      assert t[..|t| - 1] == s + more[..|more| - 1];
      TrimmedWithoutLast(more);
      TrimmedTail(s, more[..|more| - 1]);
    } else {
      assert t[|s|..] == more;
    }
  }
}
