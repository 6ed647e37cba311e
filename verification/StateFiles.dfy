// Two-copy state files that survive a power cut: `bridge/max_client/state_files.py`, and the two files
// kept with them, the device identity (`bridge/max_client/identity.py`) and the launch counter
// (`bridge/max_client/client.py`).
//
// Replacing a file is atomic; everything larger is a sequence of replacements, and the machine may stop,
// or a replacement may be refused, at any of them.
module StateFiles {
  import opened Wrappers

  /** A file as `read_with_backup` sees it. Torn text reads but does not parse; an unreadable file does not read, which
      is caught; bytes that are no UTF-8 make the reading raise something that is not. */
  datatype File<T> = Absent | Good(value: T) | Torn | Unreadable | Garbled

  datatype Disk<T> = Disk(primary: File<T>, copy: File<T>)

  datatype Write<T> = ToCopy(content: File<T>) | ToPrimary(content: File<T>)

  /** What becomes of one replacement. */
  datatype Fate = Done | Refused | Dies

  /** How a sequence of replacements ends: all tried, the primary refused, or the machine stopped. */
  datatype End = Finished | Failed | Died

  function Apply<T>(d: Disk<T>, w: Write<T>): Disk<T> {
    match w
    case ToCopy(c) => d.(copy := c)
    case ToPrimary(c) => d.(primary := c)
  }

  /** The replacements of `ws` under `fates`, read in order; past their end everything succeeds. A refused copy is
      only logged, a refused primary raises. */
  function Perform<T>(d: Disk<T>, ws: seq<Write<T>>, fates: seq<Fate>): (Disk<T>, End)
    decreases ws
  {
    if ws == [] then (d, Finished)
    else
      var rest := if fates == [] then [] else fates[1..];
      match if fates == [] then Done else fates[0]
      case Dies => (d, Died)
      case Refused => if ws[0].ToPrimary? then (d, Failed) else Perform(d, ws[1..], rest)
      case Done => Perform(Apply(d, ws[0]), ws[1..], rest)
  }

  predicate Readable<T>(f: File<T>) { f.Good? || f.Torn? }

  /** `write_atomic`: the previous text to the copy, the payload to the primary; or, with no previous text, the
      payload to the primary and then to a copy that does not exist yet. */
  function Writes<T>(d: Disk<T>, payload: T): seq<Write<T>> {
    if Readable(d.primary) then [ToCopy(d.primary), ToPrimary(Good(payload))]
    else [ToPrimary(Good(payload))] + if d.copy.Absent? then [ToCopy(Good(payload))] else []
  }

  /** The whole of `write_atomic`: it raises before it writes when the previous bytes are no text. */
  function Wrote<T>(d: Disk<T>, payload: T, fates: seq<Fate>): (Disk<T>, End) {
    if d.primary.Garbled? then (d, Failed) else Perform(d, Writes(d, payload), fates)
  }

  /** `ensure_backup` beside a primary that parsed. */
  function BackupWrites<T>(d: Disk<T>): seq<Write<T>> {
    if !d.copy.Absent? || !Readable(d.primary) then [] else [ToCopy(d.primary)]
  }

  /** `read_with_backup` raises. */
  predicate ReadRaises<T>(d: Disk<T>) { d.primary.Garbled? || (!d.primary.Good? && d.copy.Garbled?) }

  /** What `read_with_backup` returns where it does not raise. */
  function Stored<T>(d: Disk<T>): Option<T> {
    if ReadRaises(d) then None
    else if d.primary.Good? then Some(d.primary.value)
    else if d.copy.Good? then Some(d.copy.value)
    else None
  }

  // ---------------------------------------------------------------- one write

  ghost predicate Usable<T>(d: Disk<T>) { d.primary.Good? || d.copy.Good? }

  /** At every instant of a write one of the two files is complete, exactly when the primary was not torn. */
  lemma OneFileIsAlwaysComplete<T>(d: Disk<T>, payload: T)
    requires Usable(d)
    ensures (forall fates :: Usable(Wrote(d, payload, fates).0)) <==> !d.primary.Torn?
  {
    if d.primary.Torn? {
      var _ := CutAfterCopy(d, payload);
    } else {
      forall fates
        ensures Usable(Wrote(d, payload, fates).0)
      {
        WriteOutcomes(d, payload, fates);
      }
    }
  }

  lemma CutAfterCopy<T>(d: Disk<T>, payload: T) returns (fates: seq<Fate>)
    requires d.primary.Torn?
    ensures !Usable(Wrote(d, payload, fates).0)
  {
    fates := [Done, Dies];
    var ws := Writes(d, payload);
    assert fates[1..] == [Dies] && ws[1..] == [ToPrimary(Good(payload))];
    PerformOne(Apply(d, ws[0]), ws[1], fates[1..]);
  }

  /** Everything one write can leave behind, once it gets to its replacements. */
  lemma WriteOutcomes<T>(d: Disk<T>, payload: T, fates: seq<Fate>)
    ensures var (e, end) := Perform(d, Writes(d, payload), fates);
            && (end.Finished? ==> e.primary == Good(payload))
            && (Readable(d.primary) ==>
                  && (e.copy == d.copy || e.copy == d.primary)
                  && (e.primary == d.primary || e.primary == Good(payload)))
            && (!Readable(d.primary) ==>
                  || e == d
                  || (e.primary == Good(payload) && (e.copy == d.copy || (d.copy.Absent? && e.copy == Good(payload)))))
            && (end.Finished? && Refused !in fates ==>
                  e.copy == if Readable(d.primary) then d.primary
                            else if d.copy.Absent? then Good(payload) else d.copy)
  {
    var ws := Writes(d, payload);
    var rest := if fates == [] then [] else fates[1..];
    if |ws| == 2 {
      assert ws[1..] == [ws[1]] && ws[1..][1..] == [];
      PerformOne(d, ws[1], rest);
      PerformOne(Apply(d, ws[0]), ws[1], rest);
    } else {
      assert ws == [ws[0]];
      PerformOne(d, ws[0], fates);
    }
  }

  lemma PerformOne<T>(d: Disk<T>, w: Write<T>, fates: seq<Fate>)
    ensures var fate := if fates == [] then Done else fates[0];
            Perform(d, [w], fates) ==
            match fate
            case Dies => (d, Died)
            case Refused => (d, if w.ToPrimary? then Failed else Finished)
            case Done => (Apply(d, w), Finished)
  {
    assert [w][1..] == [];
  }

  // ---------------------------------------------------------------- the device identity

  /** One start of the process: what it would draw, what it would write in place of two unusable files, and what
      happens to its replacements. */
  datatype Launch<T> = Launch(drawn: T, legacy: T, fates: seq<Fate>)

  /** `load_or_create` up to its replacements, where the reading does not raise. */
  function Loads<T>(d: Disk<T>, l: Launch<T>): (T, seq<Write<T>>) {
    if d.primary.Good? then (d.primary.value, BackupWrites(d))
    else if d.copy.Good? then (d.copy.value, Writes(d, d.copy.value))
    else if d.primary.Absent? && d.copy.Absent? then (l.drawn, Writes(d, l.drawn))
    else (l.legacy, Writes(d, l.legacy))
  }

  /** The disk a launch leaves, and the identity it returned, if it got that far. */
  function Launched<T>(d: Disk<T>, l: Launch<T>): (Disk<T>, Option<T>) {
    if ReadRaises(d) then (d, None)
    else
      var (identity, ws) := Loads(d, l);
      var (e, end) := Perform(d, ws, l.fates);
      (e, if end.Died? then None else Some(identity))
  }

  /** Which identity a launch returns: the stored one, from the primary before the copy; on an empty disk the one it
      draws; and where there was something that cannot be used, the legacy one.  It returns none exactly when the
      reading raises or the machine stops at one of its replacements. */
  lemma IdentityIs<T>(d: Disk<T>, l: Launch<T>)
    ensures var r := Launched(d, l).1;
            r.Some? ==>
              r.value == if d.primary.Good? then d.primary.value
                         else if d.copy.Good? then d.copy.value
                         else if d == Disk(Absent, Absent) then l.drawn
                         else l.legacy
    ensures Dies !in l.fates ==>
              (Launched(d, l).1.None? <==> d.primary.Garbled? || (!d.primary.Good? && d.copy.Garbled?))
  {
    if !ReadRaises(d) { NobodyDies(d, Loads(d, l).1, l.fates); }
  }

  lemma {:induction false} NobodyDies<T>(d: Disk<T>, ws: seq<Write<T>>, fates: seq<Fate>)
    ensures Dies !in fates ==> !Perform(d, ws, fates).1.Died?
    decreases ws
  {
    if ws != [] && Dies !in fates {
      var rest := if fates == [] then [] else fates[1..];
      NobodyDies(d, ws[1..], rest);
      NobodyDies(Apply(d, ws[0]), ws[1..], rest);
    }
  }

  /** What an undisturbed launch leaves: the identity it returned in the primary; and as the copy, what there was,
      unless there was none, which is seeded, or the primary was torn, which is kept in its place. */
  lemma LaunchLeaves<T>(d: Disk<T>, l: Launch<T>)
    requires l.fates == [] && Launched(d, l).1.Some?
    ensures var (e, r) := Launched(d, l);
            && e.primary == Good(r.value)
            && e.copy == if d.primary.Torn? then Torn else if d.copy.Absent? then Good(r.value) else d.copy
  {
    var (identity, ws) := Loads(d, l);
    if |ws| == 2 {
      assert ws[1..] == [ws[1]];
      PerformOne(Apply(d, ws[0]), ws[1], []);
    } else if ws != [] {
      assert ws == [ws[0]];
      PerformOne(d, ws[0], []);
    }
  }

  function Returned<T>(d: Disk<T>, run: seq<Launch<T>>): seq<T>
    decreases run
  {
    if run == [] then []
    else
      var (e, r) := Launched(d, run[0]);
      (if r.Some? then [r.value] else []) + Returned(e, run[1..])
  }

  ghost predicate AllAre<T>(values: seq<T>, v: T) {
    forall i | 0 <= i < |values| :: values[i] == v
  }

  /** The identity is `v` and no crash or refusal during recovery can change that. */
  ghost predicate Keeps<T>(d: Disk<T>, v: T) {
    d.primary == Good(v) || (!Readable(d.primary) && d.copy == Good(v))
  }

  lemma LaunchKeeps<T>(d: Disk<T>, v: T, l: Launch<T>)
    requires Keeps(d, v)
    ensures Keeps(Launched(d, l).0, v)
    ensures Launched(d, l).1.Some? ==> Launched(d, l).1.value == v
  {
    if d.primary.Good? {
      var ws := BackupWrites(d);
      if ws != [] { PerformOne(d, ws[0], l.fates); }
    } else {
      WriteOutcomes(d, v, l.fates);
    }
  }

  lemma {:induction false} KeptForEver<T>(d: Disk<T>, v: T, run: seq<Launch<T>>)
    requires Keeps(d, v)
    ensures AllAre(Returned(d, run), v)
    decreases run
  {
    if run == [] {
    } else {
      LaunchKeeps(d, v, run[0]);
      KeptForEver(Launched(d, run[0]).0, v, run[1..]);
    }
  }

  /** A stored identity survives every run of launches, however cut or refused, exactly when the primary is not
      torn: recovering from a torn primary first copies the torn text over the good copy. */
  lemma StoredIdentitySurvives<T(!new)>(d: Disk<T>, v: T, other: T)
    requires Stored(d) == Some(v) && other != v
    ensures (forall run: seq<Launch<T>> :: AllAre(Returned(d, run), v)) <==> !d.primary.Torn?
  {
    if d.primary.Torn? {
      var _ := LosingRun(d, v, other);
    } else {
      forall run: seq<Launch<T>>
        ensures AllAre(Returned(d, run), v)
      {
        KeptForEver(d, v, run);
      }
    }
  }

  lemma LosingRun<T>(d: Disk<T>, v: T, other: T) returns (run: seq<Launch<T>>)
    requires d == Disk(Torn, Good(v)) && other != v
    ensures !AllAre(Returned(d, run), v)
  {
    var cut := Launch(other, other, [Done, Dies]);
    var whole := Launch(other, other, []);
    CutRecovery(d, v, cut);
    var bad: Disk<T> := Disk(Torn, Torn);
    NoFatesFinish(bad, Writes(bad, other));
    run := [cut, whole];
    assert run[1..] == [whole] && [whole][1..] == [];
    assert Returned(bad, [whole]) == [other] + Returned(Launched(bad, whole).0, []);
    assert Returned(d, run)[0] == other;
  }

  lemma CutRecovery<T>(d: Disk<T>, v: T, cut: Launch<T>)
    requires d == Disk(Torn, Good(v)) && cut.fates == [Done, Dies]
    ensures Launched(d, cut) == (Disk(Torn, Torn), None)
  {
    var ws := Writes(d, v);
    assert ws[1..] == [ToPrimary(Good(v))] && cut.fates[1..] == [Dies];
    PerformOne(Apply(d, ws[0]), ws[1], [Dies]);
  }

  function FateAt(fates: seq<Fate>, i: nat): Fate { if i < |fates| then fates[i] else Done }

  /** The launch replaces the primary, and that is refused.  A readable primary is copied first. */
  predicate PrimaryRefused<T>(d: Disk<T>, l: Launch<T>) {
    !d.primary.Good? && FateAt(l.fates, if Readable(d.primary) then 1 else 0).Refused?
  }

  /** The rule that no identity is handed back that is not on disk, exactly: it holds for a launch unless its write of
      the primary is refused; and even then where a good copy is left alone, beside a primary that is missing or
      cannot be read, or beside a torn one whose text could not be copied over it either. */
  lemma ReturnedIsOnDisk<T>(d: Disk<T>, l: Launch<T>)
    requires Launched(d, l).1.Some?
    ensures Stored(Launched(d, l).0) == Launched(d, l).1 <==>
            || !PrimaryRefused(d, l)
            || (d.copy.Good? && (!d.primary.Torn? || FateAt(l.fates, 0).Refused?))
  {
    var (identity, ws) := Loads(d, l);
    var rest := if l.fates == [] then [] else l.fates[1..];
    if d.primary.Good? {
      if ws != [] { PerformOne(d, ws[0], l.fates); }
    } else if |ws| == 2 {
      assert ws[1..] == [ws[1]];
      PerformOne(d, ws[1], rest);
      PerformOne(Apply(d, ws[0]), ws[1], rest);
    } else {
      assert ws == [ws[0]];
      PerformOne(d, ws[0], l.fates);
    }
  }

  /** No launch of the run is refused its write of the primary; copies may be. */
  predicate PrimaryAccepted<T>(d: Disk<T>, run: seq<Launch<T>>)
    decreases run
  {
    run == [] || (!PrimaryRefused(d, run[0]) && PrimaryAccepted(Launched(d, run[0]).0, run[1..]))
  }

  /** Whatever is on disk, an install that can write its primary reports one identity for ever: nothing is returned
      that is not in the primary. */
  lemma {:induction false} OneIdentity<T>(d: Disk<T>, run: seq<Launch<T>>) returns (v: T)
    requires run != [] && PrimaryAccepted(d, run)
    ensures AllAre(Returned(d, run), v)
    decreases run
  {
    var l := run[0];
    var (e, r) := Launched(d, l);
    if r.Some? {
      v := r.value;
      ReturnedIsStored(d, l);
      KeptForEver(e, v, run[1..]);
    } else if |run| == 1 {
      v := l.drawn;
      assert run[1..] == [];
    } else {
      v := OneIdentity(e, run[1..]);
    }
  }

  lemma ReturnedIsStored<T>(d: Disk<T>, l: Launch<T>)
    requires !PrimaryRefused(d, l) && Launched(d, l).1.Some?
    ensures Launched(d, l).0.primary == Good(Launched(d, l).1.value)
  {
    var (identity, ws) := Loads(d, l);
    var rest := if l.fates == [] then [] else l.fates[1..];
    if d.primary.Good? {
      if ws != [] { PerformOne(d, ws[0], l.fates); }
    } else if |ws| == 2 {
      assert ws[1..] == [ws[1]];
      PerformOne(d, ws[1], rest);
      PerformOne(Apply(d, ws[0]), ws[1], rest);
    } else {
      assert ws == [ws[0]];
      PerformOne(d, ws[0], l.fates);
    }
  }

  /** Bytes that are no UTF-8 are never recovered from, whatever the copy holds: every launch raises and leaves both
      files as they are. */
  lemma {:induction false} GarbledForEver<T>(d: Disk<T>, run: seq<Launch<T>>)
    requires d.primary.Garbled?
    ensures Returned(d, run) == []
    decreases run
  {
    if run != [] { GarbledForEver(d, run[1..]); }
  }

  lemma {:induction false} AcceptedNeverFails<T>(d: Disk<T>, ws: seq<Write<T>>, fates: seq<Fate>)
    requires Refused !in fates
    ensures !Perform(d, ws, fates).1.Failed?
    decreases ws
  {
    if ws != [] {
      var rest := if fates == [] then [] else fates[1..];
      AcceptedNeverFails(Apply(d, ws[0]), ws[1..], rest);
    }
  }

  /** A refused first write breaks that: two starts report two phones. */
  lemma RefusedFirstWrite<T>(a: T, b: T, old1: T, old2: T)
    requires a != b
    ensures var run := [Launch(a, old1, [Refused]), Launch(b, old2, [])];
            Returned(Disk(Absent, Absent), run) == [a, b]
  {
    var d: Disk<T> := Disk(Absent, Absent);
    var run := [Launch(a, old1, [Refused]), Launch(b, old2, [])];
    assert run[1..] == [run[1]] && [run[1]][1..] == [];
    assert Launched(d, run[0]) == (d, Some(a));
    NoFatesFinish(d, Writes(d, b));
    assert Returned(d, [run[1]]) == [b] + Returned(Launched(d, run[1]).0, []);
  }

  function Teared<T>(d: Disk<T>): Disk<T> { d.(primary := Torn) }

  /** From a clean install one tear is survived by the next uninterrupted start; but the copy stays torn, so after
      a second tear the account reports whatever is written in its place. */
  lemma SecondTearIsFatal<T>(v: T, l1: Launch<T>, l2: Launch<T>)
    requires l1.fates == [] && l2.fates == []
    ensures var (e, r) := Launched(Teared(Disk(Good(v), Good(v))), l1);
            && r == Some(v) && e == Disk(Good(v), Torn)
            && Launched(e, l2) == (e, Some(v))
            && Launched(Teared(e), l2).1 == Some(l2.legacy)
  {
    WriteOutcomes(Disk(Torn, Good(v)), v, []);
    AcceptedNeverFails(Disk(Torn, Good(v)), Writes(Disk(Torn, Good(v)), v), []);
    NoFatesFinish(Disk(Torn, Good(v)), Writes(Disk(Torn, Good(v)), v));
    var bad: Disk<T> := Disk(Torn, Torn);
    NoFatesFinish(bad, Writes(bad, l2.legacy));
  }

  /** After a tear of a good primary the next start, however cut or refused, returns the same identity exactly when
      the copy still holds it. */
  lemma TearSurvivedExactlyWhen<T>(d: Disk<T>, v: T, l: Launch<T>)
    requires d.primary == Good(v) && l.legacy != v && Launched(Teared(d), l).1.Some?
    ensures Launched(Teared(d), l).1 == Some(v) <==> d.copy == Good(v)
  {
  }

  lemma {:induction false} NoFatesFinish<T>(d: Disk<T>, ws: seq<Write<T>>)
    ensures Perform(d, ws, []).1.Finished?
    decreases ws
  {
    if ws != [] { NoFatesFinish(Apply(d, ws[0]), ws[1..]); }
  }

  // ---------------------------------------------------------------- the launch counter

  function Level(d: Disk<int>): int {
    if Stored(d).Some? then Stored(d).value else 0
  }

  /** `next_client_session_id`. */
  function Counted(d: Disk<int>, fates: seq<Fate>): (Disk<int>, Option<int>) {
    if ReadRaises(d) then (d, None)
    else
      var (e, end) := Perform(d, Writes(d, Level(d) + 1), fates);
      (e, if end.Died? then None else Some(Level(d) + 1))
  }

  /** The number of a launch: one more than the stored one, from the primary before the copy, or 1 where none is; and
      what an undisturbed launch leaves. */
  lemma NumberIs(d: Disk<int>, fates: seq<Fate>)
    ensures var r := Counted(d, fates).1;
            r.Some? ==>
              r.value == if d.primary.Good? then d.primary.value + 1
                         else if d.copy.Good? then d.copy.value + 1
                         else 1
    ensures Dies !in fates ==>
              (Counted(d, fates).1.None? <==> d.primary.Garbled? || (!d.primary.Good? && d.copy.Garbled?))
    ensures Counted(d, []).1.Some? ==>
              var (e, r) := Counted(d, []);
              && e.primary == Good(r.value)
              && e.copy == if d.primary.Good? || d.primary.Torn? then d.primary
                           else if d.copy.Absent? then Good(r.value) else d.copy
  {
    var ws := Writes(d, Level(d) + 1);
    NobodyDies(d, ws, fates);
    NoFatesFinish(d, ws);
    WriteOutcomes(d, Level(d) + 1, []);
  }

  /** A launch, or a tear of the primary followed by a launch that nothing interrupts. */
  datatype Episode = Counts(fates: seq<Fate>) | TornThenCounts

  function EpisodeOf(d: Disk<int>, e: Episode): (Disk<int>, Option<int>) {
    match e
    case Counts(fates) => Counted(d, fates)
    case TornThenCounts => Counted(Teared(d), [])
  }

  function Counters(d: Disk<int>, run: seq<Episode>): seq<int>
    decreases run
  {
    if run == [] then []
    else
      var (e, r) := EpisodeOf(d, run[0]);
      (if r.Some? then [r.value] else []) + Counters(e, run[1..])
  }

  function Tears(run: seq<Episode>): nat {
    if run == [] then 0 else (if run[0].TornThenCounts? then 1 else 0) + Tears(run[1..])
  }

  /** The copy is at most one launch behind. */
  predicate Backed(d: Disk<int>) {
    d.primary.Good? && d.copy.Good? && d.primary.value - 1 <= d.copy.value <= d.primary.value
  }

  /** Replacements succeed, and a tear hits only a file whose copy is up to date. */
  predicate Fair(d: Disk<int>, run: seq<Episode>)
    decreases run
  {
    run == [] ||
    (&& (run[0].Counts? ==> Refused !in run[0].fates)
     && (run[0].TornThenCounts? ==> Backed(d))
     && Fair(EpisodeOf(d, run[0]).0, run[1..]))
  }

  lemma CountOnce(d: Disk<int>, fates: seq<Fate>)
    requires Refused !in fates && !d.primary.Torn?
    ensures var (e, r) := Counted(d, fates);
            && !e.primary.Torn?
            && Level(d) <= Level(e) <= Level(d) + 1
            && (r.Some? ==> r.value == Level(d) + 1 == Level(e))
            && (r.Some? && d.primary.Good? ==> Backed(e))
  {
    WriteOutcomes(d, Level(d) + 1, fates);
    AcceptedNeverFails(d, Writes(d, Level(d) + 1), fates);
  }

  lemma CountAfterTear(d: Disk<int>)
    requires Backed(d)
    ensures var (e, r) := Counted(Teared(d), []);
            && e == Disk(Good(d.copy.value + 1), Torn)
            && r == Some(d.copy.value + 1)
            && Level(d) <= Level(e) <= Level(d) + 1
  {
    WriteOutcomes(Teared(d), d.copy.value + 1, []);
    NoFatesFinish(Teared(d), Writes(Teared(d), d.copy.value + 1));
  }

  /** Never back, never more than `tears` values short of one more per launch, never ahead of the launches begun. */
  ghost predicate Rising(values: seq<int>, level: int, launches: nat, tears: nat) {
    && (forall i, j | 0 <= i < j < |values| :: values[i] <= values[j] && values[i] + (j - i) <= values[j] + tears)
    && (forall i | 0 <= i < |values| :: level <= values[i] <= level + launches && level + i + 1 <= values[i] + tears)
  }

  lemma RisingFrom(first: int, rest: seq<int>, before: int, level: int, launches: nat, tears: nat, more: nat)
    requires Rising(rest, level, launches, tears)
    requires before <= first == level <= before + 1 && before + 1 <= first + more
    ensures Rising([first] + rest, before, launches + 1, tears + more)
  {
    var all := [first] + rest;
    forall i | 0 <= i < |all|
      ensures before <= all[i] <= before + launches + 1 && before + i + 1 <= all[i] + tears + more
    {
      if i > 0 { assert all[i] == rest[i - 1]; }
    }
    forall i, j | 0 <= i < j < |all|
      ensures all[i] <= all[j] && all[i] + (j - i) <= all[j] + tears + more
    {
      assert all[j] == rest[j - 1];
      if i > 0 { assert all[i] == rest[i - 1]; }
    }
  }

  lemma RisingBelow(values: seq<int>, before: int, level: int, launches: nat, tears: nat)
    requires Rising(values, level, launches, tears) && before <= level <= before + 1
    ensures Rising(values, before, launches + 1, tears)
  {
  }

  /** One episode moves the stored count up by at most one, and returns the new count. */
  lemma EpisodeBounds(d: Disk<int>, x: Episode)
    requires !d.primary.Torn? && Fair(d, [x])
    ensures var (e, r) := EpisodeOf(d, x);
            && (x.TornThenCounts? || !e.primary.Torn?)
            && (x.TornThenCounts? ==> e.primary.Good? && r.Some?)
            && Level(d) <= Level(e) <= Level(d) + 1
            && (r.Some? ==> r.value == Level(e) && (x.Counts? ==> r.value == Level(d) + 1))
  {
    match x
    case Counts(fates) => CountOnce(d, fates);
    case TornThenCounts => CountAfterTear(d);
  }

  lemma RisesOnce(d: Disk<int>, x: Episode, rest: seq<int>, launches: nat, tears: nat)
    requires !d.primary.Torn? && Fair(d, [x]) && Rising(rest, Level(EpisodeOf(d, x).0), launches, tears)
    ensures var r := EpisodeOf(d, x).1;
            Rising((if r.Some? then [r.value] else []) + rest, Level(d), launches + 1,
                   tears + if x.TornThenCounts? then 1 else 0)
  {
    var (e, r) := EpisodeOf(d, x);
    EpisodeBounds(d, x);
    hide Rising, EpisodeOf, Level, Fair;
    if r.Some? {
      RisingFrom(r.value, rest, Level(d), Level(e), launches, tears, if x.TornThenCounts? then 1 else 0);
    } else {
      RisingBelow(rest, Level(d), Level(e), launches, tears);
      assert [] + rest == rest;
    }
  }

  /** Over any run of launches, crashes and recoverable tears the counter never goes back and never runs ahead of
      the launches begun; without tears it is strictly increasing, and each tear costs at most one repeat. */
  lemma {:induction false} CounterOnlyRises(d: Disk<int>, run: seq<Episode>)
    requires !d.primary.Torn? && Fair(d, run)
    ensures Rising(Counters(d, run), Level(d), |run|, Tears(run))
    decreases run
  {
    if run == [] {
    } else {
      hide Rising, EpisodeOf, Level;
      var (e, r) := EpisodeOf(d, run[0]);
      assert [run[0]][1..] == [];
      EpisodeBounds(d, run[0]);
      CounterOnlyRises(e, run[1..]);
      RisesOnce(d, run[0], Counters(e, run[1..]), |run| - 1, Tears(run[1..]));
    }
  }

  // ---------------------------------------------------------------- the files themselves

  class StateFile<T> {
    var primary: File<T>
    var copy: File<T>

    ghost function OnDisk(): Disk<T>
      reads this
    {
      Disk(primary, copy)
    }

    constructor (d: Disk<T>)
      ensures OnDisk() == d
    {
      primary, copy := d.primary, d.copy;
    }

    /** One `_replace`: all of it, none of it, or the machine stops first. */
    method Replace(w: Write<T>, fate: Fate) returns (end: End)
      modifies this
      ensures OnDisk() == if fate.Done? then Apply(old(OnDisk()), w) else old(OnDisk())
      ensures end == if fate.Done? then Finished else if fate.Refused? then Failed else Died
    {
      match fate
      case Dies => end := Died;
      case Refused => end := Failed;
      case Done =>
        end := Finished;
        if w.ToCopy? { copy := w.content; } else { primary := w.content; }
    }

    method WriteAtomic(payload: T, fates: seq<Fate>) returns (end: End)
      modifies this
      ensures (OnDisk(), end) == Wrote(old(OnDisk()), payload, fates)
    {
      if primary.Garbled? { return Failed; }
      var previous := primary;
      var first := if fates == [] then Done else fates[0];
      var rest := if fates == [] then [] else fates[1..];
      var second := if rest == [] then Done else rest[0];
      ghost var d, ws := OnDisk(), Writes(OnDisk(), payload);
      assert Perform(d, ws, fates) ==
             match first
             case Dies => (d, Died)
             case Refused => if ws[0].ToPrimary? then (d, Failed) else Perform(d, ws[1..], rest)
             case Done => Perform(Apply(d, ws[0]), ws[1..], rest);
      if Readable(previous) {
        assert ws[1..] == [ToPrimary(Good(payload))];
        PerformOne(OnDisk(), ws[1], rest);
        PerformOne(Apply(OnDisk(), ws[0]), ws[1], rest);
        end := Replace(ToCopy(previous), first);
        if end.Died? { return; }
        end := Replace(ToPrimary(Good(payload)), second);
      } else {
        assert copy.Absent? ==> ws[1..] == [ToCopy(Good(payload))];
        assert !copy.Absent? ==> ws == [ToPrimary(Good(payload))] && ws[1..] == [];
        PerformOne(Apply(OnDisk(), ws[0]), ToCopy(Good(payload)), rest);
        end := Replace(ToPrimary(Good(payload)), first);
        if !end.Finished? { return; }
        if copy.Absent? {
          end := Replace(ToCopy(Good(payload)), second);
          if end.Failed? { end := Finished; }
        }
      }
    }

    method EnsureBackup(fates: seq<Fate>) returns (end: End)
      modifies this
      ensures (OnDisk(), end) == Perform(old(OnDisk()), BackupWrites(old(OnDisk())), fates)
    {
      if !copy.Absent? || !Readable(primary) { return Finished; }
      PerformOne(OnDisk(), ToCopy(primary), fates);
      end := Replace(ToCopy(primary), if fates == [] then Done else fates[0]);
      if end.Failed? { end := Finished; }
    }

    method ReadWithBackup() returns (value: Option<T>, fromBackup: bool, raised: bool)
      ensures raised <==> ReadRaises(OnDisk())
      ensures value == Stored(OnDisk())
      ensures !raised ==> (fromBackup <==> !primary.Good? && copy.Good?)
    {
      value, fromBackup, raised := None, false, false;
      var candidates := [primary, copy];
      for i := 0 to |candidates|
        invariant value.None? && !fromBackup && !raised && candidates == [primary, copy]
        invariant 0 < i ==> !primary.Good? && !primary.Garbled?
        invariant 1 < i ==> !copy.Good? && !copy.Garbled?
      {
        if candidates[i].Garbled? { return None, false, true; }
        if candidates[i].Good? { return Some(candidates[i].value), i == 1, false; }
      }
    }

    /** `None` where the reading raises or the machine stops. */
    method LoadOrCreate(l: Launch<T>) returns (identity: Option<T>)
      modifies this
      ensures (OnDisk(), identity) == Launched(old(OnDisk()), l)
    {
      var stored, fromBackup, raised := ReadWithBackup();
      if raised { return None; }
      var end: End;
      if stored.Some? {
        identity := stored;
        if fromBackup {
          end := WriteAtomic(stored.value, l.fates);
        } else {
          end := EnsureBackup(l.fates);
        }
      } else if primary.Absent? && copy.Absent? {
        identity := Some(l.drawn);
        end := WriteAtomic(l.drawn, l.fates);
      } else {
        identity := Some(l.legacy);
        end := WriteAtomic(l.legacy, l.fates);
      }
      if end.Died? { identity := None; }
    }
  }

  method NextClientSessionId(file: StateFile<int>, fates: seq<Fate>) returns (id: Option<int>)
    modifies file
    ensures (file.OnDisk(), id) == Counted(old(file.OnDisk()), fates)
  {
    var stored, _, raised := file.ReadWithBackup();
    if raised { return None; }
    var current := (if stored.Some? then stored.value else 0) + 1;
    var end := file.WriteAtomic(current, fates);
    id := if end.Died? then None else Some(current);
  }
}
