// Building one bridge per contact, survivably: `bridge/provisioning/batch.py`, over the journal of
// `bridge/provisioning/journal.py`.
//
// A walk is a sequence of acts: questions to the ports, effects through them, and notes in the journal.
// The answers are parameters.  A crash, or an error that escapes, leaves a prefix of the acts, so what is
// proved of every prefix holds wherever the walk is cut.  A monitor that knows nothing of the code reads
// the acts and says when a rule is broken.
module Provisioning {
  import opened Sequences
  import opened Wrappers

  type Chat = int

  // ---------------------------------------------------------------- the journal

  datatype ItemState =
    | Pending | AwaitingConfirmation | BotCreated | TokenSaved | WorkerStarted | StartSent | Healthy
    | FailedRetryable | FailedPermanent | Abandoned

  predicate Terminal(s: ItemState) { s.Healthy? || s.FailedPermanent? || s.Abandoned? }

  datatype Failure =
    | CreateLimit | FloodWait | UsernameOccupied | NotManageable | ConfirmationRequired | Network | UnknownFailure

  predicate Retryable(f: Failure) { !f.CreateLimit? && !f.UsernameOccupied? && !f.NotManageable? }

  datatype Entry = Entry(state: ItemState, tokenEnv: Option<string>, botId: Option<int>, bridgeName: Option<string>,
                         needsOpen: bool, failure: Option<Failure>)

  /** The fields one `note` names, and the merge of `begin`. */
  datatype Change =
    | Selected
    | Retried
    | GivenUp
    | Reopened
    | Awaiting
    | BotKnown(id: int)
    | Created(named: Option<int>)
    | Saved(env: string)
    | Started(name: string)
    | Greeted(mustOpen: bool)
    | Done
    | Failed(retryable: bool, failure: Option<Failure>)

  /** A contact selected for the first time. */
  const FIRST := Entry(Pending, None, None, None, false, None)

  /** An entry moved on.  A contact chosen again after a failure for good, or after it was given up, is a fresh attempt
      that keeps what the last one proved: the bot, the token, the name. */
  function Merged(e: Entry, x: Change): Entry {
    match x
    case Selected =>
      if Terminal(e.state) && !e.state.Healthy? then e.(state := Pending, needsOpen := false, failure := None) else e
    case Retried => e.(state := Pending, failure := None)
    case GivenUp => e.(state := Abandoned)
    case Reopened => e.(state := Pending)
    case Awaiting => e.(state := AwaitingConfirmation)
    case BotKnown(id) => e.(botId := Some(id))
    case Created(id) => e.(state := BotCreated, botId := if id.Some? then id else e.botId)
    case Saved(env) => e.(state := TokenSaved, tokenEnv := Some(env))
    case Started(name) => e.(state := WorkerStarted, bridgeName := Some(name))
    case Greeted(must) => e.(state := StartSent, needsOpen := must || e.needsOpen)
    case Done => e.(state := Healthy, failure := None)
    case Failed(retry, f) => e.(state := if retry then FailedRetryable else FailedPermanent, failure := f)
  }

  // ---------------------------------------------------------------- the ports

  datatype Username = Free | Owned | Foreign | Unmanageable | Unknown(failure: Failure)

  datatype Creation = Made(botId: Option<int>) | Declined(failure: Failure)

  datatype Greeting = GreetingSent | OwnerMustOpen | GreetingFailed

  /** What the ports will answer during one walk. `None` where a call raises. */
  datatype Ports = Ports(
    conflict: bool,
    username: Username,
    knownId: Option<int>,
    creation: Creation,
    savedAs: Option<string>,
    wipes: bool,
    startedAs: Option<string>,
    greeting: Greeting,
    healthy: bool,
    activated: bool)

  datatype Act =
    | Began(chat: Chat)
    | Preflighted(chat: Chat, conflict: bool)
    | Checked(chat: Chat, username: Username)
    | CreatedBot(chat: Chat, creation: Creation)
    | SavedToken(chat: Chat, env: string)
    | StoppedBridge(chat: Chat)
    | WipedDialog(chat: Chat)
    | StartedWorker(chat: Chat, env: string, ok: bool)
    | SentStart(chat: Chat, greeting: Greeting)
    | AskedHealth(chat: Chat, healthy: bool)
    | MarkedActive(chat: Chat, ok: bool)
    | Noted(chat: Chat, change: Change)
    | Forgot(chat: Chat)
    | Crashed

  // ---------------------------------------------------------------- one walk

  function Fails(c: Chat, retryable: bool): seq<Act> { [Noted(c, Failed(retryable, None))] }

  function FailsWith(c: Chat, f: Failure): seq<Act> { [Noted(c, Failed(Retryable(f), Some(f)))] }

  /** `_ensure_bot`: whether it ends with a token, and what it does. */
  predicate Ensured(p: Ports) { p.creation.Made? && p.savedAs.Some? }

  function EnsureActs(c: Chat, p: Ports): seq<Act> {
    (if p.username.Owned? then [] else [Noted(c, Awaiting)]) + MakeActs(c, p)
  }

  function MakeActs(c: Chat, p: Ports): seq<Act> {
    if p.creation.Declined? then [CreatedBot(c, p.creation)] + FailsWith(c, p.creation.failure)
    else
      [CreatedBot(c, p.creation), Noted(c, Created(p.creation.botId))] +
      if p.savedAs.None? then Fails(c, true) else TokenActs(c, p.savedAs.value, p)
  }

  function TokenActs(c: Chat, env: string, p: Ports): seq<Act> {
    [SavedToken(c, env), Noted(c, Saved(env)), StoppedBridge(c)] +
    if p.username.Owned? && p.wipes && p.creation.Made? && p.creation.botId.Some? then [WipedDialog(c)] else []
  }

  /** `_launch`, `_open_chat` and `_verify`. */
  function ServeActs(c: Chat, env: string, p: Ports): seq<Act> {
    if p.startedAs.None? then [StartedWorker(c, env, false)] + Fails(c, true)
    else [StartedWorker(c, env, true), Noted(c, Started(p.startedAs.value))] + GreetActs(c, p)
  }

  function GreetActs(c: Chat, p: Ports): seq<Act> {
    if p.greeting.GreetingFailed? then [SentStart(c, p.greeting)] + Fails(c, true)
    else [SentStart(c, p.greeting), Noted(c, Greeted(p.greeting.OwnerMustOpen?))] + VerifyActs(c, p)
  }

  function VerifyActs(c: Chat, p: Ports): seq<Act> {
    if !p.healthy then [AskedHealth(c, false)] + Fails(c, true)
    else if !p.activated then [AskedHealth(c, true), MarkedActive(c, false)] + Fails(c, true)
    else [AskedHealth(c, true), MarkedActive(c, true), Noted(c, Done)]
  }

  /** Which bot this is, when Telegram says it is ours and the entry does not know yet. */
  function RememberActs(c: Chat, e: Entry, p: Ports): seq<Act> {
    if p.username.Owned? && e.botId.None? && p.knownId.Some? && p.knownId.value != 0
    then [Noted(c, BotKnown(p.knownId.value))]
    else []
  }

  /** The walk goes on with a bot and a token it already has. */
  predicate Resumes(e: Entry, p: Ports) { e.tokenEnv.Some? && p.username.Owned? }

  function BotActs(c: Chat, e: Entry, p: Ports): seq<Act> {
    if Resumes(e, p) then ServeActs(c, e.tokenEnv.value, p)
    else
      EnsureActs(c, p) + if Ensured(p) then ServeActs(c, p.savedAs.value, p) else []
  }

  /** `_provision`. */
  function WalkActs(c: Chat, e: Entry, p: Ports): seq<Act> {
    if p.conflict then [Began(c), Preflighted(c, true)] + Fails(c, false)
    else
      [Began(c), Preflighted(c, false), Checked(c, p.username)] + AnswerActs(c, e, p)
  }

  function AnswerActs(c: Chat, e: Entry, p: Ports): seq<Act> {
    match p.username
    case Unknown(f) => FailsWith(c, f)
    case Foreign => FailsWith(c, UsernameOccupied)
    case Unmanageable => FailsWith(c, NotManageable)
    case _ => RememberActs(c, e, p) + BotActs(c, e, p)
  }

  /** One contact of `run`: skipped when finished and still alive, reopened when it went away. */
  function ContactActs(c: Chat, e: Entry, stillAlive: bool, p: Ports): seq<Act> {
    if !Terminal(e.state) then WalkActs(c, e, p)
    else if !e.state.Healthy? || stillAlive then []
    else [Noted(c, Reopened)] + WalkActs(c, e, p)
  }

  // ---------------------------------------------------------------- the journal a trace leaves

  function Written(j: map<Chat, Entry>, a: Act): map<Chat, Entry> {
    if a.Forgot? then j - {a.chat}
    else if !a.Noted? then j
    else if a.chat in j then j[a.chat := Merged(j[a.chat], a.change)]
    else if a.change.Selected? then j[a.chat := FIRST]
    else j
  }

  function Replayed(j: map<Chat, Entry>, acts: seq<Act>): map<Chat, Entry>
    decreases acts
  {
    if acts == [] then j else Replayed(Written(j, acts[0]), acts[1..])
  }

  // ---------------------------------------------------------------- the monitor

  /** What a monitor of one contact remembers: the tokens ever saved, whether this walk may create a bot, whether a
      saved token still waits for the old worker to be stopped, and how far towards serving this walk has come.
      `unstopped` and `bad` say that a rule was broken. */
  datatype Monitor = Monitor(saved: set<string>, barred: bool, cleared: bool, owed: bool, stage: nat,
                             unstopped: bool, bad: bool)

  function Rest(m: Monitor): Monitor { m.(barred := false, cleared := false, stage := 0) }

  function Advance(m: Monitor, from: nat, ok: bool): Monitor {
    m.(stage := if ok && m.stage == from then from + 1 else 0)
  }

  /** The rules: between a saved token and the stop of the old worker no worker is started and no dialog wiped; no bot
      after a conflict or a name that is not ours; a worker starts with a saved token; HEALTHY only after a started
      worker, a tried greeting, a healthy answer and an activated row, in that order, in one walk.  A crash cancels
      no outstanding stop. */
  function Judged(m: Monitor, c: Chat, a: Act): Monitor {
    if a.Crashed? then Rest(m)
    else if a.chat != c then m
    else
      match a
      case Began(_) => Rest(m)
      case Preflighted(_, conflict) => m.(barred := conflict)
      case Checked(_, u) => m.(cleared := !m.barred && (u.Free? || u.Owned?))
      case CreatedBot(_, _) => m.(bad := m.bad || !m.cleared)
      case SavedToken(_, env) => m.(saved := m.saved + {env}, owed := true)
      case StoppedBridge(_) => m.(owed := false)
      case WipedDialog(_) => m.(unstopped := m.unstopped || m.owed, bad := m.bad || m.stage != 0)
      case StartedWorker(_, env, ok) =>
        Advance(m.(unstopped := m.unstopped || m.owed, bad := m.bad || env !in m.saved, stage := 0), 0, ok)
      case SentStart(_, g) => Advance(m, 1, !g.GreetingFailed?)
      case AskedHealth(_, ok) => Advance(m, 2, ok)
      case MarkedActive(_, ok) => Advance(m, 3, ok)
      case Noted(_, x) =>
        m.(bad := m.bad || (x.Done? && m.stage != 4) || (x.Saved? && x.env !in m.saved))
      case Forgot(_) => m
  }

  function Verdict(m: Monitor, c: Chat, acts: seq<Act>): Monitor
    decreases acts
  {
    if acts == [] then m else Verdict(Judged(m, c, acts[0]), c, acts[1..])
  }

  lemma {:induction false} VerdictAppend(m: Monitor, c: Chat, a: seq<Act>, b: seq<Act>)
    ensures Verdict(m, c, a + b) == Verdict(Verdict(m, c, a), c, b)
    decreases a
  {
    if a == [] {
      assert a + b == b;
    } else {
      assert (a + b)[1..] == a[1..] + b;
      VerdictAppend(Judged(m, c, a[0]), c, a[1..], b);
    }
  }

  /** A broken rule stays broken, so a trace that breaks none breaks none at any earlier point. */
  lemma {:induction false} BrokenStaysBroken(m: Monitor, c: Chat, acts: seq<Act>)
    ensures m.bad ==> Verdict(m, c, acts).bad
    ensures m.unstopped ==> Verdict(m, c, acts).unstopped
    decreases acts
  {
    if acts != [] { BrokenStaysBroken(Judged(m, c, acts[0]), c, acts[1..]); }
  }

  lemma PrefixesAreSafe(m: Monitor, c: Chat, acts: seq<Act>, k: nat)
    requires k <= |acts|
    ensures Verdict(m, c, acts[..k]).bad ==> Verdict(m, c, acts).bad
    ensures Verdict(m, c, acts[..k]).unstopped ==> Verdict(m, c, acts).unstopped
  {
    assert acts == acts[..k] + acts[k..];
    VerdictAppend(m, c, acts[..k], acts[k..]);
    BrokenStaysBroken(Verdict(m, c, acts[..k]), c, acts[k..]);
  }

  // ---------------------------------------------------------------- one walk breaks no rule

  /** The monitor goes from `m` to `n` without a broken rule; the rule about the stop is promised when none is
      outstanding at the start. */
  predicate Keeps(m: Monitor, n: Monitor) {
    (!m.bad ==> !n.bad) && (!m.owed && !m.unstopped ==> !n.owed && !n.unstopped)
  }

  predicate Covers(m: Monitor, e: Entry) { e.tokenEnv.Some? ==> e.tokenEnv.value in m.saved }

  lemma VerifyIsSafe(m: Monitor, c: Chat, p: Ports)
    requires m.stage == 2
    ensures Keeps(m, Verdict(m, c, VerifyActs(c, p)))
  {
    var acts := VerifyActs(c, p);
    Unfold(m, c, acts);
  }

  /** The first three acts, read one at a time. */
  lemma Unfold(m: Monitor, c: Chat, acts: seq<Act>)
    requires 0 < |acts|
    ensures Verdict(m, c, acts) == Verdict(Judged(m, c, acts[0]), c, acts[1..])
    ensures 1 < |acts| ==>
              Verdict(m, c, acts) == Verdict(Judged(Judged(m, c, acts[0]), c, acts[1]), c, acts[2..])
    ensures 2 < |acts| ==>
              Verdict(m, c, acts) ==
              Verdict(Judged(Judged(Judged(m, c, acts[0]), c, acts[1]), c, acts[2]), c, acts[3..])
  {
    if 1 < |acts| {
      assert acts[1..][0] == acts[1] && acts[1..][1..] == acts[2..];
    }
    if 2 < |acts| {
      assert acts[2..][0] == acts[2] && acts[2..][1..] == acts[3..];
    }
  }

  lemma GreetIsSafe(m: Monitor, c: Chat, p: Ports)
    requires m.stage == 1
    ensures Keeps(m, Verdict(m, c, GreetActs(c, p)))
  {
    var acts := GreetActs(c, p);
    Unfold(m, c, acts);
    if !p.greeting.GreetingFailed? {
      assert acts[2..] == VerifyActs(c, p);
      VerifyIsSafe(m.(stage := 2), c, p);
    }
  }

  lemma ServeIsSafe(m: Monitor, c: Chat, env: string, p: Ports)
    requires env in m.saved
    ensures Keeps(m, Verdict(m, c, ServeActs(c, env, p)))
    ensures m.owed ==> Verdict(m, c, ServeActs(c, env, p)).unstopped
  {
    var acts := ServeActs(c, env, p);
    Unfold(m, c, acts);
    BrokenStaysBroken(Judged(m, c, acts[0]), c, acts[1..]);
    if p.startedAs.Some? {
      assert acts[2..] == GreetActs(c, p);
      GreetIsSafe(m.(stage := 1, unstopped := m.unstopped || m.owed), c, p);
    }
  }

  /** From a made bot on: the token saved, the old worker stopped, the dialog wiped. */
  lemma TokenIsSafe(m: Monitor, c: Chat, env: string, p: Ports)
    requires m.stage == 0
    ensures var n := Verdict(m, c, TokenActs(c, env, p)); n == m.(saved := m.saved + {env}, owed := false)
  {
    var acts := TokenActs(c, env, p);
    Unfold(m, c, acts);
    if acts[3..] != [] { assert acts[3..] == [WipedDialog(c)]; }
  }

  lemma MakeIsSafe(m: Monitor, c: Chat, p: Ports)
    requires m.cleared && m.stage == 0
    ensures var n := Verdict(m, c, MakeActs(c, p));
            n == if Ensured(p) then m.(saved := m.saved + {p.savedAs.value}, owed := false) else m
  {
    var acts := MakeActs(c, p);
    Unfold(m, c, acts);
    if Ensured(p) {
      assert acts[2..] == TokenActs(c, p.savedAs.value, p);
      TokenIsSafe(m, c, p.savedAs.value, p);
    }
  }

  lemma EnsureIsSafe(m: Monitor, c: Chat, p: Ports)
    requires m.cleared && m.stage == 0
    ensures var n := Verdict(m, c, EnsureActs(c, p));
            n == if Ensured(p) then m.(saved := m.saved + {p.savedAs.value}, owed := false) else m
  {
    var asked: seq<Act> := if p.username.Owned? then [] else [Noted(c, Awaiting)];
    VerdictAppend(m, c, asked, MakeActs(c, p));
    assert Verdict(m, c, asked) == m;
    MakeIsSafe(m, c, p);
  }

  /** The second clause is exact: a walk that begins while a stop is outstanding starts a worker without one exactly
      when it goes on with the saved token instead of getting a new one. */
  lemma BotIsSafe(m: Monitor, c: Chat, e: Entry, p: Ports)
    requires Covers(m, e) && m.cleared && m.stage == 0
    ensures Keeps(m, Verdict(m, c, BotActs(c, e, p)))
    ensures m.owed && !m.unstopped ==> (Verdict(m, c, BotActs(c, e, p)).unstopped <==> Resumes(e, p))
  {
    if Resumes(e, p) {
      ServeIsSafe(m, c, e.tokenEnv.value, p);
    } else {
      EnsureIsSafe(m, c, p);
      if Ensured(p) {
        VerdictAppend(m, c, EnsureActs(c, p), ServeActs(c, p.savedAs.value, p));
        ServeIsSafe(Verdict(m, c, EnsureActs(c, p)), c, p.savedAs.value, p);
      } else {
        assert EnsureActs(c, p) + [] == EnsureActs(c, p);
      }
    }
  }

  lemma AskedIsSafe(m: Monitor, c: Chat, e: Entry, p: Ports)
    requires Covers(m, e) && m.cleared && m.stage == 0
    ensures var n := Verdict(m, c, RememberActs(c, e, p) + BotActs(c, e, p));
            Keeps(m, n) && (m.owed && !m.unstopped ==> (n.unstopped <==> Resumes(e, p)))
  {
    VerdictAppend(m, c, RememberActs(c, e, p), BotActs(c, e, p));
    assert Verdict(m, c, RememberActs(c, e, p)) == m;
    BotIsSafe(m, c, e, p);
  }

  lemma WalkIsSafe(m: Monitor, c: Chat, e: Entry, p: Ports)
    requires Covers(m, e)
    ensures Keeps(m, Verdict(m, c, WalkActs(c, e, p)))
    ensures m.owed && !m.unstopped ==> (Verdict(m, c, WalkActs(c, e, p)).unstopped <==> !p.conflict && Resumes(e, p))
  {
    var acts := WalkActs(c, e, p);
    Unfold(m, c, acts);
    if !p.conflict && (p.username.Owned? || p.username.Free?) {
      assert acts[3..] == RememberActs(c, e, p) + BotActs(c, e, p);
      AskedIsSafe(Rest(m).(cleared := true), c, e, p);
    }
  }

  lemma ContactIsSafe(m: Monitor, c: Chat, e: Entry, stillAlive: bool, p: Ports)
    requires Covers(m, e)
    ensures Keeps(m, Verdict(m, c, ContactActs(c, e, stillAlive, p)))
  {
    WalkIsSafe(m, c, e, p);
    if e.state.Healthy? && !stillAlive {
      var acts := [Noted(c, Reopened)] + WalkActs(c, e, p);
      assert acts[1..] == WalkActs(c, e, p);
    }
  }

  // ---------------------------------------------------------------- runs

  /** What can happen to one contact: its turn in a run, or a write to its entry from outside: `begin` for a selection,
      a retry, an attempt given up, a name found taken at start-up, a bridge disconnected. */
  datatype Task =
    | Walk(stillAlive: bool, ports: Ports)
    | Select
    | Retry
    | GiveUp
    | Collide(foreign: bool)
    | Disconnect

  /** Where a task is cut, only that many acts happened before an error escaped or, when `died`, the process died. */
  datatype Visit = Visit(chat: Chat, task: Task, cut: Option<nat>, died: bool)

  function TaskActs(c: Chat, e: Option<Entry>, task: Task): seq<Act> {
    match task
    case Walk(stillAlive, p) => if e.None? then [] else ContactActs(c, e.value, stillAlive, p)
    case Select => [Noted(c, Selected)]
    case Retry => if e.None? || e.value.state.FailedPermanent? then [] else [Noted(c, Retried)]
    case GiveUp => if e.None? then [] else [Noted(c, GivenUp)]
    case Collide(foreign) =>
      if e.None? || Terminal(e.value.state) then []
      else FailsWith(c, if foreign then UsernameOccupied else NotManageable)
    case Disconnect => [StoppedBridge(c), Forgot(c)]
  }

  function EntryOf(j: map<Chat, Entry>, c: Chat): Option<Entry> { if c in j then Some(j[c]) else None }

  function Turn(j: map<Chat, Entry>, v: Visit): seq<Act> { TaskActs(v.chat, EntryOf(j, v.chat), v.task) }

  function Reach(v: Visit, acts: nat): (n: nat)
    ensures n <= acts
  {
    if v.cut.Some? && v.cut.value < acts then v.cut.value else acts
  }

  function VisitActs(j: map<Chat, Entry>, v: Visit): seq<Act> {
    var turn := Turn(j, v);
    turn[..Reach(v, |turn|)] + (if v.died then [Crashed] else [])
  }

  /** Any number of runs, with restarts and whatever else is done to the journal between them. */
  function RunActs(j: map<Chat, Entry>, visits: seq<Visit>): seq<Act>
    decreases visits
  {
    if visits == [] then []
    else
      var acts := VisitActs(j, visits[0]);
      acts + RunActs(Replayed(j, acts), visits[1..])
  }

  /** No turn of `c` ends, by an error or a crash, between `save_token` and the end of `stop_bridge`. */
  predicate Orderly(j: map<Chat, Entry>, c: Chat, visits: seq<Visit>)
    decreases visits
  {
    visits == [] ||
    var acts := VisitActs(j, visits[0]);
    && !Owes(acts, c)
    && Orderly(Replayed(j, acts), c, visits[1..])
  }

  /** The last token saved for `c` is not followed by a stop. */
  predicate Owes(acts: seq<Act>, c: Chat)
    decreases acts
  {
    acts != [] &&
    (Owes(acts[1..], c) || (acts[0].SavedToken? && acts[0].chat == c && NeverStopped(acts[1..], c)))
  }

  predicate NeverStopped(acts: seq<Act>, c: Chat) {
    forall i :: 0 <= i < |acts| ==> !(acts[i].StoppedBridge? && acts[i].chat == c)
  }

  lemma {:induction false} OwedMeansOwes(m: Monitor, c: Chat, acts: seq<Act>)
    ensures Verdict(m, c, acts).owed <==> Owes(acts, c) || (m.owed && NeverStopped(acts, c))
    decreases acts
  {
    if acts != [] {
      OwedMeansOwes(Judged(m, c, acts[0]), c, acts[1..]);
      assert acts == [acts[0]] + acts[1..];
      assert NeverStopped(acts, c) <==> NeverStopped([acts[0]], c) && NeverStopped(acts[1..], c);
    }
  }

  /** Whatever token the journal names was saved, because a note of any other breaks a rule. */
  lemma {:induction false} NotesAreCovered(m: Monitor, j: map<Chat, Entry>, c: Chat, acts: seq<Act>)
    requires (c in j ==> Covers(m, j[c])) && !Verdict(m, c, acts).bad
    ensures c in Replayed(j, acts) ==> Covers(Verdict(m, c, acts), Replayed(j, acts)[c])
    decreases acts
  {
    if acts != [] {
      var n := Judged(m, c, acts[0]);
      BrokenStaysBroken(n, c, acts[1..]);
      NotesAreCovered(n, Written(j, acts[0]), c, acts[1..]);
    }
  }

  /** The acts of a turn all concern its own contact, and none of them is a crash. */
  predicate Own(acts: seq<Act>, c: Chat) { forall i :: 0 <= i < |acts| ==> !acts[i].Crashed? && acts[i].chat == c }

  lemma ContactIsItsOwn(c: Chat, e: Entry, stillAlive: bool, p: Ports)
    ensures Own(ContactActs(c, e, stillAlive, p), c)
  {
    assert Own(VerifyActs(c, p), c);
    assert Own(GreetActs(c, p), c);
    if p.savedAs.Some? { ServeIsItsOwn(c, p.savedAs.value, p); assert Own(TokenActs(c, p.savedAs.value, p), c); }
    if e.tokenEnv.Some? { ServeIsItsOwn(c, e.tokenEnv.value, p); }
    assert Own(MakeActs(c, p), c);
    assert Own(EnsureActs(c, p), c);
    assert Own(BotActs(c, e, p), c);
    assert Own(RememberActs(c, e, p) + BotActs(c, e, p), c);
    assert Own(AnswerActs(c, e, p), c);
    assert Own(WalkActs(c, e, p), c);
  }

  lemma TurnIsItsOwn(j: map<Chat, Entry>, v: Visit)
    ensures Own(Turn(j, v), v.chat)
  {
    hide ContactActs;
    if v.task.Walk? && v.chat in j { ContactIsItsOwn(v.chat, j[v.chat], v.task.stillAlive, v.task.ports); }
  }

  lemma ServeIsItsOwn(c: Chat, env: string, p: Ports)
    ensures Own(ServeActs(c, env, p), c)
  {
    assert Own(VerifyActs(c, p), c);
    assert Own(GreetActs(c, p), c);
  }

  lemma {:induction false} OthersDoNotCount(m: Monitor, c: Chat, d: Chat, acts: seq<Act>)
    requires Own(acts, d) && d != c
    ensures Verdict(m, c, acts) == m
    decreases acts
  {
    if acts != [] { OthersDoNotCount(m, c, d, acts[1..]); }
  }

  lemma {:induction false} OtherEntriesStay(j: map<Chat, Entry>, c: Chat, d: Chat, acts: seq<Act>)
    requires d != c && forall i :: 0 <= i < |acts| ==> acts[i].Crashed? || acts[i].chat == d
    ensures c in Replayed(j, acts) <==> c in j
    ensures c in j ==> Replayed(j, acts)[c] == j[c]
    decreases acts
  {
    if acts != [] { OtherEntriesStay(Written(j, acts[0]), c, d, acts[1..]); }
  }

  /** A turn touches no other contact's entry, wherever it is cut. */
  lemma OnlyItsOwnEntry(j: map<Chat, Entry>, v: Visit, c: Chat)
    requires c != v.chat
    ensures var after := Replayed(j, VisitActs(j, v)); (c in after <==> c in j) && (c in j ==> after[c] == j[c])
  {
    TurnIsItsOwn(j, v);
    OtherEntriesStay(j, c, v.chat, VisitActs(j, v));
  }

  lemma TaskIsSafe(m: Monitor, c: Chat, e: Option<Entry>, task: Task)
    requires e.Some? ==> Covers(m, e.value)
    ensures Keeps(m, Verdict(m, c, TaskActs(c, e, task)))
  {
    hide ContactActs;
    match task
    case Walk(stillAlive, p) => if e.Some? { ContactIsSafe(m, c, e.value, stillAlive, p); }
    case Disconnect => Unfold(m, c, TaskActs(c, e, task));
    case _ =>
  }

  lemma VisitIsSafe(m: Monitor, j: map<Chat, Entry>, c: Chat, v: Visit)
    requires !m.bad && (c in j ==> Covers(m, j[c]))
    ensures var n := Verdict(m, c, VisitActs(j, v));
            !n.bad && (!m.unstopped && !m.owed ==> !n.unstopped && (n.owed ==> Owes(VisitActs(j, v), c)))
  {
    hide ContactActs, TaskActs;
    var turn, acts := Turn(j, v), VisitActs(j, v);
    TurnIsItsOwn(j, v);
    if v.chat == c { TaskIsSafe(m, c, EntryOf(j, c), v.task); } else { OthersDoNotCount(m, c, v.chat, turn); }
    var k := Reach(v, |turn|);
    PrefixesAreSafe(m, c, turn, k);
    var died: seq<Act> := if v.died then [Crashed] else [];
    assert turn[..k] + died == acts;
    VerdictAppend(m, c, turn[..k], died);
    var n := Verdict(m, c, turn[..k]);
    assert Verdict(n, c, died).bad == n.bad && Verdict(n, c, died).unstopped == n.unstopped;
    OwedMeansOwes(m, c, acts);
  }

  /** Over any runs, restarts and port failures: no bot is made after a conflict or for a name that is not ours, no
      worker starts with a token never saved, and HEALTHY is noted only when earned.  And no worker starts between a
      saved token and the stop of the old one, as long as no turn ends there. */
  lemma {:induction false} RunsAreSafe(m: Monitor, j: map<Chat, Entry>, c: Chat, visits: seq<Visit>)
    requires !m.bad && (c in j ==> Covers(m, j[c]))
    ensures !Verdict(m, c, RunActs(j, visits)).bad
    ensures !m.owed && !m.unstopped && Orderly(j, c, visits) ==> !Verdict(m, c, RunActs(j, visits)).unstopped
    decreases visits
  {
    if visits != [] {
      var acts := VisitActs(j, visits[0]);
      VisitIsSafe(m, j, c, visits[0]);
      NotesAreCovered(m, j, c, acts);
      RunsAreSafe(Verdict(m, c, acts), Replayed(j, acts), c, visits[1..]);
      VerdictAppend(m, c, acts, RunActs(Replayed(j, acts), visits[1..]));
    }
  }

  // ---------------------------------------------------------------- when a worker starts without a stop

  /** `c` is walked, not skipped. */
  predicate Walked(e: Entry, stillAlive: bool) { !Terminal(e.state) || (e.state.Healthy? && !stillAlive) }

  /** The turn goes on with the token it finds, as far as `start_worker`. */
  predicate StartsResumed(j: map<Chat, Entry>, c: Chat, v: Visit) {
    && v.chat == c && c in j && v.task.Walk?
    && Walked(j[c], v.task.stillAlive)
    && !v.task.ports.conflict
    && Resumes(j[c], v.task.ports)
    && exists i :: 0 <= i < Reach(v, |Turn(j, v)|) && Turn(j, v)[i].StartedWorker?
  }

  /** Every turn that resumes comes with no stop outstanding from an earlier one. */
  predicate ResumesStopped(j: map<Chat, Entry>, c: Chat, owed: bool, visits: seq<Visit>)
    decreases visits
  {
    visits == [] ||
    var acts := VisitActs(j, visits[0]);
    && !(owed && StartsResumed(j, c, visits[0]))
    && ResumesStopped(Replayed(j, acts), c, Owes(acts, c) || (owed && NeverStopped(acts, c)), visits[1..])
  }

  predicate Starts(a: Act, c: Chat) { !a.Crashed? && a.chat == c && (a.StartedWorker? || a.WipedDialog?) }

  lemma {:induction false} NothingStarts(m: Monitor, c: Chat, acts: seq<Act>)
    requires forall i :: 0 <= i < |acts| ==> !Starts(acts[i], c)
    ensures Verdict(m, c, acts).unstopped == m.unstopped
    decreases acts
  {
    if acts != [] { NothingStarts(Judged(m, c, acts[0]), c, acts[1..]); }
  }

  lemma {:induction false} StartsWhileOwed(m: Monitor, c: Chat, acts: seq<Act>, i: nat)
    requires m.owed && NeverStopped(acts, c) && i < |acts| && Starts(acts[i], c)
    ensures Verdict(m, c, acts).unstopped
    decreases acts
  {
    var n := Judged(m, c, acts[0]);
    if i == 0 {
      BrokenStaysBroken(n, c, acts[1..]);
    } else {
      StartsWhileOwed(n, c, acts[1..], i - 1);
    }
  }

  /** A walk that resumes has nothing to stop and nothing to wipe. */
  predicate StopFree(acts: seq<Act>) {
    forall i :: 0 <= i < |acts| ==> !acts[i].StoppedBridge? && !acts[i].WipedDialog?
  }

  lemma ResumingIsStopFree(c: Chat, e: Entry, stillAlive: bool, p: Ports)
    requires Walked(e, stillAlive) && !p.conflict && Resumes(e, p)
    ensures StopFree(ContactActs(c, e, stillAlive, p))
  {
    assert StopFree(VerifyActs(c, p));
    assert StopFree(GreetActs(c, p));
    assert StopFree(ServeActs(c, e.tokenEnv.value, p));
    assert StopFree(BotActs(c, e, p));
    assert StopFree(RememberActs(c, e, p) + BotActs(c, e, p));
    assert StopFree(AnswerActs(c, e, p));
    assert StopFree(WalkActs(c, e, p));
  }

  lemma OutsideStartsNothing(c: Chat, e: Option<Entry>, task: Task)
    requires !task.Walk?
    ensures forall i :: 0 <= i < |TaskActs(c, e, task)| ==> !Starts(TaskActs(c, e, task)[i], c)
  {
    hide ContactActs;
  }

  /** One turn, wherever it is cut, begun with a stop outstanding. */
  lemma OwedVisit(m: Monitor, j: map<Chat, Entry>, c: Chat, v: Visit)
    requires !m.bad && !m.unstopped && m.owed && (c in j ==> Covers(m, j[c]))
    ensures Verdict(m, c, VisitActs(j, v)).unstopped <==> StartsResumed(j, c, v)
  {
    hide ContactActs, Walked, Resumes, Verdict;
    var turn, acts := Turn(j, v), VisitActs(j, v);
    var k := Reach(v, |turn|);
    var died: seq<Act> := if v.died then [Crashed] else [];
    assert turn[..k] + died == acts;
    VerdictAppend(m, c, turn[..k], died);
    NothingStarts(Verdict(m, c, turn[..k]), c, died);
    TurnIsItsOwn(j, v);
    if !v.task.Walk? { OutsideStartsNothing(v.chat, EntryOf(j, v.chat), v.task); }
    hide TaskActs;
    if v.chat != c || c !in j || !v.task.Walk? {
      if v.chat == c && c !in j && v.task.Walk? { NobodyWalks(v.chat, v.task); }
      NothingStarts(m, c, turn[..k]);
    } else {
      WalksOver(v.chat, j[c], v.task);
      OwedPrefix(m, j[c], c, v, turn, k);
    }
  }

  lemma NobodyWalks(c: Chat, task: Task)
    requires task.Walk?
    ensures TaskActs(c, None, task) == []
  {
  }

  lemma WalksOver(c: Chat, e: Entry, task: Task)
    requires task.Walk?
    ensures TaskActs(c, Some(e), task) == ContactActs(c, e, task.stillAlive, task.ports)
  {
  }

  lemma OwedPrefix(m: Monitor, e: Entry, c: Chat, v: Visit, turn: seq<Act>, k: nat)
    requires !m.bad && !m.unstopped && m.owed && Covers(m, e) && k <= |turn| && v.task.Walk?
    requires turn == ContactActs(c, e, v.task.stillAlive, v.task.ports) && Own(turn, c)
    ensures Verdict(m, c, turn[..k]).unstopped <==>
            Walked(e, v.task.stillAlive) && !v.task.ports.conflict && Resumes(e, v.task.ports) &&
            exists i :: 0 <= i < k && turn[i].StartedWorker?
  {
    var p := v.task.ports;
    if Walked(e, v.task.stillAlive) && !p.conflict && Resumes(e, p) {
      ResumingIsStopFree(c, e, v.task.stillAlive, p);
      if i :| 0 <= i < k && turn[i].StartedWorker? {
        StartsWhileOwed(m, c, turn[..k], i);
      } else {
        NothingStarts(m, c, turn[..k]);
      }
    } else {
      OwedContact(m, c, e, v.task.stillAlive, p);
      PrefixesAreSafe(m, c, turn, k);
    }
  }

  lemma OwedContact(m: Monitor, c: Chat, e: Entry, stillAlive: bool, p: Ports)
    requires !m.unstopped && m.owed && Covers(m, e)
    ensures Verdict(m, c, ContactActs(c, e, stillAlive, p)).unstopped <==>
            Walked(e, stillAlive) && !p.conflict && Resumes(e, p)
  {
    WalkIsSafe(m, c, e, p);
    if e.state.Healthy? && !stillAlive {
      var acts := [Noted(c, Reopened)] + WalkActs(c, e, p);
      assert acts[1..] == WalkActs(c, e, p);
    }
  }

  /** Over any runs, restarts and port failures: a worker starts without a stop since its token was saved exactly when
      a turn that ended in between is followed by one that resumes. */
  lemma {:induction false} StartsUnstoppedExactlyWhen(m: Monitor, j: map<Chat, Entry>, c: Chat, visits: seq<Visit>)
    requires !m.bad && !m.unstopped && (c in j ==> Covers(m, j[c]))
    ensures Verdict(m, c, RunActs(j, visits)).unstopped <==> !ResumesStopped(j, c, m.owed, visits)
    decreases visits
  {
    if visits != [] {
      var acts := VisitActs(j, visits[0]);
      var n, k := Verdict(m, c, acts), Replayed(j, acts);
      VisitIsSafe(m, j, c, visits[0]);
      if m.owed { OwedVisit(m, j, c, visits[0]); }
      NotesAreCovered(m, j, c, acts);
      OwedMeansOwes(m, c, acts);
      VerdictAppend(m, c, acts, RunActs(k, visits[1..]));
      if n.unstopped {
        BrokenStaysBroken(n, c, RunActs(k, visits[1..]));
      } else {
        StartsUnstoppedExactlyWhen(n, k, c, visits[1..]);
      }
    }
  }

  lemma {:induction false} SavedLast(j: map<Chat, Entry>, c: Chat, acts: seq<Act>, env: string, died: seq<Act>)
    requires c in j && Forgot(c) !in acts && (died == [] || died == [Crashed])
    ensures var all := acts + [SavedToken(c, env), Noted(c, Saved(env))] + died;
            && Owes(all, c)
            && c in Replayed(j, all)
            && Replayed(j, all)[c].tokenEnv == Some(env)
            && Replayed(j, all)[c].state == TokenSaved
    decreases acts
  {
    var tail := [SavedToken(c, env), Noted(c, Saved(env))];
    if acts == [] {
      assert acts + tail + died == tail + died && (tail + died)[1..] == [tail[1]] + died;
      assert ([tail[1]] + died)[1..] == died;
      assert Replayed(Written(j, tail[1]), died) == Written(j, tail[1]) by { if died != [] { assert died[1..] == []; } }
    } else {
      assert (acts + tail + died)[1..] == acts[1..] + tail + died;
      SavedLast(Written(j, acts[0]), c, acts[1..], env, died);
    }
  }

  /** Every walk that gets a token can end so: `stop_bridge` raises or the process dies, and the note of the token
      stays. */
  lemma StopCanBeCut(j: map<Chat, Entry>, c: Chat, p: Ports, died: bool) returns (cut: nat)
    requires c in j && !Terminal(j[c].state) && !Resumes(j[c], p) && Ensured(p)
    requires !p.conflict && (p.username.Free? || p.username.Owned?)
    ensures var acts := VisitActs(j, Visit(c, Walk(false, p), Some(cut), died));
            && Owes(acts, c)
            && c in Replayed(j, acts)
            && Replayed(j, acts)[c].tokenEnv == p.savedAs
            && !Terminal(Replayed(j, acts)[c].state)
  {
    var head := [Began(c), Preflighted(c, false), Checked(c, p.username)];
    var asked: seq<Act> := if p.username.Owned? then [] else [Noted(c, Awaiting)];
    var made: seq<Act> := [CreatedBot(c, p.creation), Noted(c, Created(p.creation.botId))];
    var env := p.savedAs.value;
    var tail := [SavedToken(c, env), Noted(c, Saved(env))];
    var before := head + (RememberActs(c, j[c], p) + (asked + made));
    Associative(asked, made, tail);
    Associative(RememberActs(c, j[c], p), asked + made, tail);
    Associative(head, RememberActs(c, j[c], p) + (asked + made), tail);
    assert tail <= TokenActs(c, env, p);
    Widened(made, tail, TokenActs(c, env, p), []);
    Widened(asked, made + tail, MakeActs(c, p), ServeActs(c, env, p));
    Widened(RememberActs(c, j[c], p), asked + (made + tail), BotActs(c, j[c], p), []);
    Widened(head, RememberActs(c, j[c], p) + (asked + (made + tail)), AnswerActs(c, j[c], p), []);
    cut := |before + tail|;
    SavedLast(j, c, before, env, if died then [Crashed] else []);
    CutAt(WalkActs(c, j[c], p), before + tail, if died then [Crashed] else []);
  }

  lemma ResumedWalkStarts(c: Chat, e: Entry, p: Ports) returns (i: nat)
    requires !p.conflict && Resumes(e, p)
    ensures i < |WalkActs(c, e, p)| && WalkActs(c, e, p)[i].StartedWorker?
  {
    i := 3 + |RememberActs(c, e, p)|;
    assert AnswerActs(c, e, p)[|RememberActs(c, e, p)|] == BotActs(c, e, p)[0];
  }

  /** Then the next turn that finds the bot ours starts the worker, with no stop since the token was saved. */
  lemma StartedWithoutAStop(m: Monitor, j: map<Chat, Entry>, c: Chat, p: Ports, died: bool, q: Ports)
    requires !m.bad && !m.unstopped && !m.owed && c in j && Covers(m, j[c])
    requires !Terminal(j[c].state) && !Resumes(j[c], p) && Ensured(p)
    requires !p.conflict && (p.username.Free? || p.username.Owned?)
    requires !q.conflict && q.username.Owned?
    ensures exists cut ::
              var visits := [Visit(c, Walk(false, p), Some(cut), died), Visit(c, Walk(false, q), None, false)];
              Verdict(m, c, RunActs(j, visits)).unstopped
  {
    hide WalkActs, VisitActs, Replayed, RunActs, Verdict;
    var cut := StopCanBeCut(j, c, p, died);
    var v, w := Visit(c, Walk(false, p), Some(cut), died), Visit(c, Walk(false, q), None, false);
    ResumedTurnStarts(Replayed(j, VisitActs(j, v)), w);
    assert [v, w][1..] == [w];
    assert !ResumesStopped(j, c, false, [v, w]);
    StartsUnstoppedExactlyWhen(m, j, c, [v, w]);
  }

  /** A failure for good in between is no end of it: the contact selected again keeps its token, and goes on. */
  lemma ReselectedWithoutAStop(m: Monitor, j: map<Chat, Entry>, c: Chat, e: Entry, q: Ports)
    requires !m.bad && !m.unstopped && m.owed && c in j && Covers(m, j[c])
    requires j[c] == e && e.state.FailedPermanent? && e.tokenEnv.Some? && !q.conflict && q.username.Owned?
    ensures Verdict(m, c, RunActs(j, [Visit(c, Walk(false, q), None, false)])) == m
    ensures Verdict(m, c, RunActs(j, [Visit(c, Select, None, false), Visit(c, Walk(false, q), None, false)])).unstopped
  {
    hide WalkActs;
    var s, w := Visit(c, Select, None, false), Visit(c, Walk(false, q), None, false);
    assert VisitActs(j, w) == [] && [w][1..] == [] && RunActs(j, [w]) == [];
    var acts := VisitActs(j, s);
    assert acts == [Noted(c, Selected)] && acts[1..] == [];
    var k := Replayed(j, acts);
    OneReplayed(j, acts[0]);
    assert k == Written(j, acts[0]) && k[c].state == Pending && k[c].tokenEnv == e.tokenEnv;
    ResumedTurnStarts(k, w);
    assert [s, w][1..] == [w];
    assert !ResumesStopped(k, c, true, [w]);
    assert !ResumesStopped(j, c, true, [s, w]);
    StartsUnstoppedExactlyWhen(m, j, c, [s, w]);
  }

  lemma ResumedTurnStarts(j: map<Chat, Entry>, w: Visit)
    requires w.chat in j && w.task.Walk? && !Terminal(j[w.chat].state) && Resumes(j[w.chat], w.task.ports)
    requires !w.task.ports.conflict && w.cut.None?
    ensures StartsResumed(j, w.chat, w)
  {
    var i := ResumedWalkStarts(w.chat, j[w.chat], w.task.ports);
    assert Turn(j, w)[i].StartedWorker?;
  }

  lemma CutAt(acts: seq<Act>, upto: seq<Act>, died: seq<Act>)
    requires upto <= acts
    ensures acts[..|upto|] + died == upto + died
  {
  }

  lemma Widened(x: seq<Act>, a: seq<Act>, b: seq<Act>, y: seq<Act>)
    requires a <= b
    ensures x + a <= x + b && x + a <= x + b + y
  {
  }

  // ---------------------------------------------------------------- what HEALTHY means

  lemma VerdictOfLast(m: Monitor, c: Chat, acts: seq<Act>)
    requires acts != []
    ensures Verdict(m, c, acts) == Judged(Verdict(m, c, acts[..|acts| - 1]), c, acts[|acts| - 1])
  {
    var n := |acts| - 1;
    assert acts == acts[..n] + [acts[n]];
    VerdictAppend(m, c, acts[..n], [acts[n]]);
    assert Verdict(Verdict(m, c, acts[..n]), c, [acts[n]]) == Judged(Verdict(m, c, acts[..n]), c, acts[n]);
  }

  /** A new walk, a crash or a new start of the worker: nothing after it belongs to what came before. */
  predicate Restarts(a: Act, c: Chat) { a.Crashed? || (a.chat == c && (a.Began? || a.StartedWorker?)) }

  /** The act that takes a walk from stage `s - 1` to stage `s`. */
  predicate Raises(a: Act, c: Chat, s: nat) {
    && !a.Crashed?
    && a.chat == c
    && match s
       case 1 => a.StartedWorker? && a.ok
       case 2 => a.SentStart? && !a.greeting.GreetingFailed?
       case 3 => a.AskedHealth? && a.healthy
       case 4 => a.MarkedActive? && a.ok
       case _ => false
  }

  lemma OneActRaises(m: Monitor, c: Chat, a: Act)
    requires m.stage <= 4
    ensures var n := Judged(m, c, a);
            && n.stage <= 4
            && (n.stage > 0 ==>
                  || (Raises(a, c, n.stage) && (n.stage == 1 || m.stage == n.stage - 1))
                  || (n.stage == m.stage && !Restarts(a, c)))
  {
  }

  /** The first `n` acts end in a climb to stage `s`: each stage raised in turn, nothing begun again since the first. */
  ghost predicate Climbed(acts: seq<Act>, c: Chat, s: nat, n: nat)
    requires n <= |acts|
    decreases s
  {
    exists k :: 0 <= k < n && Raises(acts[k], c, s) && Calm(acts, c, k, n) && (s > 1 ==> Climbed(acts, c, s - 1, k))
  }

  predicate Calm(acts: seq<Act>, c: Chat, k: nat, n: nat)
    requires n <= |acts|
  {
    forall i :: k < i < n ==> !Restarts(acts[i], c)
  }

  lemma ClimbStep(acts: seq<Act>, c: Chat, s: nat, n: nat) returns (k: nat)
    requires n <= |acts| && Climbed(acts, c, s, n)
    ensures k < n && Raises(acts[k], c, s) && Calm(acts, c, k, n) && (s > 1 ==> Climbed(acts, c, s - 1, k))
  {
    k :| 0 <= k < n && Raises(acts[k], c, s) && Calm(acts, c, k, n) && (s > 1 ==> Climbed(acts, c, s - 1, k));
  }

  lemma ClimbHigher(acts: seq<Act>, c: Chat, s: nat, n: nat)
    requires n < |acts| && Raises(acts[n], c, s) && (s > 1 ==> Climbed(acts, c, s - 1, n))
    ensures Climbed(acts, c, s, n + 1)
  {
    assert Calm(acts, c, n, n + 1);
  }

  lemma ClimbLasts(acts: seq<Act>, c: Chat, s: nat, n: nat)
    requires n < |acts| && Climbed(acts, c, s, n) && !Restarts(acts[n], c)
    ensures Climbed(acts, c, s, n + 1)
  {
    var k := ClimbStep(acts, c, s, n);
    assert Calm(acts, c, k, n + 1);
  }

  lemma {:induction false} StagesAreClimbed(m: Monitor, c: Chat, acts: seq<Act>, n: nat)
    requires m.stage == 0 && n <= |acts|
    ensures Verdict(m, c, acts[..n]).stage <= 4
    ensures Verdict(m, c, acts[..n]).stage > 0 ==> Climbed(acts, c, Verdict(m, c, acts[..n]).stage, n)
    decreases n
  {
    if n > 0 {
      StagesAreClimbed(m, c, acts, n - 1);
      VerdictOfLast(m, c, acts[..n]);
      assert acts[..n][..n - 1] == acts[..n - 1];
      OneMoreAct(Verdict(m, c, acts[..n - 1]), c, acts, n - 1);
    }
  }

  lemma OneMoreAct(m: Monitor, c: Chat, acts: seq<Act>, n: nat)
    requires n < |acts| && m.stage <= 4 && (m.stage > 0 ==> Climbed(acts, c, m.stage, n))
    ensures var after := Judged(m, c, acts[n]).stage; after <= 4 && (after > 0 ==> Climbed(acts, c, after, n + 1))
  {
    OneActRaises(m, c, acts[n]);
    var after := Judged(m, c, acts[n]).stage;
    if after > 0 {
      if Raises(acts[n], c, after) && (after == 1 || m.stage == after - 1) {
        ClimbHigher(acts, c, after, n);
      } else {
        ClimbLasts(acts, c, after, n);
      }
    }
  }

  datatype Ascent = Ascent(started: nat, greeted: nat, asked: nat, marked: nat)

  /** A worker that started with a saved token, a greeting that was tried, a healthy answer and an activated row: in
      this order before act `n`, and nothing of the contact begun again in between. */
  predicate Earned(acts: seq<Act>, c: Chat, saved: set<string>, n: nat, x: Ascent)
    requires n <= |acts|
  {
    && x.started < x.greeted < x.asked < x.marked < n
    && Raises(acts[x.started], c, 1)
    && Raises(acts[x.greeted], c, 2)
    && Raises(acts[x.asked], c, 3)
    && Raises(acts[x.marked], c, 4)
    && Calm(acts, c, x.started, n)
    && (acts[x.started].env in saved || SavedToken(c, acts[x.started].env) in acts[..x.started])
  }

  lemma {:induction false} SavedByAnAct(m: Monitor, c: Chat, acts: seq<Act>, env: string)
    requires env in Verdict(m, c, acts).saved
    ensures env in m.saved || SavedToken(c, env) in acts
    decreases acts
  {
    if acts != [] { SavedByAnAct(Judged(m, c, acts[0]), c, acts[1..], env); }
  }

  lemma StartedWithASavedToken(m: Monitor, c: Chat, acts: seq<Act>, n: nat)
    requires n < |acts| && Raises(acts[n], c, 1) && !Verdict(m, c, acts).bad
    ensures acts[n].env in m.saved || SavedToken(c, acts[n].env) in acts[..n]
  {
    var head := acts[..n + 1];
    PrefixesAreSafe(m, c, acts, n + 1);
    VerdictOfLast(m, c, head);
    assert head[..n] == acts[..n];
    SavedByAnAct(m, c, acts[..n], acts[n].env);
  }

  lemma CalmThrough(acts: seq<Act>, c: Chat, s: nat, i: nat, k: nat, n: nat)
    requires i < k < n <= |acts| && Calm(acts, c, i, k) && Raises(acts[k], c, s) && s > 1 && Calm(acts, c, k, n)
    ensures Calm(acts, c, i, n)
  {
  }

  lemma ClimbedIsEarned(m: Monitor, c: Chat, acts: seq<Act>, n: nat) returns (x: Ascent)
    requires n <= |acts| && !Verdict(m, c, acts).bad && Climbed(acts, c, 4, n)
    ensures Earned(acts, c, m.saved, n, x)
  {
    hide Climbed, Raises, Calm, Verdict;
    var marked := ClimbStep(acts, c, 4, n);
    var asked := ClimbStep(acts, c, 3, marked);
    var greeted := ClimbStep(acts, c, 2, asked);
    var started := ClimbStep(acts, c, 1, greeted);
    CalmThrough(acts, c, 2, started, greeted, asked);
    CalmThrough(acts, c, 3, started, asked, marked);
    CalmThrough(acts, c, 4, started, marked, n);
    StartedWithASavedToken(m, c, acts, started);
    x := Ascent(started, greeted, asked, marked);
  }

  lemma {:induction false} HealthyIsNoted(j: map<Chat, Entry>, c: Chat, acts: seq<Act>) returns (n: nat)
    requires c in j ==> !j[c].state.Healthy?
    requires c in Replayed(j, acts) && Replayed(j, acts)[c].state.Healthy?
    ensures n < |acts| && acts[n] == Noted(c, Done)
    decreases acts
  {
    if acts[0] == Noted(c, Done) {
      n := 0;
    } else {
      var k := HealthyIsNoted(Written(j, acts[0]), c, acts[1..]);
      n := k + 1;
    }
  }

  lemma DoneIsEarned(m: Monitor, c: Chat, acts: seq<Act>, n: nat) returns (x: Ascent)
    requires m.stage == 0 && !Verdict(m, c, acts).bad && n < |acts| && acts[n] == Noted(c, Done)
    ensures Earned(acts, c, m.saved, n, x)
  {
    PrefixesAreSafe(m, c, acts, n + 1);
    VerdictOfLast(m, c, acts[..n + 1]);
    assert acts[..n + 1][..n] == acts[..n];
    assert Verdict(m, c, acts[..n]).stage == 4;
    StagesAreClimbed(m, c, acts, n);
    x := ClimbedIsEarned(m, c, acts, n);
  }

  /** An entry that became HEALTHY earned it: over any runs, restarts and port failures. */
  lemma HealthyIsEarned(m: Monitor, j: map<Chat, Entry>, c: Chat, visits: seq<Visit>)
    requires (c in j ==> !j[c].state.Healthy? && Covers(m, j[c])) && !m.bad && m.stage == 0
    requires var acts := RunActs(j, visits); c in Replayed(j, acts) && Replayed(j, acts)[c].state.Healthy?
    ensures var acts := RunActs(j, visits);
            exists n, x :: 0 <= n < |acts| && acts[n] == Noted(c, Done) && Earned(acts, c, m.saved, n, x)
  {
    var acts := RunActs(j, visits);
    RunsAreSafe(m, j, c, visits);
    var n := HealthyIsNoted(j, c, acts);
    var x := DoneIsEarned(m, c, acts, n);
  }

  // ---------------------------------------------------------------- the batch

  lemma OneFurther(j: map<Chat, Entry>, a: Act, acts: seq<Act>)
    ensures Replayed(j, [a] + acts) == Replayed(Written(j, a), acts)
  {
    assert ([a] + acts)[1..] == acts;
  }

  /** `ProvisioningBatch`, with the journal it writes and, for the proof, the journal it was given and everything it
      did since. */
  class ProvisioningBatch {
    var journal: map<Chat, Entry>
    ghost const start: map<Chat, Entry>
    ghost var trace: seq<Act>

    /** The journal is what the trace leaves of the first one, whatever is replayed next. */
    ghost predicate Valid()
      reads this
    {
      forall acts :: Replayed(start, trace + acts) == Replayed(journal, acts)
    }

    lemma TraceTells()
      requires Valid()
      ensures journal == Replayed(start, trace)
    {
      assert trace + [] == trace;
    }

    constructor (entries: map<Chat, Entry>)
      ensures Valid() && journal == start == entries && trace == []
    {
      journal := entries;
      start := entries;
      trace := [];
      new;
      forall acts ensures Replayed(start, trace + acts) == Replayed(journal, acts) {
        assert trace + acts == acts;
      }
    }

    /** `note`: one entry moved on; the others stay. */
    method Note(c: Chat, x: Change)
      requires Valid() && c in journal
      modifies this
      ensures Valid() && trace == old(trace) + [Noted(c, x)]
      ensures journal == old(journal)[c := Merged(old(journal)[c], x)]
    {
      var a := Noted(c, x);
      forall acts ensures Replayed(start, trace + [a] + acts) == Replayed(Written(journal, a), acts) {
        Associative(trace, [a], acts);
        OneFurther(journal, a, acts);
      }
      journal := journal[c := Merged(journal[c], x)];
      trace := trace + [a];
    }

    /** A question to a port, or an effect through one. */
    ghost method Ask(a: Act)
      requires Valid() && !a.Noted? && !a.Forgot?
      modifies this`trace
      ensures Valid() && trace == old(trace) + [a]
    {
      forall acts ensures Replayed(start, trace + [a] + acts) == Replayed(journal, acts) {
        Associative(trace, [a], acts);
        OneFurther(journal, a, acts);
      }
      trace := trace + [a];
    }

    method Verify(c: Chat, p: Ports)
      requires Valid() && c in journal
      modifies this
      ensures Valid() && trace == old(trace) + VerifyActs(c, p)
    {
      Ask(AskedHealth(c, p.healthy));
      if !p.healthy {
        Note(c, Failed(true, None));
        return;
      }
      Ask(MarkedActive(c, p.activated));
      if !p.activated {
        Note(c, Failed(true, None));
        return;
      }
      Note(c, Done);
    }

    method OpenChat(c: Chat, p: Ports) returns (ok: bool)
      requires Valid() && c in journal
      modifies this
      ensures Valid() && c in journal && (ok <==> !p.greeting.GreetingFailed?)
      ensures trace == old(trace) + [SentStart(c, p.greeting)] +
                       if ok then [Noted(c, Greeted(p.greeting.OwnerMustOpen?))] else Fails(c, true)
    {
      Ask(SentStart(c, p.greeting));
      match p.greeting {
        case OwnerMustOpen =>
          Note(c, Greeted(true));
          ok := true;
        case GreetingFailed =>
          Note(c, Failed(true, None));
          ok := false;
        case GreetingSent =>
          Note(c, Greeted(false));
          ok := true;
      }
    }

    method Launch(c: Chat, env: string, p: Ports) returns (ok: bool)
      requires Valid() && c in journal
      modifies this
      ensures Valid() && c in journal && (ok <==> p.startedAs.Some?)
      ensures trace == old(trace) + [StartedWorker(c, env, ok)] +
                       if ok then [Noted(c, Started(p.startedAs.value))] else Fails(c, true)
    {
      ok := p.startedAs.Some?;
      Ask(StartedWorker(c, env, ok));
      if !ok {
        Note(c, Failed(true, None));
        return;
      }
      Note(c, Started(p.startedAs.value));
    }

    /** The end of `_provision`. */
    method Serve(c: Chat, env: string, p: Ports)
      requires Valid() && c in journal
      modifies this
      ensures Valid() && trace == old(trace) + ServeActs(c, env, p)
    {
      var ok := Launch(c, env, p);
      if !ok { return; }
      ok := OpenChat(c, p);
      if !ok { return; }
      Verify(c, p);
    }

    method EnsureBot(c: Chat, p: Ports) returns (ok: bool)
      requires Valid() && c in journal
      modifies this
      ensures Valid() && c in journal && (ok <==> Ensured(p))
      ensures trace == old(trace) + EnsureActs(c, p)
      ensures ok ==> journal[c].tokenEnv == p.savedAs
    {
      if !p.username.Owned? {
        Note(c, Awaiting);
      }
      ok := Make(c, p);
    }

    /** `_ensure_bot` from `create_bot` on. */
    method Make(c: Chat, p: Ports) returns (ok: bool)
      requires Valid() && c in journal
      modifies this
      ensures Valid() && c in journal && (ok <==> Ensured(p))
      ensures trace == old(trace) + MakeActs(c, p)
      ensures ok ==> journal[c].tokenEnv == p.savedAs
    {
      Ask(CreatedBot(c, p.creation));
      if p.creation.Declined? {
        Note(c, Failed(Retryable(p.creation.failure), Some(p.creation.failure)));
        return false;
      }
      Note(c, Created(p.creation.botId));
      if p.savedAs.None? {
        Note(c, Failed(true, None));
        return false;
      }
      Keep(c, p.savedAs.value, p);
      return true;
    }

    /** `_ensure_bot` from a stored token to a bot that is free to be polled. */
    method Keep(c: Chat, env: string, p: Ports)
      requires Valid() && c in journal
      modifies this
      ensures Valid() && trace == old(trace) + TokenActs(c, env, p)
      ensures c in journal && journal[c].tokenEnv == Some(env)
    {
      Ask(SavedToken(c, env));
      Note(c, Saved(env));
      Ask(StoppedBridge(c));
      if p.username.Owned? && p.wipes && p.creation.Made? && p.creation.botId.Some? {
        Ask(WipedDialog(c));
      }
    }

    method Remember(c: Chat, entry: Entry, p: Ports)
      requires Valid() && c in journal
      modifies this
      ensures Valid() && trace == old(trace) + RememberActs(c, entry, p)
      ensures c in journal && journal[c].tokenEnv == old(journal)[c].tokenEnv
    {
      if p.username.Owned? && entry.botId.None? && p.knownId.Some? && p.knownId.value != 0 {
        Note(c, BotKnown(p.knownId.value));
      }
    }

    /** `_provision` from the choice between resuming and making a bot. */
    method Bot(c: Chat, entry: Entry, p: Ports)
      requires Valid() && c in journal && journal[c].tokenEnv == entry.tokenEnv
      modifies this
      ensures Valid() && trace == old(trace) + BotActs(c, entry, p)
    {
      var resuming := entry.tokenEnv.Some? && p.username.Owned?;
      if !resuming {
        var ok := EnsureBot(c, p);
        if !ok { return; }
        Associative(old(trace), EnsureActs(c, p), ServeActs(c, p.savedAs.value, p));
      }
      Serve(c, journal[c].tokenEnv.value, p);
    }

    /** `_provision` from the answer about the name. */
    method Answer(c: Chat, entry: Entry, p: Ports)
      requires Valid() && c in journal && journal[c].tokenEnv == entry.tokenEnv
      modifies this
      ensures Valid() && trace == old(trace) + AnswerActs(c, entry, p)
    {
      match p.username {
        case Unknown(f) =>
          Note(c, Failed(Retryable(f), Some(f)));
        case Foreign =>
          Note(c, Failed(Retryable(UsernameOccupied), Some(UsernameOccupied)));
        case Unmanageable =>
          Note(c, Failed(Retryable(NotManageable), Some(NotManageable)));
        case _ =>
          Remember(c, entry, p);
          Bot(c, entry, p);
          Associative(old(trace), RememberActs(c, entry, p), BotActs(c, entry, p));
      }
    }

    method Provision(c: Chat, entry: Entry, p: Ports)
      requires Valid() && c in journal && journal[c].tokenEnv == entry.tokenEnv
      modifies this
      ensures Valid() && trace == old(trace) + WalkActs(c, entry, p)
    {
      Ask(Began(c));
      Ask(Preflighted(c, p.conflict));
      if p.conflict {
        Note(c, Failed(false, None));
        return;
      }
      Ask(Checked(c, p.username));
      ghost var head := [Began(c), Preflighted(c, false), Checked(c, p.username)];
      assert trace == old(trace) + head;
      Answer(c, entry, p);
      Associative(old(trace), head, AnswerActs(c, entry, p));
    }

    /** One contact of `run`, `_went_away` included, with the entry the run began with. */
    method TakeTurn(c: Chat, entry: Entry, stillAlive: bool, p: Ports)
      requires Valid() && c in journal && journal[c] == entry
      modifies this
      ensures Valid() && trace == old(trace) + ContactActs(c, entry, stillAlive, p)
    {
      if Terminal(entry.state) {
        if !entry.state.Healthy? || stillAlive { return; }
        Note(c, Reopened);
        Associative(old(trace), [Noted(c, Reopened)], WalkActs(c, entry, p));
      }
      Provision(c, entry, p);
    }

    /** One selected contact, with the entry the run began with; nothing where the journal knew none. */
    method VisitOne(entries: map<Chat, Entry>, v: Visit)
      requires Valid() && v.task.Walk? && EntryOf(entries, v.chat) == EntryOf(journal, v.chat)
      modifies this
      ensures Valid() && trace == old(trace) + Turn(old(journal), v)
      ensures journal == Replayed(old(journal), Turn(old(journal), v))
    {
      hide ContactActs;
      ghost var acts := Turn(journal, v);
      assert Replayed(start, trace + acts) == Replayed(journal, acts);
      if v.chat in entries {
        TakeTurn(v.chat, entries[v.chat], v.task.stillAlive, v.task.ports);
      } else {
        assert trace + [] == trace;
      }
      TraceTells();
    }

    /** `run`, when nothing escapes: every selected contact the journal knows, in turn.  The entries are those the
        journal held when the run began. */
    method Run(visits: seq<Visit>)
      requires Valid()
      requires forall i :: 0 <= i < |visits| ==> visits[i].task.Walk? && visits[i].cut.None? && !visits[i].died
      requires forall i, k :: 0 <= i < k < |visits| ==> visits[i].chat != visits[k].chat
      modifies this
      ensures Valid() && trace == old(trace) + RunActs(old(journal), visits)
      ensures journal == Replayed(old(journal), RunActs(old(journal), visits))
    {
      hide Valid, Turn, Replayed, RunActs;
      var entries := journal;
      ghost var t0, all, done: seq<Act> := trace, RunActs(journal, visits), [];
      assert visits[0..] == visits && t0 + [] == t0 && [] + all == all;
      NothingReplayed(entries);
      for i := 0 to |visits|
        invariant Valid() && trace == t0 + done && journal == Replayed(entries, done)
        invariant done + RunActs(journal, visits[i..]) == all
        invariant forall k :: i <= k < |visits| ==> EntryOf(entries, visits[k].chat) == EntryOf(journal, visits[k].chat)
      {
        ghost var was, acts := journal, Turn(journal, visits[i]);
        OneVisit(journal, visits, i);
        Associative(t0, done, acts);
        ReplayedAppend(entries, done, acts);
        VisitOne(entries, visits[i]);
        forall k | i < k < |visits| ensures EntryOf(entries, visits[k].chat) == EntryOf(journal, visits[k].chat) {
          OthersAreLeft(was, visits[i], visits[k].chat);
        }
        Associative(done, acts, RunActs(journal, visits[i + 1..]));
        done := done + acts;
      }
      assert visits[|visits|..] == [];
      NoVisits(journal);
      assert done + [] == done;
    }

    /** `begin`: each contact of a selection is merged into the journal. */
    method Begin(chats: seq<Chat>)
      requires Valid()
      modifies this
      ensures Valid() && trace == old(trace) + Selections(chats)
      ensures journal == Replayed(old(journal), Selections(chats))
    {
      hide Valid, Replayed;
      ghost var t0, j0 := trace, journal;
      NothingReplayed(j0);
      assert t0 + [] == t0 && chats[..|chats|] == chats;
      for i := 0 to |chats|
        invariant Valid() && trace == t0 + Selections(chats[..i]) && journal == Replayed(j0, Selections(chats[..i]))
      {
        assert chats[..i + 1][..i] == chats[..i];
        ghost var before, a := Selections(chats[..i]), Noted(chats[i], Selected);
        Associative(t0, before, [a]);
        ReplayedAppend(j0, before, [a]);
        OneReplayed(journal, a);
        SelectOne(chats[i]);
      }
    }

    method SelectOne(c: Chat)
      requires Valid()
      modifies this
      ensures Valid() && trace == old(trace) + [Noted(c, Selected)]
      ensures journal == Written(old(journal), Noted(c, Selected))
    {
      var a := Noted(c, Selected);
      forall acts ensures Replayed(start, trace + [a] + acts) == Replayed(Written(journal, a), acts) {
        Associative(trace, [a], acts);
        OneFurther(journal, a, acts);
      }
      journal := journal[c := if c in journal then Merged(journal[c], Selected) else FIRST];
      trace := trace + [a];
    }
  }

  function Selections(chats: seq<Chat>): seq<Act> {
    if chats == [] then [] else Selections(chats[..|chats| - 1]) + [Noted(chats[|chats| - 1], Selected)]
  }

  lemma OneReplayed(j: map<Chat, Entry>, a: Act)
    ensures Replayed(j, [a]) == Written(j, a)
  {
    assert [a][1..] == [];
  }

  lemma OthersAreLeft(j: map<Chat, Entry>, v: Visit, c: Chat)
    requires c != v.chat
    ensures EntryOf(Replayed(j, Turn(j, v)), c) == EntryOf(j, c)
  {
    hide Turn;
    TurnIsItsOwn(j, v);
    OtherEntriesStay(j, c, v.chat, Turn(j, v));
  }

  lemma {:induction false} ReplayedAppend(j: map<Chat, Entry>, a: seq<Act>, b: seq<Act>)
    ensures Replayed(j, a + b) == Replayed(Replayed(j, a), b)
    decreases a
  {
    if a == [] {
      assert a + b == b;
    } else {
      assert (a + b)[1..] == a[1..] + b;
      ReplayedAppend(Written(j, a[0]), a[1..], b);
    }
  }

  lemma NothingReplayed(j: map<Chat, Entry>)
    ensures Replayed(j, []) == j
  {
  }

  lemma NoVisits(j: map<Chat, Entry>)
    ensures RunActs(j, []) == []
  {
  }

  lemma OneVisit(j: map<Chat, Entry>, visits: seq<Visit>, i: nat)
    requires i < |visits| && visits[i].cut.None? && !visits[i].died
    ensures var acts := Turn(j, visits[i]);
            RunActs(j, visits[i..]) == acts + RunActs(Replayed(j, acts), visits[i + 1..])
  {
    hide ContactActs, Turn;
    assert visits[i..][0] == visits[i] && visits[i..][1..] == visits[i + 1..];
    assert VisitActs(j, visits[i]) == Turn(j, visits[i]);
  }

  // ---------------------------------------------------------------- what one turn leaves and does

  lemma VerifyLeaves(j: map<Chat, Entry>, c: Chat, p: Ports)
    requires c in j
    ensures var state := if p.healthy && p.activated then Healthy else FailedRetryable;
            Replayed(j, VerifyActs(c, p)) == j[c := j[c].(state := state, failure := None)]
  {
    var acts := VerifyActs(c, p);
    ReplayedAppend(j, acts[..|acts| - 1], [acts[|acts| - 1]]);
    assert acts == acts[..|acts| - 1] + [acts[|acts| - 1]];
    OneReplayed(j, acts[|acts| - 1]);
    QuietActs(j, acts[..|acts| - 1]);
  }

  lemma {:induction false} QuietActs(j: map<Chat, Entry>, acts: seq<Act>)
    requires forall i :: 0 <= i < |acts| ==> !acts[i].Noted? && !acts[i].Forgot?
    ensures Replayed(j, acts) == j
    decreases acts
  {
    if acts != [] { QuietActs(j, acts[1..]); }
  }

  /** An act of a port, then a note of one entry, then more. */
  lemma ActAndNote(j: map<Chat, Entry>, c: Chat, a: Act, x: Change, more: seq<Act>)
    requires c in j && !a.Noted? && !a.Forgot?
    ensures Replayed(j, [a, Noted(c, x)] + more) == Replayed(j[c := Merged(j[c], x)], more)
  {
    assert ([a, Noted(c, x)] + more)[1..] == [Noted(c, x)] + more;
    OneFurther(j, Noted(c, x), more);
  }

  lemma LastNote(j: map<Chat, Entry>, c: Chat, a: Act, x: Change)
    requires c in j && !a.Noted? && !a.Forgot?
    ensures Replayed(j, [a] + [Noted(c, x)]) == j[c := Merged(j[c], x)]
  {
    ActAndNote(j, c, a, x, []);
    assert [a, Noted(c, x)] + [] == [a] + [Noted(c, x)];
  }

  /** From the start of the worker on. */
  lemma ServeLeaves(j: map<Chat, Entry>, c: Chat, env: string, p: Ports)
    requires c in j
    ensures var e := j[c];
            Replayed(j, ServeActs(c, env, p)) ==
            if p.startedAs == None then j[c := e.(state := FailedRetryable, failure := None)]
            else j[c := e.(state := if p.greeting != GreetingFailed && p.healthy && p.activated
                                    then Healthy else FailedRetryable,
                           bridgeName := p.startedAs,
                           needsOpen := e.needsOpen || p.greeting == OwnerMustOpen,
                           failure := None)]
  {
    hide VerifyActs, Replayed;
    if p.startedAs.None? {
      LastNote(j, c, StartedWorker(c, env, false), Failed(true, None));
    } else {
      ActAndNote(j, c, StartedWorker(c, env, true), Started(p.startedAs.value), GreetActs(c, p));
      var k := j[c := Merged(j[c], Started(p.startedAs.value))];
      if p.greeting.GreetingFailed? {
        LastNote(k, c, SentStart(c, p.greeting), Failed(true, None));
      } else {
        var x := Greeted(p.greeting.OwnerMustOpen?);
        ActAndNote(k, c, SentStart(c, p.greeting), x, VerifyActs(c, p));
        VerifyLeaves(k[c := Merged(k[c], x)], c, p);
      }
    }
  }

  /** From `create_bot` on: what is left when no token comes of it, and what the worker is started on. */
  lemma MakeLeaves(j: map<Chat, Entry>, c: Chat, p: Ports)
    requires c in j
    ensures var e, after := j[c], Replayed(j, MakeActs(c, p));
            && (p.creation.Declined? ==>
                  after == j[c := e.(state := if p.creation.failure in {CreateLimit, UsernameOccupied, NotManageable}
                                              then FailedPermanent else FailedRetryable,
                                     failure := Some(p.creation.failure))])
            && (p.creation.Made? ==>
                  var id := if p.creation.botId != None then p.creation.botId else e.botId;
                  after == if p.savedAs == None
                           then j[c := e.(state := FailedRetryable, failure := None, botId := id)]
                           else j[c := e.(state := TokenSaved, tokenEnv := p.savedAs, botId := id)])
  {
    hide Replayed;
    if p.creation.Declined? {
      LastNote(j, c, CreatedBot(c, p.creation), Failed(Retryable(p.creation.failure), Some(p.creation.failure)));
    } else {
      var x := Created(p.creation.botId);
      var k := j[c := Merged(j[c], x)];
      if p.savedAs.None? {
        ActAndNote(j, c, CreatedBot(c, p.creation), x, Fails(c, true));
        OneReplayed(k, Noted(c, Failed(true, None)));
      } else {
        var env := p.savedAs.value;
        ActAndNote(j, c, CreatedBot(c, p.creation), x, TokenActs(c, env, p));
        var head := [SavedToken(c, env), Noted(c, Saved(env))];
        var rest := TokenActs(c, env, p)[2..];
        assert TokenActs(c, env, p) == head + rest;
        ActAndNote(k, c, SavedToken(c, env), Saved(env), rest);
        QuietActs(k[c := Merged(k[c], Saved(env))], rest);
      }
    }
  }

  lemma EnsureLeaves(j: map<Chat, Entry>, c: Chat, p: Ports)
    requires c in j
    ensures var k := if p.username == Owned then j else j[c := j[c].(state := AwaitingConfirmation)];
            Replayed(j, EnsureActs(c, p)) == Replayed(k, MakeActs(c, p))
  {
    hide MakeActs;
    if p.username.Owned? {
      assert [] + MakeActs(c, p) == MakeActs(c, p);
    } else {
      OneFurther(j, Noted(c, Awaiting), MakeActs(c, p));
    }
  }

  lemma RememberLeaves(j: map<Chat, Entry>, c: Chat, e: Entry, p: Ports)
    requires c in j && e.botId == j[c].botId
    ensures var id := if p.username == Owned && e.botId == None && p.knownId != Some(0) && p.knownId != None
                      then p.knownId else e.botId;
            Replayed(j, RememberActs(c, e, p)) == j[c := j[c].(botId := id)]
  {
    if RememberActs(c, e, p) != [] { OneReplayed(j, RememberActs(c, e, p)[0]); }
  }

  predicate Final(f: Failure) { f in {CreateLimit, UsernameOccupied, NotManageable} }

  /** How one walk ends, told from the answers alone: for good where the name or the chat is somebody else's or the
      limit is reached, HEALTHY where every port answered well, and to be retried otherwise; with the bot, the token,
      the bridge and the closed chat it came to know of. */
  predicate EndsAs(e: Entry, p: Ports, n: Entry) {
    var reuses := e.tokenEnv != None && p.username == Owned;
    var told := p.username == Owned && e.botId == None && p.knownId != None && p.knownId != Some(0);
    var known := if told then p.knownId else e.botId;
    var id := if !reuses && p.creation.Made? && p.creation.botId != None then p.creation.botId else known;
    var token := if reuses then e.tokenEnv else p.savedAs;
    if p.conflict then n == e.(state := FailedPermanent, failure := None)
    else if p.username == Foreign then n == e.(state := FailedPermanent, failure := Some(UsernameOccupied))
    else if p.username == Unmanageable then n == e.(state := FailedPermanent, failure := Some(NotManageable))
    else if p.username.Unknown? then
      n == e.(state := if Final(p.username.failure) then FailedPermanent else FailedRetryable,
              failure := Some(p.username.failure))
    else if !reuses && p.creation.Declined? then
      n == e.(state := if Final(p.creation.failure) then FailedPermanent else FailedRetryable,
              failure := Some(p.creation.failure), botId := known)
    else if token == None then n == e.(state := FailedRetryable, failure := None, botId := id)
    else if p.startedAs == None then
      n == e.(state := FailedRetryable, failure := None, botId := id, tokenEnv := token)
    else
      n == Entry(if p.greeting != GreetingFailed && p.healthy && p.activated then Healthy else FailedRetryable,
                 token, id, p.startedAs, e.needsOpen || p.greeting == OwnerMustOpen, None)
  }

  /** What a walk leaves that neither a conflict nor the answer about the name has ended. */
  lemma BotLeaves(j: map<Chat, Entry>, c: Chat, e: Entry, p: Ports)
    requires c in j && e == j[c].(state := e.state) && (p.username == Free || p.username == Owned) && !p.conflict
    ensures var after := Replayed(j, RememberActs(c, e, p) + BotActs(c, e, p));
            c in after && EndsAs(e, p, after[c])
  {
    hide MakeActs, EnsureActs, ServeActs, RememberActs, Replayed;
    ReplayedAppend(j, RememberActs(c, e, p), BotActs(c, e, p));
    RememberLeaves(j, c, e, p);
    var k := Replayed(j, RememberActs(c, e, p));
    if Resumes(e, p) {
      ServeLeaves(k, c, e.tokenEnv.value, p);
    } else {
      EnsureLeaves(k, c, p);
      var l := if p.username == Owned then k else k[c := k[c].(state := AwaitingConfirmation)];
      MakeLeaves(l, c, p);
      if Ensured(p) {
        ReplayedAppend(k, EnsureActs(c, p), ServeActs(c, p.savedAs.value, p));
        ServeLeaves(Replayed(k, EnsureActs(c, p)), c, p.savedAs.value, p);
      } else {
        assert EnsureActs(c, p) + [] == EnsureActs(c, p);
      }
    }
  }

  lemma WalkLeaves(j: map<Chat, Entry>, c: Chat, e: Entry, p: Ports)
    requires c in j && e == j[c].(state := e.state)
    ensures c in Replayed(j, WalkActs(c, e, p)) && EndsAs(e, p, Replayed(j, WalkActs(c, e, p))[c])
  {
    hide Replayed, RememberActs, BotActs;
    var n := if p.conflict then 2 else 3;
    var acts := WalkActs(c, e, p);
    assert acts == acts[..n] + acts[n..];
    ReplayedAppend(j, acts[..n], acts[n..]);
    QuietActs(j, acts[..n]);
    if p.conflict {
      OneReplayed(j, Noted(c, Failed(false, None)));
    } else {
      assert acts[n..] == AnswerActs(c, e, p);
      if p.username.Free? || p.username.Owned? {
        BotLeaves(j, c, e, p);
      } else {
        OneReplayed(j, AnswerActs(c, e, p)[0]);
      }
    }
  }

  /** A contact's turn: one the journal does not know, one that failed for good or was given up, and one that is HEALTHY
      and still alive are left alone; every other walk ends as its answers say. */
  lemma TurnEndsAs(j: map<Chat, Entry>, c: Chat, stillAlive: bool, p: Ports)
    ensures var turn := Turn(j, Visit(c, Walk(stillAlive, p), None, false));
            if c !in j || j[c].state in {FailedPermanent, Abandoned} || (j[c].state == Healthy && stillAlive)
            then turn == []
            else c in Replayed(j, turn) && EndsAs(j[c], p, Replayed(j, turn)[c])
  {
    hide WalkActs, Replayed;
    if c in j && Walked(j[c], stillAlive) {
      if j[c].state.Healthy? {
        var k := j[c := j[c].(state := Pending)];
        OneFurther(j, Noted(c, Reopened), WalkActs(c, j[c], p));
        WalkLeaves(k, c, j[c], p);
      } else {
        WalkLeaves(j, c, j[c], p);
      }
    }
  }

  /** Writes from outside: a selection adds a contact, begins one again that failed for good or was given up with its
      bot, token and name, and leaves any other; a retry reopens what did not fail for good; a name found taken
      ends what has not ended; a bridge disconnected is stopped and its entry dropped. */
  lemma OutsideLeaves(j: map<Chat, Entry>, c: Chat, task: Task)
    requires !task.Walk?
    ensures var acts := TaskActs(c, EntryOf(j, c), task);
            var after := Replayed(j, acts);
            match task
            case Select =>
              after == j[c := if c !in j then Entry(Pending, None, None, None, false, None)
                              else if j[c].state == FailedPermanent || j[c].state == Abandoned
                              then Entry(Pending, j[c].tokenEnv, j[c].botId, j[c].bridgeName, false, None)
                              else j[c]]
            case Retry =>
              after == if c !in j || j[c].state == FailedPermanent then j
                       else j[c := j[c].(state := Pending, failure := None)]
            case GiveUp => after == if c !in j then j else j[c := j[c].(state := Abandoned)]
            case Collide(foreign) =>
              after == if c !in j || j[c].state in {Healthy, FailedPermanent, Abandoned} then j
                       else j[c := j[c].(state := FailedPermanent,
                                         failure := Some(if foreign then UsernameOccupied else NotManageable))]
            case Disconnect => after == j - {c} && acts[0] == StoppedBridge(c)
            case Walk(_, _) => true
  {
    hide ContactActs;
    var acts := TaskActs(c, EntryOf(j, c), task);
    if |acts| == 1 { OneReplayed(j, acts[0]); }
    if task.Disconnect? {
      OneFurther(j, acts[0], [Forgot(c)]);
      OneReplayed(j, Forgot(c));
    }
  }

  /** A selection is each contact's selection in turn. */
  lemma SelectionLeaves(j: map<Chat, Entry>, chats: seq<Chat>, c: Chat)
    ensures var j1 := Replayed(j, Selections(chats));
            Replayed(j, Selections(chats + [c])) == Replayed(j1, TaskActs(c, EntryOf(j1, c), Select))
  {
    assert (chats + [c])[..|chats|] == chats;
    ReplayedAppend(j, Selections(chats), [Noted(c, Selected)]);
  }

  // ---------------------------------------------------------------- the effects of a walk

  /** What a walk asks and does, told from the answers alone: the bot is made unless a conflict, the name or a saved
      token stands against it; with its token saved the old worker is stopped; with any token the worker is started;
      and so on to the row, each step only where the one before succeeded. */
  predicate Does(c: Chat, e: Entry, p: Ports, a: Act) {
    var asks := !p.conflict && (p.username == Free || p.username == Owned);
    var reuses := asks && e.tokenEnv != None && p.username == Owned;
    var saves := asks && !reuses && p.creation.Made? && p.savedAs != None;
    var starts := (reuses || saves) && p.startedAs != None;
    var greets := starts && p.greeting != GreetingFailed;
    match a
    case Began(d) => d == c
    case Preflighted(d, conflict) => d == c && conflict == p.conflict
    case Checked(d, u) => d == c && !p.conflict && u == p.username
    case CreatedBot(d, m) => d == c && asks && !reuses && m == p.creation
    case SavedToken(d, env) => d == c && saves && Some(env) == p.savedAs
    case StoppedBridge(d) => d == c && saves
    case WipedDialog(d) => d == c && saves && p.username == Owned && p.wipes && p.creation.botId != None
    case StartedWorker(d, env, ok) =>
      && d == c && ok == (p.startedAs != None)
      && ((reuses && Some(env) == e.tokenEnv) || (saves && Some(env) == p.savedAs))
    case SentStart(d, g) => d == c && starts && g == p.greeting
    case AskedHealth(d, ok) => d == c && greets && ok == p.healthy
    case MarkedActive(d, ok) => d == c && greets && p.healthy && ok == p.activated
    case Noted(_, _) => false
    case Forgot(_) => false
    case Crashed => false
  }

  function Times(acts: seq<Act>, a: Act): nat
    decreases acts
  {
    if acts == [] then 0 else (if acts[0] == a then 1 else 0) + Times(acts[1..], a)
  }

  lemma {:induction false} TimesAppend(x: seq<Act>, y: seq<Act>, a: Act)
    ensures Times(x + y, a) == Times(x, a) + Times(y, a)
    decreases x
  {
    if x == [] {
      assert x + y == y;
    } else {
      assert (x + y)[1..] == x[1..] + y;
      TimesAppend(x[1..], y, a);
    }
  }

  lemma CountedOnce(x: Act, a: Act)
    ensures Times([x], a) == if x == a then 1 else 0
  {
    assert [x][1..] == [];
  }

  lemma Counted(x: Act, y: Act, z: Act, a: Act)
    ensures Times([x, y], a) == (if x == a then 1 else 0) + if y == a then 1 else 0
    ensures Times([x, y, z], a) == (if x == a then 1 else 0) + (if y == a then 1 else 0) + if z == a then 1 else 0
  {
    hide Times;
    CountedOnce(x, a);
    CountedOnce(y, a);
    CountedOnce(z, a);
    assert [x] + [y] == [x, y] && [x, y] + [z] == [x, y, z];
    TimesAppend([x], [y], a);
    TimesAppend([x, y], [z], a);
  }

  lemma VerifyDoes(c: Chat, p: Ports, a: Act)
    requires !a.Noted?
    ensures Times(VerifyActs(c, p), a) ==
            if a == AskedHealth(c, p.healthy) || (p.healthy && a == MarkedActive(c, p.activated)) then 1 else 0
  {
    hide Times;
    var failed := Noted(c, Failed(true, None));
    if !p.healthy {
      Counted(AskedHealth(c, false), failed, failed, a);
    } else {
      Counted(AskedHealth(c, true), MarkedActive(c, p.activated), if p.activated then Noted(c, Done) else failed, a);
    }
    assert [AskedHealth(c, false)] + [failed] == [AskedHealth(c, false), failed];
    assert [AskedHealth(c, true), MarkedActive(c, false)] + [failed] ==
           [AskedHealth(c, true), MarkedActive(c, false), failed];
  }

  lemma GreetDoes(c: Chat, p: Ports, a: Act)
    requires !a.Noted?
    ensures Times(GreetActs(c, p), a) ==
            (if a == SentStart(c, p.greeting) then 1 else 0) +
            if p.greeting != GreetingFailed then Times(VerifyActs(c, p), a) else 0
  {
    hide Times, VerifyActs;
    var failed, noted := Noted(c, Failed(true, None)), Noted(c, Greeted(p.greeting.OwnerMustOpen?));
    Counted(SentStart(c, p.greeting), failed, failed, a);
    Counted(SentStart(c, p.greeting), noted, noted, a);
    assert [SentStart(c, p.greeting)] + [failed] == [SentStart(c, p.greeting), failed];
    TimesAppend([SentStart(c, p.greeting), noted], VerifyActs(c, p), a);
  }

  lemma LaunchDoes(c: Chat, env: string, p: Ports, a: Act)
    requires !a.Noted?
    ensures Times(ServeActs(c, env, p), a) ==
            (if a == StartedWorker(c, env, p.startedAs != None) then 1 else 0) +
            if p.startedAs != None then Times(GreetActs(c, p), a) else 0
  {
    hide Times, GreetActs;
    if p.startedAs.None? {
      var failed := Noted(c, Failed(true, None));
      Counted(StartedWorker(c, env, false), failed, failed, a);
      assert [StartedWorker(c, env, false)] + [failed] == [StartedWorker(c, env, false), failed];
    } else {
      var noted := Noted(c, Started(p.startedAs.value));
      Counted(StartedWorker(c, env, true), noted, noted, a);
      TimesAppend([StartedWorker(c, env, true), noted], GreetActs(c, p), a);
    }
  }

  lemma ServeDoes(c: Chat, env: string, p: Ports, a: Act)
    requires !a.Noted?
    ensures Times(ServeActs(c, env, p), a) ==
            if (match a
                case StartedWorker(d, x, ok) => d == c && x == env && ok == (p.startedAs != None)
                case SentStart(d, g) => d == c && p.startedAs != None && g == p.greeting
                case AskedHealth(d, ok) =>
                  d == c && p.startedAs != None && p.greeting != GreetingFailed && ok == p.healthy
                case MarkedActive(d, ok) =>
                  d == c && p.startedAs != None && p.greeting != GreetingFailed && p.healthy && ok == p.activated
                case _ => false)
            then 1 else 0
  {
    hide Times, ServeActs, GreetActs, VerifyActs;
    LaunchDoes(c, env, p, a);
    GreetDoes(c, p, a);
    VerifyDoes(c, p, a);
  }

  lemma TokenDoes(c: Chat, env: string, p: Ports, a: Act)
    requires !a.Noted?
    ensures Times(TokenActs(c, env, p), a) ==
            if || a == SavedToken(c, env)
               || a == StoppedBridge(c)
               || (&& a == WipedDialog(c)
                   && p.username == Owned && p.wipes && p.creation.Made? && p.creation.botId != None)
            then 1 else 0
  {
    hide Times;
    var head := [SavedToken(c, env), Noted(c, Saved(env)), StoppedBridge(c)];
    Counted(head[0], head[1], head[2], a);
    CountedOnce(WipedDialog(c), a);
    var rest := TokenActs(c, env, p)[3..];
    assert TokenActs(c, env, p) == head + rest && (rest == [] || rest == [WipedDialog(c)]);
    TimesAppend(head, rest, a);
    NoneCounted(a);
  }

  lemma NoneCounted(a: Act)
    ensures Times([], a) == 0
  {
  }

  lemma MakeDoes(c: Chat, p: Ports, a: Act)
    requires !a.Noted?
    ensures Times(MakeActs(c, p), a) ==
            (if a == CreatedBot(c, p.creation) then 1 else 0) +
            if p.creation.Made? && p.savedAs != None then Times(TokenActs(c, p.savedAs.value, p), a) else 0
  {
    hide Times, TokenActs;
    if p.creation.Declined? {
      var failed := Noted(c, Failed(Retryable(p.creation.failure), Some(p.creation.failure)));
      Counted(CreatedBot(c, p.creation), failed, failed, a);
      assert [CreatedBot(c, p.creation)] + [failed] == [CreatedBot(c, p.creation), failed];
    } else {
      var noted, failed := Noted(c, Created(p.creation.botId)), Noted(c, Failed(true, None));
      Counted(CreatedBot(c, p.creation), noted, failed, a);
      CountedOnce(failed, a);
      TimesAppend([CreatedBot(c, p.creation), noted], [failed], a);
      if p.savedAs.Some? {
        TimesAppend([CreatedBot(c, p.creation), noted], TokenActs(c, p.savedAs.value, p), a);
      }
    }
  }

  lemma EnsureDoes(c: Chat, p: Ports, a: Act)
    requires !a.Noted?
    ensures Times(EnsureActs(c, p), a) ==
            if (match a
                case CreatedBot(d, m) => d == c && m == p.creation
                case SavedToken(d, env) => d == c && p.creation.Made? && Some(env) == p.savedAs
                case StoppedBridge(d) => d == c && p.creation.Made? && p.savedAs != None
                case WipedDialog(d) =>
                  && d == c && p.creation.Made? && p.savedAs != None && p.username == Owned && p.wipes
                  && p.creation.botId != None
                case _ => false)
            then 1 else 0
  {
    hide Times, MakeActs, TokenActs;
    var asked: seq<Act> := if p.username.Owned? then [] else [Noted(c, Awaiting)];
    TimesAppend(asked, MakeActs(c, p), a);
    NoneCounted(a);
    CountedOnce(Noted(c, Awaiting), a);
    MakeDoes(c, p, a);
    if p.savedAs.Some? { TokenDoes(c, p.savedAs.value, p, a); }
  }

  lemma BotDoes(c: Chat, e: Entry, p: Ports, a: Act)
    requires !a.Noted?
    ensures Times(RememberActs(c, e, p) + BotActs(c, e, p), a) ==
            if e.tokenEnv != None && p.username == Owned then Times(ServeActs(c, e.tokenEnv.value, p), a)
            else Times(EnsureActs(c, p), a) +
                 if p.creation.Made? && p.savedAs != None then Times(ServeActs(c, p.savedAs.value, p), a) else 0
  {
    hide Times, ServeActs, EnsureActs;
    TimesAppend(RememberActs(c, e, p), BotActs(c, e, p), a);
    NoneCounted(a);
    if RememberActs(c, e, p) != [] { CountedOnce(RememberActs(c, e, p)[0], a); }
    if !Resumes(e, p) {
      TimesAppend(EnsureActs(c, p), [], a);
      if Ensured(p) { TimesAppend(EnsureActs(c, p), ServeActs(c, p.savedAs.value, p), a); }
    }
  }

  lemma AskedDoes(c: Chat, e: Entry, p: Ports, a: Act)
    requires !a.Noted? && !p.conflict && (p.username == Free || p.username == Owned)
    ensures Times(RememberActs(c, e, p) + BotActs(c, e, p), a) ==
            if Does(c, e, p, a) && !a.Began? && !a.Preflighted? && !a.Checked? then 1 else 0
  {
    hide Times, ServeActs, EnsureActs, BotActs, RememberActs;
    BotDoes(c, e, p, a);
    if e.tokenEnv.Some? && p.username.Owned? {
      ServeDoes(c, e.tokenEnv.value, p, a);
    } else {
      EnsureDoes(c, p, a);
      if p.savedAs.Some? { ServeDoes(c, p.savedAs.value, p, a); }
    }
  }

  /** Each of them once, and nothing else. */
  lemma WalkDoes(c: Chat, e: Entry, p: Ports, a: Act)
    requires !a.Noted?
    ensures Times(WalkActs(c, e, p), a) == if Does(c, e, p, a) then 1 else 0
  {
    hide Times, ServeActs, EnsureActs, BotActs, RememberActs;
    var failed := Noted(c, Failed(false, None));
    if p.conflict {
      Counted(Began(c), Preflighted(c, true), failed, a);
      assert [Began(c), Preflighted(c, true)] + [failed] == [Began(c), Preflighted(c, true), failed];
    } else {
      var head := [Began(c), Preflighted(c, false), Checked(c, p.username)];
      Counted(head[0], head[1], head[2], a);
      TimesAppend(head, AnswerActs(c, e, p), a);
      if p.username.Free? || p.username.Owned? {
        AskedDoes(c, e, p, a);
      } else {
        CountedOnce(AnswerActs(c, e, p)[0], a);
      }
    }
  }

  // ---------------------------------------------------------------- notes follow effects

  /** The note that follows an effect: what it proved, or the failure. */
  predicate Tells(a: Act, p: Ports, next: Act) {
    match a
    case CreatedBot(c, Made(id)) => next == Noted(c, Created(id))
    case CreatedBot(c, Declined(f)) => next == Noted(c, Failed(!Final(f), Some(f)))
    case SavedToken(c, env) => next == Noted(c, Saved(env))
    case StartedWorker(c, _, ok) =>
      if ok then p.startedAs.Some? && next == Noted(c, Started(p.startedAs.value))
      else next == Noted(c, Failed(true, None))
    case SentStart(c, g) =>
      next == if g == GreetingFailed then Noted(c, Failed(true, None)) else Noted(c, Greeted(g == OwnerMustOpen))
    case AskedHealth(c, ok) => ok || next == Noted(c, Failed(true, None))
    case MarkedActive(c, ok) => next == if ok then Noted(c, Done) else Noted(c, Failed(true, None))
    case _ => true
  }

  predicate Telling(a: Act) {
    || a.CreatedBot? || a.SavedToken? || a.StartedWorker? || a.SentStart? || (a.AskedHealth? && !a.healthy)
    || a.MarkedActive?
  }

  predicate AllTold(acts: seq<Act>, p: Ports) {
    forall i :: 0 <= i < |acts| && Telling(acts[i]) ==> i + 1 < |acts| && Tells(acts[i], p, acts[i + 1])
  }

  lemma ToldJoins(a: seq<Act>, b: seq<Act>, p: Ports)
    requires AllTold(a, p) && AllTold(b, p)
    ensures AllTold(a + b, p)
  {
    var acts := a + b;
    forall i | 0 <= i < |acts| && Telling(acts[i])
      ensures i + 1 < |acts| && Tells(acts[i], p, acts[i + 1])
    {
      if i < |a| {
        assert Telling(a[i]);
        assert acts[i + 1] == a[i + 1];
      } else {
        assert acts[i] == b[i - |a|] && Telling(b[i - |a|]);
        assert acts[i + 1] == b[i - |a| + 1];
      }
    }
  }

  lemma ServeIsTold(c: Chat, env: string, p: Ports)
    ensures AllTold(ServeActs(c, env, p), p)
  {
    assert AllTold(VerifyActs(c, p), p);
    if !p.greeting.GreetingFailed? {
      ToldJoins([SentStart(c, p.greeting), Noted(c, Greeted(p.greeting.OwnerMustOpen?))], VerifyActs(c, p), p);
    }
    assert AllTold(GreetActs(c, p), p);
    if p.startedAs.Some? {
      ToldJoins([StartedWorker(c, env, true), Noted(c, Started(p.startedAs.value))], GreetActs(c, p), p);
    }
  }

  lemma MakeIsTold(c: Chat, p: Ports)
    ensures AllTold(MakeActs(c, p), p)
  {
    if p.creation.Made? {
      if p.savedAs.Some? { assert AllTold(TokenActs(c, p.savedAs.value, p), p); }
      ToldJoins([CreatedBot(c, p.creation), Noted(c, Created(p.creation.botId))],
                if p.savedAs.None? then Fails(c, true) else TokenActs(c, p.savedAs.value, p), p);
    }
  }

  /** What an effect proved is noted before anything else happens, so whatever cuts a walk, the journal lacks at most
      its last effect. */
  lemma EffectsAreNoted(c: Chat, e: Entry, p: Ports)
    ensures AllTold(WalkActs(c, e, p), p)
  {
    hide ServeActs, MakeActs;
    if p.savedAs.Some? { ServeIsTold(c, p.savedAs.value, p); }
    if e.tokenEnv.Some? { ServeIsTold(c, e.tokenEnv.value, p); }
    MakeIsTold(c, p);
    var asked: seq<Act> := if p.username.Owned? then [] else [Noted(c, Awaiting)];
    ToldJoins(asked, MakeActs(c, p), p);
    if Ensured(p) { ToldJoins(EnsureActs(c, p), ServeActs(c, p.savedAs.value, p), p); }
    assert EnsureActs(c, p) + [] == EnsureActs(c, p);
    ToldJoins(RememberActs(c, e, p), BotActs(c, e, p), p);
    ToldJoins([Began(c), Preflighted(c, false), Checked(c, p.username)], AnswerActs(c, e, p), p);
  }
}
