// When the account is shown as online: `bridge/max_client/interactive.py`.
//
// One loop sends pings carrying a flag, sleeps until the flag could change or a ping is due, and is woken
// early by the owner's actions.  The flag the server holds is compared here with the plain function of time
// the loop is meant to follow.
module InteractivePings {
  import opened Wrappers

  datatype Mode = Mirror | Offline | Online

  datatype Config = Config(mode: Mode, idle: real, period: real, settle: real)
  {
    predicate Valid() { 0.0 <= idle && 0.0 < period && 0.0 <= settle }
  }

  function AtLeast(floor: real, x: real): (r: real)
    ensures floor <= r && (r == floor || r == x)
  {
    if x < floor then floor else x
  }

  /** The floors the constructor applies to what it is given. */
  function Configured(mode: Mode, idle: real, period: real, settle: real): (c: Config)
    ensures c.Valid()
  {
    Config(mode, AtLeast(0.0, idle), AtLeast(0.05, period), AtLeast(0.0, settle))
  }

  /** `_wanted`: should the server think the owner is looking at MAX at time `t`? */
  predicate Wanted(c: Config, settledAt: real, lastTouch: Option<real>, t: real) {
    if c.mode.Online? || t < settledAt then true
    else c.mode.Mirror? && lastTouch.Some? && t < lastTouch.value + c.idle
  }

  /** `_next_deadline`: when `Wanted` could change with no one touching anything. */
  function NextDeadline(c: Config, settledAt: real, lastTouch: Option<real>, t: real): real {
    if c.mode.Online? then t + c.period
    else if t < settledAt then settledAt
    else if c.mode.Offline? || lastTouch.None? then t + c.period
    else if t < lastTouch.value + c.idle then lastTouch.value + c.idle
    else t + c.period
  }

  /** The deadline is in the future, and nothing changes before it. */
  lemma DeadlineSkipsNoChange(c: Config, settledAt: real, lastTouch: Option<real>, t: real)
    requires c.Valid()
    ensures t < NextDeadline(c, settledAt, lastTouch, t)
    ensures forall u | t <= u < NextDeadline(c, settledAt, lastTouch, t) ::
              Wanted(c, settledAt, lastTouch, u) == Wanted(c, settledAt, lastTouch, t)
  {
  }

  // ---------------------------------------------------------------- what is promised to the owner

  /** In mode online always; before the login has settled always; and in mirror mode as long after a touch as the
      owner counts as busy. */
  predicate Shown(c: Config, settledAt: real, lastTouch: Option<real>, t: real) {
    match c.mode
    case Online => true
    case Offline => t < settledAt
    case Mirror => t < settledAt || (lastTouch.Some? && t - lastTouch.value < c.idle)
  }

  lemma WantedIsShown(c: Config, settledAt: real, lastTouch: Option<real>, t: real)
    ensures Wanted(c, settledAt, lastTouch, t) <==> Shown(c, settledAt, lastTouch, t)
  {
  }

  /** What is configured is kept: no shorter idle or settle time than none, no period under a twentieth second. */
  lemma ConfiguredIs(mode: Mode, idle: real, period: real, settle: real)
    ensures var c := Configured(mode, idle, period, settle);
            && c.mode == mode
            && c.idle >= idle && c.period >= period && c.settle >= settle
            && (0.0 <= idle ==> c.idle == idle) && (idle < 0.0 ==> c.idle == 0.0)
            && (0.05 <= period ==> c.period == period) && (period < 0.05 ==> c.period == 0.05)
            && (0.0 <= settle ==> c.settle == settle) && (settle < 0.0 ==> c.settle == 0.0)
  {
  }

  /** The deadline is the next moment at which what is shown can end, if there is one ahead, and a period ahead
      otherwise. */
  lemma DeadlineIsTheNextEnd(c: Config, settledAt: real, lastTouch: Option<real>, t: real)
    ensures var d := NextDeadline(c, settledAt, lastTouch, t);
            && (!c.mode.Online? && t < settledAt ==> d == settledAt)
            && (c.mode.Mirror? && settledAt <= t && lastTouch.Some? && t < lastTouch.value + c.idle ==>
                  d == lastTouch.value + c.idle)
            && (c.mode.Online? || !Shown(c, settledAt, lastTouch, t) ==> d == t + c.period)
  {
  }

  // ---------------------------------------------------------------- the loop as a timed automaton

  /** Where the loop is: no loop, at its top, inside `_send`, or waiting. */
  datatype Phase = Idle | Top | Sending(flag: bool) | Sleeping(until: real)

  /** `judgedAt` and `seen` are history: when the loop last asked `Wanted`, and the last touch it knew of;
      `sleptAt` is when it last went to sleep. */
  datatype State = State(
    now: real,
    lastTouch: Option<real>,
    settledAt: real,
    declared: bool,
    wake: bool,
    nextPing: real,
    phase: Phase,
    judgedAt: real,
    seen: Option<real>,
    sleptAt: real)

  datatype Event =
    | Install               // a connect: a fresh loop, and a login that declared the flag
    | Touch                 // the owner did something
    | Turn                  // the loop runs from its top to its next await
    | Sent                  // the send in flight is answered
    | Broken                // the send raises, or the loop is cancelled
    | Pass(dt: real)        // time goes by
    | Rouse                 // the wait ends: woken, or timed out

  function WantedNow(c: Config, s: State): bool { Wanted(c, s.settledAt, s.lastTouch, s.now) }

  function Sooner(a: real, b: real): real { if b < a then b else a }

  /** The end of one round of the loop: clear the wake-up, then wait for the next thing that is due. */
  function Rest(c: Config, s: State): State {
    var until := Sooner(s.nextPing, NextDeadline(c, s.settledAt, s.lastTouch, s.now));
    s.(wake := false,
       phase := if until - s.now > 0.0 then Sleeping(until) else Top,
       sleptAt := s.now)
  }

  predicate Enabled(s: State, e: Event) {
    match e
    case Install => true
    case Touch => true
    case Turn => s.phase.Top?
    case Sent => s.phase.Sending?
    case Broken => !s.phase.Idle?
    case Pass(dt) =>
      && 0.0 < dt
      && !s.phase.Top?
      && (s.phase.Sleeping? ==> !s.wake && s.now + dt <= s.phase.until)
    case Rouse => s.phase.Sleeping? && (s.wake || s.phase.until <= s.now)
  }

  function Turns(c: Config, s: State): State {
    var flag := WantedNow(c, s);
    var judged := s.(judgedAt := s.now, seen := s.lastTouch);
    if flag != s.declared || s.nextPing <= s.now then judged.(phase := Sending(flag)) else Rest(c, judged)
  }

  function Touches(c: Config, s: State): State {
    if !c.mode.Mirror? then s
    else s.(lastTouch := Some(s.now), wake := s.wake || !s.declared)
  }

  function Step(c: Config, s: State, e: Event): State
    requires Enabled(s, e)
  {
    match e
    case Install =>
      s.(settledAt := s.now + c.settle, declared := true, wake := false, nextPing := 0.0, phase := Top)
    case Touch => Touches(c, s)
    case Turn => Turns(c, s)
    case Sent => Rest(c, s.(declared := s.phase.flag, nextPing := s.now + c.period))
    case Broken => s.(phase := Idle)
    case Pass(dt) => s.(now := s.now + dt)
    case Rouse => s.(phase := Top)
  }

  predicate Runs(c: Config, s: State, es: seq<Event>)
    decreases es
  {
    es == [] || (Enabled(s, es[0]) && Runs(c, Step(c, s, es[0]), es[1..]))
  }

  function After(c: Config, s: State, es: seq<Event>): State
    requires Runs(c, s, es)
    decreases es
  {
    if es == [] then s else After(c, Step(c, s, es[0]), es[1..])
  }

  /** What the constructor leaves: nobody has done anything, and a login declares the flag. */
  function Fresh(now: real): State {
    State(now, None, 0.0, true, false, 0.0, Idle, now, None, now)
  }

  // ---------------------------------------------------------------- what holds in every run

  /** The flag was last judged one period and one send ago at most, from everything known at that moment. */
  ghost predicate Tracks(c: Config, s: State) {
    && 0.0 <= s.now
    && (s.lastTouch.Some? ==> s.lastTouch.value <= s.now)
    && s.nextPing <= s.now + c.period
    && (s.phase.Sending? || s.phase.Sleeping? ==>
          && s.judgedAt <= s.now
          && (s.seen == s.lastTouch || (s.lastTouch.Some? && s.judgedAt <= s.lastTouch.value)))
    && (s.phase.Sending? ==> s.phase.flag == Wanted(c, s.settledAt, s.seen, s.judgedAt))
    && (s.phase.Sleeping? ==>
          && s.declared == Wanted(c, s.settledAt, s.seen, s.judgedAt)
          && s.judgedAt <= s.sleptAt <= s.now <= s.phase.until <= s.nextPing
          && s.phase.until <= s.sleptAt + c.period)
  }

  /** Before the first connect the loop is idle, the server is taken to believe the owner online, and nobody has done
      anything; everything below holds of it. */
  lemma FreshIs(c: Config, now: real)
    requires c.Valid() && 0.0 <= now
    ensures var s := Fresh(now);
            s.now == now && s.declared && !s.wake && s.lastTouch == None && s.phase.Idle? && Tracks(c, s)
  {
  }

  lemma StepTracks(c: Config, s: State, e: Event)
    requires c.Valid() && Tracks(c, s) && Enabled(s, e)
    ensures Tracks(c, Step(c, s, e))
  {
    match e
    case Turn => DeadlineSkipsNoChange(c, s.settledAt, s.lastTouch, s.now);
    case Sent => DeadlineSkipsNoChange(c, s.settledAt, s.lastTouch, s.now);
    case _ =>
  }

  /** Every send of the run is answered within `longest`. */
  predicate AnsweredWithin(c: Config, s: State, es: seq<Event>, longest: real)
    requires Runs(c, s, es)
    decreases es
  {
    es == [] ||
    (&& (es[0].Sent? ==> s.now - s.judgedAt <= longest)
     && AnsweredWithin(c, Step(c, s, es[0]), es[1..], longest))
  }

  /** The loop went to sleep no later than one send after it judged. */
  predicate SleptSoon(s: State, longest: real) { s.phase.Sleeping? ==> s.sleptAt - s.judgedAt <= longest }

  /** With sends that take time: while the loop sleeps, the flag is what was wanted at an instant no more than one
      period and one send ago, and a ping is due within the period. */
  lemma {:induction false} NeverStaleForLong(c: Config, s: State, es: seq<Event>, longest: real)
    requires c.Valid() && Tracks(c, s) && Runs(c, s, es)
    requires 0.0 <= longest && SleptSoon(s, longest) && AnsweredWithin(c, s, es, longest)
    ensures var t := After(c, s, es);
            && Tracks(c, t) && SleptSoon(t, longest)
            && (t.phase.Sleeping? ==>
                  && t.declared == Wanted(c, t.settledAt, t.seen, t.judgedAt)
                  && t.judgedAt <= t.now <= t.judgedAt + c.period + longest)
    decreases es
  {
    if es == [] {
    } else {
      StepTracks(c, s, es[0]);
      NeverStaleForLong(c, Step(c, s, es[0]), es[1..], longest);
    }
  }

  /** The flag a waiting loop has declared, or a sending one carries. */
  function Flag(s: State): bool
    requires s.phase.Sending? || s.phase.Sleeping?
  {
    if s.phase.Sending? then s.phase.flag else s.declared
  }

  /** In every run that flag is what was to be shown when the loop last judged: always true in mode online; in mode
      offline only before the login settled; in mirror mode also while the last touch it knew of counted. */
  lemma {:induction false} FlagOverRuns(c: Config, s: State, es: seq<Event>)
    requires c.Valid() && Tracks(c, s) && Runs(c, s, es)
    ensures var t := After(c, s, es);
            t.phase.Sending? || t.phase.Sleeping? ==>
              Flag(t) == match c.mode
                         case Online => true
                         case Offline => t.judgedAt < t.settledAt
                         case Mirror =>
                           t.judgedAt < t.settledAt || (t.seen.Some? && t.judgedAt - t.seen.value < c.idle)
    decreases es
  {
    if es == [] {
      WantedIsShown(c, s.settledAt, s.seen, s.judgedAt);
    } else {
      StepTracks(c, s, es[0]);
      FlagOverRuns(c, Step(c, s, es[0]), es[1..]);
    }
  }

  /** A connect settles from now on, counts as declared online, keeps the last touch, and pings at once. */
  lemma InstallIs(c: Config, s: State)
    requires 0.0 <= s.now
    ensures var t := Step(c, s, Install);
            && t.settledAt == s.now + c.settle && t.lastTouch == s.lastTouch && t.now == s.now
            && t.declared && !t.wake && t.phase.Top?
            && Step(c, t, Turn).phase == Sending(Shown(c, t.settledAt, t.lastTouch, t.now))
  {
  }

  /** A touch counts from now on in mirror mode, and wakes the loop exactly when that has declared the owner away. */
  lemma TouchIs(c: Config, s: State)
    ensures var t := Step(c, s, Touch);
            t == if c.mode.Mirror? then s.(lastTouch := Some(s.now), wake := s.wake || !s.declared) else s
  {
  }

  /** An answered send is declared; the next ping is due one period later, and until then the loop sleeps, to the end
      of what is shown if that comes first. */
  lemma AnsweredSendSleeps(c: Config, s: State)
    requires c.Valid() && s.phase.Sending?
    ensures var t := Step(c, s, Sent);
            && t.declared == s.phase.flag && t.nextPing == s.now + c.period && !t.wake
            && t.phase == Sleeping(Sooner(t.nextPing, NextDeadline(c, s.settledAt, s.lastTouch, s.now)))
            && s.now < t.phase.until <= s.now + c.period
            && (t.phase.until < s.now + c.period ==> t.phase.until == NextDeadline(c, s.settledAt, s.lastTouch, s.now))
  {
    DeadlineSkipsNoChange(c, s.settledAt, s.lastTouch, s.now);
  }

  /** Every send in flight has a reason: the flag it carries differs from the declared one, or a ping was due. */
  predicate HasReason(s: State) {
    s.phase.Sending? ==> s.phase.flag != s.declared || s.nextPing <= s.judgedAt
  }

  predicate NoAnswer(es: seq<Event>) { forall i :: 0 <= i < |es| ==> !es[i].Install? && !es[i].Sent? }

  /** Until the next answer or connect, a ping is not due before it was, and nothing is sent without a reason: so with
      an unchanged flag there is a whole period between two sends. */
  lemma {:induction false} PingsKeepTime(c: Config, s: State, es: seq<Event>)
    requires Runs(c, s, es) && NoAnswer(es) && HasReason(s)
    ensures var t := After(c, s, es);
            && t.nextPing == s.nextPing && t.declared == s.declared
            && (t.phase.Sending? && t.phase.flag == s.declared ==> s.nextPing <= t.judgedAt)
    decreases es
  {
    if es != [] { PingsKeepTime(c, Step(c, s, es[0]), es[1..]); }
  }

  // ---------------------------------------------------------------- exact agreement

  /** From now until it wakes, the sleeping loop has declared exactly what is wanted. */
  ghost predicate Agrees(c: Config, s: State) {
    s.phase.Sleeping? && !s.wake ==>
      forall t | s.now <= t < s.phase.until :: Wanted(c, s.settledAt, s.lastTouch, t) == s.declared
  }

  /** Every reason to be shown is over: the login has settled, and the owner is idle or does not count. */
  predicate RanOut(c: Config, s: State) {
    && !c.mode.Online? && s.settledAt <= s.now
    && (c.mode.Mirror? && s.lastTouch.Some? ==> s.lastTouch.value + c.idle <= s.now)
  }

  /** The owner did something after the loop last judged, and is not idle again yet. */
  predicate TouchedSince(c: Config, s: State) {
    c.mode.Mirror? && s.lastTouch.Some? && s.lastTouch != s.seen && s.now < s.lastTouch.value + c.idle
  }

  /** A send that raises the flag is answered before every reason for it is over, and one that drops it with no touch
      in between that still counts. */
  predicate Prompt(c: Config, s: State, e: Event)
    requires Enabled(s, e)
  {
    e.Sent? ==> if s.phase.flag then !RanOut(c, s) else !TouchedSince(c, s)
  }

  lemma PromptExactlyWhen(c: Config, s: State)
    requires c.Valid() && Tracks(c, s) && s.phase.Sending?
    ensures Prompt(c, s, Sent) <==> WantedNow(c, s) == s.phase.flag
  {
  }

  /** A send during which the owner does nothing and no deadline passes is prompt. */
  lemma QuietSendIsPrompt(c: Config, s: State)
    requires c.Valid() && Tracks(c, s) && s.phase.Sending? && s.seen == s.lastTouch
    requires s.now < NextDeadline(c, s.settledAt, s.seen, s.judgedAt)
    ensures Prompt(c, s, Sent)
  {
    DeadlineSkipsNoChange(c, s.settledAt, s.seen, s.judgedAt);
    PromptExactlyWhen(c, s);
  }

  lemma RestAgrees(c: Config, s: State)
    requires c.Valid()
    ensures Agrees(c, Rest(c, s)) <==> (s.nextPing <= s.now || WantedNow(c, s) == s.declared)
  {
    DeadlineSkipsNoChange(c, s.settledAt, s.lastTouch, s.now);
    var t := Rest(c, s);
    if s.now < s.nextPing && Agrees(c, t) {
      assert Wanted(c, t.settledAt, t.lastTouch, s.now) == t.declared;
    }
  }

  lemma TouchAgrees(c: Config, s: State)
    requires c.Valid() && Tracks(c, s) && Agrees(c, s)
    ensures Agrees(c, Touches(c, s))
  {
    var u := Touches(c, s);
    if u.phase.Sleeping? && !u.wake {
      forall t | s.now <= t < s.phase.until
        ensures Wanted(c, u.settledAt, u.lastTouch, t) == u.declared
      {
        assert Wanted(c, s.settledAt, s.lastTouch, t) == s.declared;
      }
    }
  }

  /** Agreement survives every step but one: an answered send keeps it exactly when it was prompt. */
  lemma StepAgrees(c: Config, s: State, e: Event)
    requires c.Valid() && Tracks(c, s) && Agrees(c, s) && Enabled(s, e)
    ensures Agrees(c, Step(c, s, e)) <==> Prompt(c, s, e)
  {
    match e
    case Touch => TouchAgrees(c, s);
    case Turn => if Turns(c, s).phase.Sleeping? { RestAgrees(c, s.(judgedAt := s.now, seen := s.lastTouch)); }
    case Sent =>
      PromptExactlyWhen(c, s);
      RestAgrees(c, s.(declared := s.phase.flag, nextPing := s.now + c.period));
    case _ =>
  }

  predicate PromptRuns(c: Config, s: State, es: seq<Event>)
    decreases es
  {
    es == [] || (Enabled(s, es[0]) && Prompt(c, s, es[0]) && PromptRuns(c, Step(c, s, es[0]), es[1..]))
  }

  /** Under any run of touches, reconnects and prompt sends, at every instant the loop sleeps the flag last
      declared is the one wanted at that instant. */
  lemma {:induction false} DeclaredIsWanted(c: Config, s: State, es: seq<Event>)
    requires c.Valid() && Tracks(c, s) && Agrees(c, s) && PromptRuns(c, s, es)
    ensures Runs(c, s, es)
    ensures var t := After(c, s, es);
            && Agrees(c, t)
            && (t.phase.Sleeping? && !t.wake && t.now < t.phase.until ==> t.declared == WantedNow(c, t))
    decreases es
  {
    if es == [] {
    } else {
      StepTracks(c, s, es[0]);
      StepAgrees(c, s, es[0]);
      DeclaredIsWanted(c, Step(c, s, es[0]), es[1..]);
    }
  }

  /** An instantaneous send is prompt: the flag it carries was judged at this very instant. */
  lemma InstantSendIsPrompt(c: Config, s: State)
    requires Enabled(s, Turn) && Turns(c, s).phase.Sending?
    ensures Prompt(c, Turns(c, s), Sent)
  {
  }

  /** A touch while a send is in flight has its wake-up cleared: the loop goes to sleep declaring "away" while
      the owner is there, and stays so until the next ping, at most one period later. */
  lemma WakeUpLostDuringSend(c: Config, s: State)
    requires c.Valid() && c.mode.Mirror? && 0.0 < c.idle && Tracks(c, s)
    requires s.phase == Sending(false) && s.settledAt <= s.now
    ensures var touched := Step(c, s, Touch);
            var t := Step(c, touched, Sent);
            && (!s.declared ==> touched.wake)
            && t.phase.Sleeping? && !t.wake && !t.declared && WantedNow(c, t)
            && t.now < t.phase.until <= t.now + c.period
            && Enabled(t, Pass(t.phase.until - t.now))
            && var due := Step(c, t, Pass(t.phase.until - t.now));
               Enabled(due, Rouse)
  {
  }

  // ---------------------------------------------------------------- the loop's own object

  class Pings {
    const config: Config
    var lastTouch: Option<real>
    var settledAt: real
    var declared: bool
    var wake: bool
    var nextPing: real
    var phase: Phase
    ghost var judgedAt: real
    ghost var seen: Option<real>
    ghost var sleptAt: real

    ghost function At(now: real): State
      reads this
    {
      State(now, lastTouch, settledAt, declared, wake, nextPing, phase, judgedAt, seen, sleptAt)
    }

    constructor (mode: Mode, idle: real, period: real, settle: real, ghost now: real)
      ensures At(now) == Fresh(now) && config == Configured(mode, idle, period, settle)
    {
      config := Configured(mode, idle, period, settle);
      lastTouch, settledAt, declared, wake, nextPing, phase := None, 0.0, true, false, 0.0, Idle;
      judgedAt, seen, sleptAt := now, None, now;
    }

    method Install(now: real)
      modifies this
      ensures At(now) == Step(config, old(At(now)), Event.Install)
    {
      settledAt := now + config.settle;
      declared := true;
      wake := false;
      nextPing := 0.0;
      phase := Top;
    }

    method Touch(now: real)
      modifies this
      ensures At(now) == Step(config, old(At(now)), Event.Touch)
    {
      if config.mode != Mirror { return; }
      lastTouch := Some(now);
      if !declared { wake := true; }
    }

    /** From the top of the loop to its next await: the send, or the wait. */
    method TopOfLoop(now: real)
      requires phase.Top?
      modifies this
      ensures At(now) == Step(config, old(At(now)), Turn)
    {
      var wanted := Wanted(config, settledAt, lastTouch, now);
      judgedAt, seen := now, lastTouch;
      if wanted != declared || now >= nextPing {
        phase := Sending(wanted);
        return;
      }
      Wait(now);
    }

    /** The rest of the round, once the send is answered. */
    method AfterSend(now: real)
      requires phase.Sending?
      modifies this
      ensures At(now) == Step(config, old(At(now)), Sent)
    {
      declared := phase.flag;
      nextPing := now + config.period;
      Wait(now);
    }

    method Wait(now: real)
      modifies this
      ensures At(now) == Rest(config, old(At(now)))
    {
      wake := false;
      var deadline := NextDeadline(config, settledAt, lastTouch, now);
      var delay := (if deadline < nextPing then deadline else nextPing) - now;
      phase := if delay > 0.0 then Sleeping(now + delay) else Top;
      sleptAt := now;
    }

    method Awake(now: real)
      requires Enabled(At(now), Rouse)
      modifies this
      ensures At(now) == Step(config, old(At(now)), Rouse)
    {
      phase := Top;
    }
  }
}
