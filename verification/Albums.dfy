// Gathering a Telegram media group into one MAX message: `bridge/media/upload.py`.
//
// The collector is an asyncio object, so what runs without interruption is the code between two
// awaits.  Each such piece is one event here: `add` is two of them (before and after the store
// answers), a timer is one, a flush and the erasing of the stored parts are one each.  Interleavings
// of tasks, crashes and restarts are then sequences of events.
module Albums {
  import opened Sequences
  import opened Wrappers

  type Group = string

  datatype Upload = Upload(kind: string, fileId: string, fileName: string, size: Option<int>, notice: Option<string>)

  /** One accepted update: the stored row, and everything `add` was called with. */
  datatype Part = Part(group: Group, messageId: int, item: Upload, caption: string, forwardLine: string,
                       replyTo: Option<int>)

  datatype Album = Album(items: seq<Upload>, caption: string, forwardLine: string, replyTo: Option<int>,
                         firstMessageId: int)

  // ---------------------------------------------------------------- folding parts into an album

  function FirstWord(kept: string, offered: string): string {
    if kept == "" then offered else kept
  }

  /** A further part joins a live album. `reply_to` is only ever taken from the first part. */
  function Join(a: Album, p: Part): Album {
    Album(a.items + [p.item], FirstWord(a.caption, p.caption), FirstWord(a.forwardLine, p.forwardLine),
          a.replyTo, a.firstMessageId)
  }

  function Opened(p: Part): Album {
    Album([p.item], p.caption, p.forwardLine, p.replyTo, p.messageId)
  }

  /** The album the live process holds after these parts. */
  function Live(parts: seq<Part>): Album
    requires parts != []
  {
    var last := |parts| - 1;
    if last == 0 then Opened(parts[0]) else Join(Live(parts[..last]), parts[last])
  }

  /** A stored part joins an album being rebuilt. `reply_to` is taken from the first part that has one. */
  function Rejoin(a: Album, p: Part): Album {
    Join(a, p).(replyTo := if a.replyTo.None? then p.replyTo else a.replyTo)
  }

  function RebuiltFrom(parts: seq<Part>): Album {
    if parts == [] then Album([], "", "", None, 0)
    else Rejoin(RebuiltFrom(parts[..|parts| - 1]), parts[|parts| - 1])
  }

  function Rebuilt(parts: seq<Part>): Album
    requires parts != []
  {
    RebuiltFrom(parts).(firstMessageId := parts[0].messageId)
  }

  ghost predicate NoReplies(parts: seq<Part>) {
    forall i | 0 <= i < |parts| :: parts[i].replyTo.None?
  }

  /** A rebuilt album is the live one, reply target aside; that agrees exactly when the first part carried one or
      none did. */
  lemma {:induction false} RebuiltIsLive(parts: seq<Part>)
    requires parts != []
    ensures Rebuilt(parts).(replyTo := None) == Live(parts).(replyTo := None)
    ensures Live(parts).replyTo == parts[0].replyTo
    ensures RebuiltFrom(parts).replyTo.None? <==> NoReplies(parts)
    ensures parts[0].replyTo.Some? ==> RebuiltFrom(parts).replyTo == parts[0].replyTo
    ensures Rebuilt(parts) == Live(parts) <==> parts[0].replyTo.Some? || NoReplies(parts)
  {
    var last := |parts| - 1;
    if last == 0 {
      assert RebuiltFrom(parts[..0]) == Album([], "", "", None, 0);
      assert [] + [parts[0].item] == [parts[0].item];
    } else {
      var before := parts[..last];
      RebuiltIsLive(before);
      assert NoReplies(parts) <==> NoReplies(before) && parts[last].replyTo.None?;
    }
  }

  // ---------------------------------------------------------------- what an album holds

  /** `kept` is the first of the words that is not empty, or empty where all are. */
  ghost predicate FirstOf(kept: string, words: seq<string>) {
    if kept == "" then forall i | 0 <= i < |words| :: words[i] == ""
    else exists i | 0 <= i < |words| :: words[i] == kept && forall k | 0 <= k < i :: words[k] == ""
  }

  function Items(parts: seq<Part>): (r: seq<Upload>)
    ensures |r| == |parts| && forall i | 0 <= i < |parts| :: r[i] == parts[i].item
  {
    seq(|parts|, i requires 0 <= i < |parts| => parts[i].item)
  }

  function Captions(parts: seq<Part>): (r: seq<string>)
    ensures |r| == |parts| && forall i | 0 <= i < |parts| :: r[i] == parts[i].caption
  {
    seq(|parts|, i requires 0 <= i < |parts| => parts[i].caption)
  }

  function ForwardLines(parts: seq<Part>): (r: seq<string>)
    ensures |r| == |parts| && forall i | 0 <= i < |parts| :: r[i] == parts[i].forwardLine
  {
    seq(|parts|, i requires 0 <= i < |parts| => parts[i].forwardLine)
  }

  /** The album of these parts, the reply target aside: every item in order, the first caption and the first forward
      line anybody gave, and the id of the first part. */
  ghost predicate Carries(a: Album, parts: seq<Part>) {
    && parts != []
    && a.items == Items(parts)
    && FirstOf(a.caption, Captions(parts))
    && FirstOf(a.forwardLine, ForwardLines(parts))
    && a.firstMessageId == parts[0].messageId
  }

  lemma FirstOfAppended(kept: string, words: seq<string>, word: string)
    requires FirstOf(kept, words)
    ensures FirstOf(FirstWord(kept, word), words + [word])
  {
    var all := words + [word];
    assert all[|words|] == word && forall i | 0 <= i < |words| :: all[i] == words[i];
    if kept != "" {
      var i :| 0 <= i < |words| && words[i] == kept && forall k | 0 <= k < i :: words[k] == "";
      assert all[i] == kept;
    } else if word != "" {
      assert all[|words|] == FirstWord(kept, word);
    }
  }

  lemma OneCarries(p: Part)
    ensures Carries(Opened(p), [p])
  {
    assert Items([p]) == [p.item];
    assert Captions([p])[0] == p.caption && ForwardLines([p])[0] == p.forwardLine;
  }

  lemma JoinCarries(a: Album, parts: seq<Part>, p: Part)
    requires Carries(a, parts)
    ensures Carries(Join(a, p), parts + [p])
  {
    hide FirstOf, FirstWord;
    assert Items(parts + [p]) == Items(parts) + [p.item];
    FirstOfAppended(a.caption, Captions(parts), p.caption);
    assert Captions(parts + [p]) == Captions(parts) + [p.caption];
    FirstOfAppended(a.forwardLine, ForwardLines(parts), p.forwardLine);
    assert ForwardLines(parts + [p]) == ForwardLines(parts) + [p.forwardLine];
  }

  lemma {:induction false} LiveCarries(parts: seq<Part>)
    requires parts != []
    ensures Carries(Live(parts), parts) && Live(parts).replyTo == parts[0].replyTo
  {
    hide Carries;
    var last := |parts| - 1;
    if last == 0 {
      OneCarries(parts[0]);
      assert parts == [parts[0]];
    } else {
      LiveCarries(parts[..last]);
      JoinCarries(Live(parts[..last]), parts[..last], parts[last]);
      assert parts == parts[..last] + [parts[last]];
    }
  }

  /** The album a restart rebuilds carries its parts, and replies to what the first part with a target replied to. */
  lemma RebuiltCarries(parts: seq<Part>)
    requires parts != []
    ensures Carries(Rebuilt(parts), parts)
    ensures if NoReplies(parts) then Rebuilt(parts).replyTo.None?
            else exists i | 0 <= i < |parts| :: parts[i].replyTo.Some? && Rebuilt(parts).replyTo == parts[i].replyTo &&
                                                forall k | 0 <= k < i :: parts[k].replyTo.None?
  {
    RebuiltIsLive(parts);
    LiveCarries(parts);
    if !NoReplies(parts) { FirstReply(parts); }
  }

  lemma {:induction false} FirstReply(parts: seq<Part>)
    requires !NoReplies(parts)
    ensures exists i | 0 <= i < |parts| :: parts[i].replyTo.Some? && RebuiltFrom(parts).replyTo == parts[i].replyTo &&
                                           forall k | 0 <= k < i :: parts[k].replyTo.None?
    decreases |parts|
  {
    var last := |parts| - 1;
    var before := parts[..last];
    if NoReplies(before) {
      NoReplyYet(before);
      assert parts[last].replyTo.Some?;
    } else {
      FirstReply(before);
      var i :| 0 <= i < |before| && before[i].replyTo.Some? && RebuiltFrom(before).replyTo == before[i].replyTo &&
               forall k | 0 <= k < i :: before[k].replyTo.None?;
      assert parts[i].replyTo.Some? && forall k | 0 <= k < i :: parts[k] == before[k];
    }
  }

  lemma {:induction false} NoReplyYet(parts: seq<Part>)
    requires NoReplies(parts)
    ensures RebuiltFrom(parts).replyTo.None?
    decreases |parts|
  {
    if parts != [] { NoReplyYet(parts[..|parts| - 1]); }
  }

  // ---------------------------------------------------------------- the state

  /** An open group: its album, the parts behind it, and the task that will flush it. */
  datatype Open = Open(album: Album, parts: seq<Part>, task: Option<nat>)

  /** An album handed to `flush`: still being sent, or sent and about to be erased from the store. */
  datatype Flight = Flight(group: Group, album: Album, parts: seq<Part>, sent: bool)

  /** `groups`, `timers`, `pending` and `flights` live in memory; `store` is on disk; the rest is history. */
  datatype State = State(
    groups: map<Group, Open>,
    timers: map<nat, Group>,
    pending: map<Group, Part>,
    flights: map<nat, Flight>,
    store: map<Group, seq<Part>>,
    nextId: nat,
    accepted: seq<Part>,
    handed: seq<Flight>,
    sent: seq<Part>)

  const EMPTY := State(map[], map[], map[], map[], map[], 0, [], [], [])

  function Stored(s: State, g: Group): seq<Part> { if g in s.store then s.store[g] else [] }

  function OpenParts(s: State, g: Group): seq<Part> { if g in s.groups then s.groups[g].parts else [] }

  function Waiting(s: State, g: Group): seq<Part> { if g in s.pending then [s.pending[g]] else [] }

  predicate Known(parts: seq<Part>, p: Part) {
    exists i | 0 <= i < |parts| :: parts[i].messageId == p.messageId
  }

  // ---------------------------------------------------------------- the events

  datatype Event =
    | Store(part: Part)                    // `add`, up to the store's answer
    | Admit(group: Group)                  // `add`, after a fresh answer
    | Fire(timer: nat)                     // the window of a timer ran out: pop, and hand to flush
    | Drain(group: Group)                  // `drain` takes one group
    | Flushed(flight: nat, ok: bool)       // flush returned, or raised
    | Forget(flight: nat, ok: bool)        // the stored parts are erased, or the store raised
    | Crash
    | Restore(group: Group)
    | Rearm(group: Group)

  predicate Enabled(s: State, e: Event) {
    match e
    case Store(p) => p.group !in s.pending
    case Admit(g) => g in s.pending
    case Fire(t) => t in s.timers
    case Drain(g) => g in s.groups
    case Flushed(f, _) => f in s.flights && !s.flights[f].sent
    case Forget(f, _) => f in s.flights && s.flights[f].sent
    case Crash => true
    case Restore(g) => g !in s.groups && Stored(s, g) != []
    case Rearm(g) => g in s.groups
  }

  function Cancelled(timers: map<nat, Group>, task: Option<nat>): map<nat, Group> {
    if task.None? then timers else timers - {task.value}
  }

  /** Cancel the group's task, if it has one, and start another. */
  function Armed(s: State, g: Group): State
    requires g in s.groups
  {
    s.(timers := Cancelled(s.timers, s.groups[g].task)[s.nextId := g],
       groups := s.groups[g := s.groups[g].(task := Some(s.nextId))],
       nextId := s.nextId + 1)
  }

  function Stores(s: State, p: Part): State {
    if Known(Stored(s, p.group), p) then s
    else s.(store := s.store[p.group := Stored(s, p.group) + [p]],
            pending := s.pending[p.group := p],
            accepted := s.accepted + [p])
  }

  function Admits(s: State, g: Group): State
    requires g in s.pending
  {
    var p := s.pending[g];
    var open := if g in s.groups
                then s.groups[g].(album := Join(s.groups[g].album, p), parts := s.groups[g].parts + [p])
                else Open(Opened(p), [p], None);
    Armed(s.(pending := s.pending - {g}, groups := s.groups[g := open]), g)
  }

  /** Pop the group, if it is still there, and hand its album to `flush`. */
  function HandsOver(s: State, g: Group): State {
    if g !in s.groups then s
    else
      var flight := Flight(g, s.groups[g].album, s.groups[g].parts, false);
      s.(groups := s.groups - {g},
         flights := s.flights[s.nextId := flight],
         nextId := s.nextId + 1,
         handed := s.handed + [flight])
  }

  function Flushes(s: State, f: nat, ok: bool): State
    requires f in s.flights
  {
    if ok then s.(flights := s.flights[f := s.flights[f].(sent := true)], sent := s.sent + s.flights[f].parts)
    else s.(flights := s.flights - {f})
  }

  function Forgets(s: State, f: nat, ok: bool): State
    requires f in s.flights
  {
    var flight := s.flights[f];
    var t := s.(flights := s.flights - {f});
    if ok then t.(store := s.store - {flight.group}) else t
  }

  function Step(s: State, e: Event): State
    requires Enabled(s, e)
  {
    match e
    case Store(p) => Stores(s, p)
    case Admit(g) => Admits(s, g)
    case Fire(t) => HandsOver(s.(timers := s.timers - {t}), s.timers[t])
    case Drain(g) => HandsOver(s.(timers := Cancelled(s.timers, s.groups[g].task)), g)
    case Flushed(f, ok) => Flushes(s, f, ok)
    case Forget(f, ok) => Forgets(s, f, ok)
    case Crash => s.(groups := map[], timers := map[], pending := map[], flights := map[])
    case Restore(g) => s.(groups := s.groups[g := Open(Rebuilt(Stored(s, g)), Stored(s, g), None)])
    case Rearm(g) => Armed(s, g)
  }

  predicate Runs(s: State, es: seq<Event>)
    decreases es
  {
    es == [] || (Enabled(s, es[0]) && Runs(Step(s, es[0]), es[1..]))
  }

  function After(s: State, es: seq<Event>): State
    requires Runs(s, es)
    decreases es
  {
    if es == [] then s else After(Step(s, es[0]), es[1..])
  }

  // ---------------------------------------------------------------- exactly once, without crashes

  function Of(parts: seq<Part>, g: Group): seq<Part> {
    if parts == [] then []
    else
      var p := parts[|parts| - 1];
      Of(parts[..|parts| - 1], g) + if p.group == g then [p] else []
  }

  /** Every part of `g` ever handed to `flush`, in the order it was handed over. */
  function HandedParts(handed: seq<Flight>, g: Group): seq<Part> {
    if handed == [] then []
    else
      var f := handed[|handed| - 1];
      HandedParts(handed[..|handed| - 1], g) + if f.group == g then f.parts else []
  }

  lemma OfAppend(parts: seq<Part>, p: Part, g: Group)
    ensures Of(parts + [p], g) == Of(parts, g) + if p.group == g then [p] else []
  {
    assert (parts + [p])[..|parts|] == parts;
  }

  lemma HandedAppend(handed: seq<Flight>, f: Flight, g: Group)
    ensures HandedParts(handed + [f], g) == HandedParts(handed, g) + if f.group == g then f.parts else []
  {
    assert (handed + [f])[..|handed|] == handed;
  }

  ghost predicate AlbumIsLive(album: Album, parts: seq<Part>) {
    parts != [] && album == Live(parts)
  }

  /** Each open group has exactly one armed timer, and nothing else has one. */
  ghost predicate OneTimerEach(s: State) {
    && (forall g | g in s.groups :: s.groups[g].task.Some? && s.groups[g].task.value in s.timers)
    && (forall t | t in s.timers :: t < s.nextId && s.timers[t] in s.groups && s.groups[s.timers[t]].task == Some(t))
    && (forall g | g in s.groups :: s.timers[s.groups[g].task.value] == g)
  }

  /** The parts of `h` the store called fresh, in order: handed over, in the open album, about to be admitted. */
  ghost predicate ConservedFor(s: State, h: Group) {
    Of(s.accepted, h) == HandedParts(s.handed, h) + OpenParts(s, h) + Waiting(s, h)
  }

  /** Every accepted part is in exactly one place: handed over, in the open album, or about to be admitted. */
  ghost predicate Conserved(s: State) {
    && (forall g | g in s.pending :: s.pending[g].group == g)
    && (forall g :: ConservedFor(s, g))
  }

  ghost predicate AlbumsAreLive(s: State) {
    && (forall g | g in s.groups :: AlbumIsLive(s.groups[g].album, s.groups[g].parts))
    && (forall i | 0 <= i < |s.handed| :: AlbumIsLive(s.handed[i].album, s.handed[i].parts))
  }

  predicate Undisturbed(e: Event) { !e.Crash? && !e.Restore? && !e.Rearm? }

  ghost predicate Orderly(s: State) {
    OneTimerEach(s) && Conserved(s) && AlbumsAreLive(s)
  }

  lemma HandsOverConserves(s: State, g: Group, h: Group)
    requires ConservedFor(s, h)
    ensures ConservedFor(HandsOver(s, g), h)
  {
    hide Of, HandedParts;
    if g in s.groups {
      var t := HandsOver(s, g);
      HandedAppend(s.handed, Flight(g, s.groups[g].album, s.groups[g].parts, false), h);
      var gone := if g == h then OpenParts(s, h) else [];
      assert OpenParts(s, h) == gone + OpenParts(t, h);
      Associative(HandedParts(s.handed, h), gone, OpenParts(t, h));
    }
  }

  lemma StoresConserves(s: State, p: Part, h: Group)
    requires ConservedFor(s, h) && p.group !in s.pending
    ensures ConservedFor(Stores(s, p), h)
  {
    OfAppend(s.accepted, p, h);
  }

  lemma AdmitsConserves(s: State, g: Group, h: Group)
    requires ConservedFor(s, h) && g in s.pending
    ensures ConservedFor(Admits(s, g), h)
  {
  }

  lemma StepConserves(s: State, e: Event)
    requires Enabled(s, e) && Undisturbed(e) && Conserved(s)
    ensures Conserved(Step(s, e))
  {
    forall h
      ensures ConservedFor(Step(s, e), h)
    {
      assert ConservedFor(s, h);
      match e
      case Store(p) => StoresConserves(s, p, h);
      case Admit(g) => AdmitsConserves(s, g, h);
      case Fire(t) => HandsOverConserves(s.(timers := s.timers - {t}), s.timers[t], h);
      case Drain(g) => HandsOverConserves(s.(timers := Cancelled(s.timers, s.groups[g].task)), g, h);
      case _ =>
    }
  }

  lemma AdmitKeepsTimers(s: State, g: Group)
    requires g in s.pending && OneTimerEach(s)
    ensures OneTimerEach(Admits(s, g))
  {
    hide Join, Opened;
  }

  lemma StepKeepsTimers(s: State, e: Event)
    requires Enabled(s, e) && Undisturbed(e) && OneTimerEach(s)
    ensures OneTimerEach(Step(s, e))
  {
    hide Known, Admits, Join, Opened;
    match e
    case Admit(g) => AdmitKeepsTimers(s, g);
    case _ =>
  }

  lemma AdmitKeepsAlbums(s: State, g: Group)
    requires g in s.pending && AlbumsAreLive(s)
    ensures AlbumsAreLive(Admits(s, g))
  {
    hide Join, Opened;
    var p := s.pending[g];
    if g in s.groups {
      var parts := s.groups[g].parts;
      assert (parts + [p])[..|parts|] == parts;
      assert Live(parts + [p]) == Join(Live(parts), p);
    }
  }

  lemma HandsOverKeepsAlbums(s: State, g: Group)
    requires AlbumsAreLive(s)
    ensures AlbumsAreLive(HandsOver(s, g))
  {
    hide Live;
  }

  lemma StepKeepsAlbums(s: State, e: Event)
    requires Enabled(s, e) && Undisturbed(e) && AlbumsAreLive(s)
    ensures AlbumsAreLive(Step(s, e))
  {
    hide Live, Known, AlbumIsLive;
    match e
    case Admit(g) => AdmitKeepsAlbums(s, g);
    case Fire(t) => HandsOverKeepsAlbums(s.(timers := s.timers - {t}), s.timers[t]);
    case Drain(g) => HandsOverKeepsAlbums(s.(timers := Cancelled(s.timers, s.groups[g].task)), g);
    case _ =>
  }

  lemma StepKeepsOrder(s: State, e: Event)
    requires Enabled(s, e) && Undisturbed(e) && Orderly(s)
    ensures Orderly(Step(s, e))
  {
    StepConserves(s, e);
    StepKeepsTimers(s, e);
    StepKeepsAlbums(s, e);
  }

  /** The main result without crashes: after any interleaving, accepted parts are conserved in order. */
  lemma {:induction false} ExactlyOnce(s: State, es: seq<Event>)
    requires Orderly(s) && Runs(s, es) && forall i | 0 <= i < |es| :: Undisturbed(es[i])
    ensures Orderly(After(s, es))
    decreases es
  {
    if es == [] {
    } else {
      StepKeepsOrder(s, es[0]);
      ExactlyOnce(Step(s, es[0]), es[1..]);
    }
  }

  /** Once nothing is open and nothing is being added, each accepted part has been handed over exactly once. */
  lemma AllHandedOver(s: State)
    requires Orderly(s) && s.groups == map[] && s.pending == map[]
    ensures s.timers == map[]
    ensures forall g :: Of(s.accepted, g) == HandedParts(s.handed, g)
  {
    forall g
      ensures Of(s.accepted, g) == HandedParts(s.handed, g)
    {
      assert ConservedFor(s, g);
    }
    assert forall t :: t !in s.timers;
  }

  /** Everything `flush` was handed for `g`, as the albums show it. */
  function HandedItems(handed: seq<Flight>, g: Group): seq<Upload> {
    if handed == [] then []
    else
      var f := handed[|handed| - 1];
      HandedItems(handed[..|handed| - 1], g) + if f.group == g then f.album.items else []
  }

  lemma {:induction false} HandedItemsAre(handed: seq<Flight>, g: Group)
    requires forall i | 0 <= i < |handed| :: Carries(handed[i].album, handed[i].parts)
    ensures HandedItems(handed, g) == Items(HandedParts(handed, g))
    decreases |handed|
  {
    if handed != [] {
      var n := |handed| - 1;
      HandedItemsAre(handed[..n], g);
      assert Carries(handed[n].album, handed[n].parts);
      assert Items(HandedParts(handed[..n], g) + handed[n].parts) ==
             Items(HandedParts(handed[..n], g)) + Items(handed[n].parts);
    }
  }

  /** In the albums themselves: each open and each handed one carries its parts, and once nothing is open, `flush` was
      given the item of each accepted part of a group exactly once, in order. */
  lemma EveryItemIsSent(s: State)
    requires Orderly(s)
    ensures forall g | g in s.groups :: Carries(s.groups[g].album, s.groups[g].parts)
    ensures forall i | 0 <= i < |s.handed| :: Carries(s.handed[i].album, s.handed[i].parts)
    ensures s.groups == map[] && s.pending == map[] ==> forall g :: HandedItems(s.handed, g) == Items(Of(s.accepted, g))
  {
    forall g | g in s.groups ensures Carries(s.groups[g].album, s.groups[g].parts) { LiveCarries(s.groups[g].parts); }
    forall i | 0 <= i < |s.handed| ensures Carries(s.handed[i].album, s.handed[i].parts) {
      LiveCarries(s.handed[i].parts);
    }
    if s.groups == map[] && s.pending == map[] {
      AllHandedOver(s);
      forall g ensures HandedItems(s.handed, g) == Items(Of(s.accepted, g)) { HandedItemsAre(s.handed, g); }
    }
  }

  /** What `Of` picks: every part of the group, in order, and nothing else. */
  lemma {:induction false} OfIs(a: seq<Part>, b: seq<Part>, g: Group)
    ensures Of(a + b, g) == Of(a, g) + Of(b, g)
    ensures |b| == 1 ==> Of(b, g) == if b[0].group == g then b else []
    decreases |b|
  {
    if b == [] {
      assert a + b == a;
    } else {
      var n := |b| - 1;
      assert (a + b)[..|a| + n] == a + b[..n];
      OfIs(a, b[..n], g);
      Associative(Of(a, g), Of(b[..n], g), if b[n].group == g then [b[n]] else []);
    }
  }

  /** Each admitted part starts the window of its group anew: the timer that ran is gone and a new one runs. */
  lemma AdmitRearms(s: State, g: Group)
    requires Enabled(s, Admit(g)) && OneTimerEach(s)
    ensures var t := Step(s, Admit(g));
            && t.groups[g].task == Some(s.nextId) && s.nextId in t.timers && s.nextId !in s.timers
            && (g in s.groups ==> s.groups[g].task.value !in t.timers)
            && OpenParts(t, g) == OpenParts(s, g) + [s.pending[g]] && g !in t.pending
  {
    hide Join, Opened;
  }

  // ---------------------------------------------------------------- a part is stored once

  /** A part is new exactly when no stored part of its group has its message id; then it is stored last, waits to be
      admitted, and counts as accepted.  One that is not new changes nothing. */
  lemma StoreRecords(s: State, p: Part)
    requires Enabled(s, Store(p))
    ensures var t := Step(s, Store(p));
            if exists i | 0 <= i < |Stored(s, p.group)| :: Stored(s, p.group)[i].messageId == p.messageId then t == s
            else t == s.(store := s.store[p.group := Stored(s, p.group) + [p]],
                         pending := s.pending[p.group := p],
                         accepted := s.accepted + [p])
  {
  }

  ghost predicate StoredOnce(s: State) {
    forall g, i, k | 0 <= i < k < |Stored(s, g)| :: Stored(s, g)[i].messageId != Stored(s, g)[k].messageId
  }

  /** No step, crash or restart lets the store hold one message twice. */
  lemma StepStoresOnce(s: State, e: Event)
    requires Enabled(s, e) && StoredOnce(s)
    ensures StoredOnce(Step(s, e))
  {
    var t := Step(s, e);
    forall g, i, k | 0 <= i < k < |Stored(t, g)|
      ensures Stored(t, g)[i].messageId != Stored(t, g)[k].messageId
    {
      StoredOnceHere(s, e, g, i, k);
    }
  }

  lemma StoredOnceHere(s: State, e: Event, g: Group, i: nat, k: nat)
    requires Enabled(s, e) && StoredOnce(s) && i < k < |Stored(Step(s, e), g)|
    ensures Stored(Step(s, e), g)[i].messageId != Stored(Step(s, e), g)[k].messageId
  {
    if e.Store? {
      NewIsLast(s, e.part, g, i, k);
    } else {
      StoreAfter(s, e);
      hide Step;
      assert Stored(Step(s, e), g) == Stored(s, g);
      assert Stored(s, g)[i].messageId != Stored(s, g)[k].messageId;
    }
  }

  lemma NewIsLast(s: State, p: Part, g: Group, i: nat, k: nat)
    requires Enabled(s, Store(p)) && StoredOnce(s) && i < k < |Stored(Step(s, Store(p)), g)|
    ensures Stored(Step(s, Store(p)), g)[i].messageId != Stored(Step(s, Store(p)), g)[k].messageId
  {
    StoreRecords(s, p);
    var was, now := Stored(s, g), Stored(Step(s, Store(p)), g);
    hide Step, Known;
    assert now == was || (g == p.group && now == was + [p]);
    if k < |was| {
      assert Stored(s, g)[i].messageId != Stored(s, g)[k].messageId;
    } else {
      assert now[i] == Stored(s, p.group)[i];
    }
  }

  /** Only `add` and the clear that follows a flush touch the store. */
  lemma StoreAfter(s: State, e: Event)
    requires Enabled(s, e)
    ensures !e.Store? && !(e.Forget? && e.ok) ==> Step(s, e).store == s.store
    ensures e.Forget? && e.ok ==> Step(s, e).store == s.store - {s.flights[e.flight].group}
  {
    hide Admits, HandsOver, Armed, Rebuilt;
    match e
    case Admit(g) => StoreUntouched(s, g);
    case Fire(t) => PopKeepsStore(s.(timers := s.timers - {t}), s.timers[t]);
    case Drain(g) => PopKeepsStore(s.(timers := Cancelled(s.timers, s.groups[g].task)), g);
    case Rearm(g) => ArmedKeepsStore(s, g);
    case _ =>
  }

  lemma StoreUntouched(s: State, g: Group)
    requires g in s.pending
    ensures Admits(s, g).store == s.store
  {
  }

  lemma PopKeepsStore(s: State, g: Group)
    ensures HandsOver(s, g).store == s.store
  {
  }

  lemma ArmedKeepsStore(s: State, g: Group)
    requires g in s.groups
    ensures Armed(s, g).store == s.store
  {
  }

  // ---------------------------------------------------------------- crashes and the store

  /** Every accepted part is on disk, or `flush` returned for an album that carried it. */
  ghost predicate NothingLost(s: State) {
    forall p | p in s.accepted :: p in Stored(s, p.group) || p in s.sent
  }

  /** Nothing is stored for `g` but these parts and parts that were sent. */
  predicate Covers(s: State, g: Group, parts: seq<Part>) {
    forall p | p in Stored(s, g) :: p in parts || p in s.sent
  }

  /** An album of `g` was handed to `flush` and its stored parts may still be erased. */
  predicate InFlight(s: State, g: Group) {
    exists f | f in s.flights :: s.flights[f].group == g
  }

  /** No `add` of the group is between its two halves, or whatever is stored was sent or is both in the album that
      is popped and the part of that `add`. */
  predicate CanPop(s: State, g: Group) {
    g in s.pending ==> Covers(s, g, OpenParts(s, g)) && Covers(s, g, [s.pending[g]])
  }

  /** The moments at which an event puts nothing on disk at risk.  A part may be stored if it is recorded already; or
      if all that is stored beyond the open album was sent, and no album of the group is on its way or the part was
      sent before. */
  predicate Quiet(s: State, e: Event)
    requires Enabled(s, e)
  {
    match e
    case Store(p) =>
      || Known(Stored(s, p.group), p)
      || (Covers(s, p.group, OpenParts(s, p.group)) && (p in s.sent || !InFlight(s, p.group)))
    case Fire(t) => s.timers[t] !in s.groups || CanPop(s, s.timers[t])
    case Drain(g) => CanPop(s, g)
    case _ => true
  }

  predicate QuietRuns(s: State, es: seq<Event>)
    ensures QuietRuns(s, es) ==> Runs(s, es)
    decreases es
  {
    es == [] || (Enabled(s, es[0]) && Quiet(s, es[0]) && QuietRuns(Step(s, es[0]), es[1..]))
  }

  /** The parts of `g` on disk and in memory were accepted, and the next clear after a flush of the open album would
      erase nothing that was not sent. */
  ghost predicate Backed(s: State, g: Group) {
    && (forall p | p in Stored(s, g) :: p.group == g && p in s.accepted)
    && (forall p | p in OpenParts(s, g) + Waiting(s, g) :: p in s.accepted)
    && (g in s.groups || g in s.pending ==> Covers(s, g, OpenParts(s, g) + Waiting(s, g)))
  }

  /** The clear that follows this flight would erase nothing that was not sent. */
  ghost predicate FlightBacked(s: State, f: nat)
    requires f in s.flights
  {
    && (forall p | p in s.flights[f].parts :: p in s.accepted)
    && Covers(s, s.flights[f].group, if s.flights[f].sent then [] else s.flights[f].parts)
  }

  ghost predicate Durable(s: State) {
    && NothingLost(s)
    && (forall g :: Backed(s, g))
    && (forall f | f in s.flights :: FlightBacked(s, f))
  }

  lemma StoresIsBacked(s: State, p: Part, h: Group)
    requires Backed(s, h) && Enabled(s, Store(p)) && Quiet(s, Store(p))
    ensures Backed(Stores(s, p), h)
  {
    hide Known, InFlight;
  }

  lemma StoresIsDurable(s: State, p: Part)
    requires Durable(s) && Enabled(s, Store(p)) && Quiet(s, Store(p))
    ensures Durable(Stores(s, p))
  {
    hide Known, Backed;
    var t := Stores(s, p);
    forall h
      ensures Backed(t, h)
    {
      StoresIsBacked(s, p, h);
    }
    forall f | f in t.flights
      ensures FlightBacked(t, f)
    {
      assert FlightBacked(s, f);
    }
  }

  lemma AdmitsIsDurable(s: State, g: Group)
    requires Durable(s) && g in s.pending
    ensures Durable(Admits(s, g))
  {
    hide Known, Join, Opened;
    var t := Admits(s, g);
    forall h
      ensures Backed(t, h)
    {
      assert Backed(s, h);
    }
    forall f | f in t.flights
      ensures FlightBacked(t, f)
    {
      assert FlightBacked(s, f);
    }
  }

  /** `timers` plays no part in durability. */
  lemma HandsOverIsDurable(s: State, timers: map<nat, Group>, g: Group)
    requires Durable(s) && (g !in s.groups || CanPop(s, g))
    ensures Durable(HandsOver(s.(timers := timers), g))
  {
    var t := HandsOver(s.(timers := timers), g);
    assert Backed(s, g);
    forall h
      ensures Backed(t, h)
    {
      assert Backed(s, h);
    }
    forall f | f in t.flights
      ensures FlightBacked(t, f)
    {
      if f in s.flights { assert FlightBacked(s, f); }
    }
  }

  lemma ForgetsIsDurable(s: State, f: nat, ok: bool)
    requires Durable(s) && Enabled(s, Forget(f, ok))
    ensures Durable(Forgets(s, f, ok))
  {
    var t := Forgets(s, f, ok);
    assert FlightBacked(s, f);
    forall h
      ensures Backed(t, h)
    {
      assert Backed(s, h);
    }
    forall k | k in t.flights
      ensures FlightBacked(t, k)
    {
      assert FlightBacked(s, k);
    }
  }

  lemma FlushesIsDurable(s: State, f: nat, ok: bool)
    requires Durable(s) && f in s.flights
    ensures Durable(Flushes(s, f, ok))
  {
    var t := Flushes(s, f, ok);
    assert FlightBacked(s, f);
    forall h
      ensures Backed(t, h)
    {
      assert Backed(s, h);
    }
    forall k | k in t.flights
      ensures FlightBacked(t, k)
    {
      assert FlightBacked(s, k);
    }
  }

  lemma RestartIsDurable(s: State, e: Event)
    requires Durable(s) && Enabled(s, e) && (e.Crash? || e.Restore? || e.Rearm?)
    ensures Durable(Step(s, e))
  {
    hide Rebuilt;
    var t := Step(s, e);
    forall h
      ensures Backed(t, h)
    {
      assert Backed(s, h);
    }
    forall k | k in t.flights
      ensures FlightBacked(t, k)
    {
      assert FlightBacked(s, k);
    }
  }

  lemma StepIsDurable(s: State, e: Event)
    requires Durable(s) && Enabled(s, e) && Quiet(s, e)
    ensures Durable(Step(s, e))
  {
    hide Durable, Covers, CanPop, Known, InFlight;
    match e
    case Store(p) => StoresIsDurable(s, p);
    case Admit(g) => AdmitsIsDurable(s, g);
    case Fire(t) => HandsOverIsDurable(s, s.timers - {t}, s.timers[t]);
    case Drain(g) => HandsOverIsDurable(s, Cancelled(s.timers, s.groups[g].task), g);
    case Flushed(f, ok) => FlushesIsDurable(s, f, ok);
    case Forget(f, ok) => ForgetsIsDurable(s, f, ok);
    case _ => RestartIsDurable(s, e);
  }

  /** The main result with crashes: a quiet run never loses an accepted part, wherever it is cut. */
  lemma {:induction false} QuietRunsLoseNothing(s: State, es: seq<Event>)
    requires Durable(s) && QuietRuns(s, es)
    ensures Durable(After(s, es))
    decreases es
  {
    hide Durable, Quiet, Step, Enabled;
    if es == [] {
    } else {
      StepIsDurable(s, es[0]);
      QuietRunsLoseNothing(Step(s, es[0]), es[1..]);
    }
  }

  /** What is left on disk is sent after a restart: restored, its timer armed and run out, flushed and cleared. */
  lemma RestoredIsSent(s: State, g: Group)
    requires Durable(s) && Enabled(s, Restore(g)) && g !in s.pending
    ensures var es := [Restore(g)] + ([Rearm(g)] + ([Fire(s.nextId)] +
                      ([Flushed(s.nextId + 1, true)] + ([Forget(s.nextId + 1, true)] + []))));
            && QuietRuns(s, es)
            && var t := After(s, es);
               && t.sent == s.sent + Stored(s, g) && Stored(t, g) == []
               && t.handed == s.handed + [Flight(g, Rebuilt(Stored(s, g)), Stored(s, g), false)]
  {
    hide Rebuilt;
    var a := Step(s, Restore(g));
    var b := Step(a, Rearm(g));
    var c := Step(b, Fire(s.nextId));
    var d := Step(c, Flushed(s.nextId + 1, true));
    Onward(d, Forget(s.nextId + 1, true), []);
    Onward(c, Flushed(s.nextId + 1, true), [Forget(s.nextId + 1, true)] + []);
    hide QuietRuns, After;
    Onward(b, Fire(s.nextId), [Flushed(s.nextId + 1, true)] + ([Forget(s.nextId + 1, true)] + []));
    Onward(a, Rearm(g), [Fire(s.nextId)] + ([Flushed(s.nextId + 1, true)] + ([Forget(s.nextId + 1, true)] + [])));
    Onward(s, Restore(g), [Rearm(g)] + ([Fire(s.nextId)] +
                          ([Flushed(s.nextId + 1, true)] + ([Forget(s.nextId + 1, true)] + []))));
  }

  // ---------------------------------------------------------------- no event beyond the quiet ones is harmless

  /** `p` was accepted, and is neither on disk nor in an album that `flush` returned for. */
  ghost predicate Lost(s: State, p: Part) {
    p in s.accepted && p !in Stored(s, p.group) && p !in s.sent
  }

  /** `es` goes on from `s` without another risk, and loses `p` in the end. */
  ghost predicate Loses(s: State, es: seq<Event>, p: Part) {
    QuietRuns(s, es) && Lost(After(s, es), p)
  }

  lemma Onward(s: State, e: Event, es: seq<Event>)
    requires Enabled(s, e) && Quiet(s, e)
    ensures QuietRuns(s, [e] + es) <==> QuietRuns(Step(s, e), es)
    ensures QuietRuns(s, [e] + es) ==> After(s, [e] + es) == After(Step(s, e), es)
  {
    hide Step, Enabled, Quiet;
    assert ([e] + es)[1..] == es;
  }

  /** A flight of the group is sent and cleared: everything stored goes, though only its own parts were sent. */
  lemma FlightErases(s: State, f: nat, q: Part) returns (es: seq<Event>)
    requires f in s.flights && q.group == s.flights[f].group && q in s.accepted && q !in s.sent
    requires s.flights[f].sent || q !in s.flights[f].parts
    ensures Loses(s, es, q)
  {
    if s.flights[f].sent {
      Onward(s, Forget(f, true), []);
      es := [Forget(f, true)] + [];
    } else {
      var t := Step(s, Flushed(f, true));
      Onward(t, Forget(f, true), []);
      Onward(s, Flushed(f, true), [Forget(f, true)] + []);
      es := [Flushed(f, true)] + ([Forget(f, true)] + []);
    }
  }

  /** The part of an `add` between its halves opens or joins an album; that one is popped, sent and cleared. */
  lemma AdmittedErases(s: State, g: Group, q: Part) returns (es: seq<Event>)
    requires g in s.pending && q.group == g && q in s.accepted && q !in s.sent
    requires q != s.pending[g] && q !in OpenParts(s, g)
    ensures Loses(s, es, q)
  {
    hide Join, Opened;
    var t := Step(s, Admit(g));
    var u := Step(t, Drain(g));
    es := FlightErases(u, t.nextId, q);
    Onward(t, Drain(g), es);
    Onward(s, Admit(g), [Drain(g)] + es);
    es := [Admit(g)] + ([Drain(g)] + es);
  }

  /** A part that arrives while its group is being flushed or cleared is erased with the parts that were there. */
  lemma LatePartIsErased(s: State, f: nat, p: Part) returns (es: seq<Event>)
    requires Durable(s) && Enabled(s, Store(p)) && f in s.flights && s.flights[f].group == p.group
    requires p !in s.sent && !Known(Stored(s, p.group), p)
    ensures Loses(Step(s, Store(p)), es, p)
  {
    assert FlightBacked(s, f);
    assert p !in Stored(s, p.group);
    es := FlightErases(Step(s, Store(p)), f, p);
  }

  /** What a failed flush or a crash left on disk is erased once the group is flushed again without it. */
  lemma LeftoverIsErased(s: State, p: Part) returns (es: seq<Event>, q: Part)
    requires Durable(s) && Enabled(s, Store(p)) && !Known(Stored(s, p.group), p)
    requires !Covers(s, p.group, OpenParts(s, p.group))
    ensures q in Stored(s, p.group) && Loses(Step(s, Store(p)), es, q)
  {
    assert Backed(s, p.group);
    q :| q in Stored(s, p.group) && q !in OpenParts(s, p.group) && q !in s.sent;
    es := AdmittedErases(Step(s, Store(p)), p.group, q);
  }

  /** A part whose `add` has stored it but not yet admitted it is erased when its group is popped in between; so is
      what was popped, by the album that part opens. */
  lemma PartBetweenHalvesIsErased(s: State, timers: map<nat, Group>, g: Group) returns (es: seq<Event>, q: Part)
    requires Durable(s) && g in s.groups && !CanPop(s, g)
    ensures Loses(HandsOver(s.(timers := timers), g), es, q)
  {
    assert Backed(s, g);
    var t := HandsOver(s.(timers := timers), g);
    if !Covers(s, g, OpenParts(s, g)) {
      q :| q in Stored(s, g) && q !in OpenParts(s, g) && q !in s.sent;
      es := FlightErases(t, s.nextId, q);
    } else {
      q :| q in Stored(s, g) && q !in [s.pending[g]] && q !in s.sent;
      es := AdmittedErases(t, g, q);
    }
  }

  /** Every other event puts a part at risk: without a further such event it can be lost. */
  lemma RiskIsReal(s: State, e: Event) returns (es: seq<Event>, q: Part)
    requires Durable(s) && Enabled(s, e) && !Quiet(s, e)
    ensures Loses(Step(s, e), es, q)
  {
    hide Durable, Loses;
    match e
    case Store(p) =>
      if !Covers(s, p.group, OpenParts(s, p.group)) {
        es, q := LeftoverIsErased(s, p);
      } else {
        var f :| f in s.flights && s.flights[f].group == p.group;
        es := LatePartIsErased(s, f, p);
        q := p;
      }
    case Fire(t) => es, q := PartBetweenHalvesIsErased(s, s.timers - {t}, s.timers[t]);
    case Drain(g) => es, q := PartBetweenHalvesIsErased(s, Cancelled(s.timers, s.groups[g].task), g);
    case _ => assert false;
  }

  /** No way on from `s` by quiet events loses a part. */
  ghost predicate Harmless(s: State) {
    forall es | QuietRuns(s, es) :: NothingLost(After(s, es))
  }

  /** Exactly the quiet events are harmless. */
  lemma QuietIsExact(s: State, e: Event)
    requires Durable(s) && Enabled(s, e)
    ensures Quiet(s, e) <==> Harmless(Step(s, e))
  {
    hide Durable, Quiet, Step, Enabled, QuietRuns, After;
    if Quiet(s, e) {
      StepIsDurable(s, e);
      forall es | QuietRuns(Step(s, e), es)
        ensures NothingLost(After(Step(s, e), es))
      {
        QuietRunsLoseNothing(Step(s, e), es);
        DurableLosesNothing(After(Step(s, e), es));
      }
    } else {
      var es, q := RiskIsReal(s, e);
      assert !NothingLost(After(Step(s, e), es));
    }
  }

  lemma DurableLosesNothing(s: State)
    requires Durable(s)
    ensures NothingLost(s)
  {
  }

  /** Every step of the run leaves a state from which quiet events lose nothing. */
  ghost predicate HarmlessRuns(s: State, es: seq<Event>)
    requires Runs(s, es)
    decreases es
  {
    es == [] || (Harmless(Step(s, es[0])) && HarmlessRuns(Step(s, es[0]), es[1..]))
  }

  /** Exactly the quiet runs are harmless at every step. */
  lemma {:induction false} QuietRunsExactlyWhen(s: State, es: seq<Event>)
    requires Durable(s) && Runs(s, es)
    ensures QuietRuns(s, es) <==> HarmlessRuns(s, es)
    decreases es
  {
    hide Durable, Harmless, Quiet, Step, Enabled;
    if es == [] {
    } else {
      QuietIsExact(s, es[0]);
      if Quiet(s, es[0]) {
        StepIsDurable(s, es[0]);
        QuietRunsExactlyWhen(Step(s, es[0]), es[1..]);
      }
    }
  }

  // ---------------------------------------------------------------- the risks are within reach

  /** A quiet run from the start, then an event after which `q` can be lost without another risk. */
  ghost predicate Risks(es: seq<Event>, e: Event, q: Part) {
    && QuietRuns(EMPTY, es)
    && Enabled(After(EMPTY, es), e)
    && exists more :: Loses(Step(After(EMPTY, es), e), more, q)
  }

  lemma {:induction false} Then(s: State, es: seq<Event>, e: Event)
    requires QuietRuns(s, es) && Enabled(After(s, es), e) && Quiet(After(s, es), e)
    ensures QuietRuns(s, es + [e]) && After(s, es + [e]) == Step(After(s, es), e)
    decreases es
  {
    hide Step, Enabled, Quiet;
    if es == [] {
      assert [] + [e] == [e];
    } else {
      Then(Step(s, es[0]), es[1..], e);
      assert (es + [e])[1..] == es[1..] + [e];
    }
  }

  lemma EmptyIsDurable()
    ensures Durable(EMPTY)
  {
  }

  /** Two parts of one album. */
  predicate Siblings(p: Part, q: Part) { p.group == q.group && p.messageId != q.messageId }

  function Opens(p: Part): seq<Event> { [Store(p)] + [Admit(p.group)] }

  /** The album of `p` alone is handed to `flush` as flight 1. */
  function TakesOff(p: Part): seq<Event> { Opens(p) + [Fire(0)] }

  /** Flight 1 has `p` alone, and memory and the store hold nothing else of its group. */
  predicate OnlyFlying(s: State, p: Part) {
    && s.groups == map[] && s.pending == map[] && Stored(s, p.group) == [p]
    && 1 in s.flights && s.flights[1].group == p.group && s.flights[1].parts == [p]
    && forall q | q in s.sent :: q == p
  }

  lemma OpensRun(p: Part)
    ensures QuietRuns(EMPTY, Opens(p))
    ensures After(EMPTY, Opens(p)) == Step(Step(EMPTY, Store(p)), Admit(p.group))
  {
    Onward(Step(EMPTY, Store(p)), Admit(p.group), []);
    Onward(EMPTY, Store(p), [Admit(p.group)] + []);
  }

  lemma TakesOffRun(p: Part)
    ensures QuietRuns(EMPTY, TakesOff(p))
    ensures OnlyFlying(After(EMPTY, TakesOff(p)), p)
    ensures var s := After(EMPTY, TakesOff(p));
            s.flights == map[1 := Flight(p.group, Opened(p), [p], false)] && s.sent == []
  {
    OpensRun(p);
    Then(EMPTY, Opens(p), Fire(0));
  }

  /** A part stored while its album is being sent, or being cleared, is lost. */
  lemma LatePartRun(p: Part, q: Part)
    requires Siblings(p, q)
    ensures Risks(TakesOff(p), Store(q), q)
    ensures Risks(TakesOff(p) + [Flushed(1, true)], Store(q), q)
  {
    hide *;
    TakesOffRun(p);
    LateIsErased(TakesOff(p), p, q);
    SentButNotCleared(p);
    LateIsErased(TakesOff(p) + [Flushed(1, true)], p, q);
  }

  lemma SentButNotCleared(p: Part)
    ensures QuietRuns(EMPTY, TakesOff(p) + [Flushed(1, true)])
    ensures OnlyFlying(After(EMPTY, TakesOff(p) + [Flushed(1, true)]), p)
  {
    hide TakesOff;
    TakesOffRun(p);
    Then(EMPTY, TakesOff(p), Flushed(1, true));
  }

  lemma LateIsErased(es: seq<Event>, p: Part, q: Part)
    requires Siblings(p, q) && QuietRuns(EMPTY, es) && OnlyFlying(After(EMPTY, es), p)
    ensures Risks(es, Store(q), q)
  {
    hide Durable, Loses, QuietRuns, Step, After;
    EmptyIsDurable();
    QuietRunsLoseNothing(EMPTY, es);
    var more := LatePartIsErased(After(EMPTY, es), 1, q);
  }

  lemma FailedFlushRun(p: Part)
    ensures QuietRuns(EMPTY, TakesOff(p) + [Flushed(1, false)])
    ensures LeftBehind(After(EMPTY, TakesOff(p) + [Flushed(1, false)]), p)
  {
    TakesOffRun(p);
    var s := After(EMPTY, TakesOff(p));
    Then(EMPTY, TakesOff(p), Flushed(1, false));
  }

  lemma CrashRun(p: Part)
    ensures QuietRuns(EMPTY, Opens(p) + [Crash])
    ensures LeftBehind(After(EMPTY, Opens(p) + [Crash]), p)
  {
    OpensRun(p);
    Then(EMPTY, Opens(p), Crash);
  }

  /** `p` is on disk, was never sent, and nothing of its group is in memory. */
  predicate LeftBehind(s: State, p: Part) {
    && Stored(s, p.group) == [p] && p !in s.sent
    && p.group !in s.groups && p.group !in s.pending
  }

  lemma LeftBehindIsErased(es: seq<Event>, p: Part, q: Part)
    requires Siblings(p, q) && QuietRuns(EMPTY, es) && LeftBehind(After(EMPTY, es), p)
    ensures Risks(es, Store(q), p)
  {
    hide Durable, Loses, QuietRuns, Step, After;
    var s := After(EMPTY, es);
    EmptyIsDurable();
    QuietRunsLoseNothing(EMPTY, es);
    var more, lost := LeftoverIsErased(s, q);
    assert lost in [p];
  }

  /** A part left on disk by a flush that failed, or by a crash, is lost once another one of its album arrives. */
  lemma LeftoverRun(p: Part, q: Part)
    requires Siblings(p, q)
    ensures Risks(TakesOff(p) + [Flushed(1, false)], Store(q), p)
    ensures Risks(Opens(p) + [Crash], Store(q), p)
  {
    hide *;
    FailedFlushRun(p);
    LeftBehindIsErased(TakesOff(p) + [Flushed(1, false)], p, q);
    CrashRun(p);
    LeftBehindIsErased(Opens(p) + [Crash], p, q);
  }

  /** The album holds `p` alone, and the `add` of `q` is between its halves. */
  predicate Halfway(s: State, p: Part, q: Part) {
    && p.group in s.groups && OpenParts(s, p.group) == [p]
    && p.group in s.pending && s.pending[p.group] == q
    && Stored(s, p.group) == [p, q] && q !in s.sent && p != q
    && 0 in s.timers && s.timers[0] == p.group
  }

  lemma HalfwayRun(p: Part, q: Part)
    requires Siblings(p, q)
    ensures QuietRuns(EMPTY, Opens(p) + [Store(q)])
    ensures Halfway(After(EMPTY, Opens(p) + [Store(q)]), p, q)
  {
    OpensRun(p);
    var s := After(EMPTY, Opens(p));
    assert [p] + [q] == [p, q];
    Then(EMPTY, Opens(p), Store(q));
  }

  /** A part stored and not yet admitted is lost when the window closes, or the collector is drained, in between. */
  lemma BetweenHalvesRun(p: Part, q: Part)
    requires Siblings(p, q)
    ensures Risks(Opens(p) + [Store(q)], Fire(0), q)
    ensures Risks(Opens(p) + [Store(q)], Drain(p.group), q)
  {
    hide Durable, Loses, QuietRuns, After, HandsOver, Opens;
    HalfwayRun(p, q);
    EmptyIsDurable();
    QuietRunsLoseNothing(EMPTY, Opens(p) + [Store(q)]);
    var s := After(EMPTY, Opens(p) + [Store(q)]);
    var fired := PoppedTooSoon(s, s.timers - {0}, p, q);
    assert Loses(Step(s, Fire(0)), fired, q);
    var drained := PoppedTooSoon(s, Cancelled(s.timers, s.groups[p.group].task), p, q);
    assert Loses(Step(s, Drain(p.group)), drained, q);
  }

  lemma PoppedTooSoon(s: State, timers: map<nat, Group>, p: Part, q: Part) returns (more: seq<Event>)
    requires Durable(s) && Halfway(s, p, q)
    ensures Loses(HandsOver(s.(timers := timers), p.group), more, q)
  {
    hide Loses;
    assert Backed(s, p.group);
    assert Stored(s, p.group)[1] == q;
    more := FlightErases(HandsOver(s.(timers := timers), p.group), s.nextId, q);
  }

  /** The album of `q` was sent and cleared, and then `p` opened another album of that group. */
  function SentThenOpens(p: Part, q: Part): seq<Event> {
    TakesOff(q) + [Flushed(1, true)] + [Forget(1, true)] + [Store(p)] + [Admit(p.group)]
  }

  lemma SentRun(q: Part)
    ensures QuietRuns(EMPTY, TakesOff(q) + [Flushed(1, true)] + [Forget(1, true)])
    ensures var s := After(EMPTY, TakesOff(q) + [Flushed(1, true)] + [Forget(1, true)]);
            && s.groups == map[] && s.pending == map[] && s.flights == map[] && s.sent == [q]
            && Stored(s, q.group) == []
  {
    TakesOffRun(q);
    Then(EMPTY, TakesOff(q), Flushed(1, true));
    Then(EMPTY, TakesOff(q) + [Flushed(1, true)], Forget(1, true));
  }

  lemma SentThenOpensRun(p: Part, q: Part)
    requires Siblings(p, q)
    ensures QuietRuns(EMPTY, SentThenOpens(p, q))
    ensures var s := After(EMPTY, SentThenOpens(p, q));
            && p.group in s.groups && OpenParts(s, p.group) == [p] && Stored(s, p.group) == [p]
            && s.pending == map[] && s.sent == [q]
  {
    hide Opened, TakesOff;
    SentRun(q);
    var es := TakesOff(q) + [Flushed(1, true)] + [Forget(1, true)];
    Then(EMPTY, es, Store(p));
    Then(EMPTY, es + [Store(p)], Admit(p.group));
  }

  /** A part that was sent before comes again; when its group is popped between the halves of that `add`, what was
      popped can be erased while it is still being sent. */
  lemma ReplayRun(p: Part, q: Part)
    requires Siblings(p, q)
    ensures Risks(SentThenOpens(p, q) + [Store(q)], Drain(p.group), p)
  {
    hide Durable, Loses, QuietRuns, After, SentThenOpens;
    SentThenOpensRun(p, q);
    Then(EMPTY, SentThenOpens(p, q), Store(q));
    EmptyIsDurable();
    QuietRunsLoseNothing(EMPTY, SentThenOpens(p, q) + [Store(q)]);
    var more := PoppedBeforeReplay(After(EMPTY, SentThenOpens(p, q) + [Store(q)]), p, q);
  }

  lemma PoppedBeforeReplay(s: State, p: Part, q: Part) returns (more: seq<Event>)
    requires Durable(s) && p != q && p.group in s.groups && p.group in s.pending
    requires s.pending[p.group] == q && Stored(s, p.group) == [p, q] && p !in s.sent
    ensures Loses(Step(s, Drain(p.group)), more, p)
  {
    hide Loses;
    assert Backed(s, p.group);
    assert Stored(s, p.group)[0] == p;
    more := AdmittedErases(Step(s, Drain(p.group)), p.group, p);
  }

  // ---------------------------------------------------------------- what memory and disk hold in step

  /** What is in memory for `g`, a flight aside, is what is on disk for `g`, in order. */
  ghost predicate MemoryMatches(s: State, g: Group) {
    && (g in s.groups ==> s.groups[g].parts != [])
    && (g in s.groups || g in s.pending ==> Stored(s, g) == OpenParts(s, g) + Waiting(s, g))
  }

  /** A part of `g` is stored only beside an album that holds all the others; `g` is popped or restored only with no
      `add` between its halves, and cleared only while none of it is in memory. */
  predicate InStep(s: State, e: Event, g: Group)
    requires Enabled(s, e)
  {
    match e
    case Store(p) => p.group == g ==> Known(Stored(s, g), p) || Stored(s, g) == OpenParts(s, g)
    case Fire(t) => s.timers[t] == g && g in s.groups ==> g !in s.pending
    case Drain(h) => h == g ==> g !in s.pending
    case Forget(f, ok) => ok && s.flights[f].group == g ==> g !in s.groups && g !in s.pending
    case Restore(h) => h == g ==> g !in s.pending
    case _ => true
  }

  lemma PoppedMatchesExactlyWhen(s: State, timers: map<nat, Group>, h: Group, g: Group)
    requires MemoryMatches(s, g)
    ensures MemoryMatches(HandsOver(s.(timers := timers), h), g) <==>
              (h == g && g in s.groups ==> g !in s.pending)
  {
  }

  lemma MatchesExactlyWhen(s: State, e: Event, g: Group)
    requires Enabled(s, e) && MemoryMatches(s, g)
    ensures MemoryMatches(Step(s, e), g) <==> InStep(s, e, g)
  {
    hide Known, Join, Opened, Rebuilt, HandsOver;
    match e
    case Fire(t) => PoppedMatchesExactlyWhen(s, s.timers - {t}, s.timers[t], g);
    case Drain(h) => PoppedMatchesExactlyWhen(s, Cancelled(s.timers, s.groups[h].task), h, g);
    case _ =>
  }

  /** After a crash an open group comes back from the store with the same parts, and the album the live process
      held; only the reply target can differ. */
  lemma CrashThenRestore(s: State, g: Group)
    requires g in s.groups && g !in s.pending && MemoryMatches(s, g)
    requires AlbumIsLive(s.groups[g].album, s.groups[g].parts)
    ensures var down := Step(s, Crash);
            && Enabled(down, Restore(g))
            && var up := Step(down, Restore(g));
               && up.groups[g].parts == s.groups[g].parts
               && up.groups[g].album.(replyTo := None) == s.groups[g].album.(replyTo := None)
               && (up.groups[g].album == s.groups[g].album <==>
                     s.groups[g].parts[0].replyTo.Some? || NoReplies(s.groups[g].parts))
  {
    RebuiltIsLive(s.groups[g].parts);
  }

  /** One group of `drain`: popped, flushed, and cleared unless the flush raised. */
  function Drained(s: State, g: Group, sends: bool, clears: bool): State
    requires g in s.groups
  {
    var t := Step(s, Drain(g));
    var u := Step(t, Flushed(s.nextId, sends));
    if sends then Step(u, Forget(s.nextId, clears)) else u
  }

  lemma DrainRound(s: State, g: Group, sends: bool, clears: bool)
    requires Orderly(s) && g in s.groups
    ensures var t := Drained(s, g, sends, clears);
            && Orderly(t) && t.pending == s.pending && t.accepted == s.accepted && t.groups == s.groups - {g}
            && t.sent == (if sends then s.sent + s.groups[g].parts else s.sent)
            && t.store == (if sends && clears then s.store - {g} else s.store)
  {
    hide Orderly;
    StepKeepsOrder(s, Drain(g));
    var t := Step(s, Drain(g));
    StepKeepsOrder(t, Flushed(s.nextId, sends));
    if sends { StepKeepsOrder(Step(t, Flushed(s.nextId, true)), Forget(s.nextId, clears)); }
  }

  /** What a drain that began in `s` has done about `g` by `t`: the group is still there as it was; or it was popped,
      and sent and erased unless the flush or the clear raised. */
  ghost predicate DrainedSoFar(s: State, t: State, unsent: set<Group>, uncleared: set<Group>, g: Group) {
    && (g in t.groups ==> g in s.groups && t.groups[g] == s.groups[g])
    && (g in s.groups && g !in t.groups && g !in unsent ==>
          (forall p | p in s.groups[g].parts :: p in t.sent) && (g !in uncleared ==> g !in t.store))
    && (g in t.groups || g in unsent || g in uncleared ==> Stored(t, g) == Stored(s, g))
  }

  lemma DrainedOneMore(s: State, t: State, g: Group, sends: bool, clears: bool, unsent: set<Group>,
                       uncleared: set<Group>, h: Group)
    requires DrainedSoFar(s, t, unsent, uncleared, h) && DrainedSoFar(s, t, unsent, uncleared, g)
    requires Orderly(t) && g in t.groups && sends == (g !in unsent) && clears == (g !in uncleared)
    ensures DrainedSoFar(s, Drained(t, g, sends, clears), unsent, uncleared, h)
  {
    hide Drained, Orderly;
    DrainRound(t, g, sends, clears);
  }

  lemma FewerGroups(groups: map<Group, Open>, g: Group)
    requires g in groups
    ensures |groups - {g}| < |groups|
  {
    assert (groups - {g}).Keys == groups.Keys - {g};
    assert |groups - {g}| == |(groups - {g}).Keys|;
  }

  // ---------------------------------------------------------------- the collector

  class AlbumCollector {
    var groups: map<Group, Open>
    var timers: map<nat, Group>
    var pending: map<Group, Part>
    var flights: map<nat, Flight>
    var store: map<Group, seq<Part>>
    var nextId: nat
    ghost var accepted: seq<Part>
    ghost var handed: seq<Flight>
    ghost var sent: seq<Part>

    ghost function Now(): State
      reads this
    {
      State(groups, timers, pending, flights, store, nextId, accepted, handed, sent)
    }

    constructor ()
      ensures Now() == EMPTY
    {
      groups, timers, pending, flights, store, nextId := map[], map[], map[], map[], map[], 0;
      accepted, handed, sent := [], [], [];
    }

    /** `add` up to the store's answer: False for a part that is already recorded. */
    method AddPart(p: Part) returns (isNew: bool)
      requires Enabled(Now(), Store(p))
      modifies this
      ensures Now() == Step(old(Now()), Store(p))
      ensures isNew <==> !Known(Stored(old(Now()), p.group), p)
    {
      var known := if p.group in store then store[p.group] else [];
      isNew := true;
      for i := 0 to |known|
        invariant isNew <==> !Known(known[..i], p)
      {
        if known[i].messageId == p.messageId { isNew := false; }
        assert known[..i + 1] == known[..i] + [known[i]];
        assert forall j | 0 <= j < i :: known[..i + 1][j] == known[..i][j];
        assert known[..i + 1][i] == known[i];
      }
      assert known[..|known|] == known;
      if !isNew { return; }
      store := store[p.group := known + [p]];
      pending := pending[p.group := p];
      accepted := accepted + [p];
    }

    /** `add` after a fresh answer: the part joins its album and re-arms the timer. */
    method Admit(g: Group)
      requires Enabled(Now(), Event.Admit(g))
      modifies this
      ensures Now() == Step(old(Now()), Event.Admit(g))
    {
      var p := pending[g];
      pending := pending - {g};
      if g !in groups {
        groups := groups[g := Open(Opened(p), [p], None)];
      } else {
        groups := groups[g := groups[g].(album := Join(groups[g].album, p), parts := groups[g].parts + [p])];
      }
      Arm(g);
    }

    method Arm(g: Group)
      requires g in groups
      modifies this
      ensures Now() == Armed(old(Now()), g)
    {
      if groups[g].task.Some? {
        timers := timers - {groups[g].task.value};
      }
      timers := timers[nextId := g];
      groups := groups[g := groups[g].(task := Some(nextId))];
      nextId := nextId + 1;
    }

    method HandOver(g: Group)
      modifies this
      ensures Now() == HandsOver(old(Now()), g)
    {
      if g !in groups { return; }
      var flight := Flight(g, groups[g].album, groups[g].parts, false);
      groups := groups - {g};
      flights := flights[nextId := flight];
      nextId := nextId + 1;
      handed := handed + [flight];
    }

    /** `_wait_and_flush` once its sleep ends. */
    method Fire(t: nat)
      requires Enabled(Now(), Event.Fire(t))
      modifies this
      ensures Now() == Step(old(Now()), Event.Fire(t))
    {
      var g := timers[t];
      timers := timers - {t};
      HandOver(g);
    }

    method DrainOne(g: Group)
      requires Enabled(Now(), Event.Drain(g))
      modifies this
      ensures Now() == Step(old(Now()), Event.Drain(g))
    {
      if groups[g].task.Some? {
        timers := timers - {groups[g].task.value};
      }
      HandOver(g);
    }

    method FlushEnded(f: nat, ok: bool)
      requires Enabled(Now(), Flushed(f, ok))
      modifies this
      ensures Now() == Step(old(Now()), Flushed(f, ok))
    {
      if ok {
        sent := sent + flights[f].parts;
        flights := flights[f := flights[f].(sent := true)];
      } else {
        flights := flights - {f};
      }
    }

    /** `_forget`: the whole group is cleared, whatever it holds by now. */
    method ForgetGroup(f: nat, ok: bool)
      requires Enabled(Now(), Forget(f, ok))
      modifies this
      ensures Now() == Step(old(Now()), Forget(f, ok))
    {
      var g := flights[f].group;
      flights := flights - {f};
      if ok { store := store - {g}; }
    }

    /** The process dies: memory is gone, the store is not. */
    method Die()
      modifies this
      ensures Now() == Step(old(Now()), Crash)
    {
      groups, timers, pending, flights := map[], map[], map[], map[];
    }

    /** One group of `restore`: folded part by part from what the store returns. */
    method RestoreGroup(g: Group)
      requires Enabled(Now(), Restore(g))
      modifies this
      ensures Now() == Step(old(Now()), Restore(g))
    {
      var parts := store[g];
      var album := Album([], "", "", None, 0);
      for i := 0 to |parts|
        invariant album == RebuiltFrom(parts[..i]) && Now() == old(Now())
      {
        assert parts[..i + 1][..i] == parts[..i];
        var p := parts[i];
        album := album.(items := album.items + [p.item]);
        if p.caption != "" && album.caption == "" { album := album.(caption := p.caption); }
        if p.forwardLine != "" && album.forwardLine == "" { album := album.(forwardLine := p.forwardLine); }
        if album.replyTo.None? { album := album.(replyTo := p.replyTo); }
      }
      assert parts[..|parts|] == parts;
      groups := groups[g := Open(album.(firstMessageId := parts[0].messageId), parts, None)];
    }

    method RearmGroup(g: Group)
      requires Enabled(Now(), Rearm(g))
      modifies this
      ensures Now() == Step(old(Now()), Rearm(g))
    {
      Arm(g);
    }

    method DrainGroup(g: Group, sends: bool, clears: bool)
      requires g in groups
      modifies this
      ensures Now() == Drained(old(Now()), g, sends, clears)
    {
      var f := nextId;
      DrainOne(g);
      FlushEnded(f, sends);
      if sends { ForgetGroup(f, clears); }
    }

    /** `drain` with nothing else running.  The groups whose flush or clear raises are given: the first ends the
        drain, the second is logged.  Every group reached was sent, and is erased unless its clear raised; the part of
        the collector that is left stays in order. */
    method DrainAll(unsent: set<Group>, uncleared: set<Group>) returns (raised: bool)
      requires Orderly(Now()) && pending == map[]
      modifies this
      ensures Orderly(Now()) && pending == map[] && accepted == old(accepted)
      ensures raised <==> exists g :: g in old(groups) && g in unsent
      ensures !raised ==> groups == map[] && timers == map[] && forall g :: Of(accepted, g) == HandedParts(handed, g)
      ensures forall g :: DrainedSoFar(old(Now()), Now(), unsent, uncleared, g)
    {
      hide Drained, Orderly, AlbumsAreLive, OneTimerEach, Conserved;
      raised := false;
      while groups != map[] && !raised
        invariant Orderly(Now()) && pending == map[] && accepted == old(accepted)
        invariant forall g :: DrainedSoFar(old(Now()), Now(), unsent, uncleared, g)
        invariant raised <==> exists g :: g in old(groups) && g in unsent && g !in groups
        decreases |groups|, !raised
      {
        var g :| g in groups;
        var sends, clears := g !in unsent, g !in uncleared;
        DrainRound(Now(), g, sends, clears);
        assert DrainedSoFar(old(Now()), Now(), unsent, uncleared, g);
        forall h
          ensures DrainedSoFar(old(Now()), Drained(Now(), g, sends, clears), unsent, uncleared, h)
        {
          DrainedOneMore(old(Now()), Now(), g, sends, clears, unsent, uncleared, h);
        }
        FewerGroups(groups, g);
        DrainGroup(g, sends, clears);
        raised := !sends;
      }
      if !raised { AllHandedOver(Now()); }
    }
  }
}
