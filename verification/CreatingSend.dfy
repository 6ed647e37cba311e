// Sending media into MAX without ever sending it twice: `bridge/max_client/client.py` (`send_media` and the
// creating boundary under it) and `bridge/max_client/native_state.py` (the circuit breaker).
//
// What the other side does is a parameter: every step takes the outcome it will meet.  The trace records
// each frame that was written and what became of it.
module CreatingSend {
  import opened Wrappers

  datatype Kind = Photo | Video | File | Sticker | Voice | Circle

  // ---------------------------------------------------------------- the breaker and its counters

  datatype Counters = Counters(
    attempts: nat,
    successes: nat,
    fallbacks: nat,
    rejections: nat,
    drift: nat,
    unconfirmed: nat,
    breaker: Option<Opening>)

  datatype Opening = Opening(reason: string, at: int)

  const NO_COUNTS := Counters(0, 0, 0, 0, 0, 0, None)

  const REASON_LIMIT: nat := 200

  predicate IsNative(k: Kind) { k.Voice? || k.Circle? }

  /** One value for each of the two native kinds. */
  datatype Two<T> = Two(voice: T, circle: T)
  {
    function At(k: Kind): T
      requires IsNative(k)
    {
      if k.Voice? then voice else circle
    }

    function With(k: Kind, t: T): Two<T>
      requires IsNative(k)
    {
      if k.Voice? then Two(t, circle) else Two(voice, t)
    }
  }

  /** What the operator asked for, and what native media has done in this process. */
  datatype Native = Native(enabled: bool, perKind: Two<bool>, counters: Two<Counters>)
  {
    predicate IsEnabled(k: Kind) { enabled && IsNative(k) && perKind.At(k) }

    predicate IsOpen(k: Kind) { IsNative(k) && counters.At(k).breaker.Some? }

    /** May a native send be attempted at all? */
    predicate Allows(k: Kind) { IsEnabled(k) && !IsOpen(k) }
  }

  function Truncated(reason: string): string {
    if |reason| <= REASON_LIMIT then reason else reason[..REASON_LIMIT]
  }

  function Tripped(c: Counters, opening: Opening): Counters {
    c.(rejections := c.rejections + 1,
       breaker := if c.breaker.Some? then c.breaker else Some(Opening(Truncated(opening.reason), opening.at)))
  }

  /** How one native attempt ends, as far as the counters can tell. */
  datatype Conclusion =
    | Succeeded
    | FellBack
    | DriftedAndFellBack
    | RejectedAndFellBack(opening: Opening)
    | Unconfirmed
    | Escaped

  function Concluded(c: Counters, x: Conclusion): Counters {
    match x
    case Succeeded => c.(successes := c.successes + 1)
    case FellBack => c.(fallbacks := c.fallbacks + 1)
    case DriftedAndFellBack => c.(drift := c.drift + 1, fallbacks := c.fallbacks + 1)
    case RejectedAndFellBack(o) => Tripped(c, o).(fallbacks := c.fallbacks + 1)
    case Unconfirmed => c.(unconfirmed := c.unconfirmed + 1)
    case Escaped => c
  }

  // ---------------------------------------------------------------- many sends, interleaved

  /** The shared state of one process, with what the counters do not count: attempts in flight and errors that
      escaped. */
  datatype Ledger = Ledger(native: Native, inFlight: Two<int>, escaped: Two<int>)

  datatype Event = Begin(kind: Kind) | Conclude(kind: Kind, conclusion: Conclusion)

  predicate Enabled(l: Ledger, e: Event) {
    match e
    case Begin(k) => l.native.Allows(k)
    case Conclude(k, _) => IsNative(k) && l.inFlight.At(k) > 0
  }

  function WithCounters(n: Native, k: Kind, c: Counters): Native
    requires IsNative(k)
  {
    n.(counters := n.counters.With(k, c))
  }

  function Attempted(c: Counters): Counters { c.(attempts := c.attempts + 1) }

  function Step(l: Ledger, e: Event): Ledger
    requires Enabled(l, e)
  {
    match e
    case Begin(k) =>
      Ledger(WithCounters(l.native, k, Attempted(l.native.counters.At(k))),
             l.inFlight.With(k, l.inFlight.At(k) + 1), l.escaped)
    case Conclude(k, x) =>
      Ledger(WithCounters(l.native, k, Concluded(l.native.counters.At(k), x)),
             l.inFlight.With(k, l.inFlight.At(k) - 1),
             if x.Escaped? then l.escaped.With(k, l.escaped.At(k) + 1) else l.escaped)
  }

  predicate Runs(l: Ledger, es: seq<Event>)
    decreases es
  {
    es == [] || (Enabled(l, es[0]) && Runs(Step(l, es[0]), es[1..]))
  }

  function After(l: Ledger, es: seq<Event>): Ledger
    requires Runs(l, es)
    decreases es
  {
    if es == [] then l else After(Step(l, es[0]), es[1..])
  }

  /** No attempt is counted twice or forgotten, and the breaker is open exactly when there was a rejection. */
  ghost predicate Balanced(l: Ledger, k: Kind)
    requires IsNative(k)
  {
    var c := l.native.counters.At(k);
    && c.attempts == c.successes + c.fallbacks + c.unconfirmed + l.escaped.At(k) + l.inFlight.At(k)
    && (c.breaker.Some? <==> c.rejections > 0)
    && c.rejections + c.drift <= c.fallbacks
  }

  ghost predicate Begins(es: seq<Event>, k: Kind) {
    exists i | 0 <= i < |es| :: es[i] == Begin(k)
  }

  ghost predicate Concerns(es: seq<Event>, k: Kind) {
    exists i | 0 <= i < |es| :: es[i].kind == k
  }

  lemma StepBalances(l: Ledger, e: Event, k: Kind)
    requires Enabled(l, e) && IsNative(k) && Balanced(l, k)
    ensures Balanced(Step(l, e), k)
    ensures l.native.IsOpen(k) ==>
              && Step(l, e).native.counters.At(k).breaker == l.native.counters.At(k).breaker
              && e != Begin(k)
    ensures e.kind != k ==> Step(l, e).native.counters.At(k) == l.native.counters.At(k)
  {
  }

  /** Over any interleaving of sends: the books balance, an open breaker stays as it was opened, no attempt of its
      kind begins afterwards, and a kind nobody sends is untouched. */
  lemma {:induction false} BreakerOverRuns(l: Ledger, es: seq<Event>, k: Kind)
    requires Runs(l, es) && IsNative(k) && Balanced(l, k)
    ensures Balanced(After(l, es), k)
    ensures l.native.IsOpen(k) ==>
              && After(l, es).native.counters.At(k).breaker == l.native.counters.At(k).breaker
              && After(l, es).native.counters.At(k).attempts == l.native.counters.At(k).attempts
              && !Begins(es, k)
    ensures !Concerns(es, k) ==> After(l, es).native.counters.At(k) == l.native.counters.At(k)
    decreases es
  {
    if es == [] {
    } else {
      StepBalances(l, es[0], k);
      var m := Step(l, es[0]);
      BreakerOverRuns(m, es[1..], k);
      if Begins(es, k) && es[0] != Begin(k) {
        var i :| 0 <= i < |es| && es[i] == Begin(k);
        assert es[1..][i - 1] == Begin(k);
      }
      if Concerns(es[1..], k) {
        var i :| 0 <= i < |es| - 1 && es[1..][i].kind == k;
        assert es[i + 1].kind == k;
      }
    }
  }

  /** From the start of the process, with nothing counted and both breakers closed: whatever sends overlap, every
      attempt is one success, one fallback, one unconfirmed send, one escaped error, or still in flight; the breaker of
      a kind is open if and only if a native send of it was refused for its shape; and every such refusal and every
      drift went out as a plain attachment. */
  lemma BooksFromTheStart(enabled: bool, perKind: Two<bool>, es: seq<Event>, k: Kind)
    requires IsNative(k)
    requires var start := Ledger(Native(enabled, perKind, Two(NO_COUNTS, NO_COUNTS)), Two(0, 0), Two(0, 0));
             Runs(start, es)
    ensures var start := Ledger(Native(enabled, perKind, Two(NO_COUNTS, NO_COUNTS)), Two(0, 0), Two(0, 0));
            var end := After(start, es);
            var c := end.native.counters.At(k);
            && c.attempts == c.successes + c.fallbacks + c.unconfirmed + end.escaped.At(k) + end.inFlight.At(k)
            && (c.breaker == None <==> c.rejections == 0)
            && c.rejections + c.drift <= c.fallbacks
            && (!Concerns(es, k) ==> c == Counters(0, 0, 0, 0, 0, 0, None))
  {
    var start := Ledger(Native(enabled, perKind, Two(NO_COUNTS, NO_COUNTS)), Two(0, 0), Two(0, 0));
    BreakerOverRuns(start, es, k);
  }

  // ---------------------------------------------------------------- what the other side does

  /** What a creating call meets: the session down before it or inside it, a cancellation, a refusal (about the
      shape of the attach or not), any other failure, or an answer with or without a usable id. */
  datatype Reply =
    | DownBefore
    | DownInside
    | Cancelled
    | Refusal(schema: bool, opening: Opening)
    | Silence
    | Answer(id: Option<int>)

  /** What op82 and the upload meet before op64 is written. */
  datatype Preparation =
    | SlotEscapes                // op82 itself failed: down, refused, timed out
    | NoSlot                     // an answer without a usable url and token
    | WrongUploader              // a url that is not on the allowlist
    | UnreadableFile             // the file could not be read off disk
    | NoWaveform                 // no duration or no waveform
    | UploadRefused              // a redirect, or any status but 200
    | UploadEscapes              // the connection broke during the upload
    | Uploaded

  datatype Remote = Remote(
    connected: bool,
    preparation: Preparation,
    native: Reply,
    stickerReady: bool,
    plain: Reply)

  // ---------------------------------------------------------------- what was written

  datatype Route = NativeRoute | PlainRoute | StickerRoute

  /** What became of a creating frame: refused in so many words, unknown, or accepted. */
  datatype Fate = RefusedShape | RefusedOther | Unknown | Landed(id: Option<int>)

  datatype Frame = SlotRequest | Upload | Creating(route: Route, fate: Fate)

  predicate MayHaveLanded(f: Frame) { f.Creating? && (f.fate.Unknown? || f.fate.Landed?) }

  function Copies(frames: seq<Frame>): nat {
    if frames == [] then 0 else (if MayHaveLanded(frames[0]) then 1 else 0) + Copies(frames[1..])
  }

  /** A second creating frame is only ever written after the first was refused for its shape. */
  ghost predicate SecondOnlyAfterRefusal(frames: seq<Frame>) {
    forall i, j | 0 <= i < j < |frames| && frames[i].Creating? && frames[j].Creating? ::
      frames[i] == Creating(NativeRoute, RefusedShape) && frames[j].route == PlainRoute
  }

  datatype Error = NotConnected | Rule | Api | CancelledError | UnconfirmedSend | Local | MediaError | NativeRejected

  datatype Result = Sent(id: int) | Raised(error: Error)

  /** What a caller may conclude from the result about the frames this send wrote. */
  ghost predicate Honest(r: Result, frames: seq<Frame>) {
    && Copies(frames) <= 1
    && SecondOnlyAfterRefusal(frames)
    && (r.Sent? ==> r.id > 0 && exists f :: f in frames && f.Creating? && f.fate == Landed(Some(r.id)))
    && (r.Sent? || r.error.UnconfirmedSend? ==> Copies(frames) == 1)
    && (r.Raised? && !r.error.UnconfirmedSend? && !r.error.CancelledError? ==> Copies(frames) == 0)
  }

  /** The frame a creating call writes, if it writes one. */
  function Written(route: Route, reply: Reply): seq<Frame> {
    match reply
    case DownBefore => []
    case DownInside => []
    case Cancelled => [Creating(route, Unknown)]
    case Refusal(schema, _) => [Creating(route, if schema then RefusedShape else RefusedOther)]
    case Silence => [Creating(route, Unknown)]
    case Answer(id) => [Creating(route, Landed(id))]
  }

  /** `_run_creating_call` as its caller sees it; `schemaError` is what `on_api_error` raises for a schema refusal. */
  function Outcome(reply: Reply, schemaError: Error): Result {
    match reply
    case DownBefore => Raised(NotConnected)
    case DownInside => Raised(NotConnected)
    case Cancelled => Raised(CancelledError)
    case Refusal(schema, _) => Raised(if schema then schemaError else Api)
    case Silence => Raised(UnconfirmedSend)
    case Answer(id) => if id.Some? && id.value > 0 then Sent(id.value) else Raised(UnconfirmedSend)
  }

  // ---------------------------------------------------------------- one send

  /** What a native attempt comes to. */
  function ConclusionOf(r: Remote): Conclusion {
    match r.preparation
    case NoSlot => FellBack
    case NoWaveform => FellBack
    case UploadRefused => FellBack
    case WrongUploader => DriftedAndFellBack
    case SlotEscapes => Escaped
    case UnreadableFile => Escaped
    case UploadEscapes => Escaped
    case Uploaded =>
      match r.native
      case Refusal(schema, opening) => if schema then RejectedAndFellBack(opening) else Escaped
      case Silence => Unconfirmed
      case Answer(id) => if id.Some? && id.value > 0 then Succeeded else Unconfirmed
      case _ => Escaped
  }

  /** The frames of the native pipeline: op82, the upload, op64. */
  function NativeFrames(r: Remote): seq<Frame> {
    match r.preparation
    case UploadRefused => [SlotRequest, Upload]
    case UploadEscapes => [SlotRequest, Upload]
    case Uploaded => [SlotRequest, Upload] + Written(NativeRoute, r.native)
    case _ => [SlotRequest]
  }

  function NativeResult(r: Remote): Result {
    match r.preparation
    case SlotEscapes => Raised(Api)
    case UnreadableFile => Raised(Local)
    case UploadEscapes => Raised(Local)
    case Uploaded => Outcome(r.native, NativeRejected)
    case _ => Raised(MediaError)
  }

  /** The two errors after which `send_media` sends a plain attachment instead. */
  predicate FallsBack(r: Result) { r == Raised(MediaError) || r == Raised(NativeRejected) }

  predicate HasSticker(kinds: seq<Kind>) { Sticker in kinds }

  predicate HasNative(n: Native, kinds: seq<Kind>) { exists i | 0 <= i < |kinds| :: n.Allows(kinds[i]) }

  /** Whether this send goes through the native pipeline at all. */
  predicate TriesNative(n: Native, kinds: seq<Kind>, r: Remote) {
    r.connected && !HasSticker(kinds) && |kinds| == 1 && n.Allows(kinds[0])
  }

  function FramesOf(n: Native, kinds: seq<Kind>, r: Remote): seq<Frame> {
    if !r.connected then []
    else if HasSticker(kinds) then
      if |kinds| == 1 && r.stickerReady then Written(StickerRoute, r.plain) else []
    else if !HasNative(n, kinds) then Written(PlainRoute, r.plain)
    else if |kinds| != 1 then []
    else NativeFrames(r) + if FallsBack(NativeResult(r)) then Written(PlainRoute, r.plain) else []
  }

  function ResultOf(n: Native, kinds: seq<Kind>, r: Remote): Result {
    if !r.connected then Raised(NotConnected)
    else if HasSticker(kinds) then
      if |kinds| != 1 then Raised(Rule) else if r.stickerReady then Outcome(r.plain, Api) else Raised(Local)
    else if !HasNative(n, kinds) then Outcome(r.plain, Api)
    else if |kinds| != 1 then Raised(Rule)
    else if FallsBack(NativeResult(r)) then Outcome(r.plain, Api)
    else NativeResult(r)
  }

  function NativeAfter(n: Native, kinds: seq<Kind>, r: Remote): Native {
    if TriesNative(n, kinds, r)
    then WithCounters(n, kinds[0], Concluded(Attempted(n.counters.At(kinds[0])), ConclusionOf(r)))
    else n
  }

  lemma WrittenCopies(route: Route, reply: Reply, before: seq<Frame>)
    requires forall i | 0 <= i < |before| :: !MayHaveLanded(before[i])
    ensures Copies(before + Written(route, reply)) ==
            if reply.Cancelled? || reply.Silence? || reply.Answer? then 1 else 0
    decreases before
  {
    var w := Written(route, reply);
    if before == [] {
      assert before + w == w;
      if w != [] { assert w[1..] == []; }
    } else {
      assert (before + w)[1..] == before[1..] + w;
      WrittenCopies(route, reply, before[1..]);
    }
  }

  lemma OneCallIsHonest(before: seq<Frame>, route: Route, reply: Reply, schemaError: Error)
    requires !schemaError.UnconfirmedSend? && !schemaError.CancelledError?
    requires forall i | 0 <= i < |before| ::
               before[i].Creating? ==> before[i] == Creating(NativeRoute, RefusedShape) && route == PlainRoute
    requires SecondOnlyAfterRefusal(before)
    ensures Honest(Outcome(reply, schemaError), before + Written(route, reply))
  {
    WrittenCopies(route, reply, before);
    if reply.Answer? {
      assert (before + Written(route, reply))[|before|] == Creating(route, Landed(reply.id));
    }
  }

  lemma NativeAloneIsHonest(r: Remote)
    ensures FallsBack(NativeResult(r)) ==>
              forall i | 0 <= i < |NativeFrames(r)| ::
                NativeFrames(r)[i].Creating? ==> NativeFrames(r)[i] == Creating(NativeRoute, RefusedShape)
    ensures SecondOnlyAfterRefusal(NativeFrames(r))
    ensures !FallsBack(NativeResult(r)) ==> Honest(NativeResult(r), NativeFrames(r))
  {
    if r.preparation.Uploaded? {
      OneCallIsHonest([SlotRequest, Upload], NativeRoute, r.native, NativeRejected);
    } else {
      OneCallIsHonest(NativeFrames(r), PlainRoute, DownBefore, Api);
      assert NativeFrames(r) + [] == NativeFrames(r);
    }
  }

  lemma OneCallAloneIsHonest(route: Route, reply: Reply)
    ensures Honest(Outcome(reply, Api), Written(route, reply))
    ensures SlotRequest !in Written(route, reply)
  {
    hide Honest, Outcome, Copies;
    OneCallIsHonest([], route, reply, Api);
    assert [] + Written(route, reply) == Written(route, reply);
  }

  /** At most one frame of any send may have made a message; the result says which; and a plain attachment follows
      a native one only when that was never written or was refused for its shape. */
  lemma AtMostOneCopy(n: Native, kinds: seq<Kind>, r: Remote)
    ensures Honest(ResultOf(n, kinds, r), FramesOf(n, kinds, r))
    ensures !TriesNative(n, kinds, r) ==> SlotRequest !in FramesOf(n, kinds, r)
  {
    if !r.connected || HasSticker(kinds) || !HasNative(n, kinds) {
      OneCallAloneIsHonest(PlainRoute, r.plain);
      OneCallAloneIsHonest(StickerRoute, r.plain);
    } else if |kinds| == 1 {
      NativeAloneIsHonest(r);
      if FallsBack(NativeResult(r)) {
        OneCallIsHonest(NativeFrames(r), PlainRoute, r.plain, Api);
      } else {
        assert NativeFrames(r) + [] == NativeFrames(r);
      }
    }
  }

  // ---------------------------------------------------------------- what a send does, case by case

  /** One creating call: nothing is written while the session is down; otherwise one frame is, and what is returned
      is the id the server gave it, or the failure. */
  predicate IsCall(route: Route, reply: Reply, frames: seq<Frame>, r: Result) {
    match reply
    case DownBefore => frames == [] && r == Raised(NotConnected)
    case DownInside => frames == [] && r == Raised(NotConnected)
    case Cancelled => frames == [Creating(route, Unknown)] && r == Raised(CancelledError)
    case Refusal(true, _) => frames == [Creating(route, RefusedShape)] && r == Raised(Api)
    case Refusal(false, _) => frames == [Creating(route, RefusedOther)] && r == Raised(Api)
    case Silence => frames == [Creating(route, Unknown)] && r == Raised(UnconfirmedSend)
    case Answer(id) =>
      && frames == [Creating(route, Landed(id))]
      && r == if id.Some? && 0 < id.value then Sent(id.value) else Raised(UnconfirmedSend)
  }

  /** A kind that may go out natively: native media and the kind are switched on, and its breaker is closed. */
  predicate MayBeNative(n: Native, k: Kind) {
    && n.enabled
    && ((k == Voice && n.perKind.voice && n.counters.voice.breaker == None)
        || (k == Circle && n.perKind.circle && n.counters.circle.breaker == None))
  }

  /** The native pipeline is over without a message, and a plain attachment is to go out instead: no slot, a wrong
      uploader, no waveform, a refused upload, or a refusal of the shape. */
  predicate GivesWay(r: Remote) {
    || r.preparation in {NoSlot, WrongUploader, NoWaveform, UploadRefused}
    || (r.preparation == Uploaded && r.native.Refusal? && r.native.schema)
  }

  /** How far the native pipeline gets before op64. */
  function Prepared(r: Remote): seq<Frame> {
    if r.preparation in {UploadRefused, UploadEscapes, Uploaded} then [SlotRequest, Upload] else [SlotRequest]
  }

  /** The frame that was refused for its shape, if the attempt got that far. */
  function Refused(r: Remote): seq<Frame> {
    if r.preparation == Uploaded then [Creating(NativeRoute, RefusedShape)] else []
  }

  /** A native attempt that gives no way ends the send: it is one creating call after the upload, or what stopped it. */
  ghost predicate IsNativeEnd(r: Remote, frames: seq<Frame>, result: Result) {
    if r.preparation == Uploaded then
      exists call :: frames == [SlotRequest, Upload] + call && IsCall(NativeRoute, r.native, call, result)
    else
      && frames == Prepared(r)
      && result == Raised(if r.preparation == SlotEscapes then Api else Local)
  }

  /** What `send_media` does, for every state of the breaker and every answer.  A sticker goes out alone, and only when
      it is ready; a plain attachment goes out where nothing may go natively, and after a native attempt that gives
      way, with the same call; and nothing is written for what the rules refuse. */
  lemma SendIs(n: Native, kinds: seq<Kind>, r: Remote)
    ensures var frames, result := FramesOf(n, kinds, r), ResultOf(n, kinds, r);
            if !r.connected then frames == [] && result == Raised(NotConnected)
            else if Sticker in kinds then
              if kinds != [Sticker] then frames == [] && result == Raised(Rule)
              else if !r.stickerReady then frames == [] && result == Raised(Local)
              else IsCall(StickerRoute, r.plain, frames, result)
            else if forall i | 0 <= i < |kinds| :: !MayBeNative(n, kinds[i]) then
              IsCall(PlainRoute, r.plain, frames, result)
            else if |kinds| != 1 then frames == [] && result == Raised(Rule)
            else if GivesWay(r) then
              exists before, call ::
                && frames == before + call && IsCall(PlainRoute, r.plain, call, result)
                && before == Prepared(r) + Refused(r)
            else IsNativeEnd(r, frames, result)
  {
    assert forall k :: n.Allows(k) <==> MayBeNative(n, k);
    assert HasNative(n, kinds) <==> !forall i | 0 <= i < |kinds| :: !MayBeNative(n, kinds[i]);
    if |kinds| == 1 { assert kinds == [kinds[0]]; }
    CallIs(StickerRoute, r.plain);
    CallIs(PlainRoute, r.plain);
    NativeIs(r);
  }

  lemma CallIs(route: Route, reply: Reply)
    ensures IsCall(route, reply, Written(route, reply), Outcome(reply, Api))
  {
  }

  lemma NativeIs(r: Remote)
    ensures FallsBack(NativeResult(r)) <==> GivesWay(r)
    ensures GivesWay(r) ==>
              NativeFrames(r) == Prepared(r) + Refused(r)
    ensures !GivesWay(r) ==> IsNativeEnd(r, NativeFrames(r) + [], NativeResult(r))
  {
    assert NativeFrames(r) + [] == NativeFrames(r);
    if r.preparation == Uploaded && !GivesWay(r) {
      assert IsCall(NativeRoute, r.native, Written(NativeRoute, r.native), NativeResult(r));
    }
  }

  /** What the counters of a kind say after a native attempt: one attempt more, and exactly one end of it. */
  lemma AttemptIsCounted(n: Native, kinds: seq<Kind>, r: Remote)
    requires r.connected && |kinds| == 1 && MayBeNative(n, kinds[0])
    ensures var c, d := n.counters.At(kinds[0]), NativeAfter(n, kinds, r).counters.At(kinds[0]);
            var result := NativeResult(r);
            && d.attempts == c.attempts + 1
            && d.successes == c.successes + (if result.Sent? then 1 else 0)
            && d.fallbacks == c.fallbacks + (if GivesWay(r) then 1 else 0)
            && d.unconfirmed == c.unconfirmed + (if result == Raised(UnconfirmedSend) then 1 else 0)
            && d.drift == c.drift + (if r.preparation == WrongUploader then 1 else 0)
            && d.rejections == c.rejections + (if result == Raised(NativeRejected) then 1 else 0)
            && d.breaker == (if result == Raised(NativeRejected)
                             then Some(Opening(Shortened(r.native.opening.reason), r.native.opening.at)) else None)
    ensures forall k | IsNative(k) && k != kinds[0] ::
              NativeAfter(n, kinds, r).counters.At(k) == n.counters.At(k)
    ensures NativeAfter(n, kinds, r).enabled == n.enabled && NativeAfter(n, kinds, r).perKind == n.perKind
  {
    assert kinds == [kinds[0]];
    NativeIs(r);
    if r.native.Refusal? { TruncatedIs(r.native.opening.reason); }
  }

  lemma TruncatedIs(reason: string)
    ensures Truncated(reason) == Shortened(reason)
  {
    if |reason| == 200 { assert reason[..200] == reason; }
  }

  /** No more than the first 200 characters of a reason are kept. */
  function Shortened(reason: string): (s: string)
    ensures s <= reason && |s| == if |reason| < 200 then |reason| else 200
  {
    if |reason| < 200 then reason else reason[..200]
  }

  /** A send that is no native attempt leaves breaker and counters alone. */
  lemma OtherSendsAreNotCounted(n: Native, kinds: seq<Kind>, r: Remote)
    requires !r.connected || Sticker in kinds || |kinds| != 1 || !MayBeNative(n, kinds[0])
    ensures NativeAfter(n, kinds, r) == n
  {
  }

  /** One whole send is one attempt begun and concluded. */
  lemma SendIsTwoEvents(l: Ledger, kinds: seq<Kind>, r: Remote)
    requires TriesNative(l.native, kinds, r) && 0 <= l.inFlight.At(kinds[0])
    ensures Runs(l, [Begin(kinds[0]), Conclude(kinds[0], ConclusionOf(r))])
    ensures var done := After(l, [Begin(kinds[0]), Conclude(kinds[0], ConclusionOf(r))]);
            done.native == NativeAfter(l.native, kinds, r) && done.inFlight == l.inFlight
  {
    var es := [Begin(kinds[0]), Conclude(kinds[0], ConclusionOf(r))];
    assert es[1..] == [es[1]] && [es[1]][1..] == [];
    var begun := Step(l, es[0]);
    assert After(begun, [es[1]]) == Step(begun, es[1]);
  }

  class MaxClient {
    var native: Native
    ghost var trace: seq<Frame>

    constructor (enabled: bool, voiceEnabled: bool, circleEnabled: bool)
      ensures native == Native(enabled, Two(voiceEnabled, circleEnabled), Two(NO_COUNTS, NO_COUNTS)) && trace == []
    {
      native := Native(enabled, Two(voiceEnabled, circleEnabled), Two(NO_COUNTS, NO_COUNTS));
      trace := [];
    }

    method Note(kind: Kind, after: Counters)
      requires IsNative(kind)
      modifies `native
      ensures native == WithCounters(old(native), kind, after)
    {
      native := native.(counters := native.counters.With(kind, after));
    }

    /** `_run_creating_call`: the one place a frame that makes a message is written. */
    method RunCreatingCall(route: Route, reply: Reply, schemaError: Error) returns (r: Result)
      modifies `trace
      ensures trace == old(trace) + Written(route, reply)
      ensures r == Outcome(reply, schemaError)
    {
      match reply
      case DownBefore => r := Raised(NotConnected);
      case DownInside => r := Raised(NotConnected);
      case Cancelled =>
        trace := trace + [Creating(route, Unknown)];
        r := Raised(CancelledError);
      case Refusal(schema, _) =>
        trace := trace + [Creating(route, if schema then RefusedShape else RefusedOther)];
        r := Raised(if schema then schemaError else Api);
      case Silence =>
        trace := trace + [Creating(route, Unknown)];
        r := Raised(UnconfirmedSend);
      case Answer(id) =>
        trace := trace + [Creating(route, Landed(id))];
        r := if id.Some? && id.value > 0 then Sent(id.value) else Raised(UnconfirmedSend);
    }

    /** `_invoke_native_send`: op64, with the breaker behind a schema refusal and a count behind silence. */
    method InvokeNativeSend(kind: Kind, reply: Reply) returns (r: Result)
      requires IsNative(kind)
      modifies this
      ensures trace == old(trace) + Written(NativeRoute, reply)
      ensures r == Outcome(reply, NativeRejected)
      ensures var c := old(native).counters.At(kind);
              native == WithCounters(old(native), kind,
                                     if r == Raised(NativeRejected) then Tripped(c, reply.opening)
                                     else if r == Raised(UnconfirmedSend) then Concluded(c, Unconfirmed)
                                     else c)
    {
      var c := native.counters.At(kind);
      r := RunCreatingCall(NativeRoute, reply, NativeRejected);
      if r == Raised(NativeRejected) {
        var opening := reply.opening;
        if c.breaker.None? {
          c := c.(breaker := Some(Opening(Truncated(opening.reason), opening.at)));
        }
        Note(kind, c.(rejections := c.rejections + 1));
      } else if r == Raised(UnconfirmedSend) {
        Note(kind, c.(unconfirmed := c.unconfirmed + 1));
      }
    }

    method SendNativeMedia(kind: Kind, remote: Remote) returns (r: Result)
      requires IsNative(kind)
      modifies this
      ensures trace == old(trace) + NativeFrames(remote)
      ensures r == NativeResult(remote)
      ensures var c := old(native).counters.At(kind);
              native == WithCounters(old(native), kind,
                                     if r == Raised(NativeRejected) then Tripped(c, remote.native.opening)
                                     else if r == Raised(UnconfirmedSend) then Concluded(c, Unconfirmed)
                                     else if remote.preparation.WrongUploader? then c.(drift := c.drift + 1)
                                     else c)
    {
      var c := native.counters.At(kind);
      trace := trace + [SlotRequest];
      if remote.preparation.SlotEscapes? { return Raised(Api); }
      if remote.preparation.NoSlot? { return Raised(MediaError); }
      if remote.preparation.WrongUploader? {
        Note(kind, c.(drift := c.drift + 1));
        return Raised(MediaError);
      }
      if remote.preparation.UnreadableFile? { return Raised(Local); }
      if remote.preparation.NoWaveform? { return Raised(MediaError); }
      trace := trace + [Upload];
      if remote.preparation.UploadRefused? { return Raised(MediaError); }
      if remote.preparation.UploadEscapes? { return Raised(Local); }
      r := InvokeNativeSend(kind, remote.native);
    }

    method SendMedia(kinds: seq<Kind>, remote: Remote) returns (r: Result)
      modifies this
      ensures trace == old(trace) + FramesOf(old(native), kinds, remote)
      ensures r == ResultOf(old(native), kinds, remote)
      ensures native == NativeAfter(old(native), kinds, remote)
    {
      if !remote.connected { return Raised(NotConnected); }
      if Sticker in kinds {
        if |kinds| != 1 { return Raised(Rule); }
        if !remote.stickerReady { return Raised(Local); }
        r := RunCreatingCall(StickerRoute, remote.plain, Api);
        return;
      }
      var anyNative := false;
      for i := 0 to |kinds|
        invariant anyNative <==> exists j | 0 <= j < i :: native.Allows(kinds[j])
      {
        if native.Allows(kinds[i]) { anyNative := true; }
      }
      if anyNative {
        if |kinds| != 1 { return Raised(Rule); }
        var kind := kinds[0];
        Note(kind, Attempted(native.counters.At(kind)));
        r := SendNativeMedia(kind, remote);
        var c := native.counters.At(kind);
        if r.Sent? {
          Note(kind, c.(successes := c.successes + 1));
          return;
        }
        if !FallsBack(r) { return; }
        Note(kind, c.(fallbacks := c.fallbacks + 1));
      }
      r := RunCreatingCall(PlainRoute, remote.plain, Api);
    }
  }
}
