// One MAX message delivered to Telegram: `bridge/media/delivery.py`.
//
// A delivery is a sequence of acts: files fetched, Telegram messages made.  The answers are part of the attachments.
// A fetch whose error escapes ends the delivery there.  A send that raises leaves a prefix of the acts besides.
module Delivery {
  import opened Sequences
  import opened Text
  import opened Wrappers

  // ---------------------------------------------------------------- what is delivered

  datatype Kind =
    | Photo | Video | Sticker | OtherFile
    | Link | Service | Call | ContactWithPhone | ContactCard(photo: bool) | Unrecognised

  predicate AlbumKind(k: Kind) { k.Photo? || k.Video? }

  predicate HasFile(k: Kind) { k.Photo? || k.Video? || k.Sticker? || k.OtherFile? }

  /** What comes of fetching the file: it is there, it is over the limit, the attachment names no source, or the fetch
      fails for any other reason. */
  datatype Fetch = Local | TooLarge | SourceMissing | Failed

  /** `usable` says whether Telegram can use the photo of a contact card; `id` is the message the attachment becomes
      when it goes as itself. */
  datatype Attachment = Attachment(kind: Kind, fetch: Fetch, usable: bool, id: int)

  datatype Act =
    | Announced
    | Fetched(place: nat)
    | Notice(place: nat)
    | Album(places: seq<nat>, captioned: bool)
    | Sent(place: nat, captioned: bool)
    | PhotoRefused(place: nat)
    | CaptionAfter(place: nat)
    | Tail

  predicate Remote(a: Act) { !a.Fetched? && !a.Announced? }

  // ---------------------------------------------------------------- the caption

  const CAPTION_LIMIT := 1024

  /** `split_caption`: what rides along, and what follows as its own message. */
  function SplitCaption(caption: string): (Option<string>, string) {
    var text := Trimmed(caption);
    if text == "" then (None, "") else if |text| <= CAPTION_LIMIT then (Some(text), "") else (None, text)
  }

  /** The trimmed caption rides along whole where it is not longer than 1024 characters, and follows whole where it
      is. */
  lemma CaptionIsWhole(caption: string)
    ensures var (head, tail) := SplitCaption(caption);
            var text := Trimmed(caption);
            && head == (if 0 < |text| <= 1024 then Some(text) else None)
            && tail == if |text| > 1024 then text else ""
  {
  }

  // ---------------------------------------------------------------- which is which

  predicate Within(places: seq<nat>, atts: seq<Attachment>) { forall i :: 0 <= i < |places| ==> places[i] < |atts| }

  function AlbumPlaces(atts: seq<Attachment>, from: nat): (r: seq<nat>)
    requires from <= |atts|
    ensures Within(r, atts)
    decreases |atts| - from
  {
    if from == |atts| then []
    else (if AlbumKind(atts[from].kind) then [from] else []) + AlbumPlaces(atts, from + 1)
  }

  /** `album_attachments`: a lone photo or video is no album. */
  function AlbumOf(atts: seq<Attachment>): (r: seq<nat>)
    ensures Within(r, atts)
  {
    var places := AlbumPlaces(atts, 0);
    if |places| < 2 then [] else places
  }

  function Singles(atts: seq<Attachment>, from: nat): (r: seq<nat>)
    requires from <= |atts|
    ensures Within(r, atts)
    decreases |atts| - from
  {
    if from == |atts| then []
    else (if !AlbumKind(atts[from].kind) || AlbumOf(atts) == [] then [from] else []) + Singles(atts, from + 1)
  }

  /** The fetch raises and nothing catches it: an album knows only files over the limit, an attachment on its own also
      one without a source. */
  predicate Escapes(a: Attachment, inAlbum: bool) {
    HasFile(a.kind) && (a.fetch.Failed? || (inAlbum && a.fetch.SourceMissing?))
  }

  predicate Through(atts: seq<Attachment>, places: seq<nat>, inAlbum: bool)
    requires Within(places, atts)
  {
    forall i :: 0 <= i < |places| ==> !Escapes(atts[places[i]], inAlbum)
  }

  /** The places up to the first whose fetch escapes, that one included. */
  function Reached(atts: seq<Attachment>, places: seq<nat>, inAlbum: bool): (r: seq<nat>)
    requires Within(places, atts)
    ensures Within(r, atts)
  {
    if places == [] then []
    else [places[0]] + if Escapes(atts[places[0]], inAlbum) then [] else Reached(atts, places[1..], inAlbum)
  }

  /** No fetch escapes. */
  predicate Completes(atts: seq<Attachment>) {
    Through(atts, AlbumOf(atts), true) && Through(atts, Singles(atts, 0), false)
  }

  // ---------------------------------------------------------------- the acts

  /** Fetching an album: each file in turn, and a notice for each that is too large. */
  function GatherActs(atts: seq<Attachment>, places: seq<nat>): seq<Act>
    requires Within(places, atts)
  {
    if places == [] then []
    else
      [Fetched(places[0])] +
      if Escapes(atts[places[0]], true) then []
      else (if atts[places[0]].fetch.TooLarge? then [Notice(places[0])] else []) + GatherActs(atts, places[1..])
  }

  function Fitting(atts: seq<Attachment>, places: seq<nat>): (r: seq<nat>)
    requires Within(places, atts)
    ensures Within(r, atts)
  {
    if places == [] then []
    else (if atts[places[0]].fetch.TooLarge? then [] else [places[0]]) + Fitting(atts, places[1..])
  }

  /** What is sent once the album is gathered. */
  function GroupActs(items: seq<nat>, captioned: bool): seq<Act> {
    if items == [] then [] else if |items| == 1 then [Sent(items[0], captioned)] else [Album(items, captioned)]
  }

  function AlbumActs(atts: seq<Attachment>, places: seq<nat>, captioned: bool): seq<Act>
    requires Within(places, atts)
  {
    GatherActs(atts, places) + if Through(atts, places, true) then GroupActs(Fitting(atts, places), captioned) else []
  }

  /** `_send_one` and `_dispatch`. */
  function SingleActs(a: Attachment, place: nat, captioned: bool): seq<Act> {
    match a.kind
    case Link => [Sent(place, captioned)]
    case Service => [Sent(place, captioned)]
    case Call => [Sent(place, false)]
    case ContactWithPhone => [Sent(place, false)]
    case ContactCard(photo) => (if photo && !a.usable then [PhotoRefused(place)] else []) + [Sent(place, captioned)]
    case Unrecognised => [Sent(place, captioned)]
    case _ =>
      if a.fetch.Failed? then [Fetched(place)]
      else if !a.fetch.Local? then [Fetched(place), Notice(place)]
      else if a.kind.Sticker? then
        [Fetched(place), Sent(place, false)] + if captioned then [CaptionAfter(place)] else []
      else [Fetched(place), Sent(place, captioned)]
  }

  function SinglesActs(atts: seq<Attachment>, places: seq<nat>, captioned: bool): seq<Act>
    requires Within(places, atts)
  {
    if places == [] then []
    else
      SingleActs(atts[places[0]], places[0], captioned) +
      if Escapes(atts[places[0]], false) then [] else SinglesActs(atts, places[1..], false)
  }

  function AlbumPart(atts: seq<Attachment>, captioned: bool): seq<Act> {
    if AlbumOf(atts) == [] then [] else AlbumActs(atts, AlbumOf(atts), captioned)
  }

  function SinglesPart(atts: seq<Attachment>, captioned: bool): seq<Act> {
    if !Through(atts, AlbumOf(atts), true) then []
    else SinglesActs(atts, Singles(atts, 0), captioned && AlbumOf(atts) == [])
  }

  function TailPart(atts: seq<Attachment>, tail: string): seq<Act> {
    if tail == "" || !Completes(atts) then [] else [Tail]
  }

  /** `deliver_receipt` */
  function DeliverActs(atts: seq<Attachment>, caption: string): seq<Act> {
    var (head, tail) := SplitCaption(caption);
    AlbumPart(atts, head.Some?) + SinglesPart(atts, head.Some?) + TailPart(atts, tail)
  }

  // ---------------------------------------------------------------- each attachment once

  /** The attachments an act is the delivery of. */
  function Handled(a: Act): seq<nat> {
    match a
    case Notice(p) => [p]
    case Sent(p, _) => [p]
    case Album(ps, _) => ps
    case _ => []
  }

  function Times(places: seq<nat>, p: nat): nat {
    if places == [] then 0 else (if places[0] == p then 1 else 0) + Times(places[1..], p)
  }

  function TimesHandled(acts: seq<Act>, p: nat): nat {
    if acts == [] then 0 else Times(Handled(acts[0]), p) + TimesHandled(acts[1..], p)
  }

  lemma {:induction false} TimesAppend(a: seq<nat>, b: seq<nat>, p: nat)
    ensures Times(a + b, p) == Times(a, p) + Times(b, p)
    decreases a
  {
    if a == [] {
      assert a + b == b;
    } else {
      assert (a + b)[1..] == a[1..] + b;
      TimesAppend(a[1..], b, p);
    }
  }

  lemma {:induction false} HandledAppend(a: seq<Act>, b: seq<Act>, p: nat)
    ensures TimesHandled(a + b, p) == TimesHandled(a, p) + TimesHandled(b, p)
    decreases a
  {
    if a == [] {
      assert a + b == b;
    } else {
      assert (a + b)[1..] == a[1..] + b;
      HandledAppend(a[1..], b, p);
    }
  }

  lemma TimesOnly(chosen: bool, x: nat, more: seq<nat>, p: nat)
    ensures Times((if chosen then [x] else []) + more, p) == (if chosen && x == p then 1 else 0) + Times(more, p)
  {
    TimesAppend(if chosen then [x] else [], more, p);
  }

  lemma {:induction false} AlbumCounts(atts: seq<Attachment>, from: nat, p: nat)
    requires from <= |atts|
    ensures Times(AlbumPlaces(atts, from), p) == if from <= p < |atts| && AlbumKind(atts[p].kind) then 1 else 0
    decreases |atts| - from
  {
    if from < |atts| {
      AlbumCounts(atts, from + 1, p);
      TimesOnly(AlbumKind(atts[from].kind), from, AlbumPlaces(atts, from + 1), p);
    }
  }

  lemma {:induction false} SinglesCount(atts: seq<Attachment>, from: nat, p: nat)
    requires from <= |atts|
    ensures Times(Singles(atts, from), p) ==
            if from <= p < |atts| && (!AlbumKind(atts[p].kind) || AlbumOf(atts) == []) then 1 else 0
    decreases |atts| - from
  {
    if from < |atts| {
      SinglesCount(atts, from + 1, p);
      TimesOnly(!AlbumKind(atts[from].kind) || AlbumOf(atts) == [], from, Singles(atts, from + 1), p);
    }
  }

  /** The place whose fetch escapes, if there is one. */
  function Escaping(atts: seq<Attachment>, places: seq<nat>, inAlbum: bool): seq<nat>
    requires Within(places, atts)
  {
    if places == [] then []
    else if Escapes(atts[places[0]], inAlbum) then [places[0]]
    else Escaping(atts, places[1..], inAlbum)
  }

  lemma {:induction false} EscapingIsOne(atts: seq<Attachment>, places: seq<nat>, inAlbum: bool)
    requires Within(places, atts)
    ensures if Through(atts, places, inAlbum) then Escaping(atts, places, inAlbum) == []
            else |Escaping(atts, places, inAlbum)| == 1 && Escaping(atts, places, inAlbum)[0] in places
    decreases places
  {
    if places != [] {
      EscapingIsOne(atts, places[1..], inAlbum);
      assert places == [places[0]] + places[1..];
    }
  }

  /** What is gathered is handled by a notice or fits, in full when no fetch escapes; the one that does is neither. */
  lemma {:induction false} GatherCounts(atts: seq<Attachment>, places: seq<nat>, p: nat)
    requires Within(places, atts)
    ensures TimesHandled(GatherActs(atts, places), p) + Times(Escaping(atts, places, true), p) <= Times(places, p)
    ensures Through(atts, places, true) ==>
              TimesHandled(GatherActs(atts, places), p) + Times(Fitting(atts, places), p) == Times(places, p)
    decreases places
  {
    if places != [] {
      var f, rest := places[0], places[1..];
      assert places == [f] + rest;
      TimesAppend([f], rest, p);
      assert TimesHandled([Fetched(f)], p) == 0;
      if Escapes(atts[f], true) {
        assert [Fetched(f)] + [] == [Fetched(f)];
      } else {
        var notice: seq<Act> := if atts[f].fetch.TooLarge? then [Notice(f)] else [];
        GatherCounts(atts, rest, p);
        HandledAppend([Fetched(f)], notice + GatherActs(atts, rest), p);
        HandledAppend(notice, GatherActs(atts, rest), p);
        TimesAppend(if atts[f].fetch.TooLarge? then [] else [f], Fitting(atts, rest), p);
      }
    }
  }

  lemma SingleCounts(a: Attachment, place: nat, captioned: bool, p: nat)
    ensures TimesHandled(SingleActs(a, place, captioned), p) == if p == place && !Escapes(a, false) then 1 else 0
  {
    var acts := SingleActs(a, place, captioned);
    OneOf(acts, p);
  }

  /** The first three acts of a sequence, counted one at a time. */
  lemma OneOf(acts: seq<Act>, p: nat)
    requires 1 <= |acts| <= 3
    ensures TimesHandled(acts, p) ==
            Times(Handled(acts[0]), p) + (if |acts| > 1 then Times(Handled(acts[1]), p) else 0) +
            if |acts| > 2 then Times(Handled(acts[2]), p) else 0
  {
    if |acts| > 1 {
      assert acts[1..][0] == acts[1];
      if |acts| > 2 { assert acts[1..][1..] == [acts[2]]; }
    }
  }

  lemma {:induction false} SinglesActsCount(atts: seq<Attachment>, places: seq<nat>, captioned: bool, p: nat)
    requires Within(places, atts)
    ensures TimesHandled(SinglesActs(atts, places, captioned), p) + Times(Escaping(atts, places, false), p)
            <= Times(places, p)
    ensures Through(atts, places, false) ==> TimesHandled(SinglesActs(atts, places, captioned), p) == Times(places, p)
    decreases places
  {
    if places != [] {
      var acts := SingleActs(atts[places[0]], places[0], captioned);
      SingleCounts(atts[places[0]], places[0], captioned, p);
      if Escapes(atts[places[0]], false) {
        assert acts + [] == acts;
      } else {
        SinglesActsCount(atts, places[1..], false, p);
        HandledAppend(acts, SinglesActs(atts, places[1..], false), p);
      }
    }
  }

  lemma AlbumActsCount(atts: seq<Attachment>, places: seq<nat>, captioned: bool, p: nat)
    requires Within(places, atts)
    ensures TimesHandled(AlbumActs(atts, places, captioned), p) + Times(Escaping(atts, places, true), p)
            <= Times(places, p)
    ensures Through(atts, places, true) ==> TimesHandled(AlbumActs(atts, places, captioned), p) == Times(places, p)
  {
    GatherCounts(atts, places, p);
    EscapingIsOne(atts, places, true);
    if Through(atts, places, true) {
      var items := Fitting(atts, places);
      HandledAppend(GatherActs(atts, places), GroupActs(items, captioned), p);
      GroupCounts(items, captioned, p);
    } else {
      assert GatherActs(atts, places) + [] == GatherActs(atts, places);
    }
  }

  lemma GroupCounts(items: seq<nat>, captioned: bool, p: nat)
    ensures TimesHandled(GroupActs(items, captioned), p) == Times(items, p)
  {
    if |items| == 1 { assert items == [items[0]]; }
    if items != [] { assert GroupActs(items, captioned)[1..] == []; }
  }

  lemma HandledByParts(atts: seq<Attachment>, caption: string, p: nat)
    ensures var (head, tail) := SplitCaption(caption);
            TimesHandled(DeliverActs(atts, caption), p) ==
            TimesHandled(AlbumPart(atts, head.Some?), p) + TimesHandled(SinglesPart(atts, head.Some?), p)
  {
    hide SplitCaption, AlbumPart, SinglesPart, Completes;
    var (head, tail) := SplitCaption(caption);
    var first, second, third := AlbumPart(atts, head.Some?), SinglesPart(atts, head.Some?), TailPart(atts, tail);
    HandledAppend(first + second, third, p);
    HandledAppend(first, second, p);
    assert TimesHandled(third, p) == 0;
  }

  lemma {:induction false} PlacesCount(atts: seq<Attachment>, p: nat)
    ensures Times(AlbumOf(atts), p) + Times(Singles(atts, 0), p) == if p < |atts| then 1 else 0
  {
    hide Singles, AlbumPlaces;
    SinglesCount(atts, 0, p);
    AlbumCounts(atts, 0, p);
  }

  /** No attachment is ever handled twice; the one whose fetch escapes is not handled at all. */
  lemma HandledOnceAtMost(atts: seq<Attachment>, caption: string, p: nat)
    ensures TimesHandled(DeliverActs(atts, caption), p) <= if p < |atts| then 1 else 0
    ensures Completes(atts) ==> TimesHandled(DeliverActs(atts, caption), p) == if p < |atts| then 1 else 0
    ensures !Through(atts, AlbumOf(atts), true) && p in Escaping(atts, AlbumOf(atts), true) ==>
              TimesHandled(DeliverActs(atts, caption), p) == 0
    ensures Through(atts, AlbumOf(atts), true) && p in Escaping(atts, Singles(atts, 0), false) ==>
              TimesHandled(DeliverActs(atts, caption), p) == 0
  {
    hide SplitCaption, DeliverActs, Singles, AlbumOf, SinglesActs, AlbumActs, Escaping;
    var head := SplitCaption(caption).0;
    HandledByParts(atts, caption, p);
    PlacesCount(atts, p);
    var album, singles := AlbumOf(atts), Singles(atts, 0);
    EscapingIsOne(atts, album, true);
    EscapingIsOne(atts, singles, false);
    if album != [] { AlbumActsCount(atts, album, head.Some?, p); }
    SinglesActsCount(atts, singles, head.Some? && album == [], p);
  }

  /** Every attachment is handled exactly once, as itself, as part of the album, or as a notice, exactly when no fetch
      escapes: none fails, and no member of an album is without a source. */
  lemma EachIsHandledOnce(atts: seq<Attachment>, caption: string)
    ensures (forall p: nat :: p < |atts| ==> TimesHandled(DeliverActs(atts, caption), p) == 1) <==> Completes(atts)
  {
    hide DeliverActs, Singles, AlbumOf, Escaping;
    var album, singles := AlbumOf(atts), Singles(atts, 0);
    if Completes(atts) {
      forall p: nat | p < |atts| ensures TimesHandled(DeliverActs(atts, caption), p) == 1 {
        HandledOnceAtMost(atts, caption, p);
      }
    } else if Through(atts, album, true) {
      EscapingIsOne(atts, singles, false);
      HandledOnceAtMost(atts, caption, Escaping(atts, singles, false)[0]);
    } else {
      EscapingIsOne(atts, album, true);
      HandledOnceAtMost(atts, caption, Escaping(atts, album, true)[0]);
    }
  }

  // ---------------------------------------------------------------- where the caption goes

  /** The act that brings the words of the caption to Telegram. */
  predicate Carries(a: Act) { (a.Album? && a.captioned) || (a.Sent? && a.captioned) || a.CaptionAfter? || a.Tail? }

  function TimesCarried(acts: seq<Act>): nat {
    if acts == [] then 0 else (if Carries(acts[0]) then 1 else 0) + TimesCarried(acts[1..])
  }

  lemma {:induction false} CarriedAppend(a: seq<Act>, b: seq<Act>)
    ensures TimesCarried(a + b) == TimesCarried(a) + TimesCarried(b)
    decreases a
  {
    if a == [] {
      assert a + b == b;
    } else {
      assert (a + b)[1..] == a[1..] + b;
      CarriedAppend(a[1..], b);
    }
  }

  /** An attachment that goes as itself and can take a caption along: not a call, not a contact with a phone, and not
      a notice in place of its file. */
  predicate TakesCaption(a: Attachment) {
    !a.kind.Call? && !a.kind.ContactWithPhone? && (HasFile(a.kind) ==> a.fetch.Local?)
  }

  /** There is something the caption can ride on. */
  predicate CaptionRides(atts: seq<Attachment>) {
    if AlbumOf(atts) != [] then Through(atts, AlbumOf(atts), true) && Fitting(atts, AlbumOf(atts)) != []
    else Singles(atts, 0) != [] && TakesCaption(atts[Singles(atts, 0)[0]])
  }

  lemma {:induction false} GatheringCarriesNothing(atts: seq<Attachment>, places: seq<nat>)
    requires Within(places, atts)
    ensures TimesCarried(GatherActs(atts, places)) == 0
    decreases places
  {
    if places != [] {
      if Escapes(atts[places[0]], true) {
        assert [Fetched(places[0])] + [] == [Fetched(places[0])];
      } else {
        var notice: seq<Act> := if atts[places[0]].fetch.TooLarge? then [Notice(places[0])] else [];
        GatheringCarriesNothing(atts, places[1..]);
        CarriedAppend([Fetched(places[0])], notice + GatherActs(atts, places[1..]));
        CarriedAppend(notice, GatherActs(atts, places[1..]));
      }
    }
  }

  lemma CarriedByThree(acts: seq<Act>)
    requires 1 <= |acts| <= 3
    ensures TimesCarried(acts) ==
            (if Carries(acts[0]) then 1 else 0) + (if |acts| > 1 && Carries(acts[1]) then 1 else 0) +
            if |acts| > 2 && Carries(acts[2]) then 1 else 0
  {
    if |acts| > 1 {
      assert acts[1..][0] == acts[1];
      if |acts| > 2 { assert acts[1..][1..] == [acts[2]]; }
    }
  }

  lemma SingleCarries(a: Attachment, place: nat, captioned: bool)
    ensures TimesCarried(SingleActs(a, place, captioned)) == if captioned && TakesCaption(a) then 1 else 0
  {
    CarriedByThree(SingleActs(a, place, captioned));
  }

  lemma {:induction false} SinglesCarry(atts: seq<Attachment>, places: seq<nat>, captioned: bool)
    requires Within(places, atts)
    ensures TimesCarried(SinglesActs(atts, places, captioned)) ==
            if captioned && places != [] && TakesCaption(atts[places[0]]) then 1 else 0
    decreases places
  {
    if places != [] {
      hide SingleActs, TakesCaption;
      var acts := SingleActs(atts[places[0]], places[0], captioned);
      SingleCarries(atts[places[0]], places[0], captioned);
      if Escapes(atts[places[0]], false) {
        assert acts + [] == acts;
      } else {
        SinglesCarry(atts, places[1..], false);
        CarriedAppend(acts, SinglesActs(atts, places[1..], false));
      }
    }
  }

  lemma AlbumCarries(atts: seq<Attachment>, places: seq<nat>, captioned: bool)
    requires Within(places, atts)
    ensures TimesCarried(AlbumActs(atts, places, captioned)) ==
            if captioned && Through(atts, places, true) && Fitting(atts, places) != [] then 1 else 0
  {
    GatheringCarriesNothing(atts, places);
    if Through(atts, places, true) {
      var last := GroupActs(Fitting(atts, places), captioned);
      CarriedAppend(GatherActs(atts, places), last);
      if last != [] { assert last[1..] == []; }
    } else {
      assert GatherActs(atts, places) + [] == GatherActs(atts, places);
    }
  }

  /** A caption that fits goes out exactly once when there is something it can ride on, and is lost when there is not.
      One that does not fit rides on nothing; it goes out exactly once, last, as its own message, when the delivery
      completes. */
  lemma CaptionArrives(atts: seq<Attachment>, caption: string)
    ensures var (head, tail) := SplitCaption(caption);
            var acts := DeliverActs(atts, caption);
            && TimesCarried(acts) ==
               (if (tail != "" && Completes(atts)) || (head.Some? && CaptionRides(atts)) then 1 else 0)
            && (tail != "" && Completes(atts) ==> acts != [] && acts[|acts| - 1] == Tail)
  {
    hide Trimmed, Singles, AlbumPlaces, SinglesActs, AlbumActs, Completes;
    CaptionIsWhole(caption);
    var (head, tail) := SplitCaption(caption);
    var album := AlbumOf(atts);
    var first, second, third := AlbumPart(atts, head.Some?), SinglesPart(atts, head.Some?), TailPart(atts, tail);
    CarriedAppend(first + second, third);
    CarriedAppend(first, second);
    if album != [] { AlbumCarries(atts, album, head.Some?); }
    SinglesCarry(atts, Singles(atts, 0), head.Some? && album == []);
    if third != [] { assert third[1..] == []; }
  }

  /** Two photos over the limit: two notices, and the words that came with them go nowhere. */
  lemma CaptionOfOversizedPhotos(caption: string)
    requires |Trimmed(caption)| <= CAPTION_LIMIT
    ensures var photo := Attachment(Photo, TooLarge, false, 0);
            TimesCarried(DeliverActs([photo, photo], caption)) == 0
  {
    hide Trimmed, SplitCaption, DeliverActs, TimesCarried;
    CaptionIsWhole(caption);
    var photo := Attachment(Photo, TooLarge, false, 0);
    var atts := [photo, photo];
    CaptionArrives(atts, caption);
    assert AlbumPlaces(atts, 2) == [];
    assert AlbumPlaces(atts, 1) == [1];
    assert AlbumPlaces(atts, 0) == [0] + [1];
    FittingIsSome(atts, AlbumPlaces(atts, 0));
  }

  lemma {:induction false} FittingIsSome(atts: seq<Attachment>, places: seq<nat>)
    requires Within(places, atts)
    ensures Fitting(atts, places) != [] <==> exists i :: 0 <= i < |places| && !atts[places[i]].fetch.TooLarge?
    decreases places
  {
    if places != [] {
      FittingIsSome(atts, places[1..]);
      assert places == [places[0]] + places[1..];
    }
  }

  // ---------------------------------------------------------------- the announcement

  predicate HasRemote(acts: seq<Act>) { exists i :: 0 <= i < |acts| && Remote(acts[i]) }

  /** What the wrapped sender makes of the acts. */
  function Announcing(acts: seq<Act>, announced: bool): seq<Act>
    decreases acts
  {
    if acts == [] then []
    else (if Remote(acts[0]) && !announced then [Announced] else []) + [acts[0]] +
         Announcing(acts[1..], announced || Remote(acts[0]))
  }

  lemma {:induction false} AnnouncingAppend(a: seq<Act>, b: seq<Act>, announced: bool)
    ensures Announcing(a + b, announced) == Announcing(a, announced) + Announcing(b, announced || HasRemote(a))
    decreases a
  {
    if a == [] {
      assert a + b == b;
    } else {
      assert (a + b)[1..] == a[1..] + b;
      AnnouncingAppend(a[1..], b, announced || Remote(a[0]));
      RemoteHereOrLater(a);
    }
  }

  lemma RemoteHereOrLater(acts: seq<Act>)
    requires acts != []
    ensures HasRemote(acts) <==> Remote(acts[0]) || HasRemote(acts[1..])
  {
    if HasRemote(acts) && !Remote(acts[0]) {
      var i :| 0 <= i < |acts| && Remote(acts[i]);
      assert acts[1..][i - 1] == acts[i];
    }
    if HasRemote(acts[1..]) {
      var i :| 0 <= i < |acts[1..]| && Remote(acts[1..][i]);
      assert acts[i + 1] == acts[1..][i];
    }
  }

  /** The first act that reaches Telegram, or the end. */
  function FirstRemote(acts: seq<Act>): (k: nat)
    ensures k <= |acts| && (k < |acts| ==> Remote(acts[k])) && forall i :: 0 <= i < k ==> !Remote(acts[i])
  {
    if acts == [] || Remote(acts[0]) then 0 else 1 + FirstRemote(acts[1..])
  }

  lemma {:induction false} AnnouncedAlready(acts: seq<Act>)
    ensures Announcing(acts, true) == acts
    decreases acts
  {
    if acts != [] { AnnouncedAlready(acts[1..]); }
  }

  /** The announcement comes once, right before the first act that reaches Telegram, and only if there is one; so
      wherever the delivery is cut, nothing has reached Telegram unannounced. */
  lemma {:induction false} AnnouncedFirst(acts: seq<Act>)
    ensures Announcing(acts, true) == acts
    ensures var k := FirstRemote(acts);
            Announcing(acts, false) == if k == |acts| then acts else acts[..k] + [Announced] + acts[k..]
    decreases acts
  {
    AnnouncedAlready(acts);
    if acts != [] {
      var a, rest := acts[0], acts[1..];
      assert acts == [a] + rest;
      if Remote(a) {
        AnnouncedAlready(rest);
        assert acts[..0] + [Announced] + acts[0..] == [Announced] + [a] + rest;
      } else {
        AnnouncedFirst(rest);
        assert Announcing(acts, false) == [a] + Announcing(rest, false);
        if FirstRemote(acts) < |acts| { OneBefore(a, rest, FirstRemote(acts)); }
      }
    }
  }

  lemma OneBefore(a: Act, rest: seq<Act>, k: nat)
    requires 0 < k <= |rest|
    ensures [a] + (rest[..k - 1] + [Announced] + rest[k - 1..]) ==
            ([a] + rest)[..k] + [Announced] + ([a] + rest)[k..]
  {
  }

  // ---------------------------------------------------------------- what is fetched late

  /** A file is fetched after something has reached Telegram. */
  predicate FetchesLate(acts: seq<Act>, sent: bool)
    decreases acts
  {
    acts != [] && ((sent && acts[0].Fetched?) || FetchesLate(acts[1..], sent || Remote(acts[0])))
  }

  lemma {:induction false} LateAppend(a: seq<Act>, b: seq<Act>, sent: bool)
    ensures FetchesLate(a + b, sent) <==> FetchesLate(a, sent) || FetchesLate(b, sent || HasRemote(a))
    decreases a
  {
    if a == [] {
      assert a + b == b;
    } else {
      assert (a + b)[1..] == a[1..] + b;
      LateAppend(a[1..], b, sent || Remote(a[0]));
      RemoteHereOrLater(a);
    }
  }

  /** Some attachment of these, the first `from` left aside, has a file. */
  predicate FileAfter(atts: seq<Attachment>, places: seq<nat>, from: nat)
    requires Within(places, atts)
  {
    exists i :: from <= i < |places| && HasFile(atts[places[i]].kind)
  }

  /** Some attachment of these but the last is over the limit. */
  predicate OversizedBeforeLast(atts: seq<Attachment>, places: seq<nat>)
    requires Within(places, atts)
  {
    exists i :: 0 <= i < |places| - 1 && atts[places[i]].fetch.TooLarge?
  }

  lemma LateInSingle(a: Attachment, place: nat, captioned: bool, sent: bool)
    ensures FetchesLate(SingleActs(a, place, captioned), sent) <==> sent && HasFile(a.kind)
    ensures !Escapes(a, false) ==> HasRemote(SingleActs(a, place, captioned))
  {
    var acts := SingleActs(a, place, captioned);
    assert !Escapes(a, false) ==> Remote(acts[0]) || Remote(acts[1]);
    LateInThree(acts, sent);
  }

  lemma LateInThree(acts: seq<Act>, sent: bool)
    requires 1 <= |acts| <= 3 && forall i :: 1 <= i < |acts| ==> !acts[i].Fetched?
    ensures FetchesLate(acts, sent) <==> sent && acts[0].Fetched?
  {
    if |acts| > 1 {
      assert acts[1..][0] == acts[1];
      if |acts| > 2 {
        assert acts[1..][1..] == [acts[2]] && [acts[2]][1..] == [];
      } else {
        assert acts[1..][1..] == [];
      }
    } else {
      assert acts[1..] == [];
    }
  }

  lemma {:induction false} LateInSingles(atts: seq<Attachment>, places: seq<nat>, captioned: bool, sent: bool)
    requires Within(places, atts)
    ensures FetchesLate(SinglesActs(atts, places, captioned), sent) <==>
            FileAfter(atts, Reached(atts, places, false), if sent then 0 else 1)
    decreases places
  {
    if places != [] {
      var rest, reached := places[1..], Reached(atts, places, false);
      var acts := SingleActs(atts[places[0]], places[0], captioned);
      LateInSingle(atts[places[0]], places[0], captioned, sent);
      assert FileAfter(atts, reached, 0) <==> HasFile(atts[places[0]].kind) || FileAfter(atts, reached, 1) by {
        assert reached[0] == places[0];
      }
      if Escapes(atts[places[0]], false) {
        assert acts + [] == acts;
      } else {
        LateInSingles(atts, rest, false, true);
        LateAppend(acts, SinglesActs(atts, rest, false), sent);
        assert reached[1..] == Reached(atts, rest, false);
        FileAfterTail(atts, reached);
      }
    }
  }

  lemma FileAfterTail(atts: seq<Attachment>, places: seq<nat>)
    requires places != [] && Within(places, atts)
    ensures FileAfter(atts, places[1..], 0) <==> FileAfter(atts, places, 1)
  {
    if FileAfter(atts, places, 1) {
      var i :| 1 <= i < |places| && HasFile(atts[places[i]].kind);
      assert places[1..][i - 1] == places[i];
    }
    if FileAfter(atts, places[1..], 0) {
      var i :| 0 <= i < |places[1..]| && HasFile(atts[places[1..][i]].kind);
      assert places[i + 1] == places[1..][i];
    }
  }

  lemma {:induction false} LateInGathering(atts: seq<Attachment>, places: seq<nat>, sent: bool)
    requires Within(places, atts)
    ensures FetchesLate(GatherActs(atts, places), sent) <==>
            places != [] && (sent || OversizedBeforeLast(atts, Reached(atts, places, true)))
    decreases places
  {
    if places != [] {
      var f, rest, reached := places[0], places[1..], Reached(atts, places, true);
      LateInThree([Fetched(f)], sent);
      if Escapes(atts[f], true) {
        assert [Fetched(f)] + [] == [Fetched(f)];
      } else {
        var big := atts[f].fetch.TooLarge?;
        var notice: seq<Act> := if big then [Notice(f)] else [];
        LateInGathering(atts, rest, sent || big);
        OneGather(atts, places);
        LateAppend([Fetched(f)] + notice, GatherActs(atts, rest), sent);
        LateInThree([Fetched(f)] + notice, sent);
        assert HasRemote([Fetched(f)] + notice) <==> big by { if big { assert Remote(([Fetched(f)] + notice)[1]); } }
        assert reached[1..] == Reached(atts, rest, true);
        OversizedTail(atts, reached);
      }
    }
  }

  lemma OneGather(atts: seq<Attachment>, places: seq<nat>)
    requires Within(places, atts) && places != [] && !Escapes(atts[places[0]], true)
    ensures GatherActs(atts, places) ==
            [Fetched(places[0])] + (if atts[places[0]].fetch.TooLarge? then [Notice(places[0])] else []) +
            GatherActs(atts, places[1..])
  {
  }

  lemma {:induction false} RemoteInGathering(atts: seq<Attachment>, places: seq<nat>)
    requires Within(places, atts) && Through(atts, places, true)
    ensures HasRemote(GatherActs(atts, places)) <==> |Fitting(atts, places)| < |places|
    ensures |Fitting(atts, places)| <= |places|
    decreases places
  {
    if places != [] {
      var f, rest := places[0], places[1..];
      var notice: seq<Act> := if atts[f].fetch.TooLarge? then [Notice(f)] else [];
      RemoteInGathering(atts, rest);
      OneGather(atts, places);
      RemoteAppend([Fetched(f)] + notice, GatherActs(atts, rest));
      assert notice != [] ==> Remote(([Fetched(f)] + notice)[1]);
    }
  }

  lemma RemoteAppend(a: seq<Act>, b: seq<Act>)
    ensures HasRemote(a + b) <==> HasRemote(a) || HasRemote(b)
  {
    if HasRemote(a) {
      var i :| 0 <= i < |a| && Remote(a[i]);
      assert (a + b)[i] == a[i];
    }
    if HasRemote(b) {
      var i :| 0 <= i < |b| && Remote(b[i]);
      assert (a + b)[|a| + i] == b[i];
    }
  }

  lemma OversizedTail(atts: seq<Attachment>, places: seq<nat>)
    requires places != [] && Within(places, atts)
    ensures OversizedBeforeLast(atts, places) <==>
            |places| > 1 && (atts[places[0]].fetch.TooLarge? || OversizedBeforeLast(atts, places[1..]))
  {
    var rest := places[1..];
    if OversizedBeforeLast(atts, places) {
      var i :| 0 <= i < |places| - 1 && atts[places[i]].fetch.TooLarge?;
      if i > 0 { assert rest[i - 1] == places[i]; }
    }
    if OversizedBeforeLast(atts, rest) {
      var i :| 0 <= i < |rest| - 1 && atts[rest[i]].fetch.TooLarge?;
      assert places[i + 1] == rest[i];
    }
  }

  /** The documentation has everything fetched before anything is sent.  Of the attachments it reaches, the code has it
      so exactly when an album has no file over the limit before its last and no other file beside it, and, without
      an album, when no file comes after the first attachment. */
  lemma FetchedBeforeSent(atts: seq<Attachment>, caption: string)
    ensures
      var album, singles := AlbumOf(atts), Reached(atts, Singles(atts, 0), false);
      !FetchesLate(DeliverActs(atts, caption), false) <==>
      if album != []
      then !OversizedBeforeLast(atts, Reached(atts, album, true)) &&
           (Through(atts, album, true) ==> !FileAfter(atts, singles, 0))
      else !FileAfter(atts, singles, 1)
  {
    hide SplitCaption, Singles, AlbumOf, SinglesActs, AlbumActs, Reached, Completes;
    var (head, tail) := SplitCaption(caption);
    var album, singles := AlbumOf(atts), Singles(atts, 0);
    var first, second, third := AlbumPart(atts, head.Some?), SinglesPart(atts, head.Some?), TailPart(atts, tail);
    LateAppend(first + second, third, false);
    LateAppend(first, second, false);
    TailIsNotLate(atts, tail, HasRemote(first + second));
    LateInSingles(atts, singles, head.Some? && album == [], album != []);
    if album != [] {
      LateInAlbum(atts, album, head.Some?);
    } else {
      assert !HasRemote(first);
    }
  }

  lemma TailIsNotLate(atts: seq<Attachment>, tail: string, sent: bool)
    ensures !FetchesLate(TailPart(atts, tail), sent)
  {
    if TailPart(atts, tail) != [] { assert TailPart(atts, tail)[1..] == []; }
  }

  lemma LateInAlbum(atts: seq<Attachment>, places: seq<nat>, captioned: bool)
    requires Within(places, atts) && places != []
    ensures FetchesLate(AlbumActs(atts, places, captioned), false) <==>
            OversizedBeforeLast(atts, Reached(atts, places, true))
    ensures Through(atts, places, true) ==> HasRemote(AlbumActs(atts, places, captioned))
  {
    hide GatherActs, Fitting, Reached;
    LateInGathering(atts, places, false);
    if Through(atts, places, true) {
      var last := GroupActs(Fitting(atts, places), captioned);
      RemoteInGathering(atts, places);
      LateAppend(GatherActs(atts, places), last, false);
      RemoteAppend(GatherActs(atts, places), last);
      if last != [] {
        assert last[1..] == [];
        assert Remote(last[0]);
      }
    } else {
      assert GatherActs(atts, places) + [] == GatherActs(atts, places);
    }
  }

  // ---------------------------------------------------------------- what becomes of each attachment

  predicate Rising(places: seq<nat>) { forall i, j :: 0 <= i < j < |places| ==> places[i] < places[j] }

  predicate RisesFrom(places: seq<nat>, from: nat) {
    Rising(places) && forall i :: 0 <= i < |places| ==> from <= places[i]
  }

  lemma PlaceInFront(from: nat, chosen: bool, more: seq<nat>, p: nat)
    requires RisesFrom(more, from + 1)
    ensures var r := (if chosen then [from] else []) + more;
            RisesFrom(r, from) && (p in r <==> (chosen && p == from) || p in more)
  {
    if !chosen { assert [] + more == more; }
  }

  lemma {:induction false} AlbumPlacesAre(atts: seq<Attachment>, from: nat, p: nat)
    requires from <= |atts|
    ensures RisesFrom(AlbumPlaces(atts, from), from)
    ensures p in AlbumPlaces(atts, from) <==>
            from <= p < |atts| && (atts[p].kind == Photo || atts[p].kind == Video)
    decreases |atts| - from
  {
    if from < |atts| {
      hide RisesFrom;
      AlbumPlacesAre(atts, from + 1, p);
      PlaceInFront(from, AlbumKind(atts[from].kind), AlbumPlaces(atts, from + 1), p);
    }
  }

  lemma {:induction false} SinglesAre(atts: seq<Attachment>, from: nat, p: nat)
    requires from <= |atts|
    ensures RisesFrom(Singles(atts, from), from)
    ensures p in Singles(atts, from) <==> from <= p < |atts| && (!AlbumKind(atts[p].kind) || AlbumOf(atts) == [])
    decreases |atts| - from
  {
    if from < |atts| {
      hide AlbumOf, RisesFrom;
      SinglesAre(atts, from + 1, p);
      PlaceInFront(from, !AlbumKind(atts[from].kind) || AlbumOf(atts) == [], Singles(atts, from + 1), p);
    }
  }

  /** A photo or a video that is not the only one. */
  predicate Grouped(atts: seq<Attachment>, p: nat) {
    && p < |atts|
    && (atts[p].kind == Photo || atts[p].kind == Video)
    && exists q :: 0 <= q < |atts| && q != p && (atts[q].kind == Photo || atts[q].kind == Video)
  }

  /** The photos and videos go together where there are two or more, and everything else goes as itself; both keep the
      order of the attachments. */
  lemma PlacesAre(atts: seq<Attachment>)
    ensures Rising(AlbumOf(atts)) && forall p: nat :: p in AlbumOf(atts) <==> Grouped(atts, p)
    ensures Rising(Singles(atts, 0)) && forall p: nat :: p in Singles(atts, 0) <==> p < |atts| && !Grouped(atts, p)
  {
    AlbumRises(atts);
    hide Singles, AlbumPlaces, Grouped;
    var places := AlbumPlaces(atts, 0);
    AlbumPlacesAre(atts, 0, 0);
    SinglesAre(atts, 0, 0);
    forall p: nat ensures p in AlbumOf(atts) <==> Grouped(atts, p) {
      AlbumPlacesAre(atts, 0, p);
      if p in places { GroupedIs(atts, p); } else { NotGrouped(atts, p); }
    }
    forall p: nat ensures p in Singles(atts, 0) <==> p < |atts| && !Grouped(atts, p) {
      SinglesAre(atts, 0, p);
      AlbumPlacesAre(atts, 0, p);
      if p in places { GroupedIs(atts, p); } else { NotGrouped(atts, p); }
    }
  }

  lemma NotGrouped(atts: seq<Attachment>, p: nat)
    requires p < |atts| ==> atts[p].kind != Photo && atts[p].kind != Video
    ensures !Grouped(atts, p)
  {
  }

  lemma GroupedIs(atts: seq<Attachment>, p: nat)
    requires p in AlbumPlaces(atts, 0)
    ensures Grouped(atts, p) <==> |AlbumPlaces(atts, 0)| >= 2
  {
    hide AlbumPlaces;
    var places := AlbumPlaces(atts, 0);
    AlbumPlacesAre(atts, 0, p);
    var k :| 0 <= k < |places| && places[k] == p;
    if |places| >= 2 {
      var q := places[if k == 0 then 1 else 0];
      AlbumPlacesAre(atts, 0, q);
    } else {
      assert places == [p];
      forall q | 0 <= q < |atts| && (atts[q].kind == Photo || atts[q].kind == Video) ensures q == p {
        AlbumPlacesAre(atts, 0, q);
      }
    }
  }

  lemma RestRises(places: seq<nat>, from: nat)
    requires RisesFrom(places, from) && places != []
    ensures from <= places[0] && RisesFrom(places[1..], places[0] + 1)
  {
  }

  lemma RisesLower(places: seq<nat>, from: nat, lower: nat)
    requires RisesFrom(places, from) && lower <= from
    ensures RisesFrom(places, lower)
  {
  }

  lemma {:induction false} FittingIs(atts: seq<Attachment>, places: seq<nat>, from: nat, p: nat)
    requires Within(places, atts) && RisesFrom(places, from)
    ensures RisesFrom(Fitting(atts, places), from)
    ensures p in Fitting(atts, places) <==> p in places && atts[p].fetch != TooLarge
    decreases places
  {
    if places != [] {
      hide RisesFrom;
      var first, rest := places[0], places[1..];
      assert places == [first] + rest;
      RestRises(places, from);
      FittingIs(atts, rest, first + 1, p);
      PlaceInFront(first, !atts[first].fetch.TooLarge?, Fitting(atts, rest), p);
      RisesLower(Fitting(atts, places), first, from);
    }
  }

  /** Of the album, what is not over the limit, in the same order. */
  lemma FittingAre(atts: seq<Attachment>)
    ensures var items := Fitting(atts, AlbumOf(atts));
            Rising(items) && forall p: nat :: p in items <==> Grouped(atts, p) && atts[p].fetch != TooLarge
  {
    PlacesAre(atts);
    hide AlbumOf, Fitting, Grouped, Rising;
    AlbumRises(atts);
    FittingIs(atts, AlbumOf(atts), 0, 0);
    ToRising(Fitting(atts, AlbumOf(atts)));
    forall p: nat ensures p in Fitting(atts, AlbumOf(atts)) <==> Grouped(atts, p) && atts[p].fetch != TooLarge {
      FittingIs(atts, AlbumOf(atts), 0, p);
    }
  }

  lemma AlbumRises(atts: seq<Attachment>)
    ensures RisesFrom(AlbumOf(atts), 0)
  {
    AlbumPlacesAre(atts, 0, 0);
  }

  lemma ToRising(places: seq<nat>)
    requires RisesFrom(places, 0)
    ensures Rising(places)
  {
  }

  /** How an attachment that goes as itself is delivered: as what it is, with the caption if it takes one, unless its
      file cannot be had; a sticker and a refused photo take one act more. */
  lemma SingleIs(a: Attachment, place: nat, captioned: bool)
    requires !Escapes(a, false)
    ensures var acts := SingleActs(a, place, captioned);
            var file := a.kind == Photo || a.kind == Video || a.kind == Sticker || a.kind == OtherFile;
            var takes := !a.kind.Call? && !a.kind.ContactWithPhone? && !a.kind.Sticker?;
            && (Fetched(place) in acts <==> file)
            && (Notice(place) in acts <==> file && a.fetch != Local)
            && (Sent(place, captioned && takes) in acts <==> !file || a.fetch == Local)
            && (CaptionAfter(place) in acts <==> captioned && a.kind == Sticker && a.fetch == Local)
            && (PhotoRefused(place) in acts <==> a.kind == ContactCard(true) && !a.usable)
            && (forall act <- acts :: ActPlace(act) == Some(place))
  {
  }

  /** The one attachment an act is about. */
  function ActPlace(a: Act): Option<nat> {
    match a
    case Fetched(p) => Some(p)
    case Notice(p) => Some(p)
    case Sent(p, _) => Some(p)
    case PhotoRefused(p) => Some(p)
    case CaptionAfter(p) => Some(p)
    case _ => None
  }

  /** Every act is about one of these places. */
  predicate About(acts: seq<Act>, places: seq<nat>) {
    forall i :: 0 <= i < |acts| ==> ActPlace(acts[i]).Some? && ActPlace(acts[i]).value in places
  }

  lemma AboutJoins(a: seq<Act>, b: seq<Act>, places: seq<nat>, more: seq<nat>)
    requires About(a, places) && About(b, more)
    ensures About(a + b, places + more)
  {
  }

  lemma SingleIsAbout(a: Attachment, place: nat, captioned: bool)
    ensures About(SingleActs(a, place, captioned), [place])
  {
  }

  lemma {:induction false} SinglesAreAbout(atts: seq<Attachment>, places: seq<nat>, captioned: bool)
    requires Within(places, atts)
    ensures About(SinglesActs(atts, places, captioned), places)
    decreases places
  {
    if places != [] {
      hide SingleActs;
      SingleIsAbout(atts[places[0]], places[0], captioned);
      SinglesAreAbout(atts, places[1..], false);
      var first := SingleActs(atts[places[0]], places[0], captioned);
      assert places == [places[0]] + places[1..];
      AboutJoins(first, if Escapes(atts[places[0]], false) then [] else SinglesActs(atts, places[1..], false),
                 [places[0]], places[1..]);
    }
  }

  /** What goes as itself goes one after the other, in the order of the attachments; the caption can only ride on the
      first. */
  lemma {:induction false} SinglesInTurn(atts: seq<Attachment>, places: seq<nat>, captioned: bool, k: nat)
    returns (before: seq<Act>, after: seq<Act>)
    requires Within(places, atts) && Through(atts, places, false) && k < |places|
    ensures SinglesActs(atts, places, captioned) ==
            before + SingleActs(atts[places[k]], places[k], captioned && k == 0) + after
    ensures About(before, places[..k]) && About(after, places[k + 1..])
    decreases places
  {
    hide SingleActs;
    var first, rest := SingleActs(atts[places[0]], places[0], captioned), places[1..];
    assert places == [places[0]] + rest;
    if k == 0 {
      before, after := [], SinglesActs(atts, rest, false);
      SinglesAreAbout(atts, rest, false);
      assert [] + first == first;
    } else {
      var b, a := SinglesInTurn(atts, rest, false, k - 1);
      before, after := first + b, a;
      SingleIsAbout(atts[places[0]], places[0], captioned);
      AboutJoins(first, b, [places[0]], rest[..k - 1]);
      assert places[..k] == [places[0]] + rest[..k - 1] && places[k + 1..] == rest[k..];
      var mine := SingleActs(atts[places[k]], places[k], false);
      Associative(first, b + mine, a);
      Associative(first, b, mine);
    }
  }

  lemma {:induction false} GatheredIsAbout(atts: seq<Attachment>, places: seq<nat>)
    requires Within(places, atts)
    ensures About(GatherActs(atts, places), places)
    decreases places
  {
    if places != [] {
      var rest := places[1..];
      assert places == [places[0]] + rest;
      if !Escapes(atts[places[0]], true) {
        GatheredIsAbout(atts, rest);
        OneGather(atts, places);
        var notice: seq<Act> := if atts[places[0]].fetch.TooLarge? then [Notice(places[0])] else [];
        AboutJoins([Fetched(places[0])] + notice, GatherActs(atts, rest), [places[0]], rest);
      }
    }
  }

  lemma {:induction false} GatheredIs(atts: seq<Attachment>, places: seq<nat>, p: nat, captioned: bool)
    requires Within(places, atts) && Through(atts, places, true)
    ensures var acts := GatherActs(atts, places);
            && (Fetched(p) in acts <==> p in places)
            && (Notice(p) in acts <==> p in places && atts[p].fetch == TooLarge)
            && Sent(p, captioned) !in acts
    decreases places
  {
    if places != [] {
      var rest := places[1..];
      assert places == [places[0]] + rest;
      GatheredIs(atts, rest, p, captioned);
      OneGather(atts, places);
      hide GatherActs, Escapes;
    }
  }

  /** An album is fetched file by file, with a notice for each over the limit; then the others go together in their
      order, or the only one as itself, under the caption. */
  lemma AlbumIs(atts: seq<Attachment>, places: seq<nat>, captioned: bool) returns (gathered: seq<Act>)
    requires Within(places, atts) && Through(atts, places, true)
    ensures var items := Fitting(atts, places);
            AlbumActs(atts, places, captioned) ==
            gathered + match |items|
                       case 0 => []
                       case 1 => [Sent(items[0], captioned)]
                       case _ => [Album(items, captioned)]
    ensures About(gathered, places)
    ensures forall p: nat :: Fetched(p) in gathered <==> p in places
    ensures forall p: nat :: Notice(p) in gathered <==> p in places && atts[p].fetch == TooLarge
    ensures forall p: nat, c :: Sent(p, c) !in gathered
  {
    hide GatherActs, Fitting, Escapes, About;
    gathered := GatherActs(atts, places);
    GatheredIsAbout(atts, places);
    forall p: nat ensures Fetched(p) in gathered <==> p in places { GatheredIs(atts, places, p, false); }
    forall p: nat ensures Notice(p) in gathered <==> p in places && atts[p].fetch == TooLarge {
      GatheredIs(atts, places, p, false);
    }
    forall p: nat, c: bool ensures Sent(p, c) !in gathered { GatheredIs(atts, places, p, c); }
  }

  /** A complete delivery: the album first, then what goes as itself, then the caption that would not ride. */
  lemma DeliveryIs(atts: seq<Attachment>, caption: string) returns (album: seq<Act>, singles: seq<Act>)
    requires Completes(atts)
    ensures var text := Trimmed(caption);
            var rides := 0 < |text| <= 1024;
            && DeliverActs(atts, caption) == album + singles + (if |text| > 1024 then [Tail] else [])
            && (AlbumOf(atts) == [] ==> album == [])
            && (AlbumOf(atts) != [] ==> album == AlbumActs(atts, AlbumOf(atts), rides))
            && singles == SinglesActs(atts, Singles(atts, 0), rides && AlbumOf(atts) == [])
  {
    hide Trimmed, Singles, AlbumOf, SinglesActs, AlbumActs;
    CaptionIsWhole(caption);
    var head := SplitCaption(caption).0;
    album, singles := AlbumPart(atts, head.Some?), SinglesPart(atts, head.Some?);
  }

  // ---------------------------------------------------------------- the answer to an album

  datatype Check = Fine | WrongCount | Repeated | OutOfOrder | Impossible

  predicate Ascending(ids: seq<int>) { forall i :: 0 <= i < |ids| - 1 ==> ids[i] < ids[i + 1] }

  function CheckAlbumReceipt(ids: seq<int>, expected: nat): Check {
    if |ids| != expected then WrongCount
    else if exists i, j :: 0 <= i < j < |ids| && ids[i] == ids[j] then Repeated
    else if !Ascending(ids) then OutOfOrder
    else if exists i :: 0 <= i < |ids| && ids[i] <= 0 then Impossible
    else Fine
  }

  lemma {:induction false} AscendingThrough(ids: seq<int>, i: nat, j: nat)
    requires Ascending(ids) && i < j < |ids|
    ensures ids[i] < ids[j]
    decreases j
  {
    if i < j - 1 { AscendingThrough(ids, i, j - 1); }
  }

  /** An answer passes exactly when there are as many ids as parts, in strictly ascending order from a positive one. */
  lemma AnswerPasses(ids: seq<int>, expected: nat)
    ensures CheckAlbumReceipt(ids, expected).Fine? <==>
            |ids| == expected && Ascending(ids) && (ids != [] ==> ids[0] > 0)
  {
    if Ascending(ids) {
      forall i, j | 0 <= i < j < |ids| ensures ids[i] < ids[j] { AscendingThrough(ids, i, j); }
    }
  }

  /** One message of an album, and what it holds. */
  datatype Part = Part(id: int, kind: Kind, index: nat)

  datatype Receipt = Receipt(head: Option<int>, album: seq<Part>)

  /** The parts, each under the id of its place in the answer. */
  function Parts(atts: seq<Attachment>, items: seq<nat>, ids: seq<int>): seq<Part>
    requires Within(items, atts) && |items| == |ids|
  {
    seq(|items|, k requires 0 <= k < |items| => Part(ids[k], KindAt(atts, items, k), k))
  }

  function KindAt(atts: seq<Attachment>, items: seq<nat>, k: nat): Kind
    requires Within(items, atts) && k < |items|
  {
    atts[items[k]].kind
  }

  /** The parts of an album whose answer passed: numbered from 0, each the kind of the item it carries, in the order
      of the items, under strictly ascending positive ids. */
  lemma AlbumParts(atts: seq<Attachment>, items: seq<nat>, ids: seq<int>)
    requires Within(items, atts) && CheckAlbumReceipt(ids, |items|).Fine?
    ensures var parts := Parts(atts, items, ids);
            && |parts| == |items|
            && (forall k :: 0 <= k < |parts| ==>
                  && parts[k].index == k && parts[k].kind == atts[items[k]].kind
                  && parts[k].id == ids[k] > 0)
            && (forall k :: 0 < k < |parts| ==> parts[k - 1].id < parts[k].id)
  {
    AnswerPasses(ids, |items|);
    forall k | 0 < k < |ids| ensures ids[k] > ids[0] > 0 { AscendingThrough(ids, 0, k); }
  }

  /** What an album becomes, or `None` where a fetch escapes or the check refuses the answer. */
  function AlbumAnswer(atts: seq<Attachment>, places: seq<nat>, ids: seq<int>): Option<seq<Part>>
    requires Within(places, atts)
  {
    var items := Fitting(atts, places);
    if !Through(atts, places, true) then None
    else if items == [] then Some([])
    else if |items| == 1 then Some([Part(atts[items[0]].id, atts[items[0]].kind, 0)])
    else if CheckAlbumReceipt(ids, |items|).Fine? then Some(Parts(atts, items, ids))
    else None
  }

  /** The first message a delivery made: of the album, of what goes as itself, or the caption on its own. */
  function Head(atts: seq<Attachment>, parts: seq<Part>, tail: string, tailId: int): Option<int> {
    var singles := Singles(atts, 0);
    if parts != [] then Some(parts[0].id)
    else if singles != [] then Some(atts[singles[0]].id)
    else if tail != "" then Some(tailId)
    else None
  }

  /** An album has no answer exactly when a file of it fails or names no source, or the ids of a real album are
      refused. */
  lemma AnswerIs(atts: seq<Attachment>, places: seq<nat>, ids: seq<int>)
    requires Within(places, atts) && forall i :: 0 <= i < |places| ==> AlbumKind(atts[places[i]].kind)
    ensures AlbumAnswer(atts, places, ids).None? <==>
            || (exists i :: 0 <= i < |places| && atts[places[i]].fetch in {Failed, SourceMissing})
            || (|Fitting(atts, places)| >= 2 && CheckAlbumReceipt(ids, |Fitting(atts, places)|) != Fine)
  {
    hide Fitting, CheckAlbumReceipt, Parts;
  }

  /** The message a receipt names first: of the album, the only item's or the first of the answer; else what the first
      attachment that went as itself became; else the caption on its own. */
  lemma HeadIs(atts: seq<Attachment>, ids: seq<int>, tail: string, tailId: int)
    requires Completes(atts)
    ensures var items, singles := Fitting(atts, AlbumOf(atts)), Singles(atts, 0);
            var parts := if AlbumOf(atts) == [] then Some([]) else AlbumAnswer(atts, AlbumOf(atts), ids);
            parts.Some? ==>
              Head(atts, parts.value, tail, tailId) ==
              if |items| >= 2 then Some(ids[0])
              else if |items| == 1 then Some(atts[items[0]].id)
              else if singles != [] then Some(atts[singles[0]].id)
              else if tail != "" then Some(tailId)
              else None
  {
    hide Singles, AlbumOf;
  }

  // ---------------------------------------------------------------- the delivery

  /** `MaxMediaDelivery` over a sender that announces its first use, with what was done for the proof: `done` without
      the announcement, `trace` with it. */
  class MaxMediaDelivery {
    var announced: bool
    ghost var done: seq<Act>
    ghost var trace: seq<Act>

    ghost predicate Valid()
      reads this
    {
      trace == Announcing(done, false) && announced == HasRemote(done)
    }

    constructor ()
      ensures Valid() && done == []
    {
      announced := false;
      done := [];
      trace := [];
    }

    /** A call on the sender, through `_AnnouncesFirstSend`. */
    method Send(a: Act)
      requires Valid() && Remote(a)
      modifies this
      ensures Valid() && done == old(done) + [a]
    {
      AnnouncingAppend(done, [a], false);
      assert [a][1..] == [];
      if !announced {
        announced := true;
        trace := trace + [Announced];
      }
      trace := trace + [a];
      done := done + [a];
      assert Remote(done[|done| - 1]);
    }

    ghost method Fetch(place: nat)
      requires Valid()
      modifies this`done, this`trace
      ensures Valid() && done == old(done) + [Fetched(place)]
    {
      AnnouncingAppend(done, [Fetched(place)], false);
      assert [Fetched(place)][1..] == [];
      RemoteAppend(done, [Fetched(place)]);
      trace := trace + [Fetched(place)];
      done := done + [Fetched(place)];
    }

    /** `None` where a fetch escapes. */
    method Gather(atts: seq<Attachment>, places: seq<nat>) returns (items: Option<seq<nat>>)
      requires Valid() && Within(places, atts)
      modifies this
      ensures Valid() && done == old(done) + GatherActs(atts, places)
      ensures items == if Through(atts, places, true) then Some(Fitting(atts, places)) else None
    {
      hide GatherActs, Fitting;
      var kept: seq<nat> := [];
      ghost var was := done;
      assert places[0..] == places && was + [] == was && kept + Fitting(atts, places) == Fitting(atts, places);
      for i := 0 to |places|
        invariant Valid() && Within(kept, atts) && Through(atts, places[..i], true)
        invariant done + GatherActs(atts, places[i..]) == was + GatherActs(atts, places)
        invariant kept + Fitting(atts, places[i..]) == Fitting(atts, places)
      {
        var place := places[i];
        ghost var t, more := done, GatherActs(atts, places[i + 1..]);
        OneGathered(atts, places, i);
        Fetch(place);
        if Escapes(atts[place], true) { return None; }
        assert places[..i + 1] == places[..i] + [place];
        if atts[place].fetch.TooLarge? {
          Send(Notice(place));
          Associative(t, [Fetched(place)] + [Notice(place)], more);
          Associative(t, [Fetched(place)], [Notice(place)]);
        } else {
          Associative(t, [Fetched(place)], more);
          Associative(kept, [place], Fitting(atts, places[i + 1..]));
          kept := kept + [place];
        }
      }
      assert places[..|places|] == places && places[|places|..] == [];
      NoPlaces(atts, false);
      assert done + [] == done && kept + [] == kept;
      return Some(kept);
    }

    method SendAlbum(atts: seq<Attachment>, places: seq<nat>, captioned: bool, ids: seq<int>)
      returns (parts: Option<seq<Part>>)
      requires Valid() && Within(places, atts)
      modifies this
      ensures Valid() && done == old(done) + AlbumActs(atts, places, captioned)
      ensures parts == AlbumAnswer(atts, places, ids)
    {
      hide GatherActs, Fitting;
      ghost var was, gathered := done, GatherActs(atts, places);
      assert gathered + [] == gathered;
      var found := Gather(atts, places);
      if found.None? { return None; }
      var items := found.value;
      if items == [] { return Some([]); }
      Associative(was, gathered, GroupActs(items, captioned));
      if |items| == 1 {
        Send(Sent(items[0], captioned));
        return Some([Part(atts[items[0]].id, atts[items[0]].kind, 0)]);
      }
      Send(Album(items, captioned));
      if !CheckAlbumReceipt(ids, |items|).Fine? { return None; }
      return Some(Parts(atts, items, ids));
    }

    /** `None` where the fetch escapes. */
    method SendOne(a: Attachment, place: nat, captioned: bool) returns (id: Option<int>)
      requires Valid()
      modifies this
      ensures Valid() && done == old(done) + SingleActs(a, place, captioned)
      ensures id == if Escapes(a, false) then None else Some(a.id)
    {
      if a.kind.Call? || a.kind.ContactWithPhone? {
        Send(Sent(place, false));
      } else if !HasFile(a.kind) {
        if a.kind.ContactCard? && a.kind.photo && !a.usable { Send(PhotoRefused(place)); }
        Send(Sent(place, captioned));
      } else {
        Fetch(place);
        if a.fetch.Failed? { return None; }
        if !a.fetch.Local? {
          Send(Notice(place));
        } else if a.kind.Sticker? {
          Send(Sent(place, false));
          if captioned { Send(CaptionAfter(place)); }
        } else {
          Send(Sent(place, captioned));
        }
      }
      return Some(a.id);
    }

    /** `None` where a fetch escapes or the answer to the album is refused; in the latter case what was done by then is
        only the start of the acts. */
    method DeliverReceipt(atts: seq<Attachment>, caption: string, ids: seq<int>, tailId: int)
      returns (r: Option<Receipt>)
      requires Valid()
      modifies this
      ensures Valid()
      ensures var parts := if AlbumOf(atts) == [] then Some([]) else AlbumAnswer(atts, AlbumOf(atts), ids);
              && (r.Some? <==> Completes(atts) && parts.Some?)
              && (r.Some? ==>
                    r.value == Receipt(Head(atts, parts.value, SplitCaption(caption).1, tailId), parts.value))
              && (parts.Some? || !Through(atts, AlbumOf(atts), true) ==>
                    done == old(done) + DeliverActs(atts, caption))
      ensures done <= old(done) + DeliverActs(atts, caption)
    {
      hide Trimmed, AlbumActs, SplitCaption, Singles, AlbumOf, SinglesActs, Parts, CheckAlbumReceipt, GroupActs;
      hide Fitting;
      var (head, tail) := SplitCaption(caption);
      var album, singles := AlbumOf(atts), Singles(atts, 0);
      var firstId, captionUsed, parts: seq<Part> := None, false, [];
      ghost var was := done;
      ghost var first, second := AlbumPart(atts, head.Some?), SinglesPart(atts, head.Some?);
      ghost var third := TailPart(atts, tail);
      Associative(was, first, second);
      Associative(was, first + second, third);
      if album != [] {
        var answer := SendAlbum(atts, album, head.Some?, ids);
        if answer.None? {
          if !Through(atts, album, true) { assert first + second + third == first; }
          return None;
        }
        parts := answer.value;
        if parts != [] { firstId := Some(parts[0].id); }
        captionUsed := true;
      }
      assert done == was + first by { if album == [] { assert was + [] == was; } }
      var sent, last := SendSingles(atts, singles, head.Some? && !captionUsed, firstId);
      firstId := last;
      if !sent {
        assert third == [] && done + [] == done;
        return None;
      }
      if tail != "" {
        Send(Tail);
        if firstId.None? { firstId := Some(tailId); }
      } else {
        assert done + [] == done;
      }
      return Some(Receipt(firstId, parts));
    }

    /** Whether every attachment went, and the first id so far. */
    method SendSingles(atts: seq<Attachment>, singles: seq<nat>, captioned: bool, before: Option<int>)
      returns (sent: bool, firstId: Option<int>)
      requires Valid() && Within(singles, atts)
      modifies this
      ensures Valid() && done == old(done) + SinglesActs(atts, singles, captioned)
      ensures sent <==> Through(atts, singles, false)
      ensures sent ==> firstId == if before.Some? || singles == [] then before else Some(atts[singles[0]].id)
    {
      hide SinglesActs, SingleActs;
      sent, firstId := true, before;
      ghost var was := done;
      assert singles[0..] == singles;
      for i := 0 to |singles|
        invariant Valid() && Through(atts, singles[..i], false) && sent
        invariant done + SinglesActs(atts, singles[i..], captioned && i == 0) ==
                  was + SinglesActs(atts, singles, captioned)
        invariant firstId == if before.Some? || i == 0 then before else Some(atts[singles[0]].id)
      {
        var place := singles[i];
        OneSingle(atts, singles, i, captioned && i == 0, done);
        var id := SendOne(atts[place], place, captioned && i == 0);
        if id.None? {
          assert done + [] == done;
          return false, firstId;
        }
        assert singles[..i + 1] == singles[..i] + [place];
        if firstId.None? { firstId := id; }
      }
      assert singles[..|singles|] == singles && singles[|singles|..] == [] && done + [] == done;
      NoPlaces(atts, captioned && |singles| == 0);
    }
  }

  lemma OneSingle(atts: seq<Attachment>, singles: seq<nat>, i: nat, captioned: bool, done: seq<Act>)
    requires Within(singles, atts) && i < |singles|
    ensures var p := singles[i];
            done + SinglesActs(atts, singles[i..], captioned) ==
            done + SingleActs(atts[p], p, captioned) +
            if Escapes(atts[p], false) then [] else SinglesActs(atts, singles[i + 1..], false)
  {
    var p := singles[i];
    assert singles[i..][0] == p && singles[i..][1..] == singles[i + 1..];
    Associative(done, SingleActs(atts[p], p, captioned),
           if Escapes(atts[p], false) then [] else SinglesActs(atts, singles[i + 1..], false));
  }

  lemma OneGathered(atts: seq<Attachment>, places: seq<nat>, i: nat)
    requires Within(places, atts) && i < |places|
    ensures var p, rest := places[i], places[i + 1..];
            if Escapes(atts[p], true) then GatherActs(atts, places[i..]) == [Fetched(p)]
            else if atts[p].fetch.TooLarge?
            then && GatherActs(atts, places[i..]) == [Fetched(p)] + [Notice(p)] + GatherActs(atts, rest)
                 && Fitting(atts, places[i..]) == Fitting(atts, rest)
            else && GatherActs(atts, places[i..]) == [Fetched(p)] + GatherActs(atts, rest)
                 && Fitting(atts, places[i..]) == [p] + Fitting(atts, rest)
  {
    var p := places[i];
    assert places[i..][0] == p && places[i..][1..] == places[i + 1..];
    if !Escapes(atts[p], true) { OneGather(atts, places[i..]); }
    assert [Fetched(p)] + [] == [Fetched(p)];
    assert [] + Fitting(atts, places[i + 1..]) == Fitting(atts, places[i + 1..]);
  }

  lemma NoPlaces(atts: seq<Attachment>, captioned: bool)
    ensures GatherActs(atts, []) == [] && Fitting(atts, []) == [] && SinglesActs(atts, [], captioned) == []
  {
  }
}
