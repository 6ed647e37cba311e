// Reading a chat's history back page by page: `bridge/max_client/client.py` (`_page_history`, `fetch_history`).
//
// The server answers the newest `page` messages at or before a moment.  The walk asks again from the oldest
// moment it has seen, and stops when a page brings nothing new.
module HistoryPaging {
  import opened Sequences
  import opened Wrappers

  const MAX_PAGE: int := 200
  const MAX_MESSAGES: int := 20000

  datatype Message = Message(id: int, time: int)

  /** A chat as MAX holds it: ids rise, and times never fall. */
  ghost predicate Chat(h: seq<Message>) {
    && (forall i, j | 0 <= i < j < |h| :: h[i].id < h[j].id && h[i].time <= h[j].time)
    && (forall i | 0 <= i < |h| :: 0 < h[i].time)
  }

  // ---------------------------------------------------------------- the server

  /** How many messages are no later than `t`. */
  function UpTo(h: seq<Message>, t: int): (n: nat)
    ensures n <= |h|
    ensures n > 0 ==> h[n - 1].time <= t
    ensures forall i | n <= i < |h| :: t < h[i].time
  {
    if h == [] then 0
    else
      var last := |h| - 1;
      if h[last].time <= t then |h|
      else
        var n := UpTo(h[..last], t);
        assert forall i | n <= i < last :: h[i] == h[..last][i];
        n
  }

  function Floor(x: int): nat { if x < 0 then 0 else x }

  /** Where a page that ends before position `end` begins. */
  function PageStart(end: nat, page: nat): (b: nat)
    ensures b <= end
  {
    Floor(end - page)
  }

  function Answer(h: seq<Message>, page: nat, from: Option<int>): seq<Message> {
    var end := if from.None? then |h| else UpTo(h, from.value);
    h[PageStart(end, page)..end]
  }

  // ---------------------------------------------------------------- one round of the walk

  function Ids(batch: seq<Message>): set<int> { set m | m in batch :: m.id }

  /** The messages of `batch` whose key has not been seen. */
  function Unseen(batch: seq<Message>, seen: set<int>): seq<Message> {
    if batch == [] then []
    else
      var last := |batch| - 1;
      Unseen(batch[..last], seen) + if batch[last].id in seen then [] else [batch[last]]
  }

  function Oldest(batch: seq<Message>): (t: int)
    requires batch != []
    ensures exists i | 0 <= i < |batch| :: batch[i].time == t
    ensures forall i | 0 <= i < |batch| :: t <= batch[i].time
  {
    var last := |batch| - 1;
    if last == 0 then batch[0].time
    else
      var t := Oldest(batch[..last]);
      assert forall i | 0 <= i < last :: batch[i] == batch[..last][i];
      if batch[last].time < t then batch[last].time else t
  }

  lemma UnseenAppend(batch: seq<Message>, m: Message, seen: set<int>)
    ensures Unseen(batch + [m], seen) == Unseen(batch, seen) + if m.id in seen then [] else [m]
  {
    assert (batch + [m])[..|batch|] == batch;
  }

  lemma {:induction false} NoneUnseen(batch: seq<Message>, seen: set<int>)
    requires forall i :: 0 <= i < |batch| ==> batch[i].id in seen
    ensures Unseen(batch, seen) == []
    decreases batch
  {
    if batch != [] { NoneUnseen(batch[..|batch| - 1], seen); }
  }

  lemma {:induction false} AllUnseen(batch: seq<Message>, seen: set<int>)
    requires forall i :: 0 <= i < |batch| ==> batch[i].id !in seen
    ensures Unseen(batch, seen) == batch
    decreases batch
  {
    if batch != [] { AllUnseen(batch[..|batch| - 1], seen); }
  }

  lemma {:induction false} UnseenOfTwo(a: seq<Message>, b: seq<Message>, seen: set<int>)
    ensures Unseen(a + b, seen) == Unseen(a, seen) + Unseen(b, seen)
    decreases b
  {
    if b == [] {
      assert a + b == a;
    } else {
      var last := |b| - 1;
      assert a + b == (a + b[..last]) + [b[last]] && b == b[..last] + [b[last]];
      UnseenOfTwo(a, b[..last], seen);
      UnseenAppend(a + b[..last], b[last], seen);
    }
  }

  /** Of a page that overlaps what has been seen, the part before it is what is new. */
  lemma UnseenIsTheFront(h: seq<Message>, b: nat, c: nat, e: nat)
    requires Chat(h) && b <= e <= |h| && c <= |h|
    ensures c <= b ==> Unseen(h[b..e], Ids(h[c..])) == []
    ensures b <= c <= e ==> Unseen(h[b..e], Ids(h[c..])) == h[b..c]
    ensures e <= c ==> Unseen(h[b..e], Ids(h[c..])) == h[b..e]
  {
    hide Unseen;
    var cut := if c <= b then b else if c <= e then c else e;
    var seen := Ids(h[c..]);
    forall i | 0 <= i < |h| ensures h[i].id in seen <==> c <= i { SeenFrom(h, c, i); }
    UnseenUpTo(h, b, cut, e, seen);
    assert b <= c <= e ==> cut == c;
  }

  lemma UnseenUpTo(h: seq<Message>, b: nat, cut: nat, e: nat, seen: set<int>)
    requires b <= cut <= e <= |h|
    requires forall i :: b <= i < e ==> (h[i].id in seen <==> cut <= i)
    ensures Unseen(h[b..e], seen) == h[b..cut]
  {
    hide Unseen;
    assert h[b..e] == h[b..cut] + h[cut..e];
    UnseenOfTwo(h[b..cut], h[cut..e], seen);
    AllUnseen(h[b..cut], seen);
    NoneUnseen(h[cut..e], seen);
  }

  lemma SeenFrom(h: seq<Message>, c: nat, i: nat)
    requires Chat(h) && c <= |h| && i < |h|
    ensures h[i].id in Ids(h[c..]) <==> c <= i
  {
    if c <= i {
      assert h[c..][i - c] == h[i];
    }
  }

  // ---------------------------------------------------------------- when the walk gets stuck

  /** A whole page of messages from `k` on carries one time stamp, so no page can reach below `k`. */
  predicate Stuck(h: seq<Message>, page: nat, k: nat) {
    0 < k && 0 < page && k + page <= |h| && h[k].time == h[k + page - 1].time
  }

  /** Among the newest `wanted` messages there is no such page. */
  ghost predicate Clear(h: seq<Message>, page: nat, wanted: int) {
    forall k: nat | Stuck(h, page, k) :: wanted <= |h| - k
  }

  /** Up to one page this needs no condition at all. */
  lemma SmallRequestsAreClear(h: seq<Message>, wanted: int)
    requires 0 < wanted <= MAX_PAGE
    ensures Clear(h, wanted, wanted)
  {
  }

  /** Where the next page starts, from position `c`. */
  ghost function NextStart(h: seq<Message>, page: nat, c: nat): nat
    requires c < |h|
  {
    PageStart(UpTo(h, h[c].time), page)
  }

  lemma NeverJumpsOver(h: seq<Message>, page: nat, c: nat, k: nat)
    requires Chat(h) && Stuck(h, page, k) && k <= c < |h|
    ensures c < UpTo(h, h[c].time) && k <= NextStart(h, page, c)
  {
    assert h[k].time <= h[c].time;
  }

  lemma NothingNewMeansStuck(h: seq<Message>, page: nat, c: nat)
    requires Chat(h) && 0 < page && 0 < c < |h| && c <= NextStart(h, page, c)
    ensures Stuck(h, page, c)
  {
    var e := UpTo(h, h[c].time);
    assert h[c + page - 1].time <= h[e - 1].time;
  }

  // ---------------------------------------------------------------- putting pages in order

  function Inserted(sorted: seq<Message>, m: Message): seq<Message> {
    if sorted == [] then [m]
    else
      var last := |sorted| - 1;
      if sorted[last].id <= m.id then sorted + [m] else Inserted(sorted[..last], m) + [sorted[last]]
  }

  /** A stable sort by message id. */
  function SortedById(ms: seq<Message>): seq<Message> {
    if ms == [] then [] else Inserted(SortedById(ms[..|ms| - 1]), ms[|ms| - 1])
  }

  lemma {:induction false} InsertedKeepsAll(sorted: seq<Message>, m: Message)
    ensures multiset(Inserted(sorted, m)) == multiset(sorted) + multiset{m}
  {
    if sorted != [] {
      var last := |sorted| - 1;
      assert sorted == sorted[..last] + [sorted[last]];
      InsertedKeepsAll(sorted[..last], m);
    }
  }

  ghost predicate InOrder(ms: seq<Message>) {
    forall i, j | 0 <= i < j < |ms| :: ms[i].id <= ms[j].id
  }

  lemma {:induction false} InsertedInOrder(sorted: seq<Message>, m: Message)
    requires InOrder(sorted)
    ensures InOrder(Inserted(sorted, m))
  {
    if sorted != [] {
      var last := |sorted| - 1;
      if m.id < sorted[last].id {
        InsertedInOrder(sorted[..last], m);
        InsertedKeepsAll(sorted[..last], m);
        var front := Inserted(sorted[..last], m);
        forall i | 0 <= i < |front|
          ensures front[i].id <= sorted[last].id
        {
          assert front[i] in multiset(front);
          assert front[i] in multiset(sorted[..last]) + multiset{m};
        }
      }
    }
  }

  /** Sorting loses nothing, invents nothing, and leaves the ids in order. */
  lemma {:induction false} SortIsAPermutation(ms: seq<Message>)
    ensures multiset(SortedById(ms)) == multiset(ms) && InOrder(SortedById(ms))
  {
    if ms != [] {
      var last := |ms| - 1;
      assert ms == ms[..last] + [ms[last]];
      SortIsAPermutation(ms[..last]);
      InsertedKeepsAll(SortedById(ms[..last]), ms[last]);
      InsertedInOrder(SortedById(ms[..last]), ms[last]);
    }
  }

  lemma {:induction false} InsertedBetween(left: seq<Message>, right: seq<Message>, m: Message)
    requires left == [] || left[|left| - 1].id <= m.id
    requires forall i | 0 <= i < |right| :: m.id < right[i].id
    ensures Inserted(left + right, m) == left + [m] + right
    decreases |right|
  {
    var all := left + right;
    if right == [] {
      assert all == left;
    } else {
      var last := |right| - 1;
      assert all[..|all| - 1] == left + right[..last];
      assert right == right[..last] + [right[last]];
      InsertedBetween(left, right[..last], m);
    }
  }

  ghost predicate Rising(ms: seq<Message>) {
    forall i, j | 0 <= i < j < |ms| :: ms[i].id < ms[j].id
  }

  lemma {:induction false} PageGoesInFront(page: seq<Message>, rest: seq<Message>, collected: seq<Message>)
    requires Rising(page + rest) && SortedById(collected) == rest
    ensures SortedById(collected + page) == page + rest
    decreases |page|
  {
    if page == [] {
      assert collected + page == collected && page + rest == rest;
    } else {
      var last := |page| - 1;
      var front, m := page[..last], page[last];
      assert page == front + [m];
      RisingWithout(front, m, rest);
      PageGoesInFront(front, rest, collected);
      SortStep(collected + front, m);
      assert collected + page == collected + front + [m];
      InsertedBetween(front, rest, m);
    }
  }

  lemma SortStep(ms: seq<Message>, m: Message)
    ensures SortedById(ms + [m]) == Inserted(SortedById(ms), m)
  {
    assert (ms + [m])[..|ms|] == ms;
  }

  lemma RisingWithout(front: seq<Message>, m: Message, rest: seq<Message>)
    requires Rising(front + [m] + rest)
    ensures Rising(front + rest)
    ensures front == [] || front[|front| - 1].id <= m.id
    ensures forall i | 0 <= i < |rest| :: m.id < rest[i].id
  {
    var all := front + [m] + rest;
    var n := |front|;
    assert all[n] == m;
    forall i | 0 <= i < |rest|
      ensures m.id < rest[i].id
    {
      assert all[n + 1 + i] == rest[i];
    }
    if n > 0 { assert all[n - 1] == front[n - 1]; }
    forall i, j | 0 <= i < j < |front + rest|
      ensures (front + rest)[i].id < (front + rest)[j].id
    {
      var i', j' := if i < n then i else i + 1, if j < n then j else j + 1;
      assert all[i'].id < all[j'].id;
    }
  }

  // ---------------------------------------------------------------- the walk

  /** One round, from position `c`: either nothing is new and the walk is at the start or stuck, or the messages
      from an earlier `b` up to `c` are. */
  lemma OneRound(h: seq<Message>, page: nat, c: nat, from: Option<int>) returns (b: nat)
    requires Chat(h) && 0 < page && c <= |h|
    requires if from.None? then c == |h| else c < |h| && from == Some(h[c].time)
    ensures b <= c && c - b <= page
    ensures Unseen(Answer(h, page, from), Ids(h[c..])) == h[b..c]
    ensures b == c ==> c == 0 || Stuck(h, page, c)
    ensures forall k: nat | Stuck(h, page, k) && k <= c :: k <= b
  {
    var e := if from.None? then |h| else UpTo(h, from.value);
    var start := PageStart(e, page);
    UnseenIsTheFront(h, start, c, e);
    b := if start < c then start else c;
    if b == c && from.Some? && 0 < c { NothingNewMeansStuck(h, page, c); }
    forall k: nat | Stuck(h, page, k) && k <= c
      ensures k <= b
    {
      if from.Some? { NeverJumpsOver(h, page, c, k); }
    }
  }

  lemma OldestIsFirst(h: seq<Message>, b: nat, c: nat)
    requires Chat(h) && b < c <= |h|
    ensures Oldest(h[b..c]) == h[b].time
    ensures Ids(h[c..]) + Ids(h[b..c]) == Ids(h[b..])
  {
    assert h[b..c][0] == h[b];
    SlicesJoin(h, b, c);
    forall id ensures id in Ids(h[b..]) <==> id in Ids(h[c..]) + Ids(h[b..c]) { InEither(h[b..c], h[c..], id); }
  }

  lemma InEither(a: seq<Message>, b: seq<Message>, id: int)
    ensures id in Ids(a + b) <==> id in Ids(a) || id in Ids(b)
  {
    forall i | 0 <= i < |a| ensures (a + b)[i] == a[i] { }
    forall i | 0 <= i < |b| ensures (a + b)[|a| + i] == b[i] { }
  }

  /** Where the walk stands when it stops is below every obstacle it met, and it stops early only at one. */
  ghost predicate StoppedRight(h: seq<Message>, page: nat, wanted: int, c: nat) {
    && (c == 0 || wanted <= |h| - c || Stuck(h, page, c))
    && (forall k: nat | Stuck(h, page, k) && |h| - k < wanted :: k <= c)
  }

  lemma StoppedRightMeansClear(h: seq<Message>, page: nat, wanted: int, c: nat)
    requires c <= |h| && StoppedRight(h, page, wanted, c)
    ensures (c == 0 || wanted <= |h| - c) <==> Clear(h, page, wanted)
  {
  }

  /** The state of the walk: it holds exactly the messages from `c` on. */
  ghost predicate Walking(h: seq<Message>, page: int, wanted: int, c: nat, collected: seq<Message>, seen: set<int>,
                          from: Option<int>)
  {
    && 0 < page && c <= |h| && |collected| == |h| - c < wanted + page
    && SortedById(collected) == h[c..]
    && seen == Ids(h[c..])
    && (if from.None? then c == |h| else c < |h| && from == Some(h[c].time))
    && (forall k: nat | Stuck(h, page, k) && |h| - k < wanted :: k <= c)
  }

  lemma RoundKeepsWalking(h: seq<Message>, page: int, wanted: int, c: nat, collected: seq<Message>, seen: set<int>,
                          from: Option<int>, b: nat)
    requires Chat(h) && Walking(h, page, wanted, c, collected, seen, from) && |collected| < wanted
    requires b < c && c - b <= page
    requires forall k: nat | Stuck(h, page, k) && k <= c :: k <= b
    ensures var news := h[b..c];
            Walking(h, page, wanted, b, collected + news, seen + Ids(news), Some(Oldest(news)))
  {
    OldestIsFirst(h, b, c);
    assert h[b..c] + h[c..] == h[b..];
    PageGoesInFront(h[b..c], h[c..], collected);
  }

  method PageHistory(h: seq<Message>, limit: Option<int>) returns (collected: seq<Message>)
    requires Chat(h)
    ensures |collected| <= |h| && SortedById(collected) == h[|h| - |collected|..]
    ensures var wanted := if limit.Some? then limit.value else MAX_MESSAGES;
            var page := if wanted < MAX_PAGE then wanted else MAX_PAGE;
            && (wanted <= 0 ==> collected == [])
            && (0 < wanted ==>
                  && |collected| < wanted + page
                  && StoppedRight(h, page, wanted, |h| - |collected|)
                  && ((|collected| == |h| || wanted <= |collected|) <==> Clear(h, page, wanted)))
  {
    var wanted := if limit.Some? then limit.value else MAX_MESSAGES;
    var page := if wanted < MAX_PAGE then wanted else MAX_PAGE;
    collected := [];
    ghost var c: nat := |h|;
    if wanted <= 0 { return; }
    var seen: set<int> := {};
    var from: Option<int> := None;
    while |collected| < wanted
      invariant Walking(h, page, wanted, c, collected, seen, from)
      decreases c
    {
      var batch := Answer(h, page, from);
      ghost var b := OneRound(h, page, c, from);
      var news := Unseen(batch, seen);
      if news == [] { break; }
      RoundKeepsWalking(h, page, wanted, c, collected, seen, from, b);
      seen := seen + Ids(news);
      collected := collected + news;
      from := Some(Oldest(news));
      c := b;
    }
    StoppedRightMeansClear(h, page, wanted, c);
  }

  // ---------------------------------------------------------------- the caller's view

  function Newest(h: seq<Message>, n: int): seq<Message> {
    h[if n <= 0 then |h| else Floor(|h| - n)..]
  }

  /** `messages[-limit:]`, in which `-0` means everything. */
  function LastOf(ms: seq<Message>, limit: int): seq<Message> {
    if limit == 0 then ms
    else if limit < 0 then if -limit <= |ms| then ms[-limit..] else []
    else ms[Floor(|ms| - limit)..]
  }

  lemma LastOfTail(h: seq<Message>, c: nat, limit: int)
    requires c <= |h| && 0 < limit
    ensures LastOf(h[c..], limit) == h[if c < |h| - limit then |h| - limit else c..]
    ensures LastOf(h[c..], limit) == Newest(h, limit) <==> c == 0 || limit <= |h| - c
  {
    assert h[c..][Floor(|h| - c - limit)..] == h[if c < |h| - limit then |h| - limit else c..];
    if c > 0 && |h| - c < limit { assert |h[c..]| != |Newest(h, limit)|; }
  }

  lemma LastOfNothing(h: seq<Message>, limit: int)
    requires limit <= 0
    ensures LastOf([], limit) == Newest(h, limit)
  {
  }

  /** With a limit: the newest `limit` messages, oldest first, exactly when no page of one time stamp is in the way;
      and where one is, what there is down to it.  Without one: a tail of the chat, all of it or at least twenty
      thousand messages under the same condition. */
  method FetchHistory(h: seq<Message>, limit: Option<int>) returns (messages: seq<Message>)
    requires Chat(h)
    ensures limit.Some? ==>
              var page := if limit.value < 200 then limit.value else 200;
              (messages == Newest(h, limit.value) <==> limit.value <= 0 || Clear(h, page, limit.value))
    ensures limit.Some? && 0 < limit.value ==>
              var page := if limit.value < 200 then limit.value else 200;
              exists c: nat | c <= |h| && StoppedRight(h, page, limit.value, c) ::
                messages == h[if c < |h| - limit.value then |h| - limit.value else c..]
    ensures limit.Some? && limit.value <= 200 ==> messages == Newest(h, limit.value)
    ensures limit.None? ==>
              && |messages| <= |h| && messages == h[|h| - |messages|..]
              && |messages| < 20000 + 200
              && (messages == h || 20000 <= |messages| <==> Clear(h, 200, 20000))
              && StoppedRight(h, 200, 20000, |h| - |messages|)
  {
    hide StoppedRight, Clear, LastOf, Newest, SortedById;
    var collected := PageHistory(h, limit);
    ghost var c := |h| - |collected|;
    messages := SortedById(collected);
    if limit.Some? {
      messages := LastOf(messages, limit.value);
      if 0 < limit.value {
        LastOfTail(h, c, limit.value);
      } else {
        assert h[c..] == [];
        LastOfNothing(h, limit.value);
      }
      if 0 < limit.value <= MAX_PAGE { SmallRequestsAreClear(h, limit.value); }
    }
  }
}
