/** Server-side notification fan-out: the broadcast to every profile in
    batches of 100 with sent/failed counting, the tag-overlap score, the
    per-seller de-duplication and top-5 ranking for a new wish, the ranked
    wishes for a new offer, and the admin broadcast. */
module Notifications {
  import opened Text

  const BatchSize: nat := 100
  /** How many sellers or wishes a match notification considers. */
  const TopCount: nat := 5

  /** What `createNotification` is given besides the recipient. */
  datatype Payload = Payload(title: string, body: string, kind: string, actionUrl: string)
  datatype Notification = Notification(userId: string, payload: Payload)

  // ---------------------------------------------------------------------------
  // Broadcast to all users

  /** The profile query: an error with its message, or the rows' ids (null is None). */
  datatype ProfilesFetch = FetchFailed(message: string) | Profiles(ids: Option<seq<string>>)

  /** One settled `createNotification` call. */
  datatype SendResult = Fulfilled(success: bool) | Rejected

  datatype BroadcastSummary =
    | BroadcastFailed(error: string)
    | NoUsers
    | Broadcast(total: nat, sent: nat, failed: nat)

  predicate Delivered(r: SendResult) {
    r.Fulfilled? && r.success
  }

  /** How many results count as sent. */
  function CountDelivered(rs: seq<SendResult>): (r: nat)
    ensures r <= |rs|
  {
    if rs == [] then 0
    else CountDelivered(rs[..|rs| - 1]) + (if Delivered(rs[|rs| - 1]) then 1 else 0)
  }

  /** Counting splits over concatenation. */
  lemma {:induction false} CountDeliveredAppend(a: seq<SendResult>, b: seq<SendResult>)
    ensures CountDelivered(a + b) == CountDelivered(a) + CountDelivered(b)
    decreases |b|
  {
    if b == [] {
      assert a + b == a;
    } else {
      var b' := b[..|b| - 1];
      assert (a + b)[..|a + b| - 1] == a + b';
      CountDeliveredAppend(a, b');
    }
  }

  /** Everything counts as sent exactly when every call was fulfilled with success. */
  lemma {:induction false} CountDeliveredAll(rs: seq<SendResult>)
    ensures CountDelivered(rs) == |rs| <==> forall k :: 0 <= k < |rs| ==> Delivered(rs[k])
  {
    if rs != [] {
      var p := rs[..|rs| - 1];
      CountDeliveredAll(p);
      assert forall k :: 0 <= k < |p| ==> p[k] == rs[k];
    }
  }

  function Flatten<T>(ss: seq<seq<T>>): seq<T> {
    if ss == [] then [] else ss[0] + Flatten(ss[1..])
  }

  /** Consecutive slices of at most 100 that cover `s` in order; every slice
      but the last is full. */
  function Chunks<T>(s: seq<T>): (r: seq<seq<T>>)
    ensures Flatten(r) == s
    ensures forall k :: 0 <= k < |r| ==> 0 < |r[k]| <= BatchSize
    ensures forall k :: 0 <= k < |r| - 1 ==> |r[k]| == BatchSize
    decreases |s|
  {
    if s == [] then []
    else if |s| <= BatchSize then
      assert Flatten([s]) == s + Flatten([s][1..]);
      [s]
    else
      var rest := Chunks(s[BatchSize..]);
      var r := [s[..BatchSize]] + rest;
      assert r[1..] == rest;
      assert s[..BatchSize] + s[BatchSize..] == s;
      r
  }

  function Min(a: int, b: int): int {
    if a < b then a else b
  }

  /** One notification per id, in order, all with the same payload. */
  function Addressed(ids: seq<string>, payload: Payload): (r: seq<Notification>)
    ensures |r| == |ids| && forall k :: 0 <= k < |ids| ==> r[k] == Notification(ids[k], payload)
  {
    seq(|ids|, k requires 0 <= k < |ids| => Notification(ids[k], payload))
  }

  /** `sendNotificationToAllUsers`. `outcomes[k]` is how the call for the
      k-th profile settled. Returns the summary, the batches the profiles
      were sent in (each batch `b` makes the calls `Addressed(b, payload)`),
      and the number of pauses. */
  method SendToAll(payload: Payload, fetched: ProfilesFetch, outcomes: seq<SendResult>)
    returns (summary: BroadcastSummary, batches: seq<seq<string>>, delays: int)
    requires fetched.Profiles? && fetched.ids.Some? ==> |outcomes| == |fetched.ids.value|
    ensures fetched.FetchFailed? ==>
      summary == BroadcastFailed(fetched.message) && batches == [] && delays == 0
    ensures fetched.Profiles? && (fetched.ids.None? || fetched.ids.value == []) ==>
      summary == NoUsers && batches == [] && delays == 0
    ensures fetched.Profiles? && fetched.ids.Some? && fetched.ids.value != [] ==>
      && var ids := fetched.ids.value;
      && summary == Broadcast(|ids|, CountDelivered(outcomes), |ids| - CountDelivered(outcomes))
      && batches == Chunks(ids)
      && delays == |batches| - 1
  {
    summary, batches, delays := NoUsers, [], 0;
    if fetched.FetchFailed? {
      summary := BroadcastFailed(fetched.message);
      return;
    }
    if fetched.ids.None? || |fetched.ids.value| == 0 {
      return;
    }
    var sent, failed;
    sent, failed, batches, delays := SendInBatches(fetched.ids.value, outcomes);
    summary := Broadcast(|fetched.ids.value|, sent, failed);
  }

  /** The batching loop of `sendNotificationToAllUsers` over a non-empty profile list. */
  method SendInBatches(profiles: seq<string>, outcomes: seq<SendResult>)
    returns (sent: nat, failed: nat, batches: seq<seq<string>>, delays: int)
    requires profiles != [] && |outcomes| == |profiles|
    ensures sent == CountDelivered(outcomes) && sent + failed == |profiles|
    ensures batches == Chunks(profiles)
    ensures delays == |batches| - 1
  {
    var n := |profiles|;
    sent, failed, batches, delays := 0, 0, [], 0;
    var i := 0;
    while i < n
      invariant BatchProgress(profiles, outcomes, i, batches, sent, failed, delays)
      decreases n - i
    {
      var end := Min(i + BatchSize, n);
      var batch := profiles[i..end];
      var delivered, undelivered := CountBatch(outcomes[i..end]);
      BatchStep(profiles, outcomes, i, batches, sent, failed, delays, delivered, undelivered);
      sent, failed := sent + delivered, failed + undelivered;
      batches := batches + [batch];
      if i + BatchSize < n {
        delays := delays + 1;
      }
      i := i + BatchSize;
    }
    BatchDone(profiles, outcomes, i, batches, sent, failed, delays);
  }

  /** The loop invariant of `SendInBatches`: `i` is where the next batch
      starts, the batches so far are the first chunks, the counts cover the
      outcomes before `i`, and there was one pause between any two batches. */
  ghost predicate BatchProgress(profiles: seq<string>, outcomes: seq<SendResult>, i: int,
                                batches: seq<seq<string>>, sent: int, failed: int, delays: int) {
    var n := |profiles|;
    && |outcomes| == n && n > 0
    && i == BatchSize * |batches| && 0 <= i < n + BatchSize
    && |batches| <= |Chunks(profiles)| && batches == Chunks(profiles)[..|batches|]
    && sent == CountDelivered(outcomes[..Min(i, n)]) && sent + failed == Min(i, n)
    && delays == (if batches == [] then 0 else |batches| - (if i < n then 0 else 1))
  }

  /** One more batch keeps the invariant. */
  lemma BatchStep(profiles: seq<string>, outcomes: seq<SendResult>, i: int,
                  batches: seq<seq<string>>, sent: int, failed: int, delays: int,
                  delivered: int, undelivered: int)
    requires BatchProgress(profiles, outcomes, i, batches, sent, failed, delays) && i < |profiles|
    requires var end := Min(i + BatchSize, |profiles|);
      delivered == CountDelivered(outcomes[i..end]) && delivered + undelivered == end - i
    ensures var n := |profiles|;
      var end := Min(i + BatchSize, n);
      BatchProgress(profiles, outcomes, i + BatchSize, batches + [profiles[i..end]],
        sent + delivered, failed + undelivered, if i + BatchSize < n then delays + 1 else delays)
  {
    var n := |profiles|;
    var end := Min(i + BatchSize, n);
    ChunksPrefixStep(profiles, |batches|, i);
    PrefixStep(outcomes, i, end);
  }

  /** The chunks up to the k-th, extended by the slice at 100 k; the last
      slice is the last chunk. */
  lemma ChunksPrefixStep<T>(s: seq<T>, k: nat, lo: nat)
    requires lo == BatchSize * k && lo < |s|
    ensures k + 1 <= |Chunks(s)|
    ensures Chunks(s)[..k + 1] == Chunks(s)[..k] + [s[lo..Min(lo + BatchSize, |s|)]]
    ensures lo + BatchSize >= |s| ==> k + 1 == |Chunks(s)|
  {
    ChunkAt(s, k, lo);
    var cs := Chunks(s);
    assert cs[..k + 1] == cs[..k] + [cs[k]];
    if lo + BatchSize >= |s| {
      ChunksCount(s);
    }
  }

  /** When the loop ends the batches are all the chunks and the counts cover everything. */
  lemma BatchDone(profiles: seq<string>, outcomes: seq<SendResult>, i: int,
                  batches: seq<seq<string>>, sent: int, failed: int, delays: int)
    requires BatchProgress(profiles, outcomes, i, batches, sent, failed, delays) && i >= |profiles|
    ensures sent == CountDelivered(outcomes) && sent + failed == |profiles|
    ensures batches == Chunks(profiles) && delays == |batches| - 1
  {
    var cs := Chunks(profiles);
    assert |batches| == |cs| by {
      ChunksCount(profiles);
    }
    assert cs[..|batches|] == cs;
    assert outcomes[..|profiles|] == outcomes;
  }

  /** There are ceil(|s| / 100) chunks. */
  lemma {:induction false} ChunksCount<T>(s: seq<T>)
    ensures |Chunks(s)| == (|s| + BatchSize - 1) / BatchSize
    decreases |s|
  {
    if |s| > BatchSize {
      ChunksCount(s[BatchSize..]);
    }
  }

  /** The k-th batch is the slice starting at 100 k. */
  lemma {:induction false} ChunkAt<T>(s: seq<T>, k: nat, lo: nat)
    requires lo == BatchSize * k && lo < |s|
    ensures k < |Chunks(s)|
    ensures Chunks(s)[k] == s[lo..Min(lo + BatchSize, |s|)]
  {
    if k > 0 {
      var rest := s[BatchSize..];
      var lo' := lo - BatchSize;
      assert lo' == BatchSize * (k - 1);
      assert Chunks(s) == [s[..BatchSize]] + Chunks(rest);
      ChunkAt(rest, k - 1, lo');
      var hi := Min(lo + BatchSize, |s|);
      assert Min(lo' + BatchSize, |rest|) == hi - BatchSize;
      DropSlice(s, BatchSize, lo', hi - BatchSize);
    }
  }

  /** A slice of a suffix is a slice of the whole, shifted. */
  lemma DropSlice<T>(s: seq<T>, d: nat, a: nat, b: nat)
    requires d <= |s| && a <= b <= |s| - d
    ensures s[d..][a..b] == s[d + a..d + b]
  {
  }

  /** `results.forEach`: one batch's settled calls, counted. */
  method CountBatch(results: seq<SendResult>) returns (sent: nat, failed: nat)
    ensures sent == CountDelivered(results) && sent + failed == |results|
  {
    sent, failed := 0, 0;
    var j := 0;
    while j < |results|
      invariant 0 <= j <= |results|
      invariant sent == CountDelivered(results[..j]) && sent + failed == j
    {
      assert results[..j + 1][..j] == results[..j];
      if Delivered(results[j]) {
        sent := sent + 1;
      } else {
        failed := failed + 1;
      }
      j := j + 1;
    }
    assert results[..j] == results;
  }

  /** Counting a prefix extends batch by batch. */
  lemma PrefixStep(outcomes: seq<SendResult>, i: int, end: int)
    requires 0 <= i <= end <= |outcomes|
    ensures CountDelivered(outcomes[..end]) == CountDelivered(outcomes[..i]) + CountDelivered(outcomes[i..end])
  {
    assert outcomes[..end] == outcomes[..i] + outcomes[i..end];
    CountDeliveredAppend(outcomes[..i], outcomes[i..end]);
  }

  /** The number of pauses between batches is ceil(n / 100) - 1. */
  lemma DelaysBetweenBatches(ids: seq<string>)
    requires ids != []
    ensures |Chunks(ids)| - 1 == (|ids| + BatchSize - 1) / BatchSize - 1
    ensures |ids| <= BatchSize ==> |Chunks(ids)| == 1
  {
    ChunksCount(ids);
  }

  // ---------------------------------------------------------------------------
  // Tag overlap

  function TagsOf(tags: Option<seq<string>>): seq<string> {
    if tags.Some? then tags.value else []
  }

  /** `tags.map(t => t.toLowerCase())` */
  function LowerAll(ts: seq<string>): (r: seq<string>)
    ensures |r| == |ts| && forall k :: 0 <= k < |ts| ==> r[k] == Lower(ts[k])
  {
    seq(|ts|, k requires 0 <= k < |ts| => Lower(ts[k]))
  }

  /** `xs.filter(t => keys.has(t)).length` */
  function CountMembers(xs: seq<string>, keys: set<string>): (r: nat)
    ensures r <= |xs|
  {
    if xs == [] then 0 else (if xs[0] in keys then 1 else 0) + CountMembers(xs[1..], keys)
  }

  lemma {:induction false} CountMembersAppend(a: seq<string>, b: seq<string>, keys: set<string>)
    ensures CountMembers(a + b, keys) == CountMembers(a, keys) + CountMembers(b, keys)
  {
    if a == [] {
      assert a + b == b;
    } else {
      assert (a + b)[1..] == a[1..] + b;
      CountMembersAppend(a[1..], b, keys);
    }
  }

  /** The count is the whole list exactly when every entry is a key, and
      zero exactly when none is. */
  lemma {:induction false} CountMembersExtremes(xs: seq<string>, keys: set<string>)
    ensures CountMembers(xs, keys) == |xs| <==> forall k :: 0 <= k < |xs| ==> xs[k] in keys
    ensures CountMembers(xs, keys) == 0 <==> forall k :: 0 <= k < |xs| ==> xs[k] !in keys
  {
    if xs != [] {
      CountMembersExtremes(xs[1..], keys);
      assert forall k :: 1 <= k < |xs| ==> xs[k] == xs[1..][k - 1];
    }
  }

  /** The lower-cased tags of `against`, as a set. */
  function TagSet(against: Option<seq<string>>): set<string> {
    set t | t in LowerAll(TagsOf(against))
  }

  /** The overlap score: how many of `tags`, lower-cased and with repeats
      counted, are among the lower-cased tags of `against`. */
  function Overlap(tags: Option<seq<string>>, against: Option<seq<string>>): (r: nat)
    ensures r <= |TagsOf(tags)|
  {
    CountMembers(LowerAll(TagsOf(tags)), TagSet(against))
  }

  /** Missing tags on either side score zero; a score is the full tag count
      exactly when every tag matches. */
  lemma OverlapBounds(tags: Option<seq<string>>, against: Option<seq<string>>)
    ensures tags.None? ==> Overlap(tags, against) == 0
    ensures against.None? ==> Overlap(tags, against) == 0
    ensures Overlap(tags, against) == |TagsOf(tags)| <==>
      forall k :: 0 <= k < |TagsOf(tags)| ==> Lower(TagsOf(tags)[k]) in TagSet(against)
  {
    var xs := LowerAll(TagsOf(tags));
    CountMembersExtremes(xs, TagSet(against));
    if against.None? {
      assert TagSet(against) == {};
    }
  }

  /** A repeated tag is counted each time it occurs. */
  lemma OverlapCountsRepeats(t: string, against: Option<seq<string>>)
    requires Lower(t) in TagSet(against)
    ensures Overlap(Some([t, t]), against) == 2
  {
    var xs := LowerAll([t, t]);
    var keys := TagSet(against);
    assert xs[0] == Lower(t) && xs[1..][0] == Lower(t);
    assert xs[1..][1..] == [];
    assert CountMembers(xs[1..], keys) == 1 + CountMembers(xs[1..][1..], keys);
    assert CountMembers(xs, keys) == 1 + CountMembers(xs[1..], keys);
  }

  // ---------------------------------------------------------------------------
  // Per-seller de-duplication

  /** An element carrying its overlap score. */
  datatype Scored<T> = Scored(item: T, score: nat)

  /** An offer as the matching query returns it. */
  datatype Offer = Offer(id: string, sellerId: string, tags: Option<seq<string>>)

  /** Each offer scored by overlap with the wish's tags, standing for its seller. */
  function SellerScores(offers: seq<Offer>, wishTags: Option<seq<string>>): (r: seq<Scored<string>>)
    ensures |r| == |offers|
    ensures forall k :: 0 <= k < |offers| ==> r[k] == Scored(offers[k].sellerId, Overlap(offers[k].tags, wishTags))
  {
    seq(|offers|, k requires 0 <= k < |offers| => Scored(offers[k].sellerId, Overlap(offers[k].tags, wishTags)))
  }

  function Items<T>(s: seq<Scored<T>>): (r: seq<T>)
    ensures |r| == |s| && forall k :: 0 <= k < |s| ==> r[k] == s[k].item
  {
    seq(|s|, k requires 0 <= k < |s| => s[k].item)
  }

  predicate Distinct<T(==)>(xs: seq<T>) {
    forall i, j :: 0 <= i < j < |xs| ==> xs[i] != xs[j]
  }

  /** `sellerMap.get(seller)`: the position of the seller's entry, if any. */
  function FindSeller(entries: seq<Scored<string>>, seller: string): (r: Option<nat>)
    ensures r.None? <==> seller !in Items(entries)
    ensures r.Some? ==> r.value < |entries| && entries[r.value].item == seller
  {
    if entries == [] then None
    else if entries[|entries| - 1].item == seller then Some(|entries| - 1)
    else
      var r := FindSeller(entries[..|entries| - 1], seller);
      assert Items(entries) == Items(entries[..|entries| - 1]) + [entries[|entries| - 1].item];
      r
  }

  /** One pass of the loop body: a new seller is appended; a known seller's
      entry is replaced in place only when the new score is strictly higher. */
  function Upsert(entries: seq<Scored<string>>, seller: string, score: nat): (r: seq<Scored<string>>)
    ensures seller in Items(entries) ==> Items(r) == Items(entries)
    ensures seller !in Items(entries) ==> r == entries + [Scored(seller, score)]
  {
    match FindSeller(entries, seller)
    case None => entries + [Scored(seller, score)]
    case Some(i) =>
      if score > entries[i].score then
        var r := entries[i := Scored(seller, score)];
        assert Items(r) == Items(entries);
        r
      else entries
  }

  /** The map the loop builds, in insertion order. */
  function SellerMap(scores: seq<Scored<string>>): seq<Scored<string>> {
    if scores == [] then []
    else
      var last := scores[|scores| - 1];
      Upsert(SellerMap(scores[..|scores| - 1]), last.item, last.score)
  }

  /** Keep the first occurrence of every value, in order. */
  function FirstOccurrences<T(==,!new)>(xs: seq<T>): (r: seq<T>)
    ensures Distinct(r)
    ensures forall x :: x in r <==> x in xs
  {
    if xs == [] then []
    else
      var d := FirstOccurrences(xs[..|xs| - 1]);
      assert forall x :: x in xs <==> x in xs[..|xs| - 1] || x == xs[|xs| - 1];
      if xs[|xs| - 1] in d then d else d + [xs[|xs| - 1]]
  }

  /** The map's sellers are the offers' sellers, each once, in the order of
      their first offer. */
  lemma {:induction false} SellerMapOrder(scores: seq<Scored<string>>)
    ensures Items(SellerMap(scores)) == FirstOccurrences(Items(scores))
  {
    if scores != [] {
      var p := scores[..|scores| - 1];
      SellerMapOrder(p);
      assert Items(scores)[..|scores| - 1] == Items(p);
    }
  }

  /** The entry at `j` after an upsert: the new entry when the seller is new
      or its score is strictly higher, otherwise the entry that was there. */
  lemma UpsertAt(m: seq<Scored<string>>, seller: string, score: nat, j: int)
    requires Distinct(Items(m))
    requires 0 <= j < |Upsert(m, seller, score)|
    ensures var e := Upsert(m, seller, score)[j];
      && (e == Scored(seller, score) || (j < |m| && e == m[j]))
      && (e.item == seller ==> e.score >= score && (j < |m| ==> e.score >= m[j].score))
      && (j < |m| && e != m[j] ==> m[j].item == seller && m[j].score < score)
      && (j == |m| ==> seller !in Items(m))
  {
    match FindSeller(m, seller)
    case None =>
      if j < |m| {
        assert Items(m)[j] == m[j].item;
      }
    case Some(i) =>
      if j != i {
        assert Items(m)[j] == m[j].item && Items(m)[i] == m[i].item;
      }
  }

  /** Every entry holds the highest score among its seller's offers. */
  lemma {:induction false} SellerMapMax(scores: seq<Scored<string>>, j: int)
    requires 0 <= j < |SellerMap(scores)|
    ensures forall k :: 0 <= k < |scores| && scores[k].item == SellerMap(scores)[j].item ==>
      scores[k].score <= SellerMap(scores)[j].score
  {
    var p := scores[..|scores| - 1];
    var last := scores[|scores| - 1];
    var m := SellerMap(p);
    assert SellerMap(scores) == Upsert(m, last.item, last.score);
    DistinctItems(p);
    UpsertAt(m, last.item, last.score, j);
    var e := SellerMap(scores)[j];
    forall k | 0 <= k < |scores| && scores[k].item == e.item ensures scores[k].score <= e.score {
      if k < |p| {
        assert scores[k] == p[k];
        if j < |m| {
          SellerMapMax(p, j);
        } else {
          SellerInMap(p, k);
        }
      }
    }
  }

  /** The score an entry holds comes from one of its seller's offers. */
  lemma {:induction false} SellerMapFrom(scores: seq<Scored<string>>, j: int)
    requires 0 <= j < |SellerMap(scores)|
    ensures exists k :: 0 <= k < |scores| && scores[k] == SellerMap(scores)[j]
  {
    var p := scores[..|scores| - 1];
    var last := scores[|scores| - 1];
    var m := SellerMap(p);
    assert SellerMap(scores) == Upsert(m, last.item, last.score);
    DistinctItems(p);
    UpsertAt(m, last.item, last.score, j);
    var e := SellerMap(scores)[j];
    if e == last {
      assert scores[|scores| - 1] == e;
    } else {
      SellerMapFrom(p, j);
      var k :| 0 <= k < |p| && p[k] == m[j];
      assert scores[k] == e;
    }
  }

  /** Every seller with an offer has an entry. */
  lemma {:induction false} SellerInMap(scores: seq<Scored<string>>, k: int)
    requires 0 <= k < |scores|
    ensures scores[k].item in Items(SellerMap(scores))
  {
    SellerMapOrder(scores);
    assert Items(scores)[k] == scores[k].item;
  }

  /** No seller has two entries. */
  lemma DistinctItems(scores: seq<Scored<string>>)
    ensures Distinct(Items(SellerMap(scores)))
  {
    SellerMapOrder(scores);
  }

  /** The three outcomes of an upsert, by the result of the lookup. */
  lemma UpsertCases(entries: seq<Scored<string>>, seller: string, score: nat)
    ensures FindSeller(entries, seller).None? ==> Upsert(entries, seller, score) == entries + [Scored(seller, score)]
    ensures FindSeller(entries, seller).Some? && score > entries[FindSeller(entries, seller).value].score ==>
      Upsert(entries, seller, score) == entries[FindSeller(entries, seller).value := Scored(seller, score)]
    ensures FindSeller(entries, seller).Some? && score <= entries[FindSeller(entries, seller).value].score ==>
      Upsert(entries, seller, score) == entries
  {
  }

  /** Scoring one more offer is one more upsert. */
  lemma SellerMapStep(offers: seq<Offer>, wishTags: Option<seq<string>>, k: int)
    requires 0 <= k < |offers|
    ensures SellerMap(SellerScores(offers[..k + 1], wishTags))
      == Upsert(SellerMap(SellerScores(offers[..k], wishTags)), offers[k].sellerId, Overlap(offers[k].tags, wishTags))
  {
    var s := SellerScores(offers[..k + 1], wishTags);
    assert s[..k] == SellerScores(offers[..k], wishTags);
    assert s[k] == Scored(offers[k].sellerId, Overlap(offers[k].tags, wishTags));
  }

  /** The loop over the offers that fills `sellerMap`. */
  method DedupBySeller(offers: seq<Offer>, wishTags: Option<seq<string>>) returns (entries: seq<Scored<string>>)
    ensures entries == SellerMap(SellerScores(offers, wishTags))
  {
    entries := [];
    var k := 0;
    while k < |offers|
      invariant 0 <= k <= |offers|
      invariant entries == SellerMap(SellerScores(offers[..k], wishTags))
    {
      var offer := offers[k];
      var overlap := Overlap(offer.tags, wishTags);
      var existing := FindSeller(entries, offer.sellerId);
      ghost var before := entries;
      UpsertCases(entries, offer.sellerId, overlap);
      if existing.None? {
        entries := entries + [Scored(offer.sellerId, overlap)];
      } else if overlap > entries[existing.value].score {
        entries := entries[existing.value := Scored(offer.sellerId, overlap)];
      }
      assert entries == Upsert(before, offer.sellerId, overlap);
      SellerMapStep(offers, wishTags, k);
      assert entries == SellerMap(SellerScores(offers[..k + 1], wishTags));
      k := k + 1;
    }
    assert offers[..k] == offers;
  }

  // ---------------------------------------------------------------------------
  // Ranking: a stable sort by descending score, then the first five

  /** Insert before the first element whose score is not higher, so an
      element placed earlier stays ahead of later ones with the same score. */
  function InsertByScore<T>(x: Scored<T>, s: seq<Scored<T>>): (r: seq<Scored<T>>)
    ensures multiset(r) == multiset(s) + multiset{x}
    ensures |r| == |s| + 1
  {
    if s == [] || s[0].score <= x.score then [x] + s
    else
      assert s == [s[0]] + s[1..];
      [s[0]] + InsertByScore(x, s[1..])
  }

  predicate SortedDesc<T>(s: seq<Scored<T>>) {
    forall i, j :: 0 <= i < j < |s| ==> s[i].score >= s[j].score
  }

  /** `sort((a, b) => b.tagOverlap - a.tagOverlap)`, which is stable. */
  function SortDesc<T>(xs: seq<Scored<T>>): (r: seq<Scored<T>>)
    ensures multiset(r) == multiset(xs)
    ensures |r| == |xs|
  {
    if xs == [] then []
    else
      assert xs == [xs[0]] + xs[1..];
      InsertByScore(xs[0], SortDesc(xs[1..]))
  }

  lemma {:induction false} InsertKeepsSorted<T>(x: Scored<T>, s: seq<Scored<T>>)
    requires SortedDesc(s)
    ensures SortedDesc(InsertByScore(x, s))
  {
    if !(s == [] || s[0].score <= x.score) {
      InsertKeepsSorted(x, s[1..]);
      var t := InsertByScore(x, s[1..]);
      assert t[0] in multiset(t);
      var r := [s[0]] + t;
      forall i, j | 0 <= i < j < |r| ensures r[i].score >= r[j].score {
        if i == 0 {
          assert r[j] in multiset(s[1..]) + multiset{x};
          if r[j] in multiset(s[1..]) {
            var m :| 0 <= m < |s[1..]| && s[1..][m] == r[j];
            assert s[m + 1] == r[j];
          }
        }
      }
    }
  }

  lemma {:induction false} SortDescSorted<T>(xs: seq<Scored<T>>)
    ensures SortedDesc(SortDesc(xs))
  {
    if xs != [] {
      SortDescSorted(xs[1..]);
      InsertKeepsSorted(xs[0], SortDesc(xs[1..]));
    }
  }

  /** The elements with score `v`, in order. */
  function WithScore<T>(s: seq<Scored<T>>, v: nat): seq<Scored<T>> {
    if s == [] then [] else (if s[0].score == v then [s[0]] else []) + WithScore(s[1..], v)
  }

  lemma {:induction false} InsertStable<T>(x: Scored<T>, s: seq<Scored<T>>, v: nat)
    requires SortedDesc(s)
    ensures WithScore(InsertByScore(x, s), v) == (if x.score == v then [x] else []) + WithScore(s, v)
  {
    if s == [] || s[0].score <= x.score {
      assert ([x] + s)[1..] == s;
      if x.score == v && s != [] {
        AllBelow(s, v);
      }
    } else {
      InsertStable(x, s[1..], v);
      var t := InsertByScore(x, s[1..]);
      assert ([s[0]] + t)[1..] == t;
      if s[0].score == v && x.score == v {
        assert false;
      }
    }
  }

  /** In a list sorted by descending score that starts at or below `v`,
      nothing scores above `v`, so only a score of exactly `v` is kept ahead. */
  lemma AllBelow<T>(s: seq<Scored<T>>, v: nat)
    requires SortedDesc(s) && s != []
    ensures forall k :: 0 <= k < |s| ==> s[k].score <= s[0].score
  {
  }

  /** The sort is stable: the elements of each score keep their relative order. */
  lemma {:induction false} SortDescStable<T>(xs: seq<Scored<T>>, v: nat)
    ensures WithScore(SortDesc(xs), v) == WithScore(xs, v)
  {
    if xs != [] {
      SortDescStable(xs[1..], v);
      SortDescSorted(xs[1..]);
      InsertStable(xs[0], SortDesc(xs[1..]), v);
      assert ([xs[0]] + xs[1..])[1..] == xs[1..];
      assert xs == [xs[0]] + xs[1..];
    }
  }

  /** `slice(0, n)` */
  function Take<T>(s: seq<T>, n: nat): (r: seq<T>)
    ensures |r| == Min(|s|, n) && r == s[..|r|]
  {
    if |s| <= n then s else s[..n]
  }

  /** The first five after sorting are a highest-scoring five: sorted, at
      most five, all from the input, and nobody left out scores higher than
      anybody kept. */
  lemma {:induction false} TopIsBest<T>(xs: seq<Scored<T>>)
    ensures |Take(SortDesc(xs), TopCount)| == Min(|xs|, TopCount)
    ensures SortedDesc(Take(SortDesc(xs), TopCount))
    ensures forall e :: e in Take(SortDesc(xs), TopCount) ==> e in xs
    ensures forall e, t :: e in xs && e !in Take(SortDesc(xs), TopCount) && t in Take(SortDesc(xs), TopCount) ==>
      e.score <= t.score
  {
    var sorted := SortDesc(xs);
    SortDescSorted(xs);
    SameElements(xs, sorted);
    TakeDominates(sorted, TopCount);
    forall e | e in Take(sorted, TopCount) ensures e in xs {
      assert e in sorted;
    }
  }

  /** Equal multisets hold the same elements. */
  lemma SameElements<T>(xs: seq<T>, ys: seq<T>)
    requires multiset(xs) == multiset(ys)
    ensures forall e :: e in xs <==> e in ys
  {
    forall e ensures e in xs <==> e in ys {
      assert e in xs <==> e in multiset(xs);
      assert e in ys <==> e in multiset(ys);
    }
  }

  /** In a list sorted by descending score, whatever a prefix leaves out
      scores no higher than anything it keeps. */
  lemma TakeDominates<T>(sorted: seq<Scored<T>>, n: nat)
    requires SortedDesc(sorted)
    ensures SortedDesc(Take(sorted, n))
    ensures forall t :: t in Take(sorted, n) ==> t in sorted
    ensures forall e, t :: e in sorted && e !in Take(sorted, n) && t in Take(sorted, n) ==> e.score <= t.score
  {
    var top := Take(sorted, n);
    assert forall q :: 0 <= q < |top| ==> top[q] == sorted[q];
    forall e, t | e in sorted && e !in top && t in top ensures e.score <= t.score {
      var m :| 0 <= m < |sorted| && sorted[m] == e;
      var i :| 0 <= i < |top| && top[i] == t;
      assert m >= |top|;
    }
  }

  /** Sorting and cutting keeps elements with distinct items distinct. */
  lemma {:induction false} SortKeepsDistinct<T>(xs: seq<Scored<T>>)
    requires Distinct(Items(xs))
    ensures Distinct(Items(SortDesc(xs)))
  {
    if xs != [] {
      var rest := xs[1..];
      assert Distinct(Items(rest)) by {
        forall i, j | 0 <= i < j < |rest| ensures Items(rest)[i] != Items(rest)[j] {
          assert Items(xs)[i + 1] == rest[i].item && Items(xs)[j + 1] == rest[j].item;
        }
      }
      SortKeepsDistinct(rest);
      var s := SortDesc(rest);
      forall k | 0 <= k < |s| ensures s[k].item != xs[0].item {
        assert s[k] in multiset(rest);
        var m :| 0 <= m < |rest| && rest[m] == s[k];
        assert Items(xs)[m + 1] == s[k].item && Items(xs)[0] == xs[0].item;
      }
      InsertKeepsDistinct(xs[0], s);
    }
  }

  lemma {:induction false} InsertKeepsDistinct<T>(x: Scored<T>, s: seq<Scored<T>>)
    requires Distinct(Items(s))
    requires forall k :: 0 <= k < |s| ==> s[k].item != x.item
    ensures Distinct(Items(InsertByScore(x, s)))
  {
    var r := InsertByScore(x, s);
    if s == [] || s[0].score <= x.score {
      forall i, j | 0 <= i < j < |r| ensures Items(r)[i] != Items(r)[j] {
        assert r[j] == s[j - 1];
        if i > 0 {
          assert r[i] == s[i - 1];
          assert Items(s)[i - 1] == s[i - 1].item && Items(s)[j - 1] == s[j - 1].item;
        }
      }
    } else {
      var rest := s[1..];
      assert Distinct(Items(rest)) by {
        forall i, j | 0 <= i < j < |rest| ensures Items(rest)[i] != Items(rest)[j] {
          assert Items(s)[i + 1] == rest[i].item && Items(s)[j + 1] == rest[j].item;
        }
      }
      InsertKeepsDistinct(x, rest);
      var t := InsertByScore(x, rest);
      forall i, j | 0 <= i < j < |r| ensures Items(r)[i] != Items(r)[j] {
        if i == 0 {
          assert r[j] == t[j - 1];
          assert t[j - 1] in multiset(rest) + multiset{x};
          if t[j - 1] in multiset(rest) {
            var m :| 0 <= m < |rest| && rest[m] == t[j - 1];
            assert Items(s)[m + 1] == t[j - 1].item && Items(s)[0] == s[0].item;
          }
        } else {
          assert r[i] == t[i - 1] && r[j] == t[j - 1];
          assert Items(t)[i - 1] == t[i - 1].item && Items(t)[j - 1] == t[j - 1].item;
        }
      }
    }
  }

  // ---------------------------------------------------------------------------
  // notifyMatchingSellers

  /** A wish as the matching code reads it. */
  datatype Wish = Wish(id: string, title: string, tags: Option<seq<string>>)

  function WishMatchPayload(wish: Wish): (p: Payload)
    ensures p.kind == "wish_match" && p.actionUrl == "/view/wish?wid=" + wish.id
  {
    Payload("Someone needs what you sell!", "A buyer is looking for: \"" + wish.title + "\"",
      "wish_match", "/view/wish?wid=" + wish.id)
  }

  /** The top sellers for a wish, as the specification functions of the dedup loop and the ranking give them. */
  function TopSellers(offers: seq<Offer>, wishTags: Option<seq<string>>): seq<Scored<string>> {
    Take(SortDesc(SellerMap(SellerScores(offers, wishTags))), TopCount)
  }

  /** At most five distinct sellers, each with an offer, sorted by score,
      and no other seller with an offer scores higher than a chosen one. */
  lemma TopSellersProperties(offers: seq<Offer>, wishTags: Option<seq<string>>)
    ensures |TopSellers(offers, wishTags)| <= TopCount
    ensures Distinct(Items(TopSellers(offers, wishTags)))
    ensures SortedDesc(TopSellers(offers, wishTags))
    ensures forall e :: e in TopSellers(offers, wishTags) ==> e.item in Items(SellerScores(offers, wishTags))
    ensures forall e, t ::
      (e in SellerMap(SellerScores(offers, wishTags)) && e !in TopSellers(offers, wishTags) &&
       t in TopSellers(offers, wishTags)) ==> e.score <= t.score
    ensures offers != [] ==> TopSellers(offers, wishTags) != []
  {
    var scores := SellerScores(offers, wishTags);
    var m := SellerMap(scores);
    TopIsBest(m);
    DistinctItems(scores);
    SortKeepsDistinct(m);
    var top := TopSellers(offers, wishTags);
    var sorted := SortDesc(m);
    assert Distinct(Items(top)) by {
      forall i, j | 0 <= i < j < |top| ensures Items(top)[i] != Items(top)[j] {
        assert Items(sorted)[i] == top[i].item && Items(sorted)[j] == top[j].item;
      }
    }
    SellerMapOrder(scores);
    forall e | e in top ensures e.item in Items(scores) {
      var i :| 0 <= i < |m| && m[i] == e;
      assert Items(m)[i] == e.item;
    }
    if offers != [] {
      SellerInMap(scores, 0);
    }
  }

  /** `notifyMatchingSellers`: with no wish, or no matching offers, nothing is
      sent; otherwise each of the top sellers gets the wish-match notification. */
  method NotifyMatchingSellers(wish: Option<Wish>, offers: Option<seq<Offer>>) returns (calls: seq<Notification>)
    ensures wish.None? || offers.None? || offers.value == [] ==> calls == []
    ensures wish.Some? && offers.Some? && offers.value != [] ==>
      && var top := TopSellers(offers.value, wish.value.tags);
      && |calls| == |top| && 0 < |calls| <= TopCount
      && forall k :: 0 <= k < |calls| ==> calls[k] == Notification(top[k].item, WishMatchPayload(wish.value))
  {
    if wish.None? || offers.None? || |offers.value| == 0 {
      return [];
    }
    var entries := DedupBySeller(offers.value, wish.value.tags);
    var top := Take(SortDesc(entries), TopCount);
    TopSellersProperties(offers.value, wish.value.tags);
    calls := seq(|top|, k requires 0 <= k < |top| => Notification(top[k].item, WishMatchPayload(wish.value)));
  }

  // ---------------------------------------------------------------------------
  // notifySellerOfMatchingWishes

  /** Each wish scored by overlap with the offer's tags. */
  function WishScores(wishes: seq<Wish>, offerTags: Option<seq<string>>): (r: seq<Scored<Wish>>)
    ensures |r| == |wishes|
    ensures forall k :: 0 <= k < |wishes| ==> r[k] == Scored(wishes[k], Overlap(wishes[k].tags, offerTags))
  {
    seq(|wishes|, k requires 0 <= k < |wishes| => Scored(wishes[k], Overlap(wishes[k].tags, offerTags)))
  }

  /** `ranked`: the wishes scored against the offer's tags, best five. */
  function RankWishes(wishes: seq<Wish>, offerTags: Option<seq<string>>): (r: seq<Scored<Wish>>)
    ensures |r| == Min(|wishes|, TopCount)
    ensures forall e :: e in r ==> e.item in wishes
  {
    var scored := WishScores(wishes, offerTags);
    TopIsBest(scored);
    var r := Take(SortDesc(scored), TopCount);
    assert forall e :: e in r ==> e.item in wishes by {
      forall e | e in r ensures e.item in wishes {
        var k :| 0 <= k < |scored| && scored[k] == e;
        assert e.item == wishes[k];
      }
    }
    r
  }

  /** The single notification sent to the seller of a new offer. */
  function OfferMatchPayload(ranked: seq<Scored<Wish>>): Payload
    requires ranked != []
  {
    if |ranked| == 1 then
      Payload("A buyer needs this!", "\"" + ranked[0].item.title + "\" \U{2014} check out this wish",
        "offer_match", "/view/wish?wid=" + ranked[0].item.id)
    else
      Payload(NatToString(|ranked|) + " buyers are looking for this!",
        "Check the wanted board for matching wishes", "offer_match", "/wanted")
  }

  /** `notifySellerOfMatchingWishes`: `offerFound` says whether the offer
      was fetched, `offerTags` is its `tags` column (None when null, which
      matches nothing), and `wishes` is None when the wish query failed. */
  function SellerWishNotification(sellerId: string, offerFound: bool, offerTags: Option<seq<string>>,
                                  wishes: Option<seq<Wish>>): (r: Option<Notification>)
    ensures r.Some? <==> offerFound && wishes.Some? && wishes.value != []
    ensures r.Some? ==> r.value.userId == sellerId && r.value.payload.kind == "offer_match"
  {
    if !offerFound || wishes.None? || wishes.value == [] then None
    else Some(Notification(sellerId, OfferMatchPayload(RankWishes(wishes.value, offerTags))))
  }

  /** A single matching wish is named and linked. */
  lemma OfferMatchOne(sellerId: string, offerTags: Option<seq<string>>, wishes: seq<Wish>)
    requires |wishes| == 1
    ensures SellerWishNotification(sellerId, true, offerTags, Some(wishes)).value.payload
      == Payload("A buyer needs this!", "\"" + wishes[0].title + "\" \U{2014} check out this wish",
           "offer_match", "/view/wish?wid=" + wishes[0].id)
  {
    var ranked := RankWishes(wishes, offerTags);
    assert ranked[0] in ranked;
    assert ranked[0].item == wishes[0];
  }

  /** Two to five matching wishes give their count, a single digit, and
      link to the wanted board; more than five are counted as five. */
  lemma OfferMatchMany(sellerId: string, offerTags: Option<seq<string>>, wishes: seq<Wish>)
    requires |wishes| > 1
    ensures var n := Min(|wishes|, TopCount);
      && 2 <= n <= 5
      && SellerWishNotification(sellerId, true, offerTags, Some(wishes)).value.payload
        == Payload([DigitChar(n)] + " buyers are looking for this!",
             "Check the wanted board for matching wishes", "offer_match", "/wanted")
  {
    var ranked := RankWishes(wishes, offerTags);
    assert |ranked| == Min(|wishes|, TopCount);
  }

  // ---------------------------------------------------------------------------
  // sendNotificationToAdmins

  /** Every admin gets the payload; a failed or empty query sends nothing. */
  function AdminNotifications(admins: Option<seq<string>>, payload: Payload): (r: seq<Notification>)
    ensures admins.None? ==> r == []
    ensures admins.Some? ==> r == Addressed(admins.value, payload)
  {
    if admins.None? || admins.value == [] then [] else Addressed(admins.value, payload)
  }
}
