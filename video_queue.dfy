/**
 * The feed list kept by the `useVideoQueue` hook
 * (`frontend/hooks/useVideoQueue.ts`): batches of feed items appended from
 * the pool, generated videos prepended at most once, visualization clips
 * spliced in a few places ahead of the viewer, the set of already seen
 * YouTube ids sent back as an exclusion list, and the session copy of the
 * non-injected items.
 */
module VideoQueue {
  import opened Wrappers
  import opened Text
  import opened PyValues
  import Mystery

  const BatchSize: nat := 10
  const DefaultApiUrl: string := "http://localhost:8000"
  const FeedFetchFailed: string := "Error: Failed to fetch feed"

  datatype Market = Market(seriesTicker: string, question: string)

  datatype BetSide = Yes | No

  /** The `video` part of a feed item: an mp4 source with an optional title. */
  datatype Mp4Video = Mp4Video(url: string, title: Option<string>)

  /**
   * A feed item. `youtubeVideoId` is `youtube.video_id`, with the empty
   * string standing for an absent `youtube` part as well.
   */
  datatype FeedItem = FeedItem(
    id: string,
    youtubeVideoId: string,
    youtubeTitle: string,
    video: Option<Mp4Video>,
    kalshi: seq<Market>,
    isInjected: bool,
    injectedByBetSide: Option<string>)

  /** One element of the `/pool/generated` answer. */
  datatype GeneratedVideo = GeneratedVideo(
    jobId: string, title: Option<string>, videoUrl: string, kalshi: seq<Market>, betSide: Option<string>)

  /** How the `/pool/feed` request ends: items, a non-OK status, or a thrown error with its `String(err)` text. */
  datatype FeedResponse = FeedOk(results: seq<FeedItem>) | FeedNotOk | FeedThrew(errorText: string)

  /** How the `/pool/generated` request ends: a non-OK status, a body that is not an array, or an array. */
  datatype GeneratedResponse = GeneratedNotOk | GeneratedNotArray | GeneratedArray(videos: seq<GeneratedVideo>)

  /** What `JSON.parse` makes of the stored session value. */
  datatype Parsed = ParseFailed | ParsedNonArray | ParsedArray(items: seq<FeedItem>)

  datatype Stats = Stats(total: nat, pending: nat, processing: nat, matched: nat, failed: nat)

  /** `process.env.NEXT_PUBLIC_API_URL || 'http://localhost:8000'`. */
  function ApiUrl(env: Option<string>): (r: string)
    ensures r != ""
  {
    if env.Some? && env.value != "" then env.value else DefaultApiUrl
  }

  // ---------------------------------------------------------------------
  // Generated videos: prepend if the id is absent

  predicate HasId(items: seq<FeedItem>, id: string)
  {
    exists i :: 0 <= i < |items| && items[i].id == id
  }

  /** The feed item a generated video becomes. */
  function GeneratedItem(v: GeneratedVideo): (r: FeedItem)
    ensures r.id == "generated-" + v.jobId && r.isInjected && r.youtubeVideoId == ""
  {
    FeedItem(
      "generated-" + v.jobId,
      "",
      if v.title.Some? then v.title.value else "",
      Some(Mp4Video(v.videoUrl, v.title)),
      v.kalshi,
      true,
      if v.betSide.Some? && v.betSide.value != "" then v.betSide else None)
  }

  /** The poll's updater: the item goes in front unless an item with its id is already there. */
  function PrependIfAbsent(items: seq<FeedItem>, item: FeedItem): (r: seq<FeedItem>)
    ensures HasId(items, item.id) ==> r == items
    ensures !HasId(items, item.id) ==> |r| == |items| + 1 && r[0] == item && r[1..] == items
  {
    if HasId(items, item.id) then items else [item] + items
  }

  /** The job ids of `videos`, in order: the consume requests one poll sends. */
  function JobIds(videos: seq<GeneratedVideo>): (r: seq<string>)
    ensures |r| == |videos|
    ensures forall k :: 0 <= k < |videos| ==> r[k] == videos[k].jobId
  {
    seq(|videos|, k requires 0 <= k < |videos| => videos[k].jobId)
  }

  /** The feed after the poll's loop has handled `videos` in order. */
  function PrependAll(items: seq<FeedItem>, videos: seq<GeneratedVideo>): seq<FeedItem>
  {
    if videos == [] then items
    else PrependIfAbsent(PrependAll(items, videos[..|videos| - 1]), GeneratedItem(videos[|videos| - 1]))
  }

  /** Handling one more video of the answer: its item is prepended, its job id consumed. */
  lemma PollStep(items: seq<FeedItem>, videos: seq<GeneratedVideo>, i: nat)
    requires i < |videos|
    ensures PrependAll(items, videos[..i + 1]) == PrependIfAbsent(PrependAll(items, videos[..i]), GeneratedItem(videos[i]))
    ensures JobIds(videos[..i + 1]) == JobIds(videos[..i]) + [videos[i].jobId]
  {
    assert videos[..i + 1][..i] == videos[..i];
  }

  /** Prepending never drops anything: every id present before is present after. */
  lemma {:induction false} PrependAllKeepsIds(items: seq<FeedItem>, videos: seq<GeneratedVideo>, id: string)
    requires HasId(items, id)
    ensures HasId(PrependAll(items, videos), id)
  {
    if videos != [] {
      PrependAllKeepsIds(items, videos[..|videos| - 1], id);
      var prior := PrependAll(items, videos[..|videos| - 1]);
      var i :| 0 <= i < |prior| && prior[i].id == id;
      var r := PrependAll(items, videos);
      if r != prior {
        assert r[i + 1] == prior[i];
      }
    }
  }

  /** After the loop every polled video's item is in the feed. */
  lemma {:induction false} PrependAllAddsIds(items: seq<FeedItem>, videos: seq<GeneratedVideo>, k: nat)
    requires k < |videos|
    ensures HasId(PrependAll(items, videos), "generated-" + videos[k].jobId)
  {
    var init := videos[..|videos| - 1];
    var prior := PrependAll(items, init);
    var item := GeneratedItem(videos[|videos| - 1]);
    if k == |videos| - 1 {
      if !HasId(prior, item.id) {
        assert PrependAll(items, videos)[0] == item;
      }
    } else {
      assert init[k] == videos[k];
      PrependAllAddsIds(items, init, k);
      PrependAllKeepsIds(prior, [videos[|videos| - 1]], "generated-" + videos[k].jobId);
      assert [videos[|videos| - 1]][..0] == [];
    }
  }

  /** When every polled video is already in the feed, the loop changes nothing. */
  lemma {:induction false} PrependAllPresent(items: seq<FeedItem>, videos: seq<GeneratedVideo>)
    requires forall k :: 0 <= k < |videos| ==> HasId(items, "generated-" + videos[k].jobId)
    ensures PrependAll(items, videos) == items
  {
    if videos != [] {
      var init := videos[..|videos| - 1];
      assert forall k :: 0 <= k < |init| ==> init[k] == videos[k];
      PrependAllPresent(items, init);
    }
  }

  /** Polling the same answer twice is the same as polling it once. */
  lemma PollIsIdempotent(items: seq<FeedItem>, videos: seq<GeneratedVideo>)
    ensures PrependAll(PrependAll(items, videos), videos) == PrependAll(items, videos)
  {
    forall k | 0 <= k < |videos|
      ensures HasId(PrependAll(items, videos), "generated-" + videos[k].jobId)
    {
      PrependAllAddsIds(items, videos, k);
    }
    PrependAllPresent(PrependAll(items, videos), videos);
  }

  /** No two items share an id. */
  ghost predicate IdsDistinct(items: seq<FeedItem>)
  {
    forall i, j :: 0 <= i < j < |items| ==> items[i].id != items[j].id
  }

  /** The poll keeps the feed's ids distinct. */
  lemma {:induction false} PrependAllKeepsIdsDistinct(items: seq<FeedItem>, videos: seq<GeneratedVideo>)
    requires IdsDistinct(items)
    ensures IdsDistinct(PrependAll(items, videos))
  {
    if videos != [] {
      PrependAllKeepsIdsDistinct(items, videos[..|videos| - 1]);
      var prior := PrependAll(items, videos[..|videos| - 1]);
      var item := GeneratedItem(videos[|videos| - 1]);
      if !HasId(prior, item.id) {
        var r := [item] + prior;
        forall i, j | 0 <= i < j < |r|
          ensures r[i].id != r[j].id
        {
          if i == 0 {
            assert r[j] == prior[j - 1];
            assert !(0 <= j - 1 < |prior| && prior[j - 1].id == item.id);
          } else {
            assert r[i] == prior[i - 1] && r[j] == prior[j - 1];
            assert prior[i - 1].id != prior[j - 1].id;
          }
        }
        assert PrependAll(items, videos) == r;
        assert IdsDistinct(r);
      }
    }
  }

  // ---------------------------------------------------------------------
  // Visualization clips: insert at a clamped index

  /** Where `Array.prototype.splice` puts an element for a start index: negative counts from the end, clamped to the array. */
  function SpliceIndex(len: nat, start: int): (k: nat)
    ensures k <= len
    ensures 0 <= start <= len ==> k == start
    ensures start > len ==> k == len
    ensures start < 0 ==> k == if len + start < 0 then 0 else len + start
  {
    if start < 0 then (if len + start < 0 then 0 else len + start)
    else if start > len then len
    else start
  }

  /** `next.splice(start, 0, item)` on a copy of `items`. */
  function SpliceInsert(items: seq<FeedItem>, start: int, item: FeedItem): (r: seq<FeedItem>)
    ensures |r| == |items| + 1
    ensures r[SpliceIndex(|items|, start)] == item
    ensures r[..SpliceIndex(|items|, start)] + r[SpliceIndex(|items|, start) + 1..] == items
  {
    var k := SpliceIndex(|items|, start);
    var r := items[..k] + [item] + items[k..];
    assert r[..k] == items[..k] && r[k + 1..] == items[k..];
    r
  }

  /** The index `insertMp4` asks for: `Math.min(currentIndex + offset, prev.length)`. */
  function InsertIndex(currentIndex: int, offset: int, len: nat): int
  {
    if currentIndex + offset < len then currentIndex + offset else len
  }

  /**
   * For a viewer position that is not negative, the clip lands exactly
   * `offset` items ahead of it, or at the end of a shorter feed.
   */
  lemma InsertLandsAhead(items: seq<FeedItem>, currentIndex: int, offset: int, item: FeedItem)
    requires currentIndex >= 0 && offset >= 0
    ensures var k := if currentIndex + offset < |items| then currentIndex + offset else |items|;
      SpliceInsert(items, InsertIndex(currentIndex, offset, |items|), item)[k] == item
  {
  }

  /** The id `insertMp4` gives a clip: the clock reading and a random suffix. */
  function InjectedId(now: nat, randomSuffix: string): string
  {
    "injected-" + NatDigits(now) + "-" + randomSuffix
  }

  function BetSideText(side: BetSide): string
  {
    match side
    case Yes => "YES"
    case No => "NO"
  }

  /** The feed item `insertMp4` builds for an mp4 visualization entry. */
  function InjectedItem(id: string, url: string, title: Option<string>, market: Market, side: BetSide): (r: FeedItem)
    ensures r.isInjected && r.youtubeVideoId == "" && r.kalshi == [market]
    ensures r.video == Some(Mp4Video(url, title)) && r.injectedByBetSide == Some(BetSideText(side))
  {
    FeedItem(id, "", "", Some(Mp4Video(url, title)), [market], true, Some(BetSideText(side)))
  }

  // ---------------------------------------------------------------------
  // Batches, persistence and the seen ids

  /** `a` is `b` with some elements dropped and the rest kept in order. */
  predicate Subsequence<T(==)>(a: seq<T>, b: seq<T>)
    decreases |b|
  {
    a == [] || (b != [] && ((a[0] == b[0] && Subsequence(a[1..], b[1..])) || Subsequence(a, b[1..])))
  }

  /** `items.filter(i => !i.isInjected)`: what is persisted, and what `stats.matched` counts. */
  function NonInjected(items: seq<FeedItem>): (r: seq<FeedItem>)
    ensures |r| <= |items|
    ensures forall x :: x in r <==> x in items && !x.isInjected
    ensures multiset(r) <= multiset(items)
    ensures Subsequence(r, items)
  {
    if items == [] then []
    else
      assert items == [items[0]] + items[1..];
      var rest := NonInjected(items[1..]);
      if items[0].isInjected then
        assert [] + rest == rest;
        [] + rest
      else
        assert ([items[0]] + rest)[1..] == rest;
        [items[0]] + rest
  }

  /** Filtering distributes over the append of a batch. */
  lemma {:induction false} NonInjectedAppend(a: seq<FeedItem>, b: seq<FeedItem>)
    ensures NonInjected(a + b) == NonInjected(a) + NonInjected(b)
  {
    if a != [] {
      assert (a + b)[0] == a[0];
      assert (a + b)[1..] == a[1..] + b;
      NonInjectedAppend(a[1..], b);
    } else {
      assert a + b == b;
    }
  }

  /** `seenVideoIds.add(id)` for a truthy id, on an insertion-ordered set. */
  function AddSeen(seen: seq<string>, id: string): seq<string>
  {
    if id == "" || id in seen then seen else seen + [id]
  }

  /** The seen ids after the loop over `items`. */
  function AddSeenIds(seen: seq<string>, items: seq<FeedItem>): seq<string>
  {
    if items == [] then seen
    else AddSeen(AddSeenIds(seen, items[..|items| - 1]), items[|items| - 1].youtubeVideoId)
  }

  ghost predicate Distinct(s: seq<string>)
  {
    forall i, j :: 0 <= i < j < |s| ==> s[i] != s[j]
  }

  /**
   * The loop keeps the earlier ids first and in order, adds exactly the
   * non-empty ids of the items, and never repeats one.
   */
  lemma {:induction false} AddSeenIdsSpec(seen: seq<string>, items: seq<FeedItem>)
    ensures var r := AddSeenIds(seen, items);
      && |seen| <= |r| && r[..|seen|] == seen
      && (forall x :: x in r <==> x in seen || (x != "" && exists i :: 0 <= i < |items| && items[i].youtubeVideoId == x))
      && (Distinct(seen) ==> Distinct(r))
  {
    if items != [] {
      var init := items[..|items| - 1];
      AddSeenIdsSpec(seen, init);
      assert forall i :: 0 <= i < |init| ==> init[i] == items[i];
      var prior := AddSeenIds(seen, init);
      assert (prior + [items[|items| - 1].youtubeVideoId])[..|seen|] == prior[..|seen|];
    }
  }

  /** `&exclude=<ids>` when some id has been seen, nothing otherwise. */
  function ExcludeParam(seen: seq<string>): (r: string)
    ensures r == "" <==> seen == []
  {
    if |seen| > 0 then "&exclude=" + Join(",", seen) else ""
  }

  /** The batch request's URL. */
  function FeedRequestUrl(apiUrl: string, count: nat, seen: seq<string>): string
  {
    apiUrl + "/pool/feed?count=" + NatDigits(count) + ExcludeParam(seen)
  }

  /** `loadFeedResults`: the stored items, when in a browser and the stored text parses to a non-empty array. */
  function LoadFeedResults(inBrowser: bool, raw: Option<string>, parse: string -> Parsed): (r: Option<seq<FeedItem>>)
    ensures r.Some? ==> r.value != []
    ensures r.Some? <==> inBrowser && raw.Some? && raw.value != "" && parse(raw.value).ParsedArray? &&
                         parse(raw.value).items != []
    ensures r.Some? ==> r.value == parse(raw.value).items
  {
    if !inBrowser then None
    else if raw.None? || raw.value == "" then None
    else match parse(raw.value)
      case ParsedArray(items) => if |items| == 0 then None else Some(items)
      case _ => None
  }

  /** Saving a non-empty list and loading it back gives the list, when the encoding round-trips. */
  lemma LoadAfterSave(items: seq<FeedItem>, serialize: seq<FeedItem> -> string, parse: string -> Parsed)
    requires serialize(items) != "" && parse(serialize(items)) == ParsedArray(items)
    ensures LoadFeedResults(true, Some(serialize(items)), parse) == if items == [] then None else Some(items)
  {
  }

  /** `stats`: counts over the feed; pending, processing and failed are constant 0. */
  function FeedStats(items: seq<FeedItem>): (r: Stats)
    ensures r.total == |items| && r.matched == |NonInjected(items)| <= r.total
    ensures r.pending == 0 && r.processing == 0 && r.failed == 0
  {
    Stats(|items|, 0, 0, |NonInjected(items)|, 0)
  }

  /** Appending a batch adds its non-injected items to `matched`; a poll's prepends leave `matched` alone. */
  lemma StatsDeltas(items: seq<FeedItem>, results: seq<FeedItem>, videos: seq<GeneratedVideo>)
    ensures FeedStats(items + results).matched == FeedStats(items).matched + |NonInjected(results)|
    ensures FeedStats(PrependAll(items, videos)).matched == FeedStats(items).matched
  {
    NonInjectedAppend(items, results);
    PrependAllMatched(items, videos);
  }

  lemma {:induction false} PrependAllMatched(items: seq<FeedItem>, videos: seq<GeneratedVideo>)
    ensures NonInjected(PrependAll(items, videos)) == NonInjected(items)
  {
    if videos != [] {
      PrependAllMatched(items, videos[..|videos| - 1]);
      var prior := PrependAll(items, videos[..|videos| - 1]);
      var item := GeneratedItem(videos[|videos| - 1]);
      if !HasId(prior, item.id) {
        assert ([item] + prior)[1..] == prior;
      }
    }
  }

  /** Every non-empty YouTube id of the feed is among the seen ids. */
  ghost predicate Covers(items: seq<FeedItem>, seen: seq<string>)
  {
    forall i :: 0 <= i < |items| && items[i].youtubeVideoId != "" ==> items[i].youtubeVideoId in seen
  }

  /** An item without a YouTube id can be spliced in without touching the seen ids. */
  lemma SpliceKeepsCover(items: seq<FeedItem>, start: int, item: FeedItem, seen: seq<string>)
    requires Covers(items, seen) && item.youtubeVideoId == ""
    ensures Covers(SpliceInsert(items, start, item), seen)
  {
    var k := SpliceIndex(|items|, start);
    var r := SpliceInsert(items, start, item);
    assert r == items[..k] + [item] + items[k..];
    forall i | 0 <= i < |r| && r[i].youtubeVideoId != ""
      ensures r[i].youtubeVideoId in seen
    {
      if i < k {
        assert r[i] == items[i];
      } else if i > k {
        assert r[i] == items[i - 1];
      }
    }
  }

  /** Prepending a generated item, which has no YouTube id, keeps the cover. */
  lemma PrependKeepsCover(items: seq<FeedItem>, item: FeedItem, seen: seq<string>)
    requires Covers(items, seen) && item.youtubeVideoId == ""
    ensures Covers(PrependIfAbsent(items, item), seen)
  {
    var r := PrependIfAbsent(items, item);
    forall i | 0 <= i < |r| && r[i].youtubeVideoId != ""
      ensures r[i].youtubeVideoId in seen
    {
      if r != items {
        assert r[i] == items[i - 1];
      }
    }
  }

  // ---------------------------------------------------------------------
  // The hook's state

  class Queue {
    const apiUrl: string
    /** `typeof window !== 'undefined'`. */
    const inBrowser: bool
    var feedItems: seq<FeedItem>
    var feedError: Option<string>
    var initialized: bool
    /** `seenVideoIds`, in insertion order. */
    var seenVideoIds: seq<string>
    /** The session copy under `feed_results`, as the items it serializes. */
    var stored: Option<seq<FeedItem>>
    /** Job ids whose consume request the poll has sent, in order. */
    ghost var consumed: seq<string>

    /** The seen ids are distinct and non-empty, and include every YouTube id in the feed. */
    ghost predicate Valid()
      reads this
    {
      && Distinct(seenVideoIds)
      && (forall x :: x in seenVideoIds ==> x != "")
      && Covers(feedItems, seenVideoIds)
    }

    constructor (apiUrl: string, inBrowser: bool, stored: Option<seq<FeedItem>>)
      ensures Valid()
      ensures this.apiUrl == apiUrl && this.inBrowser == inBrowser && this.stored == stored
      ensures feedItems == [] && feedError == None && !initialized && seenVideoIds == [] && consumed == []
    {
      this.apiUrl := apiUrl;
      this.inBrowser := inBrowser;
      this.stored := stored;
      feedItems := [];
      feedError := None;
      initialized := false;
      seenVideoIds := [];
      consumed := [];
    }

    /** The `for` loop adding each item's truthy YouTube id to `seenVideoIds`. */
    method MarkSeen(items: seq<FeedItem>)
      modifies this
      ensures seenVideoIds == AddSeenIds(old(seenVideoIds), items)
      ensures feedItems == old(feedItems) && feedError == old(feedError) && initialized == old(initialized)
      ensures stored == old(stored) && consumed == old(consumed)
    {
      for i := 0 to |items|
        invariant seenVideoIds == AddSeenIds(old(seenVideoIds), items[..i])
        invariant feedItems == old(feedItems) && feedError == old(feedError) && initialized == old(initialized)
        invariant stored == old(stored) && consumed == old(consumed)
      {
        assert items[..i + 1][..i] == items[..i];
        var id := items[i].youtubeVideoId;
        if id != "" && id !in seenVideoIds {
          seenVideoIds := seenVideoIds + [id];
        }
      }
      assert items[..|items|] == items;
    }

    /**
     * `fetchBatch`: returns the URL it requests. On success the results
     * are appended after the current items, their ids marked seen and the
     * non-injected items persisted; on failure only the error is recorded.
     */
    method FetchBatch(count: nat, response: FeedResponse) returns (requested: string)
      requires Valid()
      modifies this
      ensures Valid()
      ensures requested == FeedRequestUrl(apiUrl, count, old(seenVideoIds))
      ensures initialized == old(initialized) && consumed == old(consumed)
      ensures response.FeedOk? ==>
        && feedItems == old(feedItems) + response.results
        && seenVideoIds == AddSeenIds(old(seenVideoIds), response.results)
        && stored == (if inBrowser then Some(NonInjected(feedItems)) else old(stored))
        && feedError == None
      ensures !response.FeedOk? ==>
        && feedItems == old(feedItems) && seenVideoIds == old(seenVideoIds) && stored == old(stored)
        && feedError == Some(if response.FeedNotOk? then FeedFetchFailed else response.errorText)
    {
      feedError := None;
      requested := FeedRequestUrl(apiUrl, count, seenVideoIds);
      match response {
        case FeedNotOk =>
          feedError := Some(FeedFetchFailed);
        case FeedThrew(text) =>
          feedError := Some(text);
        case FeedOk(results) =>
          AddSeenIdsSpec(seenVideoIds, results);
          MarkSeen(results);
          var next := feedItems + results;
          if inBrowser {
            stored := Some(NonInjected(next));
          }
          feedItems := next;
      }
    }

    /**
     * The mount effect: once only, restore the session copy (`cached`,
     * what `loadFeedResults` returned) or else fetch the first batch.
     */
    method Mount(cached: Option<seq<FeedItem>>, response: FeedResponse) returns (requested: Option<string>)
      requires Valid()
      modifies this
      ensures Valid() && initialized
      ensures old(initialized) ==>
        requested == None && feedItems == old(feedItems) && seenVideoIds == old(seenVideoIds) &&
        stored == old(stored) && feedError == old(feedError)
      ensures !old(initialized) && cached.Some? && cached.value != [] ==>
        requested == None && feedItems == cached.value &&
        seenVideoIds == AddSeenIds(old(seenVideoIds), cached.value) &&
        stored == old(stored) && feedError == old(feedError)
      ensures !old(initialized) && (cached.None? || cached.value == []) ==>
        && requested == Some(FeedRequestUrl(apiUrl, BatchSize, old(seenVideoIds)))
        && feedItems == (if response.FeedOk? then old(feedItems) + response.results else old(feedItems))
        && seenVideoIds == (if response.FeedOk? then AddSeenIds(old(seenVideoIds), response.results) else old(seenVideoIds))
        && stored == (if response.FeedOk? && inBrowser then Some(NonInjected(feedItems)) else old(stored))
        && feedError == (if response.FeedOk? then None else Some(if response.FeedNotOk? then FeedFetchFailed else response.errorText))
      ensures consumed == old(consumed)
    {
      if initialized {
        return None;
      }
      initialized := true;
      if cached.Some? && |cached.value| > 0 {
        feedItems := cached.value;
        AddSeenIdsSpec(seenVideoIds, cached.value);
        MarkSeen(cached.value);
        return None;
      }
      var url := FetchBatch(BatchSize, response);
      requested := Some(url);
    }

    /**
     * One run of the generated-video poll: each video of a non-empty array
     * answer is prepended unless already present, and its consume request
     * is sent; any other answer changes nothing.
     */
    method PollGenerated(response: GeneratedResponse)
      requires Valid()
      modifies this
      ensures Valid()
      ensures response.GeneratedArray? ==> feedItems == PrependAll(old(feedItems), response.videos)
      ensures response.GeneratedArray? ==> consumed == old(consumed) + JobIds(response.videos)
      ensures !response.GeneratedArray? ==> feedItems == old(feedItems) && consumed == old(consumed)
      ensures seenVideoIds == old(seenVideoIds) && stored == old(stored) && feedError == old(feedError)
      ensures initialized == old(initialized)
    {
      if !response.GeneratedArray? {
        return;
      }
      var videos := response.videos;
      for i := 0 to |videos|
        invariant Valid()
        invariant feedItems == PrependAll(old(feedItems), videos[..i])
        invariant consumed == old(consumed) + JobIds(videos[..i])
        invariant seenVideoIds == old(seenVideoIds) && stored == old(stored) && feedError == old(feedError)
        invariant initialized == old(initialized)
      {
        PollStep(old(feedItems), videos, i);
        PrependGenerated(videos[i]);
      }
      assert videos[..|videos|] == videos;
    }

    /** One round of the poll's loop: the video's item is prepended unless present, and its consume request is sent. */
    method PrependGenerated(video: GeneratedVideo)
      requires Valid()
      modifies this
      ensures Valid()
      ensures feedItems == PrependIfAbsent(old(feedItems), GeneratedItem(video))
      ensures consumed == old(consumed) + [video.jobId]
      ensures seenVideoIds == old(seenVideoIds) && stored == old(stored) && feedError == old(feedError)
      ensures initialized == old(initialized)
    {
      var item := GeneratedItem(video);
      PrependKeepsCover(feedItems, item, seenVideoIds);
      feedItems := PrependIfAbsent(feedItems, item);
      consumed := consumed + [video.jobId];
    }

    /**
     * `insertMp4`: looks up a visualization for the market in `videos`; an
     * mp4 entry is spliced in 4 or 5 places ahead of `currentIndex` (the
     * offset is a random choice). Returns the entry found and the offset.
     */
    method InsertMp4(currentIndex: int, market: Market, side: BetSide, now: nat, randomSuffix: string,
                     videos: seq<Mystery.VideoEntry>)
      returns (entry: Option<Mystery.VideoEntry>, offset: int)
      requires Valid()
      modifies this
      ensures Valid()
      ensures entry.Some? ==> entry.value in videos
      ensures videos != [] ==> entry.Some?
      ensures entry.None? || !entry.value.source.Mp4? ==> feedItems == old(feedItems)
      ensures entry.Some? && entry.value.source.Mp4? ==>
        && 4 <= offset <= 5
        && feedItems == SpliceInsert(old(feedItems), InsertIndex(currentIndex, offset, |old(feedItems)|),
                                     InjectedItem(InjectedId(now, randomSuffix), entry.value.source.url,
                                                  entry.value.labelText, market, side))
      ensures seenVideoIds == old(seenVideoIds) && stored == old(stored) && feedError == old(feedError)
      ensures initialized == old(initialized) && consumed == old(consumed)
    {
      entry := Mystery.FindVisualizationBySeriesTicker(market.seriesTicker, market.question, videos);
      offset := 0;
      if entry.None? || !entry.value.source.Mp4? {
        return;
      }
      var item := InjectedItem(InjectedId(now, randomSuffix), entry.value.source.url, entry.value.labelText, market, side);
      assert 4 <= 4 <= 5;
      offset :| 4 <= offset <= 5;
      var insertIdx := if currentIndex + offset < |feedItems| then currentIndex + offset else |feedItems|;
      var next := SpliceInsert(feedItems, insertIdx, item);
      SpliceKeepsCover(feedItems, insertIdx, item, seenVideoIds);
      feedItems := next;
    }

    /** `clearQueue`: empties the feed and the seen ids, and drops the session copy in a browser. */
    method ClearQueue()
      requires Valid()
      modifies this
      ensures Valid()
      ensures feedItems == [] && seenVideoIds == []
      ensures stored == if inBrowser then None else old(stored)
      ensures feedError == old(feedError) && initialized == old(initialized) && consumed == old(consumed)
    {
      feedItems := [];
      seenVideoIds := [];
      if inBrowser {
        stored := None;
      }
    }
  }
}
