/**
 * Visualization picking (`frontend/mystery.tsx`): a market is matched to a
 * topic, by its series ticker or by scoring the words of its question
 * against per-topic keyword lists, and a video of that topic is drawn from
 * the catalog.
 */
module Mystery {
  import opened Wrappers
  import opened Text

  datatype VideoTopic = Superbowl | WeatherSnow | MarsSpace | General

  datatype VideoSource = YouTube(videoId: string) | Mp4(url: string)

  datatype VideoEntry = VideoEntry(source: VideoSource, topic: VideoTopic, labelText: Option<string>)

  /** One entry of `TOPIC_KEYWORDS`, in the object's own key order. */
  datatype TopicEntry = TopicEntry(topic: VideoTopic, keywords: seq<string>)

  /** The running best of the topic scan: `bestTopic` and `bestScore`. */
  datatype Best = Best(topic: Option<VideoTopic>, score: nat)

  const VideoBase: string := "https://storage.googleapis.com/qhacks-486618-storage/videos/13118567516871963719/"

  /** `AI_REEL_VIDEOS`, which `VISUALIZATION_VIDEOS` copies unchanged. */
  const VisualizationVideos: seq<VideoEntry> := [
    VideoEntry(Mp4(VideoBase + "la.mp4"), WeatherSnow, Some("good los angeles snow")),
    VideoEntry(Mp4(VideoBase + "la.mp4"), WeatherSnow, Some("decent los angeles snow")),
    VideoEntry(Mp4(VideoBase + "superbowl.mp4"), Superbowl, Some("good superbowl")),
    VideoEntry(Mp4(VideoBase + "superbowl.mp4"), Superbowl, Some("good superbowl but has weird text")),
    VideoEntry(Mp4(VideoBase + "mars.mp4"), MarsSpace, Some("cars mars"))
  ]

  const TopicTable: seq<TopicEntry> := [
    TopicEntry(Superbowl, ["superbowl", "super bowl", "nfl", "football", "chiefs", "eagles", "halftime"]),
    TopicEntry(WeatherSnow, ["snow", "weather", "los angeles", "la snow", "blizzard", "winter", "storm", "cold"]),
    TopicEntry(MarsSpace, ["mars", "space", "nasa", "spacex", "rocket", "planet", "astronaut"]),
    TopicEntry(General, [])
  ]

  /** `SERIES_TO_TOPIC`. */
  const SeriesToTopic: map<string, VideoTopic> := map[
    "KXSB" := Superbowl, "KXNBAGAME" := Superbowl, "KXMLBGAME" := Superbowl,
    "KXNHLGAME" := Superbowl, "KXWCGAME" := Superbowl
  ]

  /** A question word and a topic keyword match when either contains the other. */
  predicate Matches(kw: string, tk: string)
  {
    Contains(kw, tk) || Contains(tk, kw)
  }

  /** How many of the topic keywords match one question word. */
  function KeywordScore(kw: string, tks: seq<string>): (r: nat)
    ensures r <= |tks|
  {
    if tks == [] then 0
    else KeywordScore(kw, tks[..|tks| - 1]) + (if Matches(kw, tks[|tks| - 1]) then 1 else 0)
  }

  /** A topic's score: the number of (question word, topic keyword) pairs that match. */
  function Score(kws: seq<string>, tks: seq<string>): (r: nat)
  {
    if kws == [] then 0
    else Score(kws[..|kws| - 1], tks) + KeywordScore(kws[|kws| - 1], tks)
  }

  /** A word scores nothing exactly when it matches none of the keywords. */
  lemma {:induction false} KeywordScoreZeroIff(kw: string, tks: seq<string>)
    ensures KeywordScore(kw, tks) == 0 <==> forall j :: 0 <= j < |tks| ==> !Matches(kw, tks[j])
  {
    if tks != [] {
      KeywordScoreZeroIff(kw, tks[..|tks| - 1]);
      assert forall j :: 0 <= j < |tks| - 1 ==> tks[..|tks| - 1][j] == tks[j];
    }
  }

  /** A topic scores nothing exactly when no word matches any of its keywords. */
  lemma {:induction false} ScoreZeroIff(kws: seq<string>, tks: seq<string>)
    ensures Score(kws, tks) == 0 <==> forall i, j :: 0 <= i < |kws| && 0 <= j < |tks| ==> !Matches(kws[i], tks[j])
  {
    if kws != [] {
      ScoreZeroIff(kws[..|kws| - 1], tks);
      KeywordScoreZeroIff(kws[|kws| - 1], tks);
      assert forall i :: 0 <= i < |kws| - 1 ==> kws[..|kws| - 1][i] == kws[i];
    }
  }

  /** The scan over the first `n` table entries: General is skipped, and only a strictly higher score replaces the best. */
  function BestUpTo(table: seq<TopicEntry>, kws: seq<string>, n: nat): Best
    requires n <= |table|
  {
    if n == 0 then Best(None, 0)
    else
      var prior := BestUpTo(table, kws, n - 1);
      var entry := table[n - 1];
      if entry.topic == General then prior
      else
        var s := Score(kws, entry.keywords);
        if s > prior.score then Best(Some(entry.topic), s) else prior
  }

  /** The topic the keyword scan settles on, for already lower-cased words. */
  function BestTopic(kws: seq<string>): Option<VideoTopic>
  {
    BestUpTo(TopicTable, kws, |TopicTable|).topic
  }

  /** The scan's score is the largest score of a non-General entry (0 if none), and a topic is chosen exactly when it is positive. */
  lemma {:induction false} BestUpToIsMaximum(table: seq<TopicEntry>, kws: seq<string>, n: nat)
    requires n <= |table|
    ensures var b := BestUpTo(table, kws, n);
      && (b.topic.Some? <==> b.score > 0)
      && (forall m :: 0 <= m < n && table[m].topic != General ==> Score(kws, table[m].keywords) <= b.score)
      && (b.score == 0 || exists m :: 0 <= m < n && table[m].topic != General && Score(kws, table[m].keywords) == b.score)
      && (b.topic.Some? ==> b.topic.value != General)
  {
    if n > 0 {
      BestUpToIsMaximum(table, kws, n - 1);
    }
  }

  /**
   * The scan picks the first entry whose score is positive and maximal:
   * strictly above every earlier entry's, at least every later one's.
   */
  lemma {:induction false} FirstMaximumWins(table: seq<TopicEntry>, kws: seq<string>, n: nat, m: nat)
    requires m < n <= |table| && table[m].topic != General
    requires Score(kws, table[m].keywords) > 0
    requires forall k :: 0 <= k < m && table[k].topic != General ==> Score(kws, table[k].keywords) < Score(kws, table[m].keywords)
    requires forall k :: m < k < n && table[k].topic != General ==> Score(kws, table[k].keywords) <= Score(kws, table[m].keywords)
    ensures BestUpTo(table, kws, n) == Best(Some(table[m].topic), Score(kws, table[m].keywords))
  {
    if n - 1 == m {
      BestUpToIsMaximum(table, kws, m);
    } else {
      FirstMaximumWins(table, kws, n - 1, m);
    }
  }

  /** No topic is chosen exactly when no question word matches any keyword of any non-General topic. */
  lemma NoTopicIffNoMatch(table: seq<TopicEntry>, kws: seq<string>, n: nat)
    requires n <= |table|
    ensures BestUpTo(table, kws, n).topic.None? <==>
      forall m, i, j :: 0 <= m < n && table[m].topic != General && 0 <= i < |kws| && 0 <= j < |table[m].keywords| ==>
        !Matches(kws[i], table[m].keywords[j])
  {
    BestUpToIsMaximum(table, kws, n);
    forall m | 0 <= m < n
      ensures Score(kws, table[m].keywords) == 0 <==>
        forall i, j :: 0 <= i < |kws| && 0 <= j < |table[m].keywords| ==> !Matches(kws[i], table[m].keywords[j])
    {
      ScoreZeroIff(kws, table[m].keywords);
    }
  }

  /**
   * An empty question word (what splitting a question with leading or
   * trailing whitespace yields) is contained in every keyword, so it adds
   * one point per keyword.
   */
  lemma EmptyWordMatchesEveryKeyword(tks: seq<string>)
    ensures KeywordScore("", tks) == |tks|
  {
    if tks != [] {
      EmptyWordMatchesEveryKeyword(tks[..|tks| - 1]);
      assert Contains(tks[|tks| - 1], "");
    }
  }

  /** `videos.filter(v => v.topic === topic)`. */
  function Filter(videos: seq<VideoEntry>, topic: VideoTopic): (r: seq<VideoEntry>)
    ensures |r| <= |videos|
    ensures forall v :: v in r <==> v in videos && v.topic == topic
  {
    if videos == [] then []
    else (if videos[0].topic == topic then [videos[0]] else []) + Filter(videos[1..], topic)
  }

  /** The pool a pick is drawn from: the chosen topic's videos, or all of them when no topic won. */
  function Pool(videos: seq<VideoEntry>, best: Option<VideoTopic>): (r: seq<VideoEntry>)
    ensures forall v :: v in r ==> v in videos
    ensures best.None? ==> r == videos
    ensures best.Some? ==> forall v :: v in r <==> v in videos && v.topic == best.value
  {
    if best.Some? then Filter(videos, best.value) else videos
  }

  /** `keywords.map(k => k.toLowerCase())`. */
  function LowerAll(keywords: seq<string>): (r: seq<string>)
    ensures |r| == |keywords| && forall i :: 0 <= i < |r| ==> r[i] == Lower(keywords[i])
  {
    seq(|keywords|, i requires 0 <= i < |keywords| => Lower(keywords[i]))
  }

  /** `SERIES_TO_TOPIC[seriesTicker]`, for a present, non-empty ticker. */
  function TickerTopic(seriesTicker: string): (r: Option<VideoTopic>)
    ensures r.Some? <==> seriesTicker in SeriesToTopic
    ensures r.Some? ==> r.value == Superbowl
  {
    if seriesTicker != "" && seriesTicker in SeriesToTopic then Some(SeriesToTopic[seriesTicker]) else None
  }

  /** `pool[Math.floor(Math.random() * pool.length)]`: some element of a non-empty pool. */
  method PickRandom(pool: seq<VideoEntry>) returns (r: VideoEntry)
    requires pool != []
    ensures r in pool
  {
    var i :| 0 <= i < |pool|;
    r := pool[i];
  }

  /** The inner loops of `findVisualizationVideo`: one point per matching word and topic-keyword pair. */
  method ScoreTopic(keywords: seq<string>, topicKeywords: seq<string>) returns (score: nat)
    ensures score == Score(keywords, topicKeywords)
  {
    score := 0;
    for i := 0 to |keywords|
      invariant score == Score(keywords[..i], topicKeywords)
    {
      var kw := keywords[i];
      for j := 0 to |topicKeywords|
        invariant score == Score(keywords[..i], topicKeywords) + KeywordScore(kw, topicKeywords[..j])
      {
        var tk := topicKeywords[j];
        assert topicKeywords[..j + 1][..j] == topicKeywords[..j];
        if Contains(kw, tk) || Contains(tk, kw) {
          score := score + 1;
        }
      }
      assert keywords[..i + 1][..i] == keywords[..i];
      assert topicKeywords[..|topicKeywords|] == topicKeywords;
    }
    assert keywords[..|keywords|] == keywords;
  }

  /**
   * `findVisualizationVideo`: scores every topic but General against the
   * lower-cased words, keeps the first strictly best one, and draws from its
   * videos (or from all videos when nothing matched).
   */
  method FindVisualizationVideo(keywords: seq<string>, videos: seq<VideoEntry>) returns (r: Option<VideoEntry>)
    ensures var pool := Pool(videos, BestTopic(LowerAll(keywords)));
      && (r.None? <==> pool == [])
      && (r.Some? ==> r.value in pool)
  {
    var lowerKeywords := LowerAll(keywords);
    var bestTopic: Option<VideoTopic> := None;
    var bestScore: nat := 0;
    for t := 0 to |TopicTable|
      invariant Best(bestTopic, bestScore) == BestUpTo(TopicTable, lowerKeywords, t)
    {
      var entry := TopicTable[t];
      if entry.topic == General {
        continue;
      }
      var score := ScoreTopic(lowerKeywords, entry.keywords);
      if score > bestScore {
        bestScore := score;
        bestTopic := Some(entry.topic);
      }
    }
    var pool := if bestTopic.Some? then Filter(videos, bestTopic.value) else videos;
    if |pool| == 0 {
      return None;
    }
    var pick := PickRandom(pool);
    r := Some(pick);
  }

  /**
   * `findVisualizationBySeriesTicker`: a known series ticker draws from its
   * topic's videos; failing that a non-empty question is split on whitespace
   * and keyword-matched; the last resort is any video at all.
   */
  method FindVisualizationBySeriesTicker(seriesTicker: string, question: string, videos: seq<VideoEntry>)
    returns (r: Option<VideoEntry>)
    ensures r.None? <==> videos == []
    ensures r.Some? ==> r.value in videos
    ensures TickerTopic(seriesTicker).Some? && Filter(videos, TickerTopic(seriesTicker).value) != [] ==>
      r.Some? && r.value.topic == TickerTopic(seriesTicker).value
    ensures (TickerTopic(seriesTicker).None? || Filter(videos, TickerTopic(seriesTicker).value) == []) &&
            question != "" && Pool(videos, BestTopic(LowerAll(SplitWs(question)))) != [] ==>
      r.Some? && r.value in Pool(videos, BestTopic(LowerAll(SplitWs(question))))
  {
    var topic := TickerTopic(seriesTicker);
    if topic.Some? {
      var pool := Filter(videos, topic.value);
      if |pool| > 0 {
        var pick := PickRandom(pool);
        return Some(pick);
      }
    }
    if question != "" {
      var keywords := SplitWs(question);
      var found := FindVisualizationVideo(keywords, videos);
      if found.Some? {
        return found;
      }
    }
    if |videos| == 0 {
      return None;
    }
    var pick := PickRandom(videos);
    r := Some(pick);
  }

  /** Every topic but General has videos in the catalog. */
  lemma CatalogCoversEveryTopic(topic: VideoTopic)
    requires topic != General
    ensures Filter(VisualizationVideos, topic) != []
  {
    var v := match topic
      case Superbowl => VisualizationVideos[2]
      case WeatherSnow => VisualizationVideos[0]
      case MarsSpace => VisualizationVideos[4];
    assert v in VisualizationVideos && v.topic == topic;
  }

  /** With the shipped catalog the keyword pick always finds a video, for any words. */
  lemma CatalogPoolNeverEmpty(kws: seq<string>)
    ensures Pool(VisualizationVideos, BestTopic(kws)) != []
  {
    BestUpToIsMaximum(TopicTable, kws, |TopicTable|);
    if BestTopic(kws).Some? {
      CatalogCoversEveryTopic(BestTopic(kws).value);
    }
  }
}
