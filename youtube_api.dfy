/** Enrichment from the YouTube Data API (youtube_api.py): exact counts for
    every channel, fetched 50 ids per request, and an average of recent view
    counts for channels that have none yet. The API client is a parameter:
    each field below is one kind of request, answering with its items or
    raising. */
module YoutubeApi {
  import opened Wrappers
  import opened Models
  import opened Arith
  import opened Lists
  import opened Dicts
  import opened Chunking

  /** `item["statistics"]` of a `channels().list` item; absent keys are None. */
  datatype Statistics = Statistics(subscriberCount: Option<int>, viewCount: Option<int>, videoCount: Option<int>)
  datatype StatsItem = StatsItem(id: string, statistics: Option<Statistics>)

  /** One `stats_map` value. */
  datatype ChannelStats = ChannelStats(subscriberCount: int, totalViews: int, videoCount: int)

  /** `items[i]["contentDetails"]["relatedPlaylists"]["uploads"]` (None when a key is missing). */
  datatype UploadsItem = UploadsItem(uploadsPlaylist: Option<string>)
  /** `item["contentDetails"]["videoId"]` of a playlist item. */
  datatype PlaylistItem = PlaylistItem(videoId: Option<string>)
  /** `item["statistics"]` of a `videos().list` item, with its `viewCount`. */
  datatype VideoItem = VideoItem(statistics: Option<Option<int>>)

  /** The four requests the client makes: channel statistics for a list of
      ids, the content details of one channel, the first items of a
      playlist, and the statistics of a list of videos. */
  datatype YouTubeApi = YouTubeApi(
    channelStatistics: seq<string> -> Fallible<seq<StatsItem>>,
    channelUploads: string -> Fallible<seq<UploadsItem>>,
    playlistItems: (string, nat) -> Fallible<seq<PlaylistItem>>,
    videoStatistics: seq<string> -> Fallible<seq<VideoItem>>)

  const BatchSize: nat := 50

  function ChannelIds(channels: seq<ChannelInfo>): (ids: seq<string>)
    ensures |ids| == |channels| && forall k :: 0 <= k < |channels| ==> ids[k] == channels[k].channelId
  {
    seq(|channels|, k requires 0 <= k < |channels| => channels[k].channelId)
  }

  // ------------------------------------------------------------ stats_map

  function ItemId(item: StatsItem): string { item.id }

  /** The `stats_map` entry of an item: each missing statistic counts 0. */
  function StatsOf(item: StatsItem): (s: ChannelStats)
    ensures item.statistics.None? ==> s == ChannelStats(0, 0, 0)
    ensures item.statistics.Some? ==> s == ChannelStats(
      item.statistics.value.subscriberCount.GetOr(0),
      item.statistics.value.viewCount.GetOr(0),
      item.statistics.value.videoCount.GetOr(0))
  {
    var st := item.statistics.GetOr(Statistics(None, None, None));
    ChannelStats(st.subscriberCount.GetOr(0), st.viewCount.GetOr(0), st.videoCount.GetOr(0))
  }

  /** The batch loop: one request per batch, its items folded into the map;
      the first request that raises aborts the whole enrichment. */
  function CollectStats(m: map<string, ChannelStats>, batches: seq<seq<string>>, api: YouTubeApi)
    : Fallible<map<string, ChannelStats>>
    decreases |batches|
  {
    if batches == [] then Ok(m)
    else match api.channelStatistics(batches[0])
      case Raised(e) => Raised(e)
      case Ok(items) => CollectStats(InsertAll(m, items, ItemId, StatsOf), batches[1..], api)
  }

  /** The items of every batch's response, in batch order. */
  function AllItems(batches: seq<seq<string>>, api: YouTubeApi): seq<StatsItem>
    requires forall k :: 0 <= k < |batches| ==> api.channelStatistics(batches[k]).Ok?
    decreases |batches|
  {
    if batches == [] then [] else api.channelStatistics(batches[0]).value + AllItems(batches[1..], api)
  }

  /** When no request raises, `stats_map` is the fold of all items of all
      responses in order, so a later item with the same id wins, also
      across batches. */
  lemma {:induction false} CollectStatsAllOk(m: map<string, ChannelStats>, batches: seq<seq<string>>, api: YouTubeApi)
    requires forall k :: 0 <= k < |batches| ==> api.channelStatistics(batches[k]).Ok?
    ensures CollectStats(m, batches, api) == Ok(InsertAll(m, AllItems(batches, api), ItemId, StatsOf))
    decreases |batches|
  {
    if batches != [] {
      var items := api.channelStatistics(batches[0]).value;
      assert forall k :: 0 <= k < |batches[1..]| ==> batches[1..][k] == batches[k + 1];
      CollectStatsAllOk(InsertAll(m, items, ItemId, StatsOf), batches[1..], api);
      InsertAllConcat(m, items, AllItems(batches[1..], api), ItemId, StatsOf);
    }
  }

  /** The fold raises exactly when some request raises. */
  lemma {:induction false} CollectStatsRaises(m: map<string, ChannelStats>, batches: seq<seq<string>>, api: YouTubeApi)
    ensures CollectStats(m, batches, api).Raised? <==>
      exists k :: 0 <= k < |batches| && api.channelStatistics(batches[k]).Raised?
    decreases |batches|
  {
    if batches != [] {
      assert forall k :: 0 <= k < |batches[1..]| ==> batches[1..][k] == batches[k + 1];
      if api.channelStatistics(batches[0]).Ok? {
        CollectStatsRaises(InsertAll(m, api.channelStatistics(batches[0]).value, ItemId, StatsOf), batches[1..], api);
        if exists k :: 0 <= k < |batches| && api.channelStatistics(batches[k]).Raised? {
          var k :| 0 <= k < |batches| && api.channelStatistics(batches[k]).Raised?;
          assert batches[1..][k - 1] == batches[k];
        }
      }
    }
  }

  // ------------------------------------------------------ _fetch_avg_views

  function VideoIdOf(p: PlaylistItem): Option<string> { p.videoId }

  function ViewCountOf(v: VideoItem): Option<int>
  {
    match v.statistics
    case None => None
    case Some(viewCount) => Some(viewCount.GetOr(0))
  }

  /** `_fetch_avg_views(youtube, channel_id)`: read the uploads playlist, its
      first ten video ids and their view counts. Every request that raises
      and every missing key (a `KeyError`) ends in the `except` branch and so
      in None, as do an empty channel list and an empty id list. */
  function FetchAvgViews(api: YouTubeApi, channelId: string): Option<int>
  {
    match api.channelUploads(channelId)
    case Raised(_) => None
    case Ok(items) =>
      if items == [] || items[0].uploadsPlaylist.None? then None
      else match api.playlistItems(items[0].uploadsPlaylist.value, 10)
        case Raised(_) => None
        case Ok(playlist) =>
          if exists k :: 0 <= k < |playlist| && playlist[k].videoId.None? then None
          else
            var videoIds := FilterMap(playlist, VideoIdOf);
            if videoIds == [] then None
            else match api.videoStatistics(videoIds)
              case Raised(_) => None
              case Ok(videos) =>
                if exists k :: 0 <= k < |videos| && videos[k].statistics.None? then None
                else TruncatedMean(FilterMap(videos, ViewCountOf))
  }

  /** The average is None when the channel request raises or finds no
      channel; it is Some only when every request succeeded with a channel,
      a non-empty list of video ids and a non-empty list of view items, and
      then it is the truncated mean of the view counts (a missing `viewCount`
      counting 0) and lies between any bounds of them. */
  lemma FetchAvgViewsResult(api: YouTubeApi, channelId: string, lo: int, hi: int)
    ensures api.channelUploads(channelId).Raised? ==> FetchAvgViews(api, channelId).None?
    ensures api.channelUploads(channelId) == Ok([]) ==> FetchAvgViews(api, channelId).None?
    ensures FetchAvgViews(api, channelId).Some? ==>
      var items := api.channelUploads(channelId).value;
      var playlist := api.playlistItems(items[0].uploadsPlaylist.value, 10).value;
      var videos := api.videoStatistics(FilterMap(playlist, VideoIdOf)).value;
      && api.channelUploads(channelId).Ok? && items != [] && items[0].uploadsPlaylist.Some?
      && api.playlistItems(items[0].uploadsPlaylist.value, 10).Ok?
      && api.videoStatistics(FilterMap(playlist, VideoIdOf)).Ok?
      && playlist != [] && videos != []
      && (forall k :: 0 <= k < |playlist| ==> playlist[k].videoId.Some?)
      && (forall k :: 0 <= k < |videos| ==> ViewCountOf(videos[k]).Some?)
      && FetchAvgViews(api, channelId) == TruncatedMean(FilterMap(videos, ViewCountOf))
      && ((forall k :: 0 <= k < |videos| ==> lo <= ViewCountOf(videos[k]).value <= hi)
          ==> lo <= FetchAvgViews(api, channelId).value <= hi)
  {
    if FetchAvgViews(api, channelId).Some? {
      var items := api.channelUploads(channelId).value;
      var playlist := api.playlistItems(items[0].uploadsPlaylist.value, 10).value;
      var videos := api.videoStatistics(FilterMap(playlist, VideoIdOf)).value;
      var views := FilterMap(videos, ViewCountOf);
      FilterMapSource(videos, ViewCountOf);
      if forall k :: 0 <= k < |videos| ==> lo <= ViewCountOf(videos[k]).value <= hi {
        forall j | 0 <= j < |views| ensures lo <= views[j] <= hi {
          var k :| 0 <= k < |videos| && ViewCountOf(videos[k]) == Some(views[j]);
        }
        MeanWithinBounds(views, lo, hi);
      }
    }
  }

  /** Conversely, when every request succeeds, no key is missing and both
      lists are non-empty, the average is the truncated mean of one view
      count per video item. */
  lemma FetchAvgViewsComplete(api: YouTubeApi, channelId: string)
    requires api.channelUploads(channelId).Ok?
    requires var items := api.channelUploads(channelId).value;
      items != [] && items[0].uploadsPlaylist.Some?
      && api.playlistItems(items[0].uploadsPlaylist.value, 10).Ok?
    requires var playlist := api.playlistItems(api.channelUploads(channelId).value[0].uploadsPlaylist.value, 10).value;
      && playlist != [] && (forall k :: 0 <= k < |playlist| ==> playlist[k].videoId.Some?)
      && api.videoStatistics(FilterMap(playlist, VideoIdOf)).Ok?
    requires var playlist := api.playlistItems(api.channelUploads(channelId).value[0].uploadsPlaylist.value, 10).value;
      var videos := api.videoStatistics(FilterMap(playlist, VideoIdOf)).value;
      videos != [] && forall k :: 0 <= k < |videos| ==> videos[k].statistics.Some?
    ensures var playlist := api.playlistItems(api.channelUploads(channelId).value[0].uploadsPlaylist.value, 10).value;
      var videos := api.videoStatistics(FilterMap(playlist, VideoIdOf)).value;
      var views := FilterMap(videos, ViewCountOf);
      && |views| == |videos|
      && FetchAvgViews(api, channelId) == Some(TruncDiv(Sum(views), |views|))
  {
    var items := api.channelUploads(channelId).value;
    var playlist := api.playlistItems(items[0].uploadsPlaylist.value, 10).value;
    var videos := api.videoStatistics(FilterMap(playlist, VideoIdOf)).value;
    FilterMapKeeps(playlist, VideoIdOf, 0);
    assert forall k :: 0 <= k < |videos| ==> ViewCountOf(videos[k]).Some?;
    FilterMapSource(videos, ViewCountOf);
  }

  // ---------------------------------------------------------------- merge

  /** What the merge loop does to one channel: overwrite the three counts
      when `stats_map` has the id, then fill `avg_views` if it is None. */
  function Merge(ch: ChannelInfo, statsMap: map<string, ChannelStats>, api: YouTubeApi): ChannelInfo
  {
    var counted :=
      if ch.channelId in statsMap then
        var st := statsMap[ch.channelId];
        ch.(subscriberCount := Some(st.subscriberCount), totalViews := Some(st.totalViews), videoCount := Some(st.videoCount))
      else ch;
    if counted.avgViews.None? then counted.(avgViews := FetchAvgViews(api, ch.channelId)) else counted
  }

  /** The result of `enrich_channels(channels)`; `hasApiKey` is whether
      `YOUTUBE_API_KEY` is set. */
  function Enriched(channels: seq<ChannelInfo>, hasApiKey: bool, api: YouTubeApi): Fallible<seq<ChannelInfo>>
  {
    if !hasApiKey then Ok(channels)
    else match CollectStats(map[], Chunks(ChannelIds(channels), BatchSize), api)
      case Raised(e) => Raised(e)
      case Ok(statsMap) =>
        Ok(seq(|channels|, k requires 0 <= k < |channels| => Merge(channels[k], statsMap, api)))
  }

  method EnrichChannels(channels: seq<ChannelInfo>, hasApiKey: bool, api: YouTubeApi)
    returns (r: Fallible<seq<ChannelInfo>>)
    ensures r == Enriched(channels, hasApiKey, api)
  {
    if !hasApiKey {
      return Ok(channels);
    }
    var channelIds := ChannelIds(channels);
    ghost var batches := Chunks(channelIds, BatchSize);
    var statsMap: map<string, ChannelStats> := map[];

    // the statistics requests, one per slice of at most 50 ids
    var i := 0;
    while i < |channelIds|
      invariant 0 <= i <= |channelIds|
      invariant CollectStats(map[], batches, api) == CollectStats(statsMap, Chunks(channelIds[i..], BatchSize), api)
      decreases |channelIds| - i
    {
      var hi := Min(i + BatchSize, |channelIds|);
      var batch := channelIds[i..hi];
      ChunksUnfold(channelIds, BatchSize, i);
      var response := api.channelStatistics(batch);
      if response.Raised? {
        return Raised(response.message);
      }
      var items := response.value;
      ghost var before := statsMap;
      var j := 0;
      while j < |items|
        invariant 0 <= j <= |items|
        invariant InsertAll(before, items, ItemId, StatsOf) == InsertAll(statsMap, items[j..], ItemId, StatsOf)
      {
        assert items[j..][1..] == items[j + 1..];
        statsMap := statsMap[items[j].id := StatsOf(items[j])];
        j := j + 1;
      }
      i := hi;
    }
    assert channelIds[i..] == [];
    assert CollectStats(map[], batches, api) == Ok(statsMap);

    // the merge, channel by channel
    var enriched: seq<ChannelInfo> := [];
    var k := 0;
    while k < |channels|
      invariant 0 <= k <= |channels|
      invariant |enriched| == k && forall n :: 0 <= n < k ==> enriched[n] == Merge(channels[n], statsMap, api)
    {
      var ch := channels[k];
      if ch.channelId in statsMap {
        var apiStats := statsMap[ch.channelId];
        ch := ch.(subscriberCount := Some(apiStats.subscriberCount),
                  totalViews := Some(apiStats.totalViews),
                  videoCount := Some(apiStats.videoCount));
      }
      // an average only for a channel that has none yet
      if ch.avgViews.None? {
        ch := ch.(avgViews := FetchAvgViews(api, ch.channelId));
      }
      enriched := enriched + [ch];
      k := k + 1;
    }
    assert enriched == seq(|channels|, n requires 0 <= n < |channels| => Merge(channels[n], statsMap, api));
    return Ok(enriched);
  }

  /** The merge changes exactly the three counts of a channel found in
      `stats_map` (to the map's values) and `avg_views` only when it was None;
      id, name, url and titles never change. */
  lemma MergeSpec(ch: ChannelInfo, statsMap: map<string, ChannelStats>, api: YouTubeApi)
    ensures var r := Merge(ch, statsMap, api);
      && r.channelId == ch.channelId && r.name == ch.name && r.url == ch.url
      && r.recentVideoTitles == ch.recentVideoTitles
      && (ch.channelId in statsMap ==>
            r.subscriberCount == Some(statsMap[ch.channelId].subscriberCount)
            && r.totalViews == Some(statsMap[ch.channelId].totalViews)
            && r.videoCount == Some(statsMap[ch.channelId].videoCount))
      && (ch.channelId !in statsMap ==>
            r.subscriberCount == ch.subscriberCount && r.totalViews == ch.totalViews && r.videoCount == ch.videoCount)
      && (ch.avgViews.Some? ==> r.avgViews == ch.avgViews)
      && (ch.avgViews.None? ==> r.avgViews == FetchAvgViews(api, ch.channelId))
  {
  }

  /** Without an API key the channels come back unchanged; otherwise the
      call raises exactly when some statistics request raises, and when it
      does not, the channels come back with the same length, order, ids,
      names, urls and titles, and with every existing average kept. Which
      counts each channel gets is stated by `EnrichedAllOk` with
      `MergeSpec`. */
  lemma EnrichedSpec(channels: seq<ChannelInfo>, hasApiKey: bool, api: YouTubeApi)
    ensures !hasApiKey ==> Enriched(channels, hasApiKey, api) == Ok(channels)
    ensures hasApiKey ==>
      (Enriched(channels, hasApiKey, api).Raised? <==>
        exists b :: b in Chunks(ChannelIds(channels), BatchSize) && api.channelStatistics(b).Raised?)
    ensures Enriched(channels, hasApiKey, api).Ok? ==>
      var r := Enriched(channels, hasApiKey, api).value;
      && |r| == |channels|
      && forall k :: 0 <= k < |channels| ==>
        r[k].channelId == channels[k].channelId && r[k].name == channels[k].name
        && r[k].url == channels[k].url && r[k].recentVideoTitles == channels[k].recentVideoTitles
        && (channels[k].avgViews.Some? ==> r[k].avgViews == channels[k].avgViews)
  {
    if hasApiKey {
      var batches := Chunks(ChannelIds(channels), BatchSize);
      CollectStatsRaises(map[], batches, api);
      if (exists b :: b in batches && api.channelStatistics(b).Raised?) {
        var b :| b in batches && api.channelStatistics(b).Raised?;
        var k :| 0 <= k < |batches| && batches[k] == b;
      }
      if Enriched(channels, hasApiKey, api).Ok? {
        var statsMap := CollectStats(map[], batches, api).value;
        forall k | 0 <= k < |channels| { MergeSpec(channels[k], statsMap, api); }
      }
    }
  }

  /** When every request succeeds, the statistics map is that of all the
      response items in order, and the requests are the consecutive slices
      of at most 50 ids that together make up the id list. */
  lemma EnrichedAllOk(channels: seq<ChannelInfo>, api: YouTubeApi)
    requires forall b :: b in Chunks(ChannelIds(channels), BatchSize) ==> api.channelStatistics(b).Ok?
    ensures var batches := Chunks(ChannelIds(channels), BatchSize);
      && Flatten(batches) == ChannelIds(channels)
      && (forall k :: 0 <= k < |batches| ==> 0 < |batches[k]| <= BatchSize)
      && |ChannelIds(channels)| <= |batches| * BatchSize
      && (|batches| > 0 ==> (|batches| - 1) * BatchSize < |ChannelIds(channels)|)
      && Enriched(channels, true, api) == Ok(seq(|channels|, k requires 0 <= k < |channels| =>
           Merge(channels[k], InsertAll(map[], AllItems(batches, api), ItemId, StatsOf), api)))
  {
    var batches := Chunks(ChannelIds(channels), BatchSize);
    ChunksFlatten(ChannelIds(channels), BatchSize);
    ChunksSizes(ChannelIds(channels), BatchSize);
    ChunksCount(ChannelIds(channels), BatchSize);
    assert forall k :: 0 <= k < |batches| ==> batches[k] in batches;
    CollectStatsAllOk(map[], batches, api);
  }
}
