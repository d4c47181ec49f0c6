/** Channel discovery by scraping (youtube_searcher.py): run a yt-dlp video
    search, keep the first entry of each channel, and derive one
    `ChannelInfo` per channel from that entry and the channel's recent
    videos. yt-dlp itself and the JSON decoder are parameters. */
module YoutubeSearcher {
  import opened Wrappers
  import opened Models
  import opened Arith
  import opened Text
  import opened Lists

  /** The keys of a yt-dlp search entry the tool reads (None: key absent). */
  datatype Entry = Entry(
    channelId: Option<string>,
    uploaderId: Option<string>,
    channel: Option<string>,
    uploader: Option<string>,
    channelUrl: Option<string>,
    uploaderUrl: Option<string>,
    channelFollowerCount: Option<int>)

  /** The keys of a yt-dlp channel-video entry the tool reads. */
  datatype Video = Video(viewCount: Option<int>, title: Option<string>)

  /** yt-dlp run with an argument list: None when it exits non-zero, times
      out or is not installed; otherwise the lines of its stripped stdout. */
  type YtDlp = seq<string> -> Option<seq<string>>

  /** `json.loads` followed by reading the keys above; None is a
      `JSONDecodeError`. */
  datatype Decoders = Decoders(entry: string -> Option<Entry>, video: string -> Option<Video>)

  // ------------------------------------------------------- yt-dlp output

  function SearchArgs(query: string, count: int): seq<string>
  {
    ["ytsearch" + IntToString(count) + ":" + query, "--dump-json", "--flat-playlist", "--no-warnings", "--quiet"]
  }

  function ChannelVideosArgs(channelUrl: string, maxVideos: int): seq<string>
  {
    [channelUrl + "/videos", "--dump-json", "--flat-playlist", "--playlist-items", "1:" + IntToString(maxVideos),
     "--no-warnings", "--quiet"]
  }

  /** What the line loop keeps of an output: nothing for a failed run, else
      the lines that decode, decoded, in order. */
  function Parsed<T>(output: Option<seq<string>>, decode: string -> Option<T>): seq<T>
  {
    match output
    case None => []
    case Some(lines) => FilterMap(lines, decode)
  }

  /** The loop shared by `_search_videos` and `_get_channel_videos`: each
      line that decodes is appended, each that does not is skipped. */
  method ParseLines<T>(output: Option<seq<string>>, decode: string -> Option<T>) returns (items: seq<T>)
    ensures items == Parsed(output, decode)
  {
    if output.None? {
      return [];
    }
    var lines := output.value;
    items := [];
    var i := 0;
    while i < |lines|
      invariant 0 <= i <= |lines|
      invariant items == FilterMap(lines[..i], decode)
    {
      assert lines[..i + 1] == lines[..i] + [lines[i]];
      FilterMapConcat(lines[..i], [lines[i]], decode);
      FilterMapSingle(lines[i], decode);
      match decode(lines[i]) {
        case Some(v) => items := items + [v];
        case None =>
      }
      i := i + 1;
    }
    assert lines[..i] == lines;
  }

  method SearchVideos(query: string, maxResults: int, ytDlp: YtDlp, decoders: Decoders) returns (entries: seq<Entry>)
    ensures entries == Parsed(ytDlp(SearchArgs(query, maxResults)), decoders.entry)
  {
    entries := ParseLines(ytDlp(SearchArgs(query, maxResults)), decoders.entry);
  }

  /** `_get_channel_videos(channel_url)` with its default of 10 videos. */
  method GetChannelVideos(channelUrl: string, ytDlp: YtDlp, decoders: Decoders) returns (videos: seq<Video>)
    ensures videos == Parsed(ytDlp(ChannelVideosArgs(channelUrl, 10)), decoders.video)
  {
    videos := ParseLines(ytDlp(ChannelVideosArgs(channelUrl, 10)), decoders.video);
  }

  // ---------------------------------------------------------- discovery

  /** `entry.get("channel_id") or entry.get("uploader_id")`. */
  function ExtractChannelId(e: Entry): (r: Option<string>)
    ensures Truthy(r) <==> Truthy(e.channelId) || Truthy(e.uploaderId)
    ensures Truthy(e.channelId) ==> r == e.channelId
    ensures !Truthy(e.channelId) ==> r == e.uploaderId
  {
    Or(e.channelId, e.uploaderId)
  }

  /** One entry of the `seen` OrderedDict: a channel id and the first entry
      that carried it. */
  datatype Discovered = Discovered(cid: string, entry: Entry)

  function Ids(d: seq<Discovered>): (r: seq<string>)
    ensures |r| == |d| && forall k :: 0 <= k < |d| ==> r[k] == d[k].cid
  {
    seq(|d|, k requires 0 <= k < |d| => d[k].cid)
  }

  /** The channels of `entries` in order of first discovery, each with the
      entry that discovered it (the dedup loop without its early stop). */
  function Distinct(entries: seq<Entry>): seq<Discovered>
    decreases |entries|
  {
    if entries == [] then []
    else
      var prev := Distinct(entries[..|entries| - 1]);
      var e := entries[|entries| - 1];
      var cid := ExtractChannelId(e);
      if Truthy(cid) && cid.value !in Ids(prev) then prev + [Discovered(cid.value, e)] else prev
  }

  /** The channels the dedup loop keeps: for `max_results >= 1` the first
      `max_results` distinct channels; for `max_results <= 0` the limit test
      still runs only after the first entry was inserted, so that entry's
      channel (if it has an id) is kept. */
  function DiscoverSpec(entries: seq<Entry>, maxResults: int): seq<Discovered>
  {
    if maxResults >= 1 then
      var d := Distinct(entries);
      if |d| <= maxResults then d else d[..maxResults]
    else Distinct(entries[..if entries == [] then 0 else 1])
  }

  /** `c` is the (non-empty) id of some entry. */
  ghost predicate Occurs(entries: seq<Entry>, c: string)
  {
    c != "" && exists p :: 0 <= p < |entries| && ExtractChannelId(entries[p]) == Some(c)
  }

  /** The position of the first entry that carries `c`. */
  ghost function FirstIndex(entries: seq<Entry>, c: string): (p: nat)
    requires Occurs(entries, c)
    ensures p < |entries| && ExtractChannelId(entries[p]) == Some(c)
    ensures forall q :: 0 <= q < p ==> ExtractChannelId(entries[q]) != Some(c)
    decreases |entries|
  {
    var init := entries[..|entries| - 1];
    if Occurs(init, c) then
      var p := FirstIndex(init, c);
      assert entries[p] == init[p];
      assert forall q :: 0 <= q < p ==> entries[q] == init[q];
      p
    else
      assert forall q :: 0 <= q < |init| ==> entries[q] == init[q];
      |entries| - 1
  }

  lemma OccursStep(entries: seq<Entry>, c: string)
    requires entries != []
    ensures Occurs(entries, c) <==>
      Occurs(entries[..|entries| - 1], c) || (c != "" && ExtractChannelId(entries[|entries| - 1]) == Some(c))
  {
    var init := entries[..|entries| - 1];
    assert forall q :: 0 <= q < |init| ==> entries[q] == init[q];
    if Occurs(entries, c) && !(c != "" && ExtractChannelId(entries[|entries| - 1]) == Some(c)) {
      var p :| 0 <= p < |entries| && ExtractChannelId(entries[p]) == Some(c);
      assert p < |init| && ExtractChannelId(init[p]) == Some(c);
    }
  }

  /** The kept ids are pairwise distinct and are exactly the non-empty ids
      that occur among the entries. */
  lemma {:induction false} DistinctIds(entries: seq<Entry>)
    ensures forall i, j :: 0 <= i < j < |Distinct(entries)| ==> Distinct(entries)[i].cid != Distinct(entries)[j].cid
    ensures forall c :: c in Ids(Distinct(entries)) <==> Occurs(entries, c)
    decreases |entries|
  {
    if entries != [] {
      var init := entries[..|entries| - 1];
      DistinctIds(init);
      var d0, cid := Distinct(init), ExtractChannelId(entries[|entries| - 1]);
      var isNew := Truthy(cid) && cid.value !in Ids(d0);
      if isNew {
        assert Ids(Distinct(entries)) == Ids(d0) + [cid.value];
      }
      forall c ensures c in Ids(Distinct(entries)) <==> Occurs(entries, c) {
        OccursStep(entries, c);
      }
    }
  }

  /** Each kept channel comes with the FIRST entry that carries its id, and
      the channels are ordered by the position of that first entry. */
  lemma {:induction false} DistinctFirstEntries(entries: seq<Entry>)
    ensures forall k :: 0 <= k < |Distinct(entries)| ==>
      Occurs(entries, Distinct(entries)[k].cid)
      && Distinct(entries)[k].entry == entries[FirstIndex(entries, Distinct(entries)[k].cid)]
    ensures forall i, j :: 0 <= i < j < |Distinct(entries)| ==>
      Occurs(entries, Distinct(entries)[i].cid) && Occurs(entries, Distinct(entries)[j].cid)
      && FirstIndex(entries, Distinct(entries)[i].cid) < FirstIndex(entries, Distinct(entries)[j].cid)
    decreases |entries|
  {
    if entries != [] {
      var init := entries[..|entries| - 1];
      var d, d0 := Distinct(entries), Distinct(init);
      DistinctFirstEntries(init);
      DistinctIds(init);
      forall k | 0 <= k < |d0|
        ensures Occurs(entries, d0[k].cid) && FirstIndex(entries, d0[k].cid) == FirstIndex(init, d0[k].cid)
        ensures d0[k].entry == entries[FirstIndex(entries, d0[k].cid)]
      {
        OccursStep(entries, d0[k].cid);
        assert entries[FirstIndex(init, d0[k].cid)] == init[FirstIndex(init, d0[k].cid)];
      }
      if |d| > |d0| {
        var c := d[|d| - 1].cid;
        assert c !in Ids(d0);
        OccursStep(entries, c);
        assert FirstIndex(entries, c) == |entries| - 1;
      }
    }
  }

  lemma {:induction false} DistinctMonotone(a: seq<Entry>, b: seq<Entry>)
    requires a <= b
    ensures Distinct(a) <= Distinct(b)
    decreases |b|
  {
    if a != b {
      var init := b[..|b| - 1];
      assert a <= init;
      DistinctMonotone(a, init);
    }
  }

  /** At most `max_results` channels are kept when `max_results >= 1`, at
      most one otherwise, and they are the first distinct channels found. */
  lemma DiscoverBound(entries: seq<Entry>, maxResults: int)
    ensures maxResults >= 1 ==> |DiscoverSpec(entries, maxResults)| <= maxResults
    ensures maxResults < 1 ==> |DiscoverSpec(entries, maxResults)| <= 1
    ensures DiscoverSpec(entries, maxResults) <= Distinct(entries)
  {
    if maxResults < 1 && entries != [] {
      assert entries[..1][..0] == [];
      DistinctMonotone(entries[..1], entries);
    }
  }

  /** The dedup loop of `search_channels`: insert each entry whose id is new,
      and stop as soon as `max_results` channels are seen. `scanned` is the
      number of entries the loop looked at. */
  method DiscoverChannels(entries: seq<Entry>, maxResults: int) returns (seen: seq<Discovered>, ghost scanned: nat)
    ensures seen == DiscoverSpec(entries, maxResults)
    ensures scanned <= |entries| && seen == Distinct(entries[..scanned])
    ensures forall p :: 1 <= p < scanned ==> |Distinct(entries[..p])| < maxResults
    ensures scanned < |entries| ==> |seen| >= maxResults
  {
    seen := [];
    var i := 0;
    while i < |entries|
      invariant 0 <= i <= |entries|
      invariant seen == Distinct(entries[..i])
      invariant forall p :: 1 <= p <= i ==> |Distinct(entries[..p])| < maxResults
    {
      var cid := ExtractChannelId(entries[i]);
      assert entries[..i + 1][..i] == entries[..i];
      if Truthy(cid) && cid.value !in Ids(seen) {
        seen := seen + [Discovered(cid.value, entries[i])];
      }
      if |seen| >= maxResults {
        scanned := i + 1;
        DiscoverStop(entries, maxResults, i);
        return;
      }
      i := i + 1;
    }
    scanned := i;
    assert entries[..i] == entries;
  }

  /** Why the early `break` returns `DiscoverSpec`. */
  lemma DiscoverStop(entries: seq<Entry>, maxResults: int, i: nat)
    requires i < |entries|
    requires |Distinct(entries[..i + 1])| >= maxResults
    requires i > 0 ==> |Distinct(entries[..i])| < maxResults
    ensures Distinct(entries[..i + 1]) == DiscoverSpec(entries, maxResults)
  {
    var d := Distinct(entries[..i + 1]);
    assert entries[..i + 1][..i] == entries[..i];
    DistinctMonotone(entries[..i + 1], entries);
    if maxResults >= 1 {
      if i > 0 {
        assert |d| <= |Distinct(entries[..i])| + 1;
      }
      assert |d| == maxResults;
      assert Distinct(entries)[..maxResults] == d;
    }
  }

  // ------------------------------------------------- per-channel fields

  /** `entry.get("channel") or entry.get("uploader") or "Unknown"`. */
  function ChannelName(e: Entry): (r: string)
    ensures r != ""
    ensures r == if Truthy(e.channel) then e.channel.value
                 else if Truthy(e.uploader) then e.uploader.value
                 else "Unknown"
  {
    Or(Or(e.channel, e.uploader), Some("Unknown")).value
  }

  /** `entry.get("channel_url") or entry.get("uploader_url") or ""`. */
  function ScrapedUrl(e: Entry): (r: string)
    ensures r == if Truthy(e.channelUrl) then e.channelUrl.value
                 else if Truthy(e.uploaderUrl) then e.uploaderUrl.value
                 else ""
  {
    Or(Or(e.channelUrl, e.uploaderUrl), Some("")).value
  }

  function ViewCountOf(v: Video): Option<int>
  {
    if NonZero(v.viewCount) then v.viewCount else None
  }

  function TitleOf(v: Video): Option<string>
  {
    if Truthy(v.title) then v.title else None
  }

  /** `[v.get("view_count", 0) for v in videos if v.get("view_count")]`. */
  function NonZeroViews(videos: seq<Video>): seq<int>
  {
    FilterMap(videos, ViewCountOf)
  }

  /** `[v.get("title", "") for v in videos[:10] if v.get("title")]`. */
  function RecentTitles(videos: seq<Video>): seq<string>
  {
    FilterMap(videos[..if |videos| <= 10 then |videos| else 10], TitleOf)
  }

  /** The `ChannelInfo` built for one discovered channel from its entry and
      the videos fetched from its page. */
  function DeriveChannel(d: Discovered, videos: seq<Video>): ChannelInfo
  {
    var url := ScrapedUrl(d.entry);
    ChannelInfo(
      channelId := d.cid,
      name := ChannelName(d.entry),
      url := if url != "" then url else "https://www.youtube.com/channel/" + d.cid,
      subscriberCount := d.entry.channelFollowerCount,
      totalViews := None,
      videoCount := if videos != [] then Some(|videos|) else None,
      avgViews := TruncatedMean(NonZeroViews(videos)),
      recentVideoTitles := RecentTitles(videos))
  }

  /** The derived url is never empty: the scraped url when there is one,
      else the canonical channel url built from the id. */
  lemma DeriveChannelUrl(d: Discovered, videos: seq<Video>)
    ensures DeriveChannel(d, videos).channelId == d.cid
    ensures DeriveChannel(d, videos).url != ""
    ensures ScrapedUrl(d.entry) != "" ==> DeriveChannel(d, videos).url == ScrapedUrl(d.entry)
    ensures ScrapedUrl(d.entry) == "" ==> DeriveChannel(d, videos).url == "https://www.youtube.com/channel/" + d.cid
  {
  }

  /** The counts of a derived channel: the follower count of the entry, no
      total views, and the number of videos fetched (None when there are
      none). */
  lemma DeriveChannelCounts(d: Discovered, videos: seq<Video>)
    ensures DeriveChannel(d, videos).subscriberCount == d.entry.channelFollowerCount
    ensures DeriveChannel(d, videos).totalViews.None?
    ensures DeriveChannel(d, videos).videoCount.None? <==> videos == []
    ensures videos != [] ==> DeriveChannel(d, videos).videoCount == Some(|videos|)
  {
  }

  /** The average views are None exactly when no video has a non-zero view
      count, and otherwise lie between any bounds of those counts. */
  lemma DeriveChannelAvgViews(d: Discovered, videos: seq<Video>, lo: int, hi: int)
    requires forall i :: 0 <= i < |videos| && NonZero(videos[i].viewCount) ==> lo <= videos[i].viewCount.value <= hi
    ensures DeriveChannel(d, videos).avgViews.None? <==> forall i :: 0 <= i < |videos| ==> !NonZero(videos[i].viewCount)
    ensures DeriveChannel(d, videos).avgViews.Some? ==> lo <= DeriveChannel(d, videos).avgViews.value <= hi
  {
    var views := NonZeroViews(videos);
    FilterMapSource(videos, ViewCountOf);
    if views == [] {
      forall i | 0 <= i < |videos| ensures !NonZero(videos[i].viewCount) {
        if NonZero(videos[i].viewCount) { FilterMapKeeps(videos, ViewCountOf, i); }
      }
    } else {
      forall k | 0 <= k < |views| ensures lo <= views[k] <= hi {
        var i :| 0 <= i < |videos| && ViewCountOf(videos[i]) == Some(views[k]);
      }
      MeanWithinBounds(views, lo, hi);
      var i :| 0 <= i < |videos| && ViewCountOf(videos[i]) == Some(views[0]);
    }
  }

  /** At most ten recent titles, each non-empty and the title of one of the
      first ten videos; every non-empty title among them is kept. */
  lemma DeriveChannelTitles(d: Discovered, videos: seq<Video>)
    ensures |DeriveChannel(d, videos).recentVideoTitles| <= 10
    ensures forall k :: 0 <= k < |DeriveChannel(d, videos).recentVideoTitles| ==>
      DeriveChannel(d, videos).recentVideoTitles[k] != ""
      && exists i :: 0 <= i < 10 && i < |videos| && videos[i].title == Some(DeriveChannel(d, videos).recentVideoTitles[k])
    ensures forall i :: 0 <= i < 10 && i < |videos| && Truthy(videos[i].title) ==>
      videos[i].title.value in DeriveChannel(d, videos).recentVideoTitles
  {
    var titles := DeriveChannel(d, videos).recentVideoTitles;
    var first := videos[..if |videos| <= 10 then |videos| else 10];
    FilterMapSource(first, TitleOf);
    forall k | 0 <= k < |titles|
      ensures titles[k] != ""
      ensures exists i :: 0 <= i < 10 && i < |videos| && videos[i].title == Some(titles[k])
    {
      var i :| 0 <= i < |first| && TitleOf(first[i]) == Some(titles[k]);
      assert first[i] == videos[i];
    }
    forall i | 0 <= i < 10 && i < |videos| && Truthy(videos[i].title) ensures videos[i].title.value in titles {
      assert first[i] == videos[i];
      FilterMapKeeps(first, TitleOf, i);
    }
  }

  // ------------------------------------------------------ search_channels

  /** The videos `search_channels` fetches for an entry: none when the entry
      has no url. */
  function VideosFor(e: Entry, ytDlp: YtDlp, decoders: Decoders): seq<Video>
  {
    var url := ScrapedUrl(e);
    if url != "" then Parsed(ytDlp(ChannelVideosArgs(url, 10)), decoders.video) else []
  }

  /** The channel `search_channels` builds for one discovered entry. */
  function ChannelFor(d: Discovered, ytDlp: YtDlp, decoders: Decoders): ChannelInfo
  {
    DeriveChannel(d, VideosFor(d.entry, ytDlp, decoders))
  }

  /** The channel list `search_channels(query, max_results)` returns. */
  function SearchResult(query: string, maxResults: int, ytDlp: YtDlp, decoders: Decoders): seq<ChannelInfo>
  {
    var entries := Parsed(ytDlp(SearchArgs(query, maxResults * 3)), decoders.entry);
    var disc := DiscoverSpec(entries, maxResults);
    seq(|disc|, k requires 0 <= k < |disc| => ChannelFor(disc[k], ytDlp, decoders))
  }

  method SearchChannels(query: string, maxResults: int, ytDlp: YtDlp, decoders: Decoders)
    returns (channels: seq<ChannelInfo>)
    ensures channels == SearchResult(query, maxResults, ytDlp, decoders)
  {
    var searchCount := maxResults * 3;  // oversample: several videos per channel
    var entries := SearchVideos(query, searchCount, ytDlp, decoders);
    var seen, _ := DiscoverChannels(entries, maxResults);
    channels := FetchChannels(seen, ytDlp, decoders);
  }

  /** The loop of `search_channels` over the discovered channels: one
      `ChannelInfo` per channel, in order, from the videos of its page. */
  method FetchChannels(seen: seq<Discovered>, ytDlp: YtDlp, decoders: Decoders)
    returns (channels: seq<ChannelInfo>)
    ensures |channels| == |seen|
    ensures forall k :: 0 <= k < |seen| ==> channels[k] == ChannelFor(seen[k], ytDlp, decoders)
  {
    channels := [];
    var k := 0;
    while k < |seen|
      invariant 0 <= k <= |seen|
      invariant |channels| == k
      invariant forall i :: 0 <= i < k ==> channels[i] == ChannelFor(seen[i], ytDlp, decoders)
    {
      var entry := seen[k].entry;
      var channelUrl := ScrapedUrl(entry);
      var videos: seq<Video> := [];
      if channelUrl != "" {
        videos := GetChannelVideos(channelUrl, ytDlp, decoders);
      }
      assert videos == VideosFor(entry, ytDlp, decoders);
      channels := channels + [DeriveChannel(seen[k], videos)];
      k := k + 1;
    }
  }

  /** The channels returned carry pairwise distinct ids, in order of first
      discovery, at most `max_results` of them when `max_results >= 1`. */
  lemma SearchResultIds(query: string, maxResults: int, ytDlp: YtDlp, decoders: Decoders)
    ensures var r := SearchResult(query, maxResults, ytDlp, decoders);
      var entries := Parsed(ytDlp(SearchArgs(query, maxResults * 3)), decoders.entry);
      && (maxResults >= 1 ==> |r| <= maxResults)
      && (forall i, j :: 0 <= i < j < |r| ==> r[i].channelId != r[j].channelId)
      && (forall i :: 0 <= i < |r| ==> Occurs(entries, r[i].channelId))
      && (forall i, j :: 0 <= i < j < |r| ==> FirstIndex(entries, r[i].channelId) < FirstIndex(entries, r[j].channelId))
  {
    var entries := Parsed(ytDlp(SearchArgs(query, maxResults * 3)), decoders.entry);
    var disc := DiscoverSpec(entries, maxResults);
    DiscoverBound(entries, maxResults);
    DistinctIds(entries);
    DistinctFirstEntries(entries);
    var d := Distinct(entries);
    assert forall k :: 0 <= k < |disc| ==> disc[k] == d[k];
  }
}
