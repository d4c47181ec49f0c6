/** LLM annotation (ai_analyzer.py): channels go to the chat model in
    batches of 30, each batch described by a plain-text summary; the
    analyses of all batches are concatenated in batch order. The model call
    (request, structured response, `json.loads`) is a parameter. */
module AiAnalyzer {
  import opened Wrappers
  import opened Models
  import opened Text
  import opened Chunking

  const BatchSize: nat := 30

  /** One chat completion for a user message, its JSON content decoded:
      the `analyses` list as records, or None when the object has no
      `analyses` key; raises on any API, JSON or record error. */
  type Completion = string -> Fallible<Option<seq<AnalysisResult>>>

  predicate StartsWith(s: string, prefix: string)
  {
    |prefix| <= |s| && s[..|prefix|] == prefix
  }

  const SubscribersPrefix := "  Subscribers: "
  const AvgViewsPrefix := "  Avg views: "
  const RecentVideosPrefix := "  Recent videos: "

  function HeaderLine(ch: ChannelInfo): string
  {
    "Channel: " + ch.name + " (ID: " + ch.channelId + ")"
  }

  /** `recent_video_titles[:5]`. */
  function FirstTitles(ch: ChannelInfo): (t: seq<string>)
    ensures t <= ch.recentVideoTitles
    ensures |t| == if |ch.recentVideoTitles| <= 5 then |ch.recentVideoTitles| else 5
  {
    ch.recentVideoTitles[..if |ch.recentVideoTitles| <= 5 then |ch.recentVideoTitles| else 5]
  }

  /** The line (if any) a block holds for one optional field. */
  function OptionalLine(present: bool, prefix: string, body: string): seq<string>
  {
    if present then [prefix + body] else []
  }

  function CountText(n: Option<int>): string
  {
    if n.Some? then GroupedInt(n.value) else ""
  }

  /** The `parts` of one channel: the header, then a subscriber line and an
      average-views line when those counts are truthy, then the first five
      titles when there are any. */
  function BlockLines(ch: ChannelInfo): seq<string>
  {
    [HeaderLine(ch)]
    + OptionalLine(NonZero(ch.subscriberCount), SubscribersPrefix, CountText(ch.subscriberCount))
    + OptionalLine(NonZero(ch.avgViews), AvgViewsPrefix, CountText(ch.avgViews))
    + OptionalLine(ch.recentVideoTitles != [], RecentVideosPrefix, Join("; ", FirstTitles(ch)))
  }

  function Block(ch: ChannelInfo): string
  {
    Join("\n", BlockLines(ch))
  }

  function Blocks(channels: seq<ChannelInfo>): (b: seq<string>)
    ensures |b| == |channels| && forall k :: 0 <= k < |channels| ==> b[k] == Block(channels[k])
  {
    seq(|channels|, k requires 0 <= k < |channels| => Block(channels[k]))
  }

  /** `_build_channel_summary(channels)`. */
  function Summary(channels: seq<ChannelInfo>): string
  {
    Join("\n\n", Blocks(channels))
  }

  method BuildChannelSummary(channels: seq<ChannelInfo>) returns (summary: string)
    ensures summary == Summary(channels)
  {
    var lines: seq<string> := [];
    var k := 0;
    while k < |channels|
      invariant 0 <= k <= |channels|
      invariant lines == Blocks(channels[..k])
    {
      var ch := channels[k];
      var parts := [HeaderLine(ch)];
      if NonZero(ch.subscriberCount) {
        parts := parts + [SubscribersPrefix + GroupedInt(ch.subscriberCount.value)];
      }
      if NonZero(ch.avgViews) {
        parts := parts + [AvgViewsPrefix + GroupedInt(ch.avgViews.value)];
      }
      if ch.recentVideoTitles != [] {
        var titles := Join("; ", FirstTitles(ch));
        parts := parts + [RecentVideosPrefix + titles];
      }
      assert parts == BlockLines(ch);
      lines := lines + [Join("\n", parts)];
      k := k + 1;
    }
    assert channels[..k] == channels;
    summary := Join("\n\n", lines);
  }

  /** A string starts with what is put in front of it. */
  lemma StartsWithConcat(p: string, rest: string)
    ensures StartsWith(p + rest, p)
  {
    assert (p + rest)[..|p|] == p;
  }

  /** Two different optional-line prefixes never start the same line: they
      differ in their third character. */
  lemma PrefixExclusive(s: string, p: string, q: string)
    requires p in {SubscribersPrefix, AvgViewsPrefix, RecentVideosPrefix}
    requires q in {SubscribersPrefix, AvgViewsPrefix, RecentVideosPrefix}
    requires p != q && StartsWith(s, p)
    ensures !StartsWith(s, q)
  {
    assert s[2] == s[..|p|][2] == p[2];
  }

  /** The lines of `lines` that start with `prefix`, in order. */
  function LinesWith(lines: seq<string>, prefix: string): seq<string>
  {
    if lines == [] then []
    else (if StartsWith(lines[0], prefix) then [lines[0]] else []) + LinesWith(lines[1..], prefix)
  }

  lemma {:induction false} LinesWithConcat(a: seq<string>, b: seq<string>, prefix: string)
    ensures LinesWith(a + b, prefix) == LinesWith(a, prefix) + LinesWith(b, prefix)
  {
    if a == [] {
      assert a + b == b;
    } else {
      assert (a + b)[0] == a[0];
      assert (a + b)[1..] == a[1..] + b;
      LinesWithConcat(a[1..], b, prefix);
    }
  }

  lemma LinesWithOptional(present: bool, p: string, body: string, q: string)
    requires p in {SubscribersPrefix, AvgViewsPrefix, RecentVideosPrefix}
    requires q in {SubscribersPrefix, AvgViewsPrefix, RecentVideosPrefix}
    ensures LinesWith(OptionalLine(present, p, body), q) == if present && p == q then [p + body] else []
  {
    if present {
      StartsWithConcat(p, body);
      if p != q { PrefixExclusive(p + body, p, q); }
      assert [p + body][1..] == [];
    }
  }

  /** The lines after the header that start with `q` are those of the
      optional line carrying `q`. */
  lemma BlockLinesWith(ch: ChannelInfo, q: string)
    requires q in {SubscribersPrefix, AvgViewsPrefix, RecentVideosPrefix}
    ensures LinesWith(BlockLines(ch)[1..], q) ==
      LinesWith(OptionalLine(NonZero(ch.subscriberCount), SubscribersPrefix, CountText(ch.subscriberCount)), q)
      + LinesWith(OptionalLine(NonZero(ch.avgViews), AvgViewsPrefix, CountText(ch.avgViews)), q)
      + LinesWith(OptionalLine(ch.recentVideoTitles != [], RecentVideosPrefix, Join("; ", FirstTitles(ch))), q)
  {
    var a := OptionalLine(NonZero(ch.subscriberCount), SubscribersPrefix, CountText(ch.subscriberCount));
    var b := OptionalLine(NonZero(ch.avgViews), AvgViewsPrefix, CountText(ch.avgViews));
    var c := OptionalLine(ch.recentVideoTitles != [], RecentVideosPrefix, Join("; ", FirstTitles(ch)));
    assert BlockLines(ch)[1..] == a + b + c;
    LinesWithConcat(a + b, c, q);
    LinesWithConcat(a, b, q);
  }

  /** After the header there is exactly one subscriber part, showing the
      `:,` form of the count, when the count is truthy, and none otherwise
      (None and 0 both omit it). */
  lemma BlockSubscribersLine(ch: ChannelInfo)
    ensures LinesWith(BlockLines(ch)[1..], SubscribersPrefix) ==
      if NonZero(ch.subscriberCount) then [SubscribersPrefix + GroupedInt(ch.subscriberCount.value)] else []
  {
    var q := SubscribersPrefix;
    BlockLinesWith(ch, q);
    LinesWithOptional(NonZero(ch.subscriberCount), SubscribersPrefix, CountText(ch.subscriberCount), q);
    LinesWithOptional(NonZero(ch.avgViews), AvgViewsPrefix, CountText(ch.avgViews), q);
    LinesWithOptional(ch.recentVideoTitles != [], RecentVideosPrefix, Join("; ", FirstTitles(ch)), q);
  }

  /** Exactly one average-views part, in the `:,` form, when the average is
      truthy, and none otherwise. */
  lemma BlockAvgViewsLine(ch: ChannelInfo)
    ensures LinesWith(BlockLines(ch)[1..], AvgViewsPrefix) ==
      if NonZero(ch.avgViews) then [AvgViewsPrefix + GroupedInt(ch.avgViews.value)] else []
  {
    var q := AvgViewsPrefix;
    BlockLinesWith(ch, q);
    LinesWithOptional(NonZero(ch.subscriberCount), SubscribersPrefix, CountText(ch.subscriberCount), q);
    LinesWithOptional(NonZero(ch.avgViews), AvgViewsPrefix, CountText(ch.avgViews), q);
    LinesWithOptional(ch.recentVideoTitles != [], RecentVideosPrefix, Join("; ", FirstTitles(ch)), q);
  }

  /** Exactly one recent-videos part, the first five titles joined with
      "; ", when there are titles, and none otherwise. */
  lemma BlockRecentVideosLine(ch: ChannelInfo)
    ensures LinesWith(BlockLines(ch)[1..], RecentVideosPrefix) ==
      if ch.recentVideoTitles != [] then [RecentVideosPrefix + Join("; ", FirstTitles(ch))] else []
  {
    var q := RecentVideosPrefix;
    BlockLinesWith(ch, q);
    LinesWithOptional(NonZero(ch.subscriberCount), SubscribersPrefix, CountText(ch.subscriberCount), q);
    LinesWithOptional(NonZero(ch.avgViews), AvgViewsPrefix, CountText(ch.avgViews), q);
    LinesWithOptional(ch.recentVideoTitles != [], RecentVideosPrefix, Join("; ", FirstTitles(ch)), q);
  }

  /** Consecutive blocks are separated by one blank line: the summary of
      `channels + [ch]` is that of `channels`, a blank line, and the block
      of `ch`. */
  lemma SummaryAppend(channels: seq<ChannelInfo>, ch: ChannelInfo)
    requires channels != []
    ensures Summary(channels + [ch]) == Summary(channels) + "\n\n" + Block(ch)
  {
    assert Blocks(channels + [ch]) == Blocks(channels) + [Block(ch)];
    JoinAppend("\n\n", Blocks(channels), Block(ch));
  }

  /** The summary of one channel is its block alone. */
  lemma SummarySingle(ch: ChannelInfo)
    ensures Summary([ch]) == Block(ch)
  {
    assert Blocks([ch]) == [Block(ch)];
  }

  /** `f"Analyze these YouTube channels:\n\n{summary}"`. */
  function UserMessage(summary: string): string
  {
    "Analyze these YouTube channels:\n\n" + summary
  }

  /** The user message sent for each batch, in batch order. */
  function Prompts(batches: seq<seq<ChannelInfo>>): (p: seq<string>)
    ensures |p| == |batches|
  {
    if batches == [] then [] else [UserMessage(Summary(batches[0]))] + Prompts(batches[1..])
  }

  /** One message per batch, the `k`-th describing the `k`-th batch. */
  lemma {:induction false} PromptsAt(batches: seq<seq<ChannelInfo>>)
    ensures |Prompts(batches)| == |batches|
    ensures forall k :: 0 <= k < |batches| ==> Prompts(batches)[k] == UserMessage(Summary(batches[k]))
  {
    if batches != [] {
      PromptsAt(batches[1..]);
    }
  }

  /** `acc` put in front of the list a call returns; a raise passes. */
  function Prepend(acc: seq<AnalysisResult>, r: Fallible<seq<AnalysisResult>>): Fallible<seq<AnalysisResult>>
  {
    match r
    case Ok(v) => Ok(acc + v)
    case Raised(m) => Raised(m)
  }

  /** The requests made one after another: the first one that raises ends
      the whole call with its exception; otherwise the `analyses` of all
      responses (an absent key read as `[]`) are concatenated. */
  function AnalyzeBatches(prompts: seq<string>, complete: Completion): Fallible<seq<AnalysisResult>>
  {
    if prompts == [] then Ok([])
    else
      match complete(prompts[0])
      case Raised(m) => Raised(m)
      case Ok(a) => Prepend(a.GetOr([]), AnalyzeBatches(prompts[1..], complete))
  }

  /** `analyze_channels(channels)`. */
  function Analyzed(channels: seq<ChannelInfo>, complete: Completion): Fallible<seq<AnalysisResult>>
  {
    if channels == [] then Ok([])
    else AnalyzeBatches(Prompts(Chunks(channels, BatchSize)), complete)
  }

  // ------------------------------------------ solver aids for the loop
  // Sequence facts the batch loop below calls step by step; they add no
  // claim about the source beyond the loop's own contract.

  lemma PrependEmpty(r: Fallible<seq<AnalysisResult>>)
    ensures Prepend([], r) == r
  {
    if r.Ok? { assert [] + r.value == r.value; }
  }

  lemma PrependAssoc(a: seq<AnalysisResult>, b: seq<AnalysisResult>, r: Fallible<seq<AnalysisResult>>)
    ensures Prepend(a, Prepend(b, r)) == Prepend(a + b, r)
  {
    if r.Ok? { assert a + (b + r.value) == (a + b) + r.value; }
  }

  /** The messages of the batches left from position `i`: the next slice
      of 30 first, then those of the rest. */
  lemma StepPrompts(channels: seq<ChannelInfo>, i: nat)
    requires i < |channels|
    ensures var hi := Min(i + BatchSize, |channels|);
      Prompts(Chunks(channels[i..], BatchSize))
      == [UserMessage(Summary(channels[i..hi]))] + Prompts(Chunks(channels[hi..], BatchSize))
  {
    var hi := Min(i + BatchSize, |channels|);
    ChunksUnfold(channels, BatchSize, i);
    var bs := [channels[i..hi]] + Chunks(channels[hi..], BatchSize);
    assert bs[0] == channels[i..hi] && bs[1..] == Chunks(channels[hi..], BatchSize);
  }

  /** Sending `message` next: it extends the messages sent so far, and its
      response either ends the call or extends the results gathered. */
  lemma StepResult(message: string, rest: seq<string>, acc: seq<AnalysisResult>, complete: Completion,
                   sent: seq<string>, prompts: seq<string>, total: Fallible<seq<AnalysisResult>>)
    requires sent + ([message] + rest) == prompts
    requires total == Prepend(acc, AnalyzeBatches([message] + rest, complete))
    ensures (sent + [message]) + rest == prompts
    ensures prompts[..|sent| + 1] == sent + [message]
    ensures complete(message).Raised? ==> total == Raised(complete(message).message)
    ensures complete(message).Ok? ==>
      total == Prepend(acc + complete(message).value.GetOr([]), AnalyzeBatches(rest, complete))
  {
    assert ([message] + rest)[0] == message && ([message] + rest)[1..] == rest;
    assert (sent + [message]) + rest == sent + ([message] + rest);
    assert prompts[..|sent| + 1] == sent + [message];
    if complete(message).Ok? {
      PrependAssoc(acc, complete(message).value.GetOr([]), AnalyzeBatches(rest, complete));
    }
  }

  /** One pass of the batch loop: the next message describes the next
      slice of 30, and its response either ends the call or extends the
      results gathered so far. */
  lemma AnalyzeStep(channels: seq<ChannelInfo>, i: nat, acc: seq<AnalysisResult>, complete: Completion,
                     sent: seq<string>, prompts: seq<string>)
    requires i < |channels|
    requires sent + Prompts(Chunks(channels[i..], BatchSize)) == prompts
    requires Analyzed(channels, complete) == Prepend(acc, AnalyzeBatches(Prompts(Chunks(channels[i..], BatchSize)), complete))
    ensures var hi := Min(i + BatchSize, |channels|);
      var message := UserMessage(Summary(channels[i..hi]));
      var rest := Prompts(Chunks(channels[hi..], BatchSize));
      && (sent + [message]) + rest == prompts
      && prompts[..|sent| + 1] == sent + [message]
      && (complete(message).Raised? ==> Analyzed(channels, complete) == Raised(complete(message).message))
      && (complete(message).Ok? ==>
            Analyzed(channels, complete) == Prepend(acc + complete(message).value.GetOr([]), AnalyzeBatches(rest, complete)))
  {
    var hi := Min(i + BatchSize, |channels|);
    StepPrompts(channels, i);
    StepResult(UserMessage(Summary(channels[i..hi])), Prompts(Chunks(channels[hi..], BatchSize)),
      acc, complete, sent, prompts, Analyzed(channels, complete));
  }

  /** The messages sent when the request for `message` raises: a prefix
      of all messages, ending with `message`, every earlier one answered. */
  lemma RaisedLast(sent: seq<string>, message: string, complete: Completion, prompts: seq<string>)
    requires forall k :: 0 <= k < |sent| ==> complete(sent[k]).Ok?
    requires |sent| < |prompts| && prompts[..|sent| + 1] == sent + [message]
    ensures var s := sent + [message];
      && s <= prompts && s != [] && s[|s| - 1] == message
      && forall k :: 0 <= k < |s| - 1 ==> complete(s[k]).Ok?
  {
    var s := sent + [message];
    assert forall k :: 0 <= k < |s| - 1 ==> s[k] == sent[k];
  }

  /** Every message sent so far was answered, `message` too. */
  lemma AnsweredExtend(sent: seq<string>, message: string, complete: Completion)
    requires forall k :: 0 <= k < |sent| ==> complete(sent[k]).Ok?
    requires complete(message).Ok?
    ensures forall k :: 0 <= k < |sent + [message]| ==> complete((sent + [message])[k]).Ok?
  {
    var s := sent + [message];
    assert forall k :: 0 <= k < |s| - 1 ==> s[k] == sent[k];
  }

  // ------------------------------------------------------ the batch loop

  /** One request of the batch loop: the summary of the slice of at most
      30 channels from `i`, and the completion's response to it. */
  method SendBatch(channels: seq<ChannelInfo>, i: nat, complete: Completion)
    returns (hi: nat, message: string, response: Fallible<Option<seq<AnalysisResult>>>)
    requires i < |channels|
    ensures hi == Min(i + BatchSize, |channels|) && i < hi
    ensures message == UserMessage(Summary(channels[i..hi]))
    ensures response == complete(message)
  {
    hi := Min(i + BatchSize, |channels|);
    var batch := channels[i..hi];
    var summary := BuildChannelSummary(batch);
    message := UserMessage(summary);
    response := complete(message);
  }

  /** `analyze_channels`: no request at all for an empty list; otherwise
      one request per batch of 30, in order, stopping at the first that
      raises. `sent` lists the user messages of the requests made. */
  method AnalyzeChannels(channels: seq<ChannelInfo>, complete: Completion)
    returns (r: Fallible<seq<AnalysisResult>>, ghost sent: seq<string>)
    ensures r == Analyzed(channels, complete)
    ensures sent <= Prompts(Chunks(channels, BatchSize))
    ensures r.Ok? ==> sent == Prompts(Chunks(channels, BatchSize))
    ensures r.Raised? ==> sent != [] && complete(sent[|sent| - 1]) == Raised(r.message)
    ensures forall k :: 0 <= k < |sent| - 1 ==> complete(sent[k]).Ok?
  {
    sent := [];
    if channels == [] {
      return Ok([]), sent;
    }
    ghost var prompts := Prompts(Chunks(channels, BatchSize));
    var allResults: seq<AnalysisResult> := [];
    var i := 0;
    assert channels[i..] == channels;
    PrependEmpty(AnalyzeBatches(prompts, complete));
    while i < |channels|
      invariant 0 <= i <= |channels|
      invariant sent + Prompts(Chunks(channels[i..], BatchSize)) == prompts
      invariant Analyzed(channels, complete) == Prepend(allResults, AnalyzeBatches(Prompts(Chunks(channels[i..], BatchSize)), complete))
      invariant forall k :: 0 <= k < |sent| ==> complete(sent[k]).Ok?
      decreases |channels| - i
    {
      var hi, message, response := SendBatch(channels, i, complete);
      AnalyzeStep(channels, i, allResults, complete, sent, prompts);
      if response.Raised? {
        RaisedLast(sent, message, complete, prompts);
        return Raised(response.message), sent + [message];
      }
      AnsweredExtend(sent, message, complete);
      sent := sent + [message];
      allResults := allResults + response.value.GetOr([]);
      i := hi;
    }
    assert channels[i..] == [];
    assert sent == prompts;
    assert allResults + [] == allResults;
    return Ok(allResults), sent;
  }

  /** When no request raises, the result is the concatenation of the
      responses' analyses in request order, an absent `analyses` key
      counting as empty. Which channels each request describes is stated by
      `AnalyzedBatches`. */
  lemma {:induction false} AnalyzeBatchesAllOk(prompts: seq<string>, complete: Completion)
    requires forall k :: 0 <= k < |prompts| ==> complete(prompts[k]).Ok?
    ensures AnalyzeBatches(prompts, complete).Ok?
    ensures AnalyzeBatches(prompts, complete).value
      == Flatten(seq(|prompts|, k requires 0 <= k < |prompts| => complete(prompts[k]).value.GetOr([])))
  {
    if prompts != [] {
      assert complete(prompts[0]).Ok?;
      AnalyzeBatchesAllOk(prompts[1..], complete);
      var f := seq(|prompts|, k requires 0 <= k < |prompts| => complete(prompts[k]).value.GetOr([]));
      assert f[1..] == seq(|prompts[1..]|, k requires 0 <= k < |prompts[1..]| => complete(prompts[1..][k]).value.GetOr([]));
    }
  }

  /** A request that raises makes the whole call raise with the message of
      the first request that does. */
  lemma {:induction false} AnalyzeBatchesRaises(prompts: seq<string>, complete: Completion, j: nat)
    requires j < |prompts| && complete(prompts[j]).Raised?
    requires forall k :: 0 <= k < j ==> complete(prompts[k]).Ok?
    ensures AnalyzeBatches(prompts, complete) == Raised(complete(prompts[j]).message)
  {
    if j > 0 {
      assert complete(prompts[0]).Ok?;
      AnalyzeBatchesRaises(prompts[1..], complete, j - 1);
    }
  }

  /** The batches sent are the consecutive slices of 30 channels: the
      `k`-th request describes exactly `channels[30k:30k + 30]`. */
  lemma AnalyzedBatches(channels: seq<ChannelInfo>, k: nat)
    requires k < |Chunks(channels, BatchSize)|
    ensures k * BatchSize < |channels|
    ensures Prompts(Chunks(channels, BatchSize))[k]
      == UserMessage(Summary(channels[k * BatchSize..Min((k + 1) * BatchSize, |channels|)]))
  {
    ChunkAt(channels, BatchSize, k);
    PromptsAt(Chunks(channels, BatchSize));
  }
}
