/** Pairing each channel with its analysis (main.py and app.py share the
    same two lines): `{a.channel_id: a for a in analyses}`, then one
    `ChannelReport` per channel. */
module Reports {
  import opened Wrappers
  import opened Models
  import opened Dicts

  function AnalysisKey(a: AnalysisResult): string { a.channelId }

  function Itself(a: AnalysisResult): AnalysisResult { a }

  /** The dict comprehension: a later analysis with the same id replaces an
      earlier one. */
  function AnalysisMap(analyses: seq<AnalysisResult>): map<string, AnalysisResult>
  {
    InsertAll(map[], analyses, AnalysisKey, Itself)
  }

  /** The report of one channel: the analysis stored under its id, if any. */
  function ReportOf(ch: ChannelInfo, m: map<string, AnalysisResult>): ChannelReport
  {
    ChannelReport(ch, if ch.channelId in m then Some(m[ch.channelId]) else None)
  }

  function ReportsFrom(channels: seq<ChannelInfo>, m: map<string, AnalysisResult>): (r: seq<ChannelReport>)
    ensures |r| == |channels|
  {
    if channels == [] then [] else [ReportOf(channels[0], m)] + ReportsFrom(channels[1..], m)
  }

  lemma {:induction false} ReportsFromAt(channels: seq<ChannelInfo>, m: map<string, AnalysisResult>)
    ensures forall k :: 0 <= k < |channels| ==> ReportsFrom(channels, m)[k] == ReportOf(channels[k], m)
  {
    if channels != [] {
      ReportsFromAt(channels[1..], m);
    }
  }

  /** The list comprehension over the channels. */
  function BuildReports(channels: seq<ChannelInfo>, analyses: seq<AnalysisResult>): (r: seq<ChannelReport>)
    ensures |r| == |channels|
  {
    ReportsFrom(channels, AnalysisMap(analyses))
  }

  /** Reports are one per channel, in channel order; each carries the LAST
      analysis whose id matches the channel's, or none when no analysis
      matches. */
  lemma ReportsPairing(channels: seq<ChannelInfo>, analyses: seq<AnalysisResult>)
    ensures |BuildReports(channels, analyses)| == |channels|
    ensures forall k :: 0 <= k < |channels| ==> BuildReports(channels, analyses)[k].channel == channels[k]
    ensures forall k :: 0 <= k < |channels| ==>
      (BuildReports(channels, analyses)[k].analysis.None? <==>
        forall i :: 0 <= i < |analyses| ==> analyses[i].channelId != channels[k].channelId)
    ensures forall k, i :: 0 <= k < |channels| && IsLastWithKey(analyses, AnalysisKey, channels[k].channelId, i) ==>
      BuildReports(channels, analyses)[k].analysis == Some(analyses[i])
  {
    var r := BuildReports(channels, analyses);
    ReportsFromAt(channels, AnalysisMap(analyses));
    forall k | 0 <= k < |channels|
      ensures r[k].analysis.None? <==>
        forall i :: 0 <= i < |analyses| ==> analyses[i].channelId != channels[k].channelId
      ensures forall i :: IsLastWithKey(analyses, AnalysisKey, channels[k].channelId, i) ==> r[k].analysis == Some(analyses[i])
    {
      InsertAllSpec(map[], analyses, AnalysisKey, Itself, channels[k].channelId);
    }
  }
}
