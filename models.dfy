/** The records the tool passes between its stages (models.py). Every
    optional count is `None` until some stage fills it in. */
module Models {
  import opened Wrappers

  datatype ChannelInfo = ChannelInfo(
    channelId: string,
    name: string,
    url: string,
    subscriberCount: Option<int>,
    totalViews: Option<int>,
    videoCount: Option<int>,
    avgViews: Option<int>,
    recentVideoTitles: seq<string>)

  datatype AnalysisResult = AnalysisResult(channelId: string, niche: string, whyPartnerFit: string)

  datatype ChannelReport = ChannelReport(channel: ChannelInfo, analysis: Option<AnalysisResult>)

  /** Python truthiness of an optional string: present and non-empty. */
  predicate Truthy(s: Option<string>)
  {
    s.Some? && s.value != ""
  }

  /** Python truthiness of an optional integer: present and non-zero. */
  predicate NonZero(n: Option<int>)
  {
    n.Some? && n.value != 0
  }

  /** Python's `a or b` on optional strings. */
  function Or(a: Option<string>, b: Option<string>): (r: Option<string>)
    ensures Truthy(r) <==> Truthy(a) || Truthy(b)
    ensures Truthy(a) ==> r == a
    ensures !Truthy(a) ==> r == b
  {
    if Truthy(a) then a else b
  }
}
