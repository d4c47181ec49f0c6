/** The command-line entry point (main.py): search, optionally enrich,
    optionally analyse, pair channels with analyses, then print and save.
    The console, the JSON file and the clock are outside the model; what
    the run would print and save is returned as its outcome. */
module Cli {
  import opened Wrappers
  import opened Config
  import opened Models
  import opened Text
  import opened Chunking
  import opened Reports
  import opened YoutubeSearcher
  import opened YoutubeApi
  import opened AiAnalyzer

  // ------------------------------------------------------ _format_number

  /** Which of the four renderings `_format_number` picks. `Millions(n)`
      stands for `f"{n / 1_000_000:.1f}M"` and `Thousands(n)` for
      `f"{n / 1_000:.1f}K"`; `Plain` holds the exact text `str(n)`. */
  datatype NumberDisplay = NotAvailable | Millions(n: int) | Thousands(n: int) | Plain(text: string)

  /** The suffix the rendering ends with. */
  function Suffix(d: NumberDisplay): string
  {
    match d
    case NotAvailable => "N/A"
    case Millions(_) => "M"
    case Thousands(_) => "K"
    case Plain(_) => ""
  }

  /** `_format_number(n)`: "N/A" exactly for None; the "M" form exactly
      from one million up; the "K" form exactly from 1000 below one
      million; otherwise `str(n)`, which reads back as `n`. */
  function FormatNumber(n: Option<int>): (d: NumberDisplay)
    ensures d.NotAvailable? <==> n.None?
    ensures d.Millions? <==> n.Some? && n.value >= 1_000_000
    ensures d.Thousands? <==> n.Some? && 1_000 <= n.value < 1_000_000
    ensures d.Plain? <==> n.Some? && n.value < 1_000
    ensures (d.Millions? || d.Thousands?) ==> d.n == n.value
    ensures d.Plain? ==>
      var s := d.text;
      && |s| >= 1
      && (forall k :: (if s[0] == '-' then 1 else 0) <= k < |s| ==> IsDigit(s[k]))
      && ParseInt(s) == n.value
  {
    match n
    case None => NotAvailable
    case Some(v) =>
      if v >= 1_000_000 then Millions(v)
      else if v >= 1_000 then Thousands(v)
      else IntToStringRoundTrip(v); Plain(IntToString(v))
  }

  /** Larger numbers never get a smaller unit. */
  function Rank(d: NumberDisplay): nat
  {
    match d
    case NotAvailable => 0
    case Plain(_) => 1
    case Thousands(_) => 2
    case Millions(_) => 3
  }

  lemma FormatNumberMonotone(a: int, b: int)
    requires a <= b
    ensures Rank(FormatNumber(Some(a))) <= Rank(FormatNumber(Some(b)))
    ensures FormatNumber(Some(a)).Millions? ==> FormatNumber(Some(b)).Millions?
  {
  }

  // --------------------------------------------------- _sanitize_filename

  /** A character `[\w\-]` matches; `isWord` is Python's Unicode `\w`. */
  predicate Allowed(c: char, isWord: char -> bool)
  {
    isWord(c) || c == '-'
  }

  /** `re.sub(r'[^\w\-]', '_', s)`: each character outside the class is
      replaced by `_`, one for one. */
  function ReplaceDisallowed(s: string, isWord: char -> bool): string
  {
    if s == [] then []
    else [if Allowed(s[0], isWord) then s[0] else '_'] + ReplaceDisallowed(s[1..], isWord)
  }

  /** `_sanitize_filename(s)`. */
  function SanitizeFilename(s: string, isWord: char -> bool): string
  {
    var r := ReplaceDisallowed(s, isWord);
    r[..Min(|r|, 50)]
  }

  lemma {:induction false} ReplaceDisallowedAt(s: string, isWord: char -> bool)
    ensures |ReplaceDisallowed(s, isWord)| == |s|
    ensures forall i :: 0 <= i < |s| ==>
      ReplaceDisallowed(s, isWord)[i] == if Allowed(s[i], isWord) then s[i] else '_'
  {
    if s != [] {
      ReplaceDisallowedAt(s[1..], isWord);
    }
  }

  /** The result has `min(len(s), 50)` characters; position `i` keeps
      `s[i]` when it is a word character or `-`, and is `_` otherwise. */
  lemma SanitizeSpec(s: string, isWord: char -> bool)
    ensures |SanitizeFilename(s, isWord)| == Min(|s|, 50)
    ensures forall i :: 0 <= i < |SanitizeFilename(s, isWord)| ==>
      SanitizeFilename(s, isWord)[i] == if Allowed(s[i], isWord) then s[i] else '_'
  {
    ReplaceDisallowedAt(s, isWord);
  }

  /** Since `_` is a word character, every character of the result is a
      word character or `-`, and sanitizing again changes nothing. */
  lemma SanitizeIdempotent(s: string, isWord: char -> bool)
    requires isWord('_')
    ensures forall i :: 0 <= i < |SanitizeFilename(s, isWord)| ==> Allowed(SanitizeFilename(s, isWord)[i], isWord)
    ensures SanitizeFilename(SanitizeFilename(s, isWord), isWord) == SanitizeFilename(s, isWord)
  {
    var t := SanitizeFilename(s, isWord);
    SanitizeSpec(s, isWord);
    SanitizeSpec(t, isWord);
    assert SanitizeFilename(t, isWord) == t;
  }

  /** `f"results_{_sanitize_filename(query)}_{timestamp}.json"`. */
  function JsonFilename(query: string, timestamp: string, isWord: char -> bool): string
  {
    "results_" + SanitizeFilename(query, isWord) + "_" + timestamp + ".json"
  }

  // ---------------------------------------------------------------- main

  /** The parsed command line. */
  datatype CliArgs = CliArgs(query: string, maxResults: int, jsonOnly: bool, noAi: bool)

  /** The external collaborators `main` reaches through the modules. */
  datatype Services = Services(ytDlp: YtDlp, decoders: Decoders, api: YouTubeApi, complete: Completion)

  /** The steps of `main` after validation. */
  datatype Stage = Search | Enrich | Analyze | PrintTable | SaveJson

  /** How `main` ends: `SystemExit` from `config.validate()`, the early
      return after an empty search, an exception out of enrichment or
      analysis, or the reports written to `filename`. */
  datatype CliOutcome =
    | Exited(message: string)
    | NoChannelsFound
    | Crashed(message: string)
    | Saved(reports: seq<ChannelReport>, filename: string)

  datatype CliRun = CliRun(outcome: CliOutcome, stages: seq<Stage>)

  /** What `main` does for given arguments, environment and collaborators. */
  function RunSpec(args: CliArgs, env: Keys, svc: Services, timestamp: string, isWord: char -> bool): CliRun
  {
    if !args.noAi && !HasOpenAiKey(env) then CliRun(Exited(MissingOpenAiKey), [])
    else
      var found := SearchResult(args.query, args.maxResults, svc.ytDlp, svc.decoders);
      AfterSearch(args, env, svc, timestamp, isWord, found,
                  if HasYoutubeApi(env) then Enriched(found, true, svc.api) else Ok(found))
  }

  /** The run once `search_channels` has returned `channels`; `enriched`
      is what step 2 yields for them (the list itself without a YouTube
      key). */
  function AfterSearch(args: CliArgs, env: Keys, svc: Services, timestamp: string, isWord: char -> bool,
                       channels: seq<ChannelInfo>, enriched: Fallible<seq<ChannelInfo>>): CliRun
  {
    if channels == [] then CliRun(NoChannelsFound, [Search])
    else AfterEnrich(args, svc, timestamp, isWord, [Search] + OptStage(HasYoutubeApi(env), Enrich), enriched)
  }

  /** The run once enrichment has produced `enriched` after `stages`. */
  function AfterEnrich(args: CliArgs, svc: Services, timestamp: string, isWord: char -> bool,
                       stages: seq<Stage>, enriched: Fallible<seq<ChannelInfo>>): CliRun
  {
    match enriched
    case Raised(e) => CliRun(Crashed(e), stages)
    case Ok(chs) =>
      if args.noAi then Output(args, timestamp, isWord, stages, chs, [])
      else match Analyzed(chs, svc.complete)
        case Raised(e) => CliRun(Crashed(e), stages + [Analyze])
        case Ok(a) => Output(args, timestamp, isWord, stages + [Analyze], chs, a)
  }

  /** Step 4: the table unless `--json-only`, then the JSON file. */
  function Output(args: CliArgs, timestamp: string, isWord: char -> bool,
                  stages: seq<Stage>, channels: seq<ChannelInfo>, analyses: seq<AnalysisResult>): CliRun
  {
    CliRun(Saved(BuildReports(channels, analyses), JsonFilename(args.query, timestamp, isWord)),
           stages + (if args.jsonOnly then [] else [PrintTable]) + [SaveJson])
  }

  /** `main()`. `stages` records the steps taken, in order. */
  method RunCli(args: CliArgs, env: Keys, svc: Services, timestamp: string, isWord: char -> bool)
    returns (outcome: CliOutcome, ghost stages: seq<Stage>)
    ensures outcome == RunSpec(args, env, svc, timestamp, isWord).outcome
    ensures stages == RunSpec(args, env, svc, timestamp, isWord).stages
  {
    if !args.noAi {
      if !HasOpenAiKey(env) {
        return Exited(MissingOpenAiKey), [];
      }
    }

    // step 1: the yt-dlp search
    var channels := SearchChannels(args.query, args.maxResults, svc.ytDlp, svc.decoders);
    if channels == [] {
      return NoChannelsFound, [Search];
    }
    outcome, stages := RunFound(args, env, svc, timestamp, isWord, channels);
  }

  /** `main()` from step 2 on, once the search has found `channels`. */
  method RunFound(args: CliArgs, env: Keys, svc: Services, timestamp: string, isWord: char -> bool,
                  channels: seq<ChannelInfo>)
    returns (outcome: CliOutcome, ghost stages: seq<Stage>)
    requires channels != []
    ensures var run := AfterSearch(args, env, svc, timestamp, isWord, channels,
                                   if HasYoutubeApi(env) then Enriched(channels, true, svc.api) else Ok(channels));
      outcome == run.outcome && stages == run.stages
  {
    ghost var before := [Search] + OptStage(HasYoutubeApi(env), Enrich);
    var chs := channels;

    // step 2: enrichment, only with a YouTube key
    if HasYoutubeApi(env) {
      var enriched := EnrichChannels(channels, HasYoutubeApi(env), svc.api);
      if enriched.Raised? {
        return Crashed(enriched.message), before;
      }
      chs := enriched.value;
    }
    outcome, stages := Conclude(args, svc, timestamp, isWord, before, chs);
  }

  /** `main()` from step 3 on, with the enriched `channels` after the
      steps `before`. */
  method Conclude(args: CliArgs, svc: Services, timestamp: string, isWord: char -> bool,
                  ghost before: seq<Stage>, channels: seq<ChannelInfo>)
    returns (outcome: CliOutcome, ghost stages: seq<Stage>)
    ensures var run := AfterEnrich(args, svc, timestamp, isWord, before, Ok(channels));
      outcome == run.outcome && stages == run.stages
  {
    stages := before;

    // step 3: the analysis, unless --no-ai
    var analyses: seq<AnalysisResult> := [];
    if !args.noAi {
      var analyzed, _ := AnalyzeChannels(channels, svc.complete);
      stages := stages + [Analyze];
      if analyzed.Raised? {
        return Crashed(analyzed.message), stages;
      }
      analyses := analyzed.value;
    }
    ghost var output := Output(args, timestamp, isWord, stages, channels, analyses);
    var reports := BuildReports(channels, analyses);

    // step 4: the table unless --json-only, then the file
    if !args.jsonOnly {
      stages := stages + [PrintTable];
    } else {
      assert stages + [] == stages;
    }
    stages := stages + [SaveJson];
    return Saved(reports, JsonFilename(args.query, timestamp, isWord)), stages;
  }

  /** Without `--no-ai` an unset OpenAI key ends the run before any step;
      that is the only way to end with no step taken. */
  lemma RunValidates(args: CliArgs, env: Keys, svc: Services, timestamp: string, isWord: char -> bool)
    ensures var run := RunSpec(args, env, svc, timestamp, isWord);
      (run.stages == [] <==> !args.noAi && !HasOpenAiKey(env))
      && (run.outcome.Exited? <==> !args.noAi && !HasOpenAiKey(env))
      && (run.outcome.Exited? ==> run.outcome.message == "OPENAI_API_KEY not set in .env")
  {
  }

  /** An empty search returns right after searching: no enrichment, no
      analysis, nothing printed or saved. */
  lemma RunNoChannels(args: CliArgs, env: Keys, svc: Services, timestamp: string, isWord: char -> bool)
    requires args.noAi || HasOpenAiKey(env)
    ensures var run := RunSpec(args, env, svc, timestamp, isWord);
      run.outcome == NoChannelsFound
      <==> SearchResult(args.query, args.maxResults, svc.ytDlp, svc.decoders) == []
    ensures SearchResult(args.query, args.maxResults, svc.ytDlp, svc.decoders) == [] ==>
      RunSpec(args, env, svc, timestamp, isWord).stages == [Search]
  {
  }

  /** The steps a run that gets all the way takes: search, enrichment
      with a YouTube key, analysis without `--no-ai`, the table without
      `--json-only`, and the JSON file. */
  function FullTrace(args: CliArgs, env: Keys): seq<Stage>
  {
    [Search] + OptStage(HasYoutubeApi(env), Enrich) + OptStage(!args.noAi, Analyze)
    + OptStage(!args.jsonOnly, PrintTable) + [SaveJson]
  }

  function OptStage(on: bool, s: Stage): seq<Stage>
  {
    if on then [s] else []
  }

  /** Every run takes a prefix of the full trace: it takes all of it
      exactly when it saves, and a run that crashes stops right after the
      enrichment or the analysis that raised. */
  lemma RunStages(args: CliArgs, env: Keys, svc: Services, timestamp: string, isWord: char -> bool)
    ensures RunSpec(args, env, svc, timestamp, isWord).stages <= FullTrace(args, env)
    ensures RunSpec(args, env, svc, timestamp, isWord).outcome.Saved? <==>
      RunSpec(args, env, svc, timestamp, isWord).stages == FullTrace(args, env)
    ensures RunSpec(args, env, svc, timestamp, isWord).outcome.Crashed? ==>
      var st := RunSpec(args, env, svc, timestamp, isWord).stages;
      || (HasYoutubeApi(env) && st == [Search, Enrich])
      || (!args.noAi && st == [Search] + OptStage(HasYoutubeApi(env), Enrich) + [Analyze])
  {
    if args.noAi || HasOpenAiKey(env) {
      var found := SearchResult(args.query, args.maxResults, svc.ytDlp, svc.decoders);
      StagesAfterSearch(args, env, svc, timestamp, isWord, found,
                        if HasYoutubeApi(env) then Enriched(found, true, svc.api) else Ok(found));
    }
  }

  /** `RunStages` once the search has returned `channels`. */
  lemma StagesAfterSearch(args: CliArgs, env: Keys, svc: Services, timestamp: string, isWord: char -> bool,
                          channels: seq<ChannelInfo>, enriched: Fallible<seq<ChannelInfo>>)
    requires !HasYoutubeApi(env) ==> enriched.Ok?
    ensures var run := AfterSearch(args, env, svc, timestamp, isWord, channels, enriched);
      && run.stages <= FullTrace(args, env)
      && (run.outcome.Saved? <==> run.stages == FullTrace(args, env))
      && (run.outcome.Crashed? ==>
            || (HasYoutubeApi(env) && run.stages == [Search, Enrich])
            || (!args.noAi && run.stages == [Search] + OptStage(HasYoutubeApi(env), Enrich) + [Analyze]))
  {
    var full := FullTrace(args, env);
    var e := OptStage(HasYoutubeApi(env), Enrich);
    var n := OptStage(!args.noAi, Analyze);
    var t := OptStage(!args.jsonOnly, PrintTable);
    assert full == [Search] + e + n + t + [SaveJson];
    assert [Search] <= full;
    if channels != [] {
      assert [Search] + e <= full by { assert full == ([Search] + e) + (n + t + [SaveJson]); }
      assert [Search] + e + n <= full by { assert full == ([Search] + e + n) + (t + [SaveJson]); }
      assert |[Search] + e| < |full|;
      StagesAfterEnrich(args, svc, timestamp, isWord, [Search] + e, enriched);
    }
  }

  /** Once enrichment has ended with `enriched`: a raise ends the run
      there; otherwise it saves after the analysis step, or crashes right
      after it. */
  lemma StagesAfterEnrich(args: CliArgs, svc: Services, timestamp: string, isWord: char -> bool,
                          stages: seq<Stage>, enriched: Fallible<seq<ChannelInfo>>)
    ensures var run := AfterEnrich(args, svc, timestamp, isWord, stages, enriched);
      var n := OptStage(!args.noAi, Analyze);
      && (enriched.Raised? ==> run.outcome.Crashed? && run.stages == stages)
      && (run.outcome.Saved? <==> enriched.Ok? && run.stages == stages + n + OptStage(!args.jsonOnly, PrintTable) + [SaveJson])
      && (enriched.Ok? && run.outcome.Crashed? ==> !args.noAi && run.stages == stages + [Analyze])
      && (run.outcome.Saved? || run.outcome.Crashed?)
  {
    if args.noAi {
      assert stages + OptStage(!args.noAi, Analyze) == stages;
    }
    var run := AfterEnrich(args, svc, timestamp, isWord, stages, enriched);
    if enriched.Ok? && !args.noAi && run.outcome.Crashed? {
      assert |run.stages| < |stages + [Analyze] + OptStage(!args.jsonOnly, PrintTable) + [SaveJson]|;
    }
  }

  /** A saved run holds one report per channel found, with the channel's
      id; with `--no-ai` no report carries an analysis; the file is named
      after the sanitized query (at most 50 characters) and the
      timestamp. */
  lemma RunSaved(args: CliArgs, env: Keys, svc: Services, timestamp: string, isWord: char -> bool)
    requires RunSpec(args, env, svc, timestamp, isWord).outcome.Saved?
    ensures var found := SearchResult(args.query, args.maxResults, svc.ytDlp, svc.decoders);
      var out := RunSpec(args, env, svc, timestamp, isWord).outcome;
      && |out.reports| == |found| > 0
      && (forall k :: 0 <= k < |found| ==> out.reports[k].channel.channelId == found[k].channelId)
      && (args.noAi ==> forall k :: 0 <= k < |found| ==> out.reports[k].analysis.None?)
      && out.filename == "results_" + SanitizeFilename(args.query, isWord) + "_" + timestamp + ".json"
      && |SanitizeFilename(args.query, isWord)| <= 50
  {
    var found := SearchResult(args.query, args.maxResults, svc.ytDlp, svc.decoders);
    var hasYoutube := HasYoutubeApi(env);
    EnrichedSpec(found, hasYoutube, svc.api);
    var chs := if hasYoutube then Enriched(found, hasYoutube, svc.api).value else found;
    var a := if !args.noAi then Analyzed(chs, svc.complete).value else [];
    ReportsPairing(chs, a);
    SanitizeSpec(args.query, isWord);
  }
}
