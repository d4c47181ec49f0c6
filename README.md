# YouTube channel discovery — a verified model of the pipeline

The tool finds YouTube channels for a search query and writes a report for
each one. Every run goes through the same four steps:

1. Scrape candidate channels with a yt-dlp video search, keeping the first
   entry of each channel (`youtube_searcher.py`).
2. Optionally overwrite each channel's counts with exact ones from the
   YouTube Data API, 50 ids per request (`youtube_api.py`).
3. Optionally have a chat model label each channel's niche and partner fit,
   30 channels per request (`ai_analyzer.py`).
4. Pair each channel with its analysis and print, save or serve the result.
   This is done by the command line (`main.py`) or the web app (`app.py`).

The tool itself keeps no cache, no quota ledger and no expiry, so the model
has none either.

The model lifts the deterministic rules out of the I/O:

- the deduplication by channel id;
- the fallback chains for id, name and url;
- the truncated mean of view counts;
- the 50-id batches and the `stats_map` fold;
- the in-place merge of counts;
- the 30-channel LLM batches and the text summary sent with each;
- `_format_number`, `_sanitize_filename` and the report join;
- the early exits of `main`;
- the web task's status machine, progress counters, request validation, 404
  rules and CSV rows.

Each collaborator is a function-valued parameter:

- yt-dlp is `seq<string> -> Option<seq<string>>`;
- the JSON decoders turn a line into an optional record;
- the four Google API requests each return `Fallible`, which is a value or
  the text of the raised exception;
- the chat completion returns the decoded `analyses`.

The environment keys are a `Config.Keys` value and the clock is a
`timestamp` argument.

Modules, one per source file plus shared helpers:

- `Wrappers`: `Option`, and `Fallible` for calls that may raise.
- `Models`: models.py's records and Python truthiness.
- `Config`: config.py.
- `Arith`: `int(sum / len)`.
- `Text`: `join`, `str(n)`, `:,` and `strip`.
- `Chunking`: the `range(0, n, size)` slices.
- `Lists`: filtering comprehensions.
- `Dicts`: dict-filling loops.
- `Reports`: the channel–analysis join shared by main.py and app.py.
- `YoutubeSearcher`, `YoutubeApi`, `AiAnalyzer`.
- `Cli`: main.py.
- `WebApp`: app.py.

Code that works step by step is modelled as methods with loops. Each such
method is proved equal to a specification function, and the lemmas state
properties of those functions. The web task dict, the store of tasks and
the `on_progress` closure are classes whose methods update their fields.

## Model

Rows whose third column starts with "definition" name the function that computes an operation; the rows of the lemmas and methods next to them state its properties.

| member | source | states |
|---|---|---|
| Models.Or | youtube_searcher.py:65 | `a or b` is truthy iff either operand is, and is `a` when `a` is truthy, otherwise `b` |
| Arith.TruncDiv | youtube_searcher.py:106 | `int(a / b)` truncates toward zero: `q*b` is the multiple of `b` nearest zero without passing `a` |
| Arith.TruncatedMean | youtube_searcher.py:106 | the mean is None exactly for an empty list |
| Arith.MeanWithinBounds | youtube_api.py:99 | the truncated mean of a non-empty list lies between any lower and upper bound of its elements |
| Arith.MeanBetweenMinAndMax | youtube_searcher.py:105-106 | the truncated mean lies between the least and the greatest counted value |
| Arith.SumBounds | youtube_searcher.py:106 | `len*lo <= sum <= len*hi` when every element is within `[lo, hi]` |
| Text.JoinAppend | ai_analyzer.py:58-59 | joining one more part appends the separator and that part |
| Text.Digits | main.py:25 | `str(n)` of a natural number is at least one decimal digit |
| Text.DigitsRoundTrip | main.py:25 | reading the digits of `str(n)` back gives `n` |
| Text.DigitsShape | main.py:25 | `str(n)` has a leading zero only for 0, one digit exactly below 10, and at most three below 1000 |
| Text.IntToStringRoundTrip | main.py:25 | `int(str(i)) == i` for every integer, and `str(i)` is an optional minus followed by digits |
| Text.Grouped | ai_analyzer.py:52-54 | definition of `f"{n:,}"` for a count that is not negative: the decimal digits with a comma before every group of three from the right |
| Text.GroupedDigits | ai_analyzer.py:52 | removing the commas from `f"{n:,}"` gives `str(n)` |
| Text.GroupedCommaPositions | ai_analyzer.py:54 | in `f"{n:,}"` a comma stands exactly at positions a multiple of four from the end, so the digits are grouped in threes |
| Text.Strip | app.py:82 | definition of `str.strip()`: the text with its leading and trailing whitespace removed |
| Text.StripSpec | app.py:82 | `strip()` returns the slice left after cutting leading and trailing whitespace: all that was cut is whitespace, and a non-empty result neither starts nor ends with whitespace |
| Text.StripEmpty | app.py:82 | the stripped query is empty exactly when the query is all whitespace |
| Text.StripIdempotent | app.py:82 | stripping twice equals stripping once |
| Chunking.ChunksFlatten | youtube_api.py:24-25 | the batches, concatenated in order, give back the id list |
| Chunking.ChunksSizes | ai_analyzer.py:72-73 | every batch is non-empty and at most `size` long, and all but the last are exactly `size` long |
| Chunking.ChunksCount | youtube_api.py:24 | there are `ceil(n / size)` batches: enough to hold the list, and one fewer would not be |
| Chunking.ChunkAt | ai_analyzer.py:72-73 | batch `k` is the slice `s[k*size : (k+1)*size]` |
| Chunking.ChunksUnfold | youtube_api.py:24-25 | one loop step: the batches of a suffix begin with the slice the loop takes next |
| Lists.FilterMapConcat | youtube_searcher.py:105 | a comprehension over `xs + ys` is the comprehension over `xs` followed by the one over `ys` |
| Lists.FilterMapSource | youtube_searcher.py:105 | a filtering comprehension is never longer than its input, and each output comes from an input that passes the filter |
| Lists.FilterMapKeeps | youtube_searcher.py:107 | every input that passes the filter contributes its value to the output |
| Dicts.InsertAllSpec | youtube_api.py:31-38 | after the dict-filling loop a key is present iff some element carries it; its value is that of the LAST such element; the other keys keep their old values |
| Dicts.InsertAllConcat | youtube_api.py:24-38 | filling from `xs + ys` equals filling from `xs` and then from `ys` |
| Reports.BuildReports | main.py:100-103 | one report per channel |
| Reports.ReportsFromAt | main.py:100-103 | report `k` is channel `k` with the analysis stored under its id, if any |
| Reports.ReportsPairing | main.py:99-103 | reports keep channel order; a report has no analysis iff no analysis has the channel's id, else it has the last analysis with that id |
| YoutubeSearcher.ParseLines | youtube_searcher.py:33-38 | the line loop returns exactly the lines that decode, decoded, in order, and nothing when yt-dlp failed |
| YoutubeSearcher.SearchVideos | youtube_searcher.py:21-39 | `_search_videos` runs `ytsearch{n}:{query}` and parses its lines |
| YoutubeSearcher.GetChannelVideos | youtube_searcher.py:42-61 | `_get_channel_videos` runs `{url}/videos` with items `1:10` and parses its lines |
| YoutubeSearcher.ExtractChannelId | youtube_searcher.py:64-65 | the id is truthy iff `channel_id` or `uploader_id` is; it is `channel_id` when that is truthy, else `uploader_id` |
| YoutubeSearcher.Ids | youtube_searcher.py:79 | the ids of the `seen` entries, in order |
| YoutubeSearcher.FirstIndex | youtube_searcher.py:78-81 | the position of the first entry carrying an id: it carries it and no earlier one does |
| YoutubeSearcher.Distinct | youtube_searcher.py:76-81 | definition of the dedup loop without its stop: for each new non-empty channel id, in scan order, the id with the entry that first carried it |
| YoutubeSearcher.DiscoverSpec | youtube_searcher.py:76-83 | definition of the dedup loop with its stop: the first `max_results` distinct channels for `max_results >= 1`; for `max_results <= 0`, the channel of the first entry only |
| YoutubeSearcher.DistinctIds | youtube_searcher.py:77-81 | kept ids are pairwise distinct and are exactly the non-empty ids occurring among the entries |
| YoutubeSearcher.DistinctFirstEntries | youtube_searcher.py:78-81 | each kept channel carries the first entry with its id, and channels are ordered by that entry's position |
| YoutubeSearcher.DistinctMonotone | youtube_searcher.py:78-81 | scanning more entries only appends channels |
| YoutubeSearcher.DiscoverBound | youtube_searcher.py:82-83 | at most `max_results` channels when `max_results >= 1`, at most one otherwise, and always the first distinct ones |
| YoutubeSearcher.DiscoverChannels | youtube_searcher.py:76-83 | the loop keeps the first-discovered channels; it stops at the first entry after which `max_results` are seen, and scans everything only if that never happens |
| YoutubeSearcher.ChannelName | youtube_searcher.py:95 | the name is `channel`, else `uploader`, else "Unknown", and is never empty |
| YoutubeSearcher.ScrapedUrl | youtube_searcher.py:96 | the url is `channel_url`, else `uploader_url`, else "" |
| YoutubeSearcher.DeriveChannel | youtube_searcher.py:94-117 | definition of the `ChannelInfo` built for one kept entry: id, name and url from the entry (or the `/channel/{id}` url), follower count, video count, truncated mean of the non-zero view counts, and the non-empty titles among the first ten videos |
| YoutubeSearcher.DeriveChannelUrl | youtube_searcher.py:112 | the stored url is never empty: the scraped url, else `https://www.youtube.com/channel/{cid}` |
| YoutubeSearcher.DeriveChannelCounts | youtube_searcher.py:101-114 | subscribers come from the entry's follower count; there are no total views; video count is None iff no videos were fetched, else their number |
| YoutubeSearcher.DeriveChannelAvgViews | youtube_searcher.py:105-106 | average views are None iff no video has a truthy view count, and otherwise lie between any bounds of those counts |
| YoutubeSearcher.DeriveChannelTitles | youtube_searcher.py:107 | at most 10 titles, each non-empty and taken from one of the first 10 videos; every non-empty title among those is kept |
| YoutubeSearcher.VideosFor | youtube_searcher.py:104 | definition of the videos fetched for an entry: the page's first ten videos, or none when the entry has no url |
| YoutubeSearcher.SearchResult | youtube_searcher.py:68-121 | definition of what `search_channels` returns: the search for `3 * max_results` videos, the dedup loop, then one derived channel per kept entry, in order |
| YoutubeSearcher.SearchChannels | youtube_searcher.py:68-119 | `search_channels` equals its specification: oversampled search, dedup, then one derived channel per kept entry |
| YoutubeSearcher.FetchChannels | youtube_searcher.py:94-119 | the loop over the kept entries builds one channel per entry, in order, each from the videos of the entry's page (none without a url) |
| YoutubeSearcher.SearchResultIds | youtube_searcher.py:73-94 | returned ids are pairwise distinct, occur in the entries and are in first-occurrence order, at most `max_results` when `max_results >= 1` |
| YoutubeApi.ChannelIds | youtube_api.py:20 | the id list has one id per channel, in order |
| YoutubeApi.StatsOf | youtube_api.py:33-38 | each missing statistic, or a missing `statistics` object, counts as 0 |
| YoutubeApi.CollectStats | youtube_api.py:23-38 | definition of the statistics loop: one request per batch, its items folded into `stats_map` with missing statistics as 0; the first request that raises aborts |
| YoutubeApi.CollectStatsAllOk | youtube_api.py:24-38 | with no raise, `stats_map` is the fold of all response items of all batches in order, so a later item wins even across batches |
| YoutubeApi.CollectStatsRaises | youtube_api.py:24-29 | the batch loop raises iff some batch request raises |
| YoutubeApi.FetchAvgViews | youtube_api.py:58-102 | definition of `_fetch_avg_views`: uploads playlist, its first ten video ids, their view counts, then the truncated mean; None for an empty list, a missing key or any raise |
| YoutubeApi.FetchAvgViewsResult | youtube_api.py:58-102 | None when the channel request raises or finds no channel; a value only when all three requests succeed with non-empty lists and no missing key, and then it is the truncated mean of the view counts, within their bounds |
| YoutubeApi.FetchAvgViewsComplete | youtube_api.py:60-99 | when every request succeeds, no key is missing and both lists are non-empty, the average is `int(sum(views) / len(views))` over one view count per video item |
| YoutubeApi.EnrichChannels | youtube_api.py:11-55 | `enrich_channels` equals its specification: an unchanged list without a key, else the statistics fold over 50-id batches followed by the merge of each channel |
| YoutubeApi.Merge | youtube_api.py:42-53 | definition of what the merge loop does to one channel: the three counts from `stats_map` when the id is there, then an average fetched when `avg_views` is None |
| YoutubeApi.Enriched | youtube_api.py:11-55 | definition of `enrich_channels`: the channels themselves without a key; otherwise the statistics loop, then each channel merged, a raise in the loop ending the whole call |
| YoutubeApi.MergeSpec | youtube_api.py:42-51 | only the three counts change, and only for a channel in `stats_map`; `avg_views` changes only when it was None; id, name, url and titles never change |
| YoutubeApi.EnrichedSpec | youtube_api.py:16-55 | without a key the input comes back; otherwise there is a raise iff some batch raised, else the output has the same length, order, ids, names, urls and titles, and keeps every non-None `avg_views` |
| YoutubeApi.EnrichedAllOk | youtube_api.py:24-38 | with no raise the batches partition the ids into `ceil(n/50)` slices of at most 50, and the result merges each channel with the fold of all items |
| AiAnalyzer.BlockLines | ai_analyzer.py:50-57 | definition of one channel's `parts`: the header line, a subscriber line and an average-views line when those counts are truthy, and a recent-videos line when there are titles |
| AiAnalyzer.Block | ai_analyzer.py:58 | definition of one channel's block: its `parts` joined by newlines |
| AiAnalyzer.Summary | ai_analyzer.py:47-59 | definition of `_build_channel_summary`: the blocks of the channels, in order, joined by blank lines |
| AiAnalyzer.FirstTitles | ai_analyzer.py:56 | `recent_video_titles[:5]`: a prefix of at most 5 titles |
| AiAnalyzer.Blocks | ai_analyzer.py:49-58 | one block per channel, in order |
| AiAnalyzer.BuildChannelSummary | ai_analyzer.py:47-59 | `_build_channel_summary` equals the blocks joined by a blank line |
| AiAnalyzer.BlockSubscribersLine | ai_analyzer.py:51-52 | among a block's `parts` after the header, exactly one subscriber part, with the `:,` count, when the count is truthy, and none for None or 0 |
| AiAnalyzer.BlockAvgViewsLine | ai_analyzer.py:53-54 | among a block's `parts` after the header, exactly one average-views part, with the `:,` count, when the average is truthy, and none otherwise |
| AiAnalyzer.BlockRecentVideosLine | ai_analyzer.py:55-57 | among a block's `parts` after the header, exactly one recent-videos part, joining the first five titles with "; ", when there are titles, and none otherwise |
| AiAnalyzer.PrefixExclusive | ai_analyzer.py:51-57 | no line starts with two different optional-line prefixes |
| AiAnalyzer.LinesWithConcat | ai_analyzer.py:49-58 | selecting lines by prefix distributes over concatenation |
| AiAnalyzer.SummaryAppend | ai_analyzer.py:58-59 | consecutive channel blocks are separated by exactly one blank line |
| AiAnalyzer.SummarySingle | ai_analyzer.py:59 | the summary of one channel is its block |
| AiAnalyzer.PromptsAt | ai_analyzer.py:73-80 | one user message per batch; message `k` is "Analyze these YouTube channels:" and a blank line, then the summary of batch `k` |
| AiAnalyzer.AnalyzeBatches | ai_analyzer.py:72-89 | definition of the request loop over the user messages: the first raise ends it, otherwise the `analyses` of each response are appended in order |
| AiAnalyzer.Analyzed | ai_analyzer.py:62-91 | definition of `analyze_channels`: `[]` for no channels, otherwise the request loop over one message per batch of 30 |
| AiAnalyzer.AnalyzeChannels | ai_analyzer.py:62-91 | `analyze_channels` equals its specification; the messages sent are a prefix of the per-batch messages, all of them when nothing raised; a raise comes from the last message sent and every earlier one succeeded |
| AiAnalyzer.SendBatch | ai_analyzer.py:72-84 | one pass of the loop sends the summary of at most 30 channels starting at `i`, and always at least one |
| AiAnalyzer.AnalyzeBatchesAllOk | ai_analyzer.py:72-89 | with no raise the result is the analyses of all responses concatenated in batch order, an absent `analyses` key counting as empty |
| AiAnalyzer.AnalyzeBatchesRaises | ai_analyzer.py:76-86 | the first request that raises decides the error of the whole call |
| AiAnalyzer.AnalyzedBatches | ai_analyzer.py:71-74 | request `k` describes exactly the channels `[30k, 30k+30)` |
| Cli.FormatNumber | main.py:18-25 | "N/A" iff None; "M" iff at least 1,000,000; "K" iff in [1,000, 1,000,000); otherwise `str(n)`, which reads back as `n` |
| Cli.FormatNumberMonotone | main.py:21-25 | a larger number never gets a smaller unit |
| Cli.ReplaceDisallowedAt | main.py:29 | `re.sub` keeps the length and replaces each character outside `[\w-]` by `_`, position by position |
| Cli.SanitizeSpec | main.py:29 | the length is `min(len(s), 50)`; position `i` keeps `s[i]` when it is a word character or `-`, else holds `_` |
| Cli.SanitizeFilename | main.py:28-29 | definition of `_sanitize_filename`: every character outside `[\w-]` replaced by `_`, then the first 50 characters |
| Cli.JsonFilename | main.py:56 | definition of the JSON file name: `results_`, the sanitized query, `_`, the timestamp and `.json` |
| Cli.SanitizeIdempotent | main.py:29 | every character of the result is a word character or `-`, and sanitizing again changes nothing |
| Cli.RunSpec | main.py:63-109 | definition of `main`: the key check without `--no-ai`, then search, enrichment with a YouTube key, analysis without `--no-ai`, the table without `--json-only`, and the file; an empty search returns and a raise crashes the run |
| Cli.RunCli | main.py:63-109 | `main` equals its specification, including the steps it takes in order |
| Cli.RunFound | main.py:86-109 | after a non-empty search: the enrichment with a YouTube key (a raise crashes right after it), then the rest of `main` |
| Cli.Conclude | main.py:93-109 | after enrichment: the analysis unless `--no-ai` (a raise crashes right after it), then the table unless `--json-only`, then the file |
| Cli.RunValidates | main.py:71-72 | without `--no-ai`, an empty OpenAI key exits with "OPENAI_API_KEY not set in .env" before any step, and that is the only exit with no step |
| Cli.RunNoChannels | main.py:81-84 | an empty search ends the run right after searching: no enrichment, no analysis, no table, no file |
| Cli.RunStages | main.py:77-109 | the steps are always a prefix of search, [enrich], [analyze], [table], save; a run saves iff it takes all of them; a crash stops right after the enrichment or analysis that raised |
| Cli.RunSaved | main.py:54-109 | a saved run has one report per channel found, with its id, and no analyses under `--no-ai`; the file is `results_{sanitized query}_{timestamp}.json` and the sanitized query is at most 50 characters |
| WebApp.Task.constructor | app.py:90-94 | a new task is `queued`, "Starting search...", with no results |
| WebApp.Task.Update | app.py:24-25 | a status change sets the status and message and records the status; the results stay as they were |
| WebApp.TallyCounts | app.py:30-37 | `total_count` counts exactly the "fetching" calls, and `done_count` exactly the "done" calls |
| WebApp.Progress.OnProgress | app.py:30-37 | "fetching" bumps only the total and sets "Fetching channel {total}: {name}"; "done" bumps only the done count and sets "Fetched {done} channels..."; any other state changes nothing |
| WebApp.RunSpec | app.py:21-71 | definition of `_run_search` for a given search outcome: the statuses set in order, the final status and message, and the results written |
| WebApp.TaskStore.RunSearch | app.py:21-71 | the task is left as `_run_search`'s specification says: statuses appended in order, and the final status, message and results |
| WebApp.RunTask | app.py:21-71 | the task gets the statuses of the specification appended in order, and its final status, message and results |
| WebApp.RunFound | app.py:39-71 | after a non-empty search: `searching`, then the enrichment and analysis part of the specification |
| WebApp.EnrichRun | app.py:48-71 | the enrichment part: `enriching` only with a YouTube key, and a raise there ends the task `error` |
| WebApp.FinishRun | app.py:53-67 | the analysis step and the reports step leave the task as the tail of the specification says |
| WebApp.RunEnds | app.py:21-71 | every run ends `done` or `error`, never at an intermediate status; before that it passes `searching`, then `enriching` only with a YouTube key, then `analyzing` only when analysis is on; results are written iff it ends `done` |
| WebApp.RunFoundEnds | app.py:39-71 | after a non-empty search the run sets at least two statuses and ends `done` or `error`, with results iff `done` |
| WebApp.EnrichStageEnds | app.py:48-71 | from the enrichment on, the run sets `enriching` and `analyzing` only when they are on, then one final `done` or `error` |
| WebApp.AnalysisStageEnds | app.py:53-67 | the analysis part sets `analyzing` exactly when analysis is on, then `done` or `error`, with results exactly when `done` |
| WebApp.RunNoChannels | app.py:40-44 | an empty search ends `done` with "No channels found" and empty results, after `searching` only |
| WebApp.RunErrors | app.py:21-71 | a raise in the search, the enrichment or the analysis ends the task `error` with the exception's text, after the statuses of the steps reached |
| WebApp.RunDone | app.py:59-67 | a `done` run after a non-empty search says "Done. Found N channels." and has one report per channel found, with no analysis when analysis is off |
| WebApp.ParseSearch | app.py:81-87 | a request is rejected iff its query is all whitespace; otherwise the query is the request's query stripped of whitespace at both ends, `max_results` defaults to 200 and `skip_ai` to false |
| WebApp.TaskStore.ApiSearch | app.py:80-103 | an empty stripped query gives 400 "Query is required" and creates no task; otherwise exactly one new `queued` task is stored under the new id |
| WebApp.TaskStore.ApiStatus | app.py:106-111 | 404 iff the id is unknown; otherwise the task's status, message and results |
| WebApp.CsvRow | app.py:124-135 | seven cells: name, url, then the three counts (empty iff None, otherwise `str(n)`, which reads back as `n`), then niche and fit (both empty without an analysis) |
| WebApp.CountCellRoundTrip | app.py:130-132 | a present count reads back from its CSV cell |
| WebApp.CsvRows | app.py:120-135 | the header, then one row per result, in order |
| WebApp.CsvFilename | app.py:141 | definition of the CSV file name: `results_`, the first eight characters of the task id, and `.csv` |
| WebApp.TaskStore.ApiCsv | app.py:114-142 | 404 iff the id is unknown or the task has no results; otherwise `results_{id[:8]}.csv` with the header and one row per result |
| WebApp.AsWrittenRunAlwaysErrors | app.py:39 | as written, every web task ends `error` right after `searching`, with the `TypeError` text |
| WebApp.CorrectedRunReachesDone | app.py:39-67 | with the search call accepted, and enrichment and analysis succeeding, the task ends `done` with one report per channel |

## Left out

- AiAnalyzer.BlockSubscribersLine: counts the `parts` of a block before they are joined with "\n"; a channel name or title that itself holds a newline adds text lines it does not count.
- AiAnalyzer.BlockAvgViewsLine: counts the `parts` of a block before they are joined with "\n"; a channel name or title that itself holds a newline adds text lines it does not count.
- AiAnalyzer.BlockRecentVideosLine: counts the `parts` of a block before they are joined with "\n"; a channel name or title that itself holds a newline adds text lines it does not count.
- Caching, quotas and cost arbitration: the tool has none.
- External processes and services are parameters, not models:
  - the yt-dlp subprocess, with its 60-second timeout and exit code;
  - building the Google API client and calling `.execute()`;
  - the OpenAI client, with its system prompt, response schema, model name and temperature;
  - `json.loads`.
- Output handling: `output.strip().splitlines()` is assumed to have been done by the yt-dlp parameter, which returns lines.
- Console output, files and the clock:
  - the rich console, table and progress bar;
  - writing the JSON file;
  - `datetime.now()`, which is the `timestamp` argument.
- Reading `.env` and the environment: the keys are a `Config.Keys` argument.
- Flask and threads:
  - routing, `request.get_json()`, `jsonify` and `Response`;
  - the daemon thread;
  - concurrent reads of a task while it runs. `RunSearch` is one sequential call.
- Cli.FormatNumber: gives the branch and its operand, not the `:.1f` text. That text depends on binary floating point.
- Arith.TruncDiv: `int(sum / len)` in the source divides in floating point. The model's exact integer quotient equals it only while the sum stays below 2^53.
- `\w` is the parameter `isWord`. Python's Unicode word class is not spelled out. Lemmas that need `_` to be a word character say so in a `requires`.
- Python numeric strings are not parsed: `int(...)` of API strings is taken to have succeeded. A `KeyError` on a `channels().list` item without `id` is not modelled.
- Mutation in place: `enrich_channels` mutates the caller's `ChannelInfo` objects. Callers only use the returned list, so the model uses values. Aliasing between the input and output lists is not captured.
- CSV: rows are lists of cells. The quoting and line endings of `csv.writer` are not modelled.
- Task messages: each run's intermediate messages are not part of its specification, only its final message. The methods set them in order, but no contract states them. They are "Searching YouTube for: {query}" (app.py:25), "Found N channels" (app.py:46), "Enriching with YouTube Data API..." (app.py:50) and "Analyzing channels with GPT-4o-mini..." (app.py:56). The progress callback's "Fetching channel {n}: {name}" and "Fetched {n} channels..." (app.py:34,37) are stated by `WebApp.Progress.OnProgress`, but the run never reaches them (see the progress callback line below).
  - Each status change is recorded in the task's ghost `trail`.
- Progress callback: `on_progress` is modelled as the `WebApp.Progress` class. `RunSearch` never invokes it, because the search is a parameter, and as written the call raises before any callback (see Findings).
- Malformed requests are not modelled:
  - a request body that is not a JSON object;
  - a non-string query;
  - a non-integer `max_results`.
- Delays: the wait between `api_search` returning and the thread starting is not modelled.

## Findings

| source | as written | input that shows it | evidently intended | confidence | as-written member | corrected member |
|---|---|---|---|---|---|---|
| app.py:39 | `search_channels(query, max_results, on_progress=on_progress)`, but `search_channels` (youtube_searcher.py:68) takes no `on_progress`, so the call raises `TypeError` | any web search, e.g. query "cooking" | the search runs, reporting progress through the callback, and the task can reach `done` | high (not executed) | WebApp.AsWrittenRunAlwaysErrors | WebApp.CorrectedRunReachesDone |
