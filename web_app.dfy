/** The web front end (app.py): an in-memory store of search tasks, the
    background run that moves one task through its statuses, the progress
    counters, and the status and CSV endpoints. Flask routing, JSON
    bodies and the worker thread are outside the model; a run is one
    sequential method call. */
module WebApp {
  import opened Wrappers
  import opened Models
  import opened Text
  import opened Config
  import opened Reports
  import opened YoutubeApi
  import opened AiAnalyzer

  /** The values `task["status"]` takes. */
  datatype Status = Queued | Searching | Enriching | Analyzing | Done | Error

  /** One entry of `tasks`: the dict `{"status", "message", "results"}`.
      `trail` lists every status the task has been given, in order. */
  class Task {
    var status: Status
    var message: string
    var results: seq<ChannelReport>
    ghost var trail: seq<Status>

    /** The dict `api_search` stores for a new task. */
    constructor ()
      ensures status == Queued && message == "Starting search..." && results == []
      ensures trail == [Queued]
    {
      status := Queued;
      message := "Starting search...";
      results := [];
      trail := [Queued];
    }

    /** `task["status"] = s` followed by `task["message"] = m`. */
    method Update(s: Status, m: string)
      modifies this
      ensures status == s && message == m && trail == old(trail) + [s]
      ensures results == old(results)
    {
      status := s;
      message := m;
      trail := trail + [s];
    }
  }

  // ------------------------------------------------------------ progress

  /** `done_count` and `total_count`. */
  datatype Counts = Counts(done: nat, total: nat)

  /** What one `on_progress` call does to the counters. */
  function Tick(c: Counts, state: string): Counts
  {
    if state == "fetching" then c.(total := c.total + 1)
    else if state == "done" then c.(done := c.done + 1)
    else c
  }

  /** The counters after the calls whose states are `states`, from zero. */
  function Tally(states: seq<string>): Counts
  {
    if states == [] then Counts(0, 0) else Tick(Tally(states[..|states| - 1]), states[|states| - 1])
  }

  /** How many times `x` occurs in `xs`. */
  function Occurrences(xs: seq<string>, x: string): nat
  {
    if xs == [] then 0 else (if xs[0] == x then 1 else 0) + Occurrences(xs[1..], x)
  }

  lemma {:induction false} OccurrencesAppend(xs: seq<string>, y: string, x: string)
    ensures Occurrences(xs + [y], x) == Occurrences(xs, x) + (if y == x then 1 else 0)
  {
    if xs != [] {
      assert (xs + [y])[1..] == xs[1..] + [y];
      OccurrencesAppend(xs[1..], y, x);
    }
  }

  /** `total_count` counts exactly the "fetching" calls and `done_count`
      exactly the "done" calls; any other state leaves both alone. */
  lemma {:induction false} TallyCounts(states: seq<string>)
    ensures Tally(states).total == Occurrences(states, "fetching")
    ensures Tally(states).done == Occurrences(states, "done")
  {
    if states != [] {
      var init := states[..|states| - 1];
      TallyCounts(init);
      assert states == init + [states[|states| - 1]];
      OccurrencesAppend(init, states[|states| - 1], "fetching");
      OccurrencesAppend(init, states[|states| - 1], "done");
    }
  }

  /** The `on_progress` closure: its two `nonlocal` counters and the task
      whose message it updates. */
  class Progress {
    var doneCount: nat
    var totalCount: nat
    const task: Task
    /** The states passed so far. */
    ghost var states: seq<string>

    ghost predicate Valid()
      reads this
    {
      Counts(doneCount, totalCount) == Tally(states)
    }

    constructor (task: Task)
      ensures this.task == task && doneCount == 0 && totalCount == 0 && states == []
      ensures Valid()
    {
      this.task := task;
      doneCount := 0;
      totalCount := 0;
      states := [];
    }

    /** `on_progress(cid, name, state)`. */
    method OnProgress(cid: string, name: string, state: string)
      requires Valid()
      modifies this, task
      ensures Valid() && states == old(states) + [state]
      ensures Counts(doneCount, totalCount) == Tick(old(Counts(doneCount, totalCount)), state)
      ensures state == "fetching" ==> task.message == "Fetching channel " + IntToString(totalCount) + ": " + name
      ensures state == "done" ==> task.message == "Fetched " + IntToString(doneCount) + " channels..."
      ensures state != "fetching" && state != "done" ==> task.message == old(task.message)
      ensures task.status == old(task.status) && task.results == old(task.results) && task.trail == old(task.trail)
    {
      if state == "fetching" {
        totalCount := totalCount + 1;
        task.message := "Fetching channel " + IntToString(totalCount) + ": " + name;
      } else if state == "done" {
        doneCount := doneCount + 1;
        task.message := "Fetched " + IntToString(doneCount) + " channels...";
      }
      states := states + [state];
    }
  }

  // -------------------------------------- solver aids: trail arithmetic
  // Sequence facts the run's proofs call explicitly; they state nothing
  // about the source.

  lemma AppendAssoc(a: seq<Status>, b: seq<Status>, c: seq<Status>)
    ensures (a + b) + c == a + (b + c)
  {
  }

  /** All but the last status of `[x] + r`, and its last status. */
  lemma ConsButLast(x: Status, r: seq<Status>)
    requires |r| >= 1
    ensures ([x] + r)[..|r|] == [x] + r[..|r| - 1]
    ensures ([x] + r)[|r|] == r[|r| - 1]
  {
  }

  /** All but the last status of `p + [x]`, and its last status. */
  lemma ButLast(p: seq<Status>, x: Status)
    ensures |p + [x]| == |p| + 1 && (p + [x])[..|p|] == p && (p + [x])[|p|] == x
  {
  }

  /** A trail `p + [x]` with `p` a prefix of `q` ends with `x` and keeps
      to `q` before it. */
  lemma EndsWith(p: seq<Status>, x: Status, q: seq<Status>)
    requires p <= q
    ensures |p + [x]| >= 1 && (p + [x])[|p + [x]| - 1] == x && (p + [x])[..|p + [x]| - 1] <= q
  {
    assert (p + [x])[..|p|] == p;
  }

  lemma ConsPrefix(x: Status, p: seq<Status>, q: seq<Status>)
    requires p <= q
    ensures [x] + p <= [x] + q
  {
    assert ([x] + q)[..|p| + 1] == [x] + q[..|p|];
  }

  // ---------------------------------------------------------- the run

  /** What `api_search` hands to the worker thread. */
  datatype Job = Job(query: string, maxResults: int, skipAi: bool)

  /** Whether the run calls `analyze_channels`. */
  predicate RunsAnalysis(job: Job, keys: Keys)
  {
    !job.skipAi && HasOpenAiKey(keys)
  }

  function OptStatus(on: bool, s: Status): seq<Status>
  {
    if on then [s] else []
  }

  /** How a run leaves its task: the statuses it set, in order, the final
      message, and the new `results` (None when the run left them). */
  datatype TaskRun = TaskRun(trail: seq<Status>, status: Status, message: string, results: Option<seq<ChannelReport>>)

  function DoneMessage(n: nat): string
  {
    "Done. Found " + IntToString(n) + " channels."
  }

  /** `_run_search` for a search that yielded `search`. */
  function RunSpec(job: Job, keys: Keys, search: Fallible<seq<ChannelInfo>>, api: YouTubeApi, complete: Completion): TaskRun
  {
    match search
    case Raised(e) => TaskRun([Searching, Error], Error, e, None)
    case Ok(channels) =>
      if channels == [] then TaskRun([Searching, Done], Done, "No channels found", Some([]))
      else
        var enriched := EnrichedOf(keys, channels, api);
        var rest := EnrichStage(job, keys, enriched, AnalysisOf(job, keys, enriched, complete));
        TaskRun([Searching] + rest.trail, rest.status, rest.message, rest.results)
  }

  /** What the enrichment step yields: the channels themselves without a
      YouTube key. */
  function EnrichedOf(keys: Keys, channels: seq<ChannelInfo>, api: YouTubeApi): Fallible<seq<ChannelInfo>>
  {
    if HasYoutubeApi(keys) then Enriched(channels, true, api) else Ok(channels)
  }

  /** What the analysis step yields: no analyses when it is off or not
      reached. */
  function AnalysisOf(job: Job, keys: Keys, enriched: Fallible<seq<ChannelInfo>>, complete: Completion)
    : Fallible<seq<AnalysisResult>>
  {
    if enriched.Ok? && RunsAnalysis(job, keys) then Analyzed(enriched.value, complete) else Ok([])
  }

  /** The rest of the run once the channels are found, given what the
      enrichment and the analysis steps yield; `trail` holds only the
      statuses set after `searching`. */
  function EnrichStage(job: Job, keys: Keys, enriched: Fallible<seq<ChannelInfo>>,
                       analyzed: Fallible<seq<AnalysisResult>>): TaskRun
  {
    var before := OptStatus(HasYoutubeApi(keys), Enriching);
    match enriched
    case Raised(e) => TaskRun(before + [Error], Error, e, None)
    case Ok(chs) =>
      var rest := AnalysisStage(job, keys, chs, analyzed);
      TaskRun(before + rest.trail, rest.status, rest.message, rest.results)
  }

  /** The last part of the run, from the enriched `channels`: analysis when
      it is on, then the reports; `trail` holds only the statuses this part
      sets. */
  function AnalysisStage(job: Job, keys: Keys, channels: seq<ChannelInfo>, analyzed: Fallible<seq<AnalysisResult>>): TaskRun
  {
    if !RunsAnalysis(job, keys) then Finish([], channels, [])
    else match analyzed
      case Raised(e) => TaskRun([Analyzing, Error], Error, e, None)
      case Ok(a) => Finish([Analyzing], channels, a)
  }

  function Finish(before: seq<Status>, channels: seq<ChannelInfo>, analyses: seq<AnalysisResult>): TaskRun
  {
    TaskRun(before + [Done], Done, DoneMessage(|channels|), Some(BuildReports(channels, analyses)))
  }

  /** The in-memory `tasks` dict. */
  class TaskStore {
    var tasks: map<string, Task>

    constructor ()
      ensures tasks == map[]
    {
      tasks := map[];
    }

    /** `_run_search(task_id, ...)` run to completion; `search` is what the
        call to `search_channels` returned or raised. */
    method RunSearch(taskId: string, job: Job, keys: Keys, search: Fallible<seq<ChannelInfo>>,
                     api: YouTubeApi, complete: Completion)
      requires taskId in tasks
      modifies tasks[taskId]
      ensures var run := RunSpec(job, keys, search, api, complete);
        && tasks[taskId].trail == old(tasks[taskId].trail) + run.trail
        && tasks[taskId].status == run.status
        && tasks[taskId].message == run.message
        && tasks[taskId].results == run.results.GetOr(old(tasks[taskId].results))
    {
      RunTask(tasks[taskId], job, keys, search, api, complete);
    }

    /** `api_search` with the uuid the request draws given as `newId`. */
    method ApiSearch(req: SearchRequest, newId: string) returns (resp: SearchResponse)
      modifies this
      ensures ParseSearch(req).None? ==> resp == BadRequest("Query is required") && tasks == old(tasks)
      ensures ParseSearch(req).Some? ==>
        && resp == Started(newId, ParseSearch(req).value)
        && newId in tasks && fresh(tasks[newId])
        && tasks == old(tasks)[newId := tasks[newId]]
        && tasks[newId].status == Queued && tasks[newId].message == "Starting search..."
        && tasks[newId].results == [] && tasks[newId].trail == [Queued]
    {
      var job := ParseSearch(req);
      if job.None? {
        return BadRequest("Query is required");
      }
      var task := new Task();
      tasks := tasks[newId := task];
      return Started(newId, job.value);
    }

    /** `api_status(task_id)`. */
    method ApiStatus(taskId: string) returns (resp: StatusResponse)
      ensures taskId !in tasks <==> resp == TaskNotFound
      ensures taskId in tasks ==>
        resp == TaskState(tasks[taskId].status, tasks[taskId].message, tasks[taskId].results)
    {
      if taskId !in tasks {
        return TaskNotFound;
      }
      var task := tasks[taskId];
      return TaskState(task.status, task.message, task.results);
    }

    /** `api_csv(task_id)`. */
    method ApiCsv(taskId: string) returns (resp: CsvResponse)
      ensures resp == NoResults <==> taskId !in tasks || tasks[taskId].results == []
      ensures resp.CsvFile? ==>
        var results := tasks[taskId].results;
        && resp.filename == CsvFilename(taskId)
        && |resp.rows| == |results| + 1 && resp.rows[0] == CsvHeader
        && forall k :: 0 <= k < |results| ==> resp.rows[k + 1] == CsvRow(results[k])
    {
      if taskId !in tasks || tasks[taskId].results == [] {
        return NoResults;
      }
      var rows := CsvRows(tasks[taskId].results);
      return CsvFile(CsvFilename(taskId), rows);
    }
  }

  /** `_run_search` on the task it looks up. */
  method RunTask(task: Task, job: Job, keys: Keys, search: Fallible<seq<ChannelInfo>>,
                 api: YouTubeApi, complete: Completion)
    modifies task
    ensures var run := RunSpec(job, keys, search, api, complete);
      && task.trail == old(task.trail) + run.trail
      && task.status == run.status
      && task.message == run.message
      && task.results == run.results.GetOr(old(task.results))
  {
    if search.Ok? && search.value != [] {
      RunFound(task, job, keys, search.value, api, complete);
      return;
    }
    ghost var run := RunSpec(job, keys, search, api, complete);
    ghost var trail0 := task.trail;
    task.Update(Searching, "Searching YouTube for: " + job.query);
    if search.Raised? {
      task.Update(Error, search.message);
      assert run == TaskRun([Searching, Error], Error, search.message, None);
      assert task.trail == trail0 + [Searching, Error];
    } else {
      task.Update(Done, "No channels found");
      task.results := [];
      assert run == TaskRun([Searching, Done], Done, "No channels found", Some([]));
      assert task.trail == trail0 + [Searching, Done];
    }
  }

  /** `_run_search` once `search_channels` has returned channels. */
  method RunFound(task: Task, job: Job, keys: Keys, channels: seq<ChannelInfo>, api: YouTubeApi, complete: Completion)
    requires channels != []
    modifies task
    ensures var run := RunSpec(job, keys, Ok(channels), api, complete);
      && task.trail == old(task.trail) + run.trail
      && task.status == run.status
      && task.message == run.message
      && task.results == run.results.GetOr(old(task.results))
  {
    ghost var trail0 := task.trail;
    task.Update(Searching, "Searching YouTube for: " + job.query);
    task.message := "Found " + IntToString(|channels|) + " channels";
    EnrichRun(task, job, keys, channels, api, complete);
    RunSpecFound(job, keys, channels, api, complete);
    ghost var enriched := EnrichedOf(keys, channels, api);
    ghost var rest := EnrichStage(job, keys, enriched, AnalysisOf(job, keys, enriched, complete));
    AppendAssoc(trail0, [Searching], rest.trail);
  }

  /** The run of a search that found channels: `searching`, then the rest. */
  lemma RunSpecFound(job: Job, keys: Keys, channels: seq<ChannelInfo>, api: YouTubeApi, complete: Completion)
    requires channels != []
    ensures var enriched := EnrichedOf(keys, channels, api);
      var rest := EnrichStage(job, keys, enriched, AnalysisOf(job, keys, enriched, complete));
      RunSpec(job, keys, Ok(channels), api, complete) == TaskRun([Searching] + rest.trail, rest.status, rest.message, rest.results)
  {
  }

  /** The part of `_run_search` from the enrichment step on. */
  method EnrichRun(task: Task, job: Job, keys: Keys, channels: seq<ChannelInfo>, api: YouTubeApi, complete: Completion)
    modifies task
    ensures var enriched := EnrichedOf(keys, channels, api);
      var rest := EnrichStage(job, keys, enriched, AnalysisOf(job, keys, enriched, complete));
      && task.trail == old(task.trail) + rest.trail
      && task.status == rest.status
      && task.message == rest.message
      && task.results == rest.results.GetOr(old(task.results))
  {
    ghost var trail0 := task.trail;
    ghost var enrichedSpec := EnrichedOf(keys, channels, api);
    ghost var rest := EnrichStage(job, keys, enrichedSpec, AnalysisOf(job, keys, enrichedSpec, complete));
    var chs := channels;
    if HasYoutubeApi(keys) {
      task.Update(Enriching, "Enriching with YouTube Data API...");
      var enriched := EnrichChannels(channels, true, api);
      if enriched.Raised? {
        task.Update(Error, enriched.message);
        assert rest == TaskRun([Enriching, Error], Error, enriched.message, None);
        assert task.trail == trail0 + [Enriching, Error];
        return;
      }
      chs := enriched.value;
    }
    ghost var before := OptStatus(HasYoutubeApi(keys), Enriching);
    assert enrichedSpec == Ok(chs);
    ghost var last := AnalysisStage(job, keys, chs, AnalysisOf(job, keys, Ok(chs), complete));
    assert rest == TaskRun(before + last.trail, last.status, last.message, last.results);
    assert task.trail == trail0 + before;
    FinishRun(task, job, keys, chs, complete);
    AppendAssoc(trail0, before, last.trail);
  }

  /** The part of `_run_search` after enrichment. */
  method FinishRun(task: Task, job: Job, keys: Keys, channels: seq<ChannelInfo>, complete: Completion)
    modifies task
    ensures var rest := AnalysisStage(job, keys, channels, AnalysisOf(job, keys, Ok(channels), complete));
      && task.trail == old(task.trail) + rest.trail
      && task.status == rest.status
      && task.message == rest.message
      && task.results == rest.results.GetOr(old(task.results))
  {
    ghost var trail0 := task.trail;
    ghost var rest := AnalysisStage(job, keys, channels, AnalysisOf(job, keys, Ok(channels), complete));
    var analyses: seq<AnalysisResult> := [];
    if !job.skipAi && HasOpenAiKey(keys) {
      task.Update(Analyzing, "Analyzing channels with GPT-4o-mini...");
      var analyzed, _ := AnalyzeChannels(channels, complete);
      if analyzed.Raised? {
        task.Update(Error, analyzed.message);
        assert rest == TaskRun([Analyzing, Error], Error, analyzed.message, None);
        assert task.trail == trail0 + [Analyzing, Error];
        return;
      }
      analyses := analyzed.value;
    }
    ghost var before := OptStatus(RunsAnalysis(job, keys), Analyzing);
    assert rest == Finish(before, channels, analyses);
    var reports := BuildReports(channels, analyses);
    task.results := reports;
    task.Update(Done, DoneMessage(|reports|));
    AppendAssoc(trail0, before, [Done]);
  }

  /** Every run ends `done` or `error` and never at an intermediate status:
      it starts `searching`, then passes `enriching` only with a YouTube
      key and `analyzing` only when analysis is on, in that order, and the
      last status is the only `done` or `error`; `results` are written
      exactly when it ends `done`. */
  lemma RunEnds(job: Job, keys: Keys, search: Fallible<seq<ChannelInfo>>, api: YouTubeApi, complete: Completion)
    ensures var run := RunSpec(job, keys, search, api, complete);
      && |run.trail| >= 2 && run.trail[|run.trail| - 1] == run.status
      && (run.status == Done || run.status == Error)
      && run.trail[..|run.trail| - 1]
         <= [Searching] + OptStatus(HasYoutubeApi(keys), Enriching) + OptStatus(RunsAnalysis(job, keys), Analyzing)
      && (run.results.Some? <==> run.status == Done)
  {
    if search.Ok? && search.value != [] {
      RunFoundEnds(job, keys, search.value, api, complete);
    } else {
      var run := RunSpec(job, keys, search, api, complete);
      assert run.trail[..|run.trail| - 1] == [Searching];
    }
  }

  /** `RunEnds` for a search that found channels. */
  lemma RunFoundEnds(job: Job, keys: Keys, channels: seq<ChannelInfo>, api: YouTubeApi, complete: Completion)
    requires channels != []
    ensures var run := RunSpec(job, keys, Ok(channels), api, complete);
      && |run.trail| >= 2 && run.trail[|run.trail| - 1] == run.status
      && (run.status == Done || run.status == Error)
      && run.trail[..|run.trail| - 1]
         <= [Searching] + OptStatus(HasYoutubeApi(keys), Enriching) + OptStatus(RunsAnalysis(job, keys), Analyzing)
      && (run.results.Some? <==> run.status == Done)
  {
    var enriched := EnrichedOf(keys, channels, api);
    var analyzed := AnalysisOf(job, keys, enriched, complete);
    var rest := EnrichStage(job, keys, enriched, analyzed);
    EnrichStageEnds(job, keys, enriched, analyzed);
    RunSpecFound(job, keys, channels, api, complete);
    ConsButLast(Searching, rest.trail);
    ConsPrefix(Searching, rest.trail[..|rest.trail| - 1],
      OptStatus(HasYoutubeApi(keys), Enriching) + OptStatus(RunsAnalysis(job, keys), Analyzing));
    AppendAssoc([Searching], OptStatus(HasYoutubeApi(keys), Enriching), OptStatus(RunsAnalysis(job, keys), Analyzing));
  }

  /** The stages after the search: at least the final status, which is
      `done` or `error`; before it `enriching` only with a YouTube key and
      `analyzing` only when analysis is on. */
  lemma EnrichStageEnds(job: Job, keys: Keys, enriched: Fallible<seq<ChannelInfo>>, analyzed: Fallible<seq<AnalysisResult>>)
    ensures var run := EnrichStage(job, keys, enriched, analyzed);
      && |run.trail| >= 1 && run.trail[|run.trail| - 1] == run.status
      && (run.status == Done || run.status == Error)
      && run.trail[..|run.trail| - 1]
         <= OptStatus(HasYoutubeApi(keys), Enriching) + OptStatus(RunsAnalysis(job, keys), Analyzing)
      && (run.results.Some? <==> run.status == Done)
  {
    var run := EnrichStage(job, keys, enriched, analyzed);
    var before := OptStatus(HasYoutubeApi(keys), Enriching);
    var full := before + OptStatus(RunsAnalysis(job, keys), Analyzing);
    match enriched
    case Raised(e) =>
      assert run.trail == before + [Error];
      EndsWith(before, Error, full);
    case Ok(chs) =>
      var rest := AnalysisStage(job, keys, chs, analyzed);
      AnalysisStageEnds(job, keys, chs, analyzed);
      AppendAssoc(before, OptStatus(RunsAnalysis(job, keys), Analyzing), [rest.status]);
      EndsWith(full, rest.status, full);
  }

  /** The analysis part sets `analyzing` exactly when analysis is on, then
      one final status; results are there exactly when that status is
      `done`. */
  lemma AnalysisStageEnds(job: Job, keys: Keys, channels: seq<ChannelInfo>, analyzed: Fallible<seq<AnalysisResult>>)
    ensures var rest := AnalysisStage(job, keys, channels, analyzed);
      && rest.trail == OptStatus(RunsAnalysis(job, keys), Analyzing) + [rest.status]
      && (rest.status == Done || rest.status == Error)
      && (rest.results.Some? <==> rest.status == Done)
  {
    if RunsAnalysis(job, keys) && analyzed.Raised? {
      assert [Analyzing, Error] == [Analyzing] + [Error];
    }
  }

  /** An empty search ends at once: `done`, "No channels found", no
      results, and no enrichment or analysis. */
  lemma RunNoChannels(job: Job, keys: Keys, api: YouTubeApi, complete: Completion)
    ensures RunSpec(job, keys, Ok([]), api, complete) == TaskRun([Searching, Done], Done, "No channels found", Some([]))
  {
  }

  /** A raise anywhere in the run ends it `error` with the exception's text
      as message: the search's, the first statistics request's that
      raises, or the first completion's that raises; the statuses set
      before it are those of the steps reached. */
  lemma RunErrors(job: Job, keys: Keys, search: Fallible<seq<ChannelInfo>>, api: YouTubeApi, complete: Completion)
    ensures search.Raised? ==>
      RunSpec(job, keys, search, api, complete) == TaskRun([Searching, Error], Error, search.message, None)
    ensures search.Ok? && search.value != [] && HasYoutubeApi(keys) && Enriched(search.value, true, api).Raised? ==>
      RunSpec(job, keys, search, api, complete)
        == TaskRun([Searching, Enriching, Error], Error, Enriched(search.value, true, api).message, None)
    ensures (&& search.Ok? && search.value != [] && RunsAnalysis(job, keys)
             && EnrichedOf(keys, search.value, api).Ok?
             && Analyzed(EnrichedOf(keys, search.value, api).value, complete).Raised?) ==>
      RunSpec(job, keys, search, api, complete)
        == TaskRun([Searching] + OptStatus(HasYoutubeApi(keys), Enriching) + [Analyzing, Error], Error,
                   Analyzed(EnrichedOf(keys, search.value, api).value, complete).message, None)
  {
  }

  /** A run that ends `done` after a non-empty search reports "Done. Found
      N channels." with one report per channel found, each still carrying
      the found channel's id; with analysis off no report has an
      analysis. */
  lemma RunDone(job: Job, keys: Keys, channels: seq<ChannelInfo>, api: YouTubeApi, complete: Completion)
    requires channels != []
    requires RunSpec(job, keys, Ok(channels), api, complete).status == Done
    ensures var run := RunSpec(job, keys, Ok(channels), api, complete);
      && run.message == DoneMessage(|channels|)
      && run.results.Some? && |run.results.value| == |channels|
      && (forall k :: 0 <= k < |channels| ==> run.results.value[k].channel.channelId == channels[k].channelId)
      && (!RunsAnalysis(job, keys) ==> forall k :: 0 <= k < |channels| ==> run.results.value[k].analysis.None?)
  {
    EnrichedSpec(channels, HasYoutubeApi(keys), api);
    var chs := if HasYoutubeApi(keys) then Enriched(channels, true, api).value else channels;
    EnrichStageEnds(job, keys, EnrichedOf(keys, channels, api), AnalysisOf(job, keys, EnrichedOf(keys, channels, api), complete));
    var a := if RunsAnalysis(job, keys) then Analyzed(chs, complete).value else [];
    ReportsPairing(chs, a);
  }

  // ------------------------------------------------------- the endpoints

  /** The JSON body of `POST /api/search`: each key may be absent. */
  datatype SearchRequest = SearchRequest(query: Option<string>, maxResults: Option<int>, skipAi: Option<bool>)

  /** The `(query, max_results, skip_ai)` of a request, or None when the
      stripped query is empty: the query is stripped of Python whitespace
      at both ends, `max_results` defaults to 200 and `skip_ai` to false. */
  function ParseSearch(req: SearchRequest): (r: Option<Job>)
    ensures r.None? <==> forall k :: 0 <= k < |req.query.GetOr("")| ==> IsSpace(req.query.GetOr("")[k])
    ensures r.Some? ==>
      && r.value.query == Strip(req.query.GetOr(""))
      && r.value.query != [] && !IsSpace(r.value.query[0]) && !IsSpace(r.value.query[|r.value.query| - 1])
      && r.value.maxResults == (if req.maxResults.Some? then req.maxResults.value else 200)
      && r.value.skipAi == (req.skipAi.Some? && req.skipAi.value)
  {
    var query := Strip(req.query.GetOr(""));
    StripEmpty(req.query.GetOr(""));
    StripSpec(req.query.GetOr(""));
    if query == [] then None
    else Some(Job(query, req.maxResults.GetOr(200), req.skipAi.GetOr(false)))
  }

  /** The reply of `POST /api/search`. */
  datatype SearchResponse = BadRequest(error: string) | Started(taskId: string, job: Job)

  /** `GET /api/status/<task_id>`: 404 for an unknown id, else the task. */
  datatype StatusResponse =
    | TaskNotFound
    | TaskState(status: Status, message: string, results: seq<ChannelReport>)

  /** `GET /api/csv/<task_id>`: 404 for an unknown id or a task without
      results, else the rows of the file and its name. */
  datatype CsvResponse = NoResults | CsvFile(filename: string, rows: seq<seq<string>>)

  const CsvHeader: seq<string> := ["Channel", "URL", "Subscribers", "Avg Views", "Video Count", "Niche", "Why Partner Fit"]

  /** How `csv.writer` writes an optional count: nothing for None. */
  function CountCell(n: Option<int>): string
  {
    if n.Some? then IntToString(n.value) else ""
  }

  /** One CSV row: name, url, the three counts (`str(n)`, which reads back
      as `n`, or empty for None), then niche and fit from the analysis (both
      empty without one). */
  function CsvRow(r: ChannelReport): (row: seq<string>)
    ensures |row| == |CsvHeader|
    ensures row[0] == r.channel.name && row[1] == r.channel.url
    ensures r.channel.subscriberCount.None? <==> row[2] == ""
    ensures r.channel.avgViews.None? <==> row[3] == ""
    ensures r.channel.videoCount.None? <==> row[4] == ""
    ensures r.analysis.None? ==> row[5] == "" && row[6] == ""
    ensures r.analysis.Some? ==> row[5] == r.analysis.value.niche && row[6] == r.analysis.value.whyPartnerFit
    ensures r.channel.subscriberCount.Some? ==>
      row[2] == IntToString(r.channel.subscriberCount.value) && ParseInt(row[2]) == r.channel.subscriberCount.value
    ensures r.channel.avgViews.Some? ==>
      row[3] == IntToString(r.channel.avgViews.value) && ParseInt(row[3]) == r.channel.avgViews.value
    ensures r.channel.videoCount.Some? ==>
      row[4] == IntToString(r.channel.videoCount.value) && ParseInt(row[4]) == r.channel.videoCount.value
  {
    var a := r.analysis;
    IntToStringRoundTrip(r.channel.subscriberCount.GetOr(0));
    IntToStringRoundTrip(r.channel.avgViews.GetOr(0));
    IntToStringRoundTrip(r.channel.videoCount.GetOr(0));
    [r.channel.name, r.channel.url,
     CountCell(r.channel.subscriberCount), CountCell(r.channel.avgViews), CountCell(r.channel.videoCount),
     if a.Some? then a.value.niche else "", if a.Some? then a.value.whyPartnerFit else ""]
  }

  /** `f"results_{task_id[:8]}.csv"`. */
  function CsvFilename(taskId: string): string
  {
    "results_" + taskId[..if |taskId| <= 8 then |taskId| else 8] + ".csv"
  }

  /** A present count reads back from its cell. */
  lemma CountCellRoundTrip(n: int)
    ensures var s := CountCell(Some(n));
      |s| >= 1 && (forall k :: (if s[0] == '-' then 1 else 0) <= k < |s| ==> IsDigit(s[k])) && ParseInt(s) == n
  {
    IntToStringRoundTrip(n);
  }

  /** The rows `api_csv` writes: the header, then one row per result. */
  method CsvRows(results: seq<ChannelReport>) returns (rows: seq<seq<string>>)
    ensures |rows| == |results| + 1 && rows[0] == CsvHeader
    ensures forall k :: 0 <= k < |results| ==> rows[k + 1] == CsvRow(results[k])
  {
    rows := [CsvHeader];
    var k := 0;
    while k < |results|
      invariant 0 <= k <= |results|
      invariant |rows| == k + 1 && rows[0] == CsvHeader
      invariant forall j :: 0 <= j < k ==> rows[j + 1] == CsvRow(results[j])
    {
      rows := rows + [CsvRow(results[k])];
      k := k + 1;
    }
  }

  // ------------------------------------------------------------ findings

  /** The `TypeError` the call `search_channels(query, max_results,
      on_progress=on_progress)` raises: `search_channels` takes no such
      argument. */
  const OnProgressTypeError := "search_channels() got an unexpected keyword argument 'on_progress'"

  /** As written, every web task ends `error` right after `searching`,
      with the `TypeError` text as its message, whatever the query, keys
      and collaborators. */
  lemma AsWrittenRunAlwaysErrors(job: Job, keys: Keys, api: YouTubeApi, complete: Completion)
    ensures RunSpec(job, keys, Raised(OnProgressTypeError), api, complete)
      == TaskRun([Searching, Error], Error, OnProgressTypeError, None)
    ensures RunSpec(job, keys, Raised(OnProgressTypeError), api, complete).status == Error
  {
  }

  /** With the search call accepted (its channels found), a run whose
      enrichment and analysis requests all succeed ends `done` with one
      report per channel found. */
  lemma CorrectedRunReachesDone(job: Job, keys: Keys, channels: seq<ChannelInfo>, api: YouTubeApi, complete: Completion)
    requires HasYoutubeApi(keys) ==> Enriched(channels, true, api).Ok?
    requires RunsAnalysis(job, keys) ==>
      Analyzed(if HasYoutubeApi(keys) then Enriched(channels, true, api).value else channels, complete).Ok?
    ensures RunSpec(job, keys, Ok(channels), api, complete).status == Done
    ensures RunSpec(job, keys, Ok(channels), api, complete).results.Some?
    ensures |RunSpec(job, keys, Ok(channels), api, complete).results.value| == |channels|
  {
    if channels != [] {
      EnrichedSpec(channels, HasYoutubeApi(keys), api);
    }
  }
}
