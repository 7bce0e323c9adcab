/** The trends endpoint: the destination table of each keyword cohort and
    the loop that fetches and loads the four cohorts in order. The
    warehouse load is a parameter. */
module TrendsPipeline {
  import opened Decimal
  import ColumnNames
  import opened TrendsFetch

  const ProjectId := "team-god"
  const DatasetId := "google_trends"
  const TableIdPrefix := "searchwords_new"

  const KwList1: seq<string> := ["fl\U{00E4}kt", "jacka", "solglas\U{00F6}gon", "solkr\U{00E4}m", "badkl\U{00E4}der"]
  const KwList2: seq<string> := ["snaps", "glass", "grill", "jordgubbar", "sill"]
  const KwList3: seq<string> := ["varm choklad", "gl\U{00F6}gg", "earl grey", "chai", "mojito"]
  const KwList4: seq<string> := ["jacka", "paraply", "storm", "m\U{00F6}ssa", "p\U{00E4}ls"]
  const KwLists: seq<seq<string>> := [KwList1, KwList2, KwList3, KwList4]

  /** The table id `send_to_bigquery` builds for a suffix: project,
      dataset and table prefix joined by dots, then `_` and the suffix. */
  function TableId(suffix: string): string {
    ProjectId + "." + DatasetId + "." + TableIdPrefix + "_" + suffix
  }

  /** What every table id starts with. */
  const TableIdHead: string := ProjectId + "." + DatasetId + "." + TableIdPrefix + "_"

  lemma TableIdHeadSpelled()
    ensures TableIdHead == "team-god.google_trends.searchwords_new_"
  {
  }

  /** Every table id is the fixed head followed by the suffix, so the
      suffix can be read back and distinct suffixes give distinct tables. */
  lemma TableIdLayout(suffix: string, other: string)
    ensures TableId(suffix) == TableIdHead + suffix
    ensures TableId(suffix)[|TableIdHead|..] == suffix
    ensures TableId(suffix) == TableId(other) <==> suffix == other
  {
    assert (TableIdHead + suffix)[|TableIdHead|..] == suffix;
    assert (TableIdHead + other)[|TableIdHead|..] == other;
  }

  /** The destination of the cohort at position idx: suffix `str(idx + 1)`. */
  function CohortTable(idx: nat): string {
    TableId(DecimalString(idx + 1))
  }

  /** The four cohorts go to `..._1` to `..._4`, and no two cohorts share a table. */
  lemma CohortTables(i: nat, j: nat)
    ensures CohortTable(i) == CohortTable(j) <==> i == j
    ensures CohortTable(0) == TableIdHead + "1" && CohortTable(3) == TableIdHead + "4"
  {
    TableIdLayout(DecimalString(i + 1), DecimalString(j + 1));
    DecimalStringInjective(i + 1, j + 1);
  }

  /** What the warehouse answers to loading a frame into a table. */
  datatype LoadOutcome = Loaded | LoadFailed(message: string)

  type Loader = (string, seq<string>) -> LoadOutcome

  const FetchFailedDetail := "Failed to fetch data after multiple retries"
  const LoadFailedPrefix := "Error sending data to BigQuery: "

  /** What a run of the endpoint shows: its status and detail, the keyword
      lists it fetched, the (table, columns) loads that succeeded, every
      sleep and the number of attempts made against the trends service. */
  datatype Report = Report(status: nat, detail: string, fetched: seq<seq<string>>,
                           loaded: seq<(string, seq<string>)>, sleeps: seq<nat>, calls: nat)

  /** The report `before` has built up, followed by the report of the rest. */
  function Extend(before: Report, rest: Report): Report {
    Report(rest.status, rest.detail, before.fetched + rest.fetched, before.loaded + rest.loaded,
           before.sleeps + rest.sleeps, before.calls + rest.calls)
  }

  /** Reports built up piece by piece can be grouped either way. */
  lemma ExtendAssociative(a: Report, b: Report, c: Report)
    ensures Extend(Extend(a, b), c) == Extend(a, Extend(b, c))
  {
    assert (a.fetched + b.fetched) + c.fetched == a.fetched + (b.fetched + c.fetched);
    assert (a.loaded + b.loaded) + c.loaded == a.loaded + (b.loaded + c.loaded);
    assert (a.sleeps + b.sleeps) + c.sleeps == a.sleeps + (b.sleeps + c.sleeps);
  }

  /** A finished run adds nothing. */
  lemma ExtendNothing(before: Report)
    requires before.status == 200 && before.detail == ""
    ensures Extend(before, Report(200, "", [], [], [], 0)) == before
  {
    assert before.fetched + [] == before.fetched;
    assert before.loaded + [] == before.loaded;
    assert before.sleeps + [] == before.sleeps;
  }

  /** How one cohort is fetched: its keyword list and the number of
      attempts made before it, to the run of its retry loop. */
  type Fetcher = (seq<string>, nat) -> RetryRun

  /** `fetch_trends_data` against the trends service. */
  function TrendsFetcher(upstream: Upstream): Fetcher {
    (kwList: seq<string>, base: nat) => RetrySpec(kwList, upstream, base)
  }

  /** What every call of `fetch_trends_data` guarantees the loop: one to ten
      attempts, and a frame whose column names hold no replaced character. */
  predicate FetchBounded(run: RetryRun) {
    && 1 <= run.calls <= MaxRetries
    && (run.result.Fetched? ==>
          forall c :: 0 <= c < |run.result.columns| ==> ColumnNames.IsNormalized(run.result.columns[c]))
  }

  lemma TrendsFetcherBounded(upstream: Upstream)
    ensures forall kwList, base :: FetchBounded(TrendsFetcher(upstream)(kwList, base))
  {
    forall kwList, base
      ensures FetchBounded(TrendsFetcher(upstream)(kwList, base))
    {
      var run := RetrySpec(kwList, upstream, base);
      RetrySpecShape(kwList, upstream, base);
    }
  }

  /** The report of the cohorts from position i on, when `base` attempts
      have been made before: fetch, then load into the cohort's table; the
      first failure ends the run with 500. */
  function CohortsFrom(lists: seq<seq<string>>, i: nat, fetch: Fetcher, load: Loader, base: nat): Report
    requires i <= |lists|
    decreases |lists| - i
  {
    if i == |lists| then Report(200, "", [], [], [], 0)
    else
      var run := fetch(lists[i], base);
      match run.result
      case RetriesExhausted => Report(500, FetchFailedDetail, [lists[i]], [], run.sleeps, run.calls)
      case Fetched(columns) =>
        var table := CohortTable(i);
        match load(table, columns)
        case LoadFailed(message) => Report(500, LoadFailedPrefix + message, [lists[i]], [], run.sleeps, run.calls)
        case Loaded =>
          Extend(Report(200, "", [lists[i]], [(table, columns)], run.sleeps, run.calls),
                 CohortsFrom(lists, i + 1, fetch, load, base + run.calls))
  }

  /** The first failing fetch or load ends the run: exactly one more
      cohort is fetched than loaded, and the status is 200 exactly when
      every cohort is loaded. */
  lemma {:induction false} CohortsStopAtFirstFailure(lists: seq<seq<string>>, i: nat, fetch: Fetcher,
                                                     load: Loader, base: nat)
    requires i <= |lists|
    ensures var r := CohortsFrom(lists, i, fetch, load, base);
      && (r.status == 200 || r.status == 500)
      && |r.loaded| <= |r.fetched| <= |lists| - i
      && (r.status == 200 <==> |r.loaded| == |lists| - i)
      && (r.status == 200 ==> r.detail == "")
      && (r.status == 500 ==> |r.fetched| == |r.loaded| + 1)
    decreases |lists| - i
  {
    if i < |lists| {
      var run := fetch(lists[i], base);
      if run.result.Fetched? && load(CohortTable(i), run.result.columns).Loaded? {
        CohortsStopAtFirstFailure(lists, i + 1, fetch, load, base + run.calls);
      }
    }
  }

  /** The cohorts are fetched in list order, each once, so any cohort after
      the failing one is never fetched. */
  lemma {:induction false} CohortsFetchedInOrder(lists: seq<seq<string>>, i: nat, fetch: Fetcher,
                                                 load: Loader, base: nat)
    requires i <= |lists|
    ensures var r := CohortsFrom(lists, i, fetch, load, base);
      |r.fetched| <= |lists| - i && r.fetched == lists[i..i + |r.fetched|]
    decreases |lists| - i
  {
    if i < |lists| {
      var run := fetch(lists[i], base);
      if run.result.Fetched? && load(CohortTable(i), run.result.columns).Loaded? {
        CohortsFetchedInOrder(lists, i + 1, fetch, load, base + run.calls);
        var rest := CohortsFrom(lists, i + 1, fetch, load, base + run.calls);
        var r := CohortsFrom(lists, i, fetch, load, base);
        assert r.fetched == [lists[i]] + rest.fetched;
        assert [lists[i]] + lists[i + 1..i + 1 + |rest.fetched|] == lists[i..i + 1 + |rest.fetched|];
      } else {
        assert [lists[i]] == lists[i..i + 1];
      }
    }
  }

  predicate StartsWith(s: string, prefix: string) {
    |prefix| <= |s| && s[..|prefix|] == prefix
  }

  /** A failed run says why: the fetch's retries ran out, or the load failed. */
  lemma {:induction false} CohortsFailureDetail(lists: seq<seq<string>>, i: nat, fetch: Fetcher,
                                                load: Loader, base: nat)
    requires i <= |lists|
    ensures var r := CohortsFrom(lists, i, fetch, load, base);
      r.status != 200 ==>
        r.detail == FetchFailedDetail || StartsWith(r.detail, LoadFailedPrefix)
    decreases |lists| - i
  {
    if i < |lists| {
      var run := fetch(lists[i], base);
      if run.result.Fetched? {
        match load(CohortTable(i), run.result.columns)
        case LoadFailed(message) =>
          assert (LoadFailedPrefix + message)[..|LoadFailedPrefix|] == LoadFailedPrefix;
        case Loaded =>
          CohortsFailureDetail(lists, i + 1, fetch, load, base + run.calls);
      }
    }
  }

  /** columns is a frame that some call of the fetch on kwList returned. */
  ghost predicate FetchedAs(fetch: Fetcher, kwList: seq<string>, columns: seq<string>) {
    exists b :: fetch(kwList, b).result == Fetched(columns)
  }

  /** The j-th load carries the frame that the j-th fetch returned. */
  lemma {:induction false} LoadsPaired(lists: seq<seq<string>>, i: nat, fetch: Fetcher, load: Loader, base: nat)
    requires i <= |lists|
    ensures var r := CohortsFrom(lists, i, fetch, load, base);
      && |r.loaded| <= |r.fetched|
      && forall j :: 0 <= j < |r.loaded| ==> FetchedAs(fetch, r.fetched[j], r.loaded[j].1)
    decreases |lists| - i
  {
    if i < |lists| {
      var run := fetch(lists[i], base);
      if run.result.Fetched? && load(CohortTable(i), run.result.columns).Loaded? {
        LoadsPaired(lists, i + 1, fetch, load, base + run.calls);
        var rest := CohortsFrom(lists, i + 1, fetch, load, base + run.calls);
        var r := CohortsFrom(lists, i, fetch, load, base);
        assert r.loaded == [(CohortTable(i), run.result.columns)] + rest.loaded;
        assert r.fetched == [lists[i]] + rest.fetched;
        forall j | 0 <= j < |r.loaded|
          ensures FetchedAs(fetch, r.fetched[j], r.loaded[j].1)
        {
          if j == 0 {
            assert fetch(lists[i], base).result == Fetched(run.result.columns);
          } else {
            assert r.loaded[j] == rest.loaded[j - 1] && r.fetched[j] == rest.fetched[j - 1];
          }
        }
      }
    }
  }

  /** The j-th load goes to the table of cohort i + j, with the frame the
      fetch of list i + j returned; when no fetch makes more than ten attempts, neither
      does any cohort, and renamed columns are what reaches the warehouse. */
  lemma {:induction false} CohortsLoadRenamedFrames(lists: seq<seq<string>>, i: nat, fetch: Fetcher,
                                                    load: Loader, base: nat)
    requires i <= |lists|
    requires forall kwList, b :: FetchBounded(fetch(kwList, b))
    ensures var r := CohortsFrom(lists, i, fetch, load, base);
      && |r.loaded| <= |r.fetched|
      && (forall j :: 0 <= j < |r.loaded| ==>
            && r.loaded[j].0 == CohortTable(i + j)
            && FetchedAs(fetch, r.fetched[j], r.loaded[j].1)
            && forall c :: 0 <= c < |r.loaded[j].1| ==> ColumnNames.IsNormalized(r.loaded[j].1[c]))
      && r.calls <= MaxRetries * |r.fetched|
    decreases |lists| - i
  {
    LoadsPaired(lists, i, fetch, load, base);
    if i < |lists| {
      var run := fetch(lists[i], base);
      assert FetchBounded(run);
      if run.result.Fetched? && load(CohortTable(i), run.result.columns).Loaded? {
        CohortsLoadRenamedFrames(lists, i + 1, fetch, load, base + run.calls);
        var rest := CohortsFrom(lists, i + 1, fetch, load, base + run.calls);
        var r := CohortsFrom(lists, i, fetch, load, base);
        assert r.loaded == [(CohortTable(i), run.result.columns)] + rest.loaded;
        assert forall j :: 0 < j < |r.loaded| ==> r.loaded[j] == rest.loaded[j - 1];
      }
    }
  }

  /** A whole run over any keyword lists: the lists are fetched in order
      and only after every earlier one was loaded, the j-th load goes to
      table `..._{j + 1}` with renamed columns, each cohort makes at most
      ten attempts, and 200 means every list was loaded. */
  lemma CohortsReport(lists: seq<seq<string>>, fetch: Fetcher, load: Loader)
    requires forall kwList, b :: FetchBounded(fetch(kwList, b))
    ensures var r := CohortsFrom(lists, 0, fetch, load, 0);
      && |r.fetched| <= |lists| && r.fetched == lists[..|r.fetched|]
      && (r.status == 200 <==> |r.loaded| == |lists|)
      && (r.status == 500 ==> |r.fetched| == |r.loaded| + 1)
      && (forall j :: 0 <= j < |r.loaded| ==> r.loaded[j].0 == TableIdHead + DecimalString(j + 1))
      && |r.loaded| <= |r.fetched|
      && (forall j :: 0 <= j < |r.loaded| ==> FetchedAs(fetch, lists[j], r.loaded[j].1))
      && (forall j, c :: 0 <= j < |r.loaded| && 0 <= c < |r.loaded[j].1| ==>
            ColumnNames.IsNormalized(r.loaded[j].1[c]))
      && r.calls <= MaxRetries * |lists|
  {
    CohortsStopAtFirstFailure(lists, 0, fetch, load, 0);
    CohortsFetchedInOrder(lists, 0, fetch, load, 0);
    CohortsLoadRenamedFrames(lists, 0, fetch, load, 0);
    var r := CohortsFrom(lists, 0, fetch, load, 0);
    forall j | 0 <= j < |r.loaded|
      ensures r.loaded[j].0 == TableIdHead + DecimalString(j + 1)
      ensures FetchedAs(fetch, lists[j], r.loaded[j].1)
    {
      TableIdLayout(DecimalString(j + 1), "");
      assert r.fetched[j] == lists[j];
    }
  }

  /** The run over the four configured cohorts: list k is fetched only
      after lists 1 to k - 1 were loaded, into tables `..._1` onwards, with
      renamed columns, at most forty attempts in all, and 200 means all four
      were loaded. */
  lemma MainReport(upstream: Upstream, load: Loader)
    ensures var r := CohortsFrom(KwLists, 0, TrendsFetcher(upstream), load, 0);
      && |r.fetched| <= |KwLists| && r.fetched == KwLists[..|r.fetched|]
      && (r.status == 200 <==> |r.loaded| == 4)
      && (r.status == 500 ==> |r.fetched| == |r.loaded| + 1)
      && (forall j :: 0 <= j < |r.loaded| ==> r.loaded[j].0 == TableIdHead + DecimalString(j + 1))
      && |r.loaded| <= |r.fetched|
      && (forall j :: 0 <= j < |r.loaded| ==> FetchedAs(TrendsFetcher(upstream), KwLists[j], r.loaded[j].1))
      && (forall j, c :: 0 <= j < |r.loaded| && 0 <= c < |r.loaded[j].1| ==>
            ColumnNames.IsNormalized(r.loaded[j].1[c]))
      && r.calls <= 40
  {
    TrendsFetcherBounded(upstream);
    CohortsReport(KwLists, TrendsFetcher(upstream), load);
  }

  /** One step of the run when the cohort at idx is fetched and loaded:
      appending it to what was done before leaves the same whole run. */
  lemma CohortsAdvance(lists: seq<seq<string>>, idx: nat, fetch: Fetcher, load: Loader, done: Report, run: RetryRun)
    requires idx < |lists|
    requires run == fetch(lists[idx], done.calls)
    requires run.result.Fetched? && load(CohortTable(idx), run.result.columns).Loaded?
    ensures var next := Extend(done, Report(200, "", [lists[idx]], [(CohortTable(idx), run.result.columns)],
                                            run.sleeps, run.calls));
      && next.calls == done.calls + run.calls
      && Extend(next, CohortsFrom(lists, idx + 1, fetch, load, next.calls))
         == Extend(done, CohortsFrom(lists, idx, fetch, load, done.calls))
  {
    var step := Report(200, "", [lists[idx]], [(CohortTable(idx), run.result.columns)], run.sleeps, run.calls);
    var next := Extend(done, step);
    assert next.calls == done.calls + run.calls;
    var rest := CohortsFrom(lists, idx + 1, fetch, load, next.calls);
    CohortsLoadedStep(lists, idx, fetch, load, done.calls);
    assert CohortsFrom(lists, idx, fetch, load, done.calls) == Extend(step, rest);
    ExtendAssociative(done, step, rest);
    assert Extend(next, rest) == Extend(done, Extend(step, rest));
  }

  /** A cohort that is fetched and loaded contributes its own step, then the
      run of the cohorts after it. */
  lemma CohortsLoadedStep(lists: seq<seq<string>>, idx: nat, fetch: Fetcher, load: Loader, base: nat)
    requires idx < |lists|
    requires fetch(lists[idx], base).result.Fetched?
    requires load(CohortTable(idx), fetch(lists[idx], base).result.columns).Loaded?
    ensures var run := fetch(lists[idx], base);
      CohortsFrom(lists, idx, fetch, load, base)
      == Extend(Report(200, "", [lists[idx]], [(CohortTable(idx), run.result.columns)], run.sleeps, run.calls),
                CohortsFrom(lists, idx + 1, fetch, load, base + run.calls))
  {
  }

  /** The step that ends the run: an exhausted fetch or a failed load. */
  lemma CohortsHalt(lists: seq<seq<string>>, idx: nat, fetch: Fetcher, load: Loader, base: nat, run: RetryRun)
    requires idx < |lists|
    requires run == fetch(lists[idx], base)
    ensures run.result.RetriesExhausted? ==>
      CohortsFrom(lists, idx, fetch, load, base) == Report(500, FetchFailedDetail, [lists[idx]], [], run.sleeps, run.calls)
    ensures run.result.Fetched? && load(CohortTable(idx), run.result.columns).LoadFailed? ==>
      CohortsFrom(lists, idx, fetch, load, base)
      == Report(500, LoadFailedPrefix + load(CohortTable(idx), run.result.columns).message, [lists[idx]], [],
                run.sleeps, run.calls)
  {
  }

  /** The loop of `main` over the given keyword lists: for each list in
      order, fetch (an exhausted fetch raises its 500 through the loop), then
      load into suffix `str(idx + 1)`, turning a load failure into a 500;
      200 once every list is loaded. */
  method RunCohorts(lists: seq<seq<string>>, upstream: Upstream, load: Loader) returns (report: Report)
    ensures report == CohortsFrom(lists, 0, TrendsFetcher(upstream), load, 0)
  {
    ghost var fetch := TrendsFetcher(upstream);
    var done := Report(200, "", [], [], [], 0);
    for idx := 0 to |lists|
      invariant Extend(done, CohortsFrom(lists, idx, fetch, load, done.calls))
                == CohortsFrom(lists, 0, fetch, load, 0)
      invariant done.status == 200 && done.detail == ""
    {
      var kwList := lists[idx];
      var run := FetchTrendsData(kwList, upstream, done.calls);
      assert run == fetch(kwList, done.calls);
      CohortsHalt(lists, idx, fetch, load, done.calls, run);
      if run.result.RetriesExhausted? {
        return Extend(done, Report(500, FetchFailedDetail, [kwList], [], run.sleeps, run.calls));
      }
      var tableId := TableId(DecimalString(idx + 1));
      assert tableId == CohortTable(idx);
      var outcome := load(tableId, run.result.columns);
      if outcome.LoadFailed? {
        return Extend(done, Report(500, LoadFailedPrefix + outcome.message, [kwList], [], run.sleeps, run.calls));
      }
      CohortsAdvance(lists, idx, fetch, load, done, run);
      done := Extend(done, Report(200, "", [kwList], [(tableId, run.result.columns)], run.sleeps, run.calls));
    }
    ExtendNothing(done);
    return done;
  }

  /** `main`: the loop over the four configured keyword lists. */
  method MainEndpoint(upstream: Upstream, load: Loader) returns (report: Report)
    ensures report == CohortsFrom(KwLists, 0, TrendsFetcher(upstream), load, 0)
  {
    report := RunCohorts(KwLists, upstream, load);
  }
}
