/** `fetch_trends_data`: up to ten attempts against the trends service,
    with a linearly growing sleep after every failed attempt. A frame is
    modelled by its column names only. */
module TrendsFetch {
  import opened Outcomes
  import ColumnNames

  const MaxRetries: nat := 10
  const BackoffFactor: nat := 60
  const IngestionColumn := "ingestion_timestamp"

  /** What one attempt's calls into the trends service produced: some
      exception, or a frame with these column names. */
  datatype Attempt = Raised | Frame(columns: seq<string>)

  /** The trends service: `upstream(kwList, n)` is the outcome of the n-th
      attempt this process makes, for the keyword list it asked about. */
  type Upstream = (seq<string>, nat) -> Attempt

  /** Either the prepared frame's columns, or the 500 raised once every
      attempt has failed. */
  datatype FetchResult = Fetched(columns: seq<string>) | RetriesExhausted

  /** One run of the fetch: its result, the sleeps it made (in seconds, in
      order) and the number of attempts it made. */
  datatype RetryRun = RetryRun(result: FetchResult, sleeps: seq<nat>, calls: nat)

  /** `backoff_factor * ((attempt + 1) * 0.25)`. The product is a whole
      number of seconds, so it is computed exactly. */
  function WaitTime(attempt: nat): (seconds: nat)
    ensures 4 * seconds == BackoffFactor * (attempt + 1)
  {
    var product := BackoffFactor * (attempt + 1);
    assert product == 4 * (15 * (attempt + 1));
    product / 4
  }

  /** The sleeps after the first n failed attempts. */
  function Backoff(n: nat): (delays: seq<nat>)
    ensures |delays| == n
    ensures forall i :: 0 <= i < n ==> delays[i] == 15 * (i + 1)
  {
    seq(n, i requires 0 <= i < n => WaitTime(i))
  }

  function Total(delays: seq<nat>): nat {
    if delays == [] then 0 else Total(delays[..|delays| - 1]) + delays[|delays| - 1]
  }

  /** Each sleep is longer than the one before. */
  lemma BackoffIncreasing(n: nat)
    ensures forall i, j :: 0 <= i < j < n ==> Backoff(n)[i] < Backoff(n)[j]
  {
  }

  lemma {:induction false} BackoffTotal(n: nat)
    ensures 2 * Total(Backoff(n)) == 15 * n * (n + 1)
  {
    if n > 0 {
      var b := Backoff(n);
      assert b[..n - 1] == Backoff(n - 1);
      BackoffTotal(n - 1);
      calc {
        2 * Total(b);
        2 * Total(Backoff(n - 1)) + 2 * b[n - 1];
        15 * (n - 1) * n + 30 * n;
        15 * n * (n + 1);
      }
    }
  }

  /** When every attempt fails the fetch sleeps 15, 30, ..., 150 seconds:
      825 seconds in all. */
  lemma ExhaustedBackoffTotal()
    ensures Backoff(MaxRetries) == [15, 30, 45, 60, 75, 90, 105, 120, 135, 150]
    ensures Total(Backoff(MaxRetries)) == 825
  {
    BackoffTotal(MaxRetries);
  }

  /** The frame's columns once the ingestion-time column is set: assigning
      to a new column appends it, assigning to an existing one keeps the
      order. */
  function WithColumn(columns: seq<string>, name: string): seq<string> {
    if name in columns then columns else columns + [name]
  }

  /** What a successful attempt returns: the ingestion-time column set,
      then every column renamed. The frame keeps the columns in order,
      renamed, with the ingestion-time column added at the end unless it
      was there already; no column name holds a replaced character. */
  function PrepareFrame(columns: seq<string>): (r: seq<string>)
    ensures |r| == |columns| + (if IngestionColumn in columns then 0 else 1)
    ensures IngestionColumn in r
    ensures IngestionColumn !in columns ==> r[|columns|] == IngestionColumn
    ensures forall i :: 0 <= i < |columns| ==> r[i] == ColumnNames.NormalizeColumn(columns[i])
    ensures forall i :: 0 <= i < |r| ==> ColumnNames.IsNormalized(r[i])
  {
    IngestionColumnKept(columns);
    ColumnNames.NormalizedIsFixpoint(IngestionColumn);
    ColumnNames.NormalizeColumns(WithColumn(columns, IngestionColumn))
  }

  /** The renaming leaves the ingestion-time column's name as it is. */
  lemma IngestionColumnKept(columns: seq<string>)
    ensures IngestionColumn in ColumnNames.NormalizeColumns(WithColumn(columns, IngestionColumn))
  {
    var withTime := WithColumn(columns, IngestionColumn);
    var i :| 0 <= i < |withTime| && withTime[i] == IngestionColumn;
    assert ColumnNames.IsNormalized(IngestionColumn);
    ColumnNames.NormalizedIsFixpoint(IngestionColumn);
    assert ColumnNames.NormalizeColumns(withTime)[i] == IngestionColumn;
  }

  /** The outcome of the given attempt of a fetch whose first attempt is the base-th. */
  function AttemptAt(kwList: seq<string>, upstream: Upstream, base: nat, attempt: nat): Attempt {
    upstream(kwList, base + attempt)
  }

  /** The outcomes the ten attempts of a fetch would meet. */
  function AttemptsOf(kwList: seq<string>, upstream: Upstream, base: nat): (attempts: seq<Attempt>)
    ensures |attempts| == MaxRetries
    ensures forall i :: 0 <= i < MaxRetries ==> attempts[i] == AttemptAt(kwList, upstream, base, i)
  {
    seq(MaxRetries, i requires 0 <= i < MaxRetries => AttemptAt(kwList, upstream, base, i))
  }

  /** The position of the first attempt that yields a frame. */
  function FirstFrame(attempts: seq<Attempt>): (k: Option<nat>)
    ensures k.Some? ==>
      && k.value < |attempts| && attempts[k.value].Frame?
      && forall i :: 0 <= i < k.value ==> attempts[i].Raised?
    ensures k.None? ==> forall i :: 0 <= i < |attempts| ==> attempts[i].Raised?
  {
    if attempts == [] then None
    else if attempts[0].Frame? then Some(0)
    else match FirstFrame(attempts[1..])
      case Some(k) => Some(k + 1)
      case None => None
  }

  /** What the retry loop must do, stated without the loop: the first
      attempt that yields a frame ends the fetch, after one sleep per
      earlier attempt; with no such attempt among the ten, ten sleeps and
      the terminal error. */
  function RetrySpec(kwList: seq<string>, upstream: Upstream, base: nat): RetryRun {
    match FirstFrame(AttemptsOf(kwList, upstream, base))
    case Some(k) => RetryRun(Fetched(PrepareFrame(AttemptAt(kwList, upstream, base, k).columns)), Backoff(k), k + 1)
    case None => RetryRun(RetriesExhausted, Backoff(MaxRetries), MaxRetries)
  }

  /** Every fetch makes one to ten attempts, all but the last of which
      failed; it returns the last attempt's prepared frame after one sleep
      per failure, or, when all ten failed, the terminal error after ten
      sleeps. */
  lemma RetrySpecShape(kwList: seq<string>, upstream: Upstream, base: nat)
    ensures var run := RetrySpec(kwList, upstream, base);
      && 1 <= run.calls <= MaxRetries
      && (forall i :: 0 <= i < run.calls - 1 ==> AttemptAt(kwList, upstream, base, i).Raised?)
      && (run.result.Fetched? <==> AttemptAt(kwList, upstream, base, run.calls - 1).Frame?)
      && (run.result.Fetched? ==>
            && run.result.columns == PrepareFrame(AttemptAt(kwList, upstream, base, run.calls - 1).columns)
            && run.sleeps == Backoff(run.calls - 1))
      && (run.result.RetriesExhausted? ==> run.calls == MaxRetries && run.sleeps == Backoff(MaxRetries))
  {
  }

  /** If the first k attempts fail and attempt k + 1 yields a frame, the
      fetch returns that frame after k sleeps of 15, 30, ..., 15 k seconds. */
  lemma SucceedsAfterFailures(kwList: seq<string>, upstream: Upstream, base: nat, k: nat)
    requires k < MaxRetries
    requires forall i :: 0 <= i < k ==> AttemptAt(kwList, upstream, base, i).Raised?
    requires AttemptAt(kwList, upstream, base, k).Frame?
    ensures RetrySpec(kwList, upstream, base)
            == RetryRun(Fetched(PrepareFrame(AttemptAt(kwList, upstream, base, k).columns)), Backoff(k), k + 1)
  {
  }

  /** If every attempt fails there are exactly ten attempts, and ten sleeps
      totalling 825 seconds, the last one after the last failure. */
  lemma ExhaustsAfterTenFailures(kwList: seq<string>, upstream: Upstream, base: nat)
    requires forall i :: 0 <= i < MaxRetries ==> AttemptAt(kwList, upstream, base, i).Raised?
    ensures var run := RetrySpec(kwList, upstream, base);
      && run.result == RetriesExhausted
      && run.calls == MaxRetries
      && |run.sleeps| == MaxRetries
      && Total(run.sleeps) == 825
  {
    ExhaustedBackoffTotal();
  }

  /** `fetch_trends_data`. Every failed attempt is followed by its sleep,
      the last one included; an attempt that yields a frame returns at once. */
  method FetchTrendsData(kwList: seq<string>, upstream: Upstream, base: nat) returns (run: RetryRun)
    ensures run == RetrySpec(kwList, upstream, base)
  {
    var sleeps: seq<nat> := [];
    var calls := 0;
    for attempt := 0 to MaxRetries
      invariant calls == attempt
      invariant sleeps == Backoff(attempt)
      invariant forall i :: 0 <= i < attempt ==> AttemptAt(kwList, upstream, base, i).Raised?
    {
      var outcome := upstream(kwList, base + attempt);
      calls := calls + 1;
      match outcome {
        case Frame(columns) =>
          var data := WithColumn(columns, IngestionColumn);
          data := ColumnNames.NormalizeColumns(data);
          assert AttemptsOf(kwList, upstream, base)[attempt].Frame?;
          return RetryRun(Fetched(data), sleeps, calls);
        case Raised =>
          var waitTime := WaitTime(attempt);
          sleeps := sleeps + [waitTime];
      }
    }
    return RetryRun(RetriesExhausted, sleeps, calls);
  }
}
