/**
 * The statistics service (backend/stats-service/main.py): the fold of the
 * `GROUP BY sentiment` rows into four counters, its error fallback, the
 * formatting of the topic rows and the summary that combines both. The SQL
 * itself is not modelled: each query is an outcome handed in.
 */
module Stats {
  import opened Wrappers
  import TopicCounts

  // ---------------------------------------------------------------------------
  // Sentiment counters
  // ---------------------------------------------------------------------------

  const Positive: string := "positive"
  const Neutral: string := "neutral"
  const Negative: string := "negative"
  const Total: string := "total"

  /** The keys of the stats dict: the three labels and `total`. */
  const CounterKeys: set<string> := {Positive, Neutral, Negative, Total}

  /** The stats dict before any row is read: every counter at 0. */
  const ZeroCounters: map<string, nat> := map[Positive := 0, Neutral := 0, Negative := 0, Total := 0]

  /** One row of `SELECT sentiment, COUNT(*) ... GROUP BY sentiment`; a NULL sentiment is `None`. */
  datatype SentimentRow = SentimentRow(sentiment: Option<string>, count: nat)

  /** A row whose label is a key of the stats dict (`sentiment in stats`). */
  predicate Known(row: SentimentRow) {
    row.sentiment.Some? && row.sentiment.value in CounterKeys
  }

  /**
   * One turn of the loop: a known label has its counter overwritten with
   * the row's count, and then `total` grows by that count (read after the
   * overwrite, which matters when the label is `total` itself).
   */
  function Step(m: map<string, nat>, row: SentimentRow): (r: map<string, nat>)
    requires m.Keys == CounterKeys
    ensures r.Keys == CounterKeys
  {
    if Known(row) then
      var written := m[row.sentiment.value := row.count];
      written[Total := written[Total] + row.count]
    else
      m
  }

  /** The stats dict after the rows, in order. */
  function Fold(rows: seq<SentimentRow>): (m: map<string, nat>)
    ensures m.Keys == CounterKeys
    decreases |rows|
  {
    if rows == [] then ZeroCounters else Step(Fold(rows[..|rows| - 1]), rows[|rows| - 1])
  }

  /** The loop of `get_sentiment_stats` over the fetched rows. */
  method CountSentiments(rows: seq<SentimentRow>) returns (stats: map<string, nat>)
    ensures stats == Fold(rows)
  {
    stats := ZeroCounters;
    for i := 0 to |rows|
      invariant stats == Fold(rows[..i])
    {
      var row := rows[i];
      assert rows[..i + 1][..i] == rows[..i];
      if row.sentiment.Some? && row.sentiment.value in stats {
        stats := stats[row.sentiment.value := row.count];
        stats := stats[Total := stats[Total] + row.count];
      }
    }
    assert rows[..|rows|] == rows;
  }

  /**
   * What one row does: a label other than `total` has its counter set to
   * the row's count and adds the count to `total`; a `total` row leaves
   * twice its count in `total`; any other row changes nothing. Every other
   * counter is kept.
   */
  lemma StepEffect(m: map<string, nat>, row: SentimentRow)
    requires m.Keys == CounterKeys
    ensures var r := Step(m, row);
      && (Known(row) && row.sentiment.value != Total ==>
            r[row.sentiment.value] == row.count && r[Total] == m[Total] + row.count)
      && (Known(row) && row.sentiment.value == Total ==> r[Total] == 2 * row.count)
      && (!Known(row) ==> r == m)
      && (forall k :: k in CounterKeys && k != Total && (row.sentiment != Some(k)) ==> r[k] == m[k])
  {
  }

  /** The count of the last row labelled `name`, or 0 when there is none. */
  function LastCount(rows: seq<SentimentRow>, name: string): nat
    decreases |rows|
  {
    if rows == [] then 0
    else if rows[|rows| - 1].sentiment == Some(name) then rows[|rows| - 1].count
    else LastCount(rows[..|rows| - 1], name)
  }

  /** The sum of the counts of all rows with a known label. */
  function KnownSum(rows: seq<SentimentRow>): nat
    decreases |rows|
  {
    if rows == [] then 0
    else KnownSum(rows[..|rows| - 1]) + (if Known(rows[|rows| - 1]) then rows[|rows| - 1].count else 0)
  }

  /**
   * Without a row labelled `total`, each label's counter holds the count of
   * its last row (a repeated label keeps only its last count), while `total`
   * adds up every known row, repeated labels included.
   */
  lemma {:induction false} FoldWithoutTotalRow(rows: seq<SentimentRow>)
    requires forall i :: 0 <= i < |rows| ==> rows[i].sentiment != Some(Total)
    ensures var m := Fold(rows);
      && m[Total] == KnownSum(rows)
      && m[Positive] == LastCount(rows, Positive)
      && m[Neutral] == LastCount(rows, Neutral)
      && m[Negative] == LastCount(rows, Negative)
    decreases |rows|
  {
    if rows != [] {
      FoldWithoutTotalRow(rows[..|rows| - 1]);
    }
  }

  lemma {:induction false} LastCountAbsent(rows: seq<SentimentRow>, name: string)
    requires forall i :: 0 <= i < |rows| ==> rows[i].sentiment != Some(name)
    ensures LastCount(rows, name) == 0
    decreases |rows|
  {
    if rows != [] {
      LastCountAbsent(rows[..|rows| - 1], name);
    }
  }

  /** Rows with distinct labels, each one of positive, neutral and negative: what `GROUP BY` over those labels returns. */
  predicate DistinctSentimentLabels(rows: seq<SentimentRow>) {
    && (forall i :: 0 <= i < |rows| ==> rows[i].sentiment in {Some(Positive), Some(Neutral), Some(Negative)})
    && (forall i, j :: 0 <= i < j < |rows| ==> rows[i].sentiment != rows[j].sentiment)
  }

  /** With distinct labels among the three, `total` is the sum of the three counters. */
  lemma {:induction false} TotalIsSumOfLabels(rows: seq<SentimentRow>)
    requires DistinctSentimentLabels(rows)
    ensures var m := Fold(rows); m[Total] == m[Positive] + m[Neutral] + m[Negative]
    decreases |rows|
  {
    FoldWithoutTotalRow(rows);
    if rows != [] {
      var prefix := rows[..|rows| - 1];
      var last := rows[|rows| - 1];
      assert DistinctSentimentLabels(prefix);
      TotalIsSumOfLabels(prefix);
      FoldWithoutTotalRow(prefix);
      forall i | 0 <= i < |prefix| ensures prefix[i].sentiment != last.sentiment {
        assert prefix[i] == rows[i];
      }
      LastCountAbsent(prefix, last.sentiment.value);
    }
  }

  /** A `total` row doubles: after positive 2 and total 5, `total` is 10. */
  lemma TotalRowExample()
    ensures var m := Fold([SentimentRow(Some(Positive), 2), SentimentRow(Some(Total), 5)]);
      m[Positive] == 2 && m[Total] == 10
  {
    var rows := [SentimentRow(Some(Positive), 2), SentimentRow(Some(Total), 5)];
    assert rows[..1][..0] == [];
  }

  /** The endpoint's answer: the counters, plus the error message when the query failed. */
  datatype SentimentStats = SentimentStats(counters: map<string, nat>, error: Option<string>)

  /**
   * How a query went: opening the connection failed (which happens before
   * the `try` and so propagates), the query raised, or it returned rows.
   */
  datatype QueryOutcome<T> = ConnectionFailed | QueryFailed(message: string) | Rows(rows: seq<T>)

  /**
   * `get_sentiment_stats`: the folded counters, or all four counters at 0
   * with the error message; `None` when the connection cannot be opened.
   */
  method GetSentimentStats(q: QueryOutcome<SentimentRow>) returns (r: Option<SentimentStats>)
    ensures q.ConnectionFailed? <==> r.None?
    ensures q.QueryFailed? ==> r == Some(SentimentStats(ZeroCounters, Some(q.message)))
    ensures q.Rows? ==> r == Some(SentimentStats(Fold(q.rows), None))
    ensures r.Some? ==> r.value.counters.Keys == CounterKeys
  {
    match q {
      case ConnectionFailed => r := None;
      case QueryFailed(message) => r := Some(SentimentStats(ZeroCounters, Some(message)));
      case Rows(rows) =>
        var stats := CountSentiments(rows);
        r := Some(SentimentStats(stats, None));
    }
  }

  // ---------------------------------------------------------------------------
  // Topic rows
  // ---------------------------------------------------------------------------

  /** The `limit` query parameter's default. */
  const DefaultTopicLimit: int := 10

  /** The limit the summary asks for. */
  const SummaryTopicLimit: int := 5

  /** One `(topic, count)` row of the topic query, already grouped, ordered and limited by the database. */
  datatype TopicRow = TopicRow(topic: string, count: nat)

  /** The list comprehension: one `{topic, count}` record per row, in row order. */
  function FormatTopics(rows: seq<TopicRow>): (r: seq<TopicCounts.TopicCount>)
    ensures |r| == |rows|
    ensures forall i :: 0 <= i < |rows| ==> r[i].topic == rows[i].topic && r[i].count == rows[i].count
  {
    seq(|rows|, i requires 0 <= i < |rows| => TopicCounts.TopicCount(rows[i].topic, rows[i].count))
  }

  /** The records read back as the rows: formatting loses nothing and reorders nothing. */
  lemma FormatTopicsLossless(rows: seq<TopicRow>)
    ensures var r := FormatTopics(rows);
      seq(|r|, i requires 0 <= i < |r| => TopicRow(r[i].topic, r[i].count)) == rows
  {
  }

  /**
   * `get_topic_stats(limit)`: the query runs with the given limit, or 10 when
   * the parameter is absent; a failed query yields `[]`, and a connection
   * failure propagates (`None`).
   */
  method GetTopicStats(limit: Option<int>, run: int -> QueryOutcome<TopicRow>)
    returns (r: Option<seq<TopicCounts.TopicCount>>)
    ensures var q := run(limit.GetOr(DefaultTopicLimit));
      && (q.ConnectionFailed? <==> r.None?)
      && (q.QueryFailed? ==> r == Some([]))
      && (q.Rows? ==> r == Some(FormatTopics(q.rows)))
  {
    var effective := limit.GetOr(DefaultTopicLimit);
    match run(effective) {
      case ConnectionFailed => r := None;
      case QueryFailed(_) => r := Some([]);
      case Rows(rows) => r := Some(FormatTopics(rows));
    }
  }

  // ---------------------------------------------------------------------------
  // Summary
  // ---------------------------------------------------------------------------

  datatype Summary = Summary(
    totalReviews: nat,
    sentiment: SentimentStats,
    topTopics: seq<TopicCounts.TopicCount>,
    timestamp: string)

  /** `dict.get("total", 0)`. */
  function TotalOrZero(counters: map<string, nat>): (n: nat)
    ensures Total in counters ==> n == counters[Total]
    ensures Total !in counters ==> n == 0
  {
    if Total in counters then counters[Total] else 0
  }

  /**
   * `get_summary`: the sentiment record embedded unchanged, its `total` as
   * `total_reviews`, the top five topics and the clock's reading; `None`
   * when either connection cannot be opened.
   */
  method GetSummary(sentimentQuery: QueryOutcome<SentimentRow>, run: int -> QueryOutcome<TopicRow>, now: string)
    returns (r: Option<Summary>)
    ensures r.None? <==> sentimentQuery.ConnectionFailed? || run(SummaryTopicLimit).ConnectionFailed?
    ensures r.Some? ==>
      && r.value.sentiment.counters.Keys == CounterKeys
      && r.value.totalReviews == r.value.sentiment.counters[Total]
      && (sentimentQuery.Rows? ==> r.value.sentiment == SentimentStats(Fold(sentimentQuery.rows), None))
      && (sentimentQuery.QueryFailed? ==>
            r.value.sentiment == SentimentStats(ZeroCounters, Some(sentimentQuery.message)) && r.value.totalReviews == 0)
      && (run(SummaryTopicLimit).Rows? ==> r.value.topTopics == FormatTopics(run(SummaryTopicLimit).rows))
      && (run(SummaryTopicLimit).QueryFailed? ==> r.value.topTopics == [])
      && r.value.timestamp == now
  {
    var sentiment := GetSentimentStats(sentimentQuery);
    if sentiment.None? {
      return None;
    }
    var topics := GetTopicStats(Some(SummaryTopicLimit), run);
    if topics.None? {
      return None;
    }
    r := Some(Summary(TotalOrZero(sentiment.value.counters), sentiment.value, topics.value, now));
  }

  /** With distinct labels among the three, the summary's review total is the sum of the three counters. */
  lemma SummaryTotalAddsUp(rows: seq<SentimentRow>)
    requires DistinctSentimentLabels(rows)
    ensures var m := Fold(rows); TotalOrZero(m) == m[Positive] + m[Neutral] + m[Negative]
  {
    TotalIsSumOfLabels(rows);
  }
}
