/**
 * The dashboard component (frontend/dashboard-react/src/App.jsx): five pieces
 * of state updated by a load cycle of two sub-fetches, the choice between the
 * loading view, the error view and the dashboard, and the pure derivations of
 * card percentages, the chart series and the ranked topic rows.
 */
module Dashboard {
  import opened Wrappers
  import Text

  // ---------------------------------------------------------------------------
  // Payloads
  // ---------------------------------------------------------------------------

  /**
   * The body of `GET /stats/sentiment` as the component keeps it. The
   * component reads it duck-typed, so each field may be missing; the counts
   * are the server's `COUNT(*)` results and hence never negative.
   */
  datatype SentimentStats = SentimentStats(
    positive: Option<nat>,
    neutral: Option<nat>,
    negative: Option<nat>,
    total: Option<nat>)

  /** One element of the body of `GET /stats/topics?limit=10`. */
  datatype TopicEntry = TopicEntry(topic: string, count: nat)

  /** How one sub-fetch settles. */
  datatype FetchOutcome<T> =
    | Fetched(data: T)           // `response.ok` and the body was read
    | HttpFailure(status: nat)   // `!response.ok`: the function throws its own Error
    | Thrown(message: string)    // `fetch` or `response.json()` threw

  const HttpErrorPrefix: string := "HTTP error! status: "

  /** The `err.message` the catch block stores for a failed sub-fetch. */
  function ErrorMessage<T>(o: FetchOutcome<T>): (m: string)
    requires !o.Fetched?
    ensures o.HttpFailure? ==> Text.StartsWith(m, HttpErrorPrefix) && |m| > |HttpErrorPrefix|
    ensures o.Thrown? ==> m == o.message
  {
    if o.HttpFailure? then HttpErrorPrefix + Text.NatToDecimal(o.status) else o.message
  }

  /** An HTTP failure's message names the status code, readably. */
  lemma HttpErrorNamesStatus<T>(status: nat)
    ensures var o: FetchOutcome<T> := HttpFailure(status);
      var m := ErrorMessage(o);
      && Text.StartsWith(m, HttpErrorPrefix)
      && (forall i :: |HttpErrorPrefix| <= i < |m| ==> Text.IsDigit(m[i]))
      && Text.DecimalValue(m[|HttpErrorPrefix|..]) == status
  {
    var o: FetchOutcome<T> := HttpFailure(status);
    var m := ErrorMessage(o);
    assert m[|HttpErrorPrefix|..] == Text.NatToDecimal(status);
    Text.DecimalRoundTrip(status);
  }

  // ---------------------------------------------------------------------------
  // Derived metrics
  // ---------------------------------------------------------------------------

  datatype Category = Positive | Neutral | Negative

  function CountOf(s: SentimentStats, c: Category): Option<nat> {
    match c
    case Positive => s.positive
    case Neutral => s.neutral
    case Negative => s.negative
  }

  /** JavaScript's `x || 0` on a count that may be missing. */
  function OrZero(o: Option<nat>): (n: nat)
    ensures o.Some? ==> n == o.value
    ensures o.None? ==> n == 0
  {
    if o.Some? then o.value else 0
  }

  /**
   * `(part / total * 100).toFixed(1)` computed on exact rationals, in tenths
   * of a percent, with half-way cases rounded up.
   */
  function PercentTenths(part: nat, total: nat): (t: nat)
    requires total > 0
    ensures 2 * total * t <= 2000 * part + total < 2 * total * t + 2 * total
    ensures part <= total ==> t <= 1000
  {
    var n := 2000 * part + total;
    var d := 2 * total;
    DivBounds(n, d);
    DivAtMost(n, d, 1000);
    n / d
  }

  lemma DivBounds(n: nat, d: nat)
    requires d > 0
    ensures d * (n / d) <= n < d * (n / d) + d
  {
  }

  lemma MulMonotonic(d: nat, a: nat, b: nat)
    requires a <= b
    ensures d * a <= d * b
  {
  }

  /** The quotient is the one `q` with `d * q <= n < d * (q + 1)`. */
  lemma DivUnique(n: nat, d: nat, q: nat)
    requires d > 0 && d * q <= n < d * q + d
    ensures n / d == q
  {
    DivBounds(n, d);
    if n / d < q {
      MulMonotonic(d, n / d + 1, q);
    } else if n / d > q {
      MulMonotonic(d, q + 1, n / d);
    }
  }

  lemma DivAtMost(n: nat, d: nat, k: nat)
    requires d > 0
    ensures n < d * (k + 1) ==> n / d <= k
  {
    DivBounds(n, d);
    if n / d > k {
      MulMonotonic(d, k + 1, n / d);
    }
  }

  /** The share of nothing is 0.0% and of everything is 100.0%. */
  lemma PercentEnds(total: nat)
    requires total > 0
    ensures PercentTenths(0, total) == 0 && PercentTenths(total, total) == 1000
  {
    DivUnique(total, 2 * total, 0);
    DivUnique(2000 * total + total, 2 * total, 1000);
  }

  /** A larger part never shows a smaller percentage. */
  lemma PercentMonotonic(a: nat, b: nat, total: nat)
    requires total > 0 && a <= b
    ensures PercentTenths(a, total) <= PercentTenths(b, total)
  {
    var ta, tb := PercentTenths(a, total), PercentTenths(b, total);
    if ta > tb {
      MulMonotonic(2 * total, tb + 1, ta);
    }
  }

  /** What a percentage cell shows. */
  datatype PercentLabel =
    | ZeroPercent           // the `'0%'` / `0` branch taken when `total > 0` fails
    | Fixed(tenths: nat)    // `toFixed(1)` of a computed share
    | NotANumber            // `undefined / total`: the count is missing

  function RenderPercent(l: PercentLabel): (r: string)
    ensures Text.EndsWith(r, "%")
  {
    match l
    case ZeroPercent => "0%"
    case Fixed(t) => Text.NatToDecimal(t / 10) + "." + [Text.DigitChar(t % 10)] + "%"
    case NotANumber => "NaN%"
  }

  /**
   * A computed share reads back: digits, a point, one digit and `%`, and the
   * digits around the point make up the tenths that were rendered.
   */
  lemma RenderFixedReadsBack(t: nat)
    ensures var r := RenderPercent(Fixed(t));
      && |r| >= 4
      && r[|r| - 3] == '.' && r[|r| - 1] == '%'
      && Text.IsDigit(r[|r| - 2])
      && (forall i :: 0 <= i < |r| - 3 ==> Text.IsDigit(r[i]))
      && 10 * Text.DecimalValue(r[..|r| - 3]) + (r[|r| - 2] as int - 48) == t
  {
    var r := RenderPercent(Fixed(t));
    var whole := Text.NatToDecimal(t / 10);
    assert r == whole + "." + [Text.DigitChar(t % 10)] + "%";
    assert r[..|r| - 3] == whole;
    Text.DecimalRoundTrip(t / 10);
  }

  /** `sentimentStats?.total > 0`. */
  predicate HasTotal(stats: Option<SentimentStats>): (b: bool)
    ensures b ==> stats.Some? && stats.value.total.Some?
    ensures stats.Some? && stats.value.total == Some(0) ==> !b
  {
    stats.Some? && stats.value.total.Some? && stats.value.total.value > 0
  }

  /** The percentage under the Positive and Negative cards. */
  function CardPercent(stats: Option<SentimentStats>, c: Category): (l: PercentLabel)
    ensures !HasTotal(stats) <==> l == ZeroPercent
    ensures HasTotal(stats) && CountOf(stats.value, c).None? <==> l == NotANumber
    ensures l.Fixed? ==>
      && CountOf(stats.value, c).Some?
      && l.tenths == PercentTenths(CountOf(stats.value, c).value, stats.value.total.value)
    ensures l.Fixed? && CountOf(stats.value, c).value <= stats.value.total.value ==> l.tenths <= 1000
  {
    if !HasTotal(stats) then ZeroPercent
    else
      var part := CountOf(stats.value, c);
      if part.None? then NotANumber else Fixed(PercentTenths(part.value, stats.value.total.value))
  }

  /** The share of one topic row: its count against the number of reviews, never against the other topics. */
  function TopicShare(count: nat, stats: Option<SentimentStats>): (l: PercentLabel)
    ensures l != NotANumber
    ensures l == ZeroPercent <==> !HasTotal(stats)
    ensures l.Fixed? ==> l.tenths == PercentTenths(count, stats.value.total.value)
  {
    if HasTotal(stats) then Fixed(PercentTenths(count, stats.value.total.value)) else ZeroPercent
  }

  datatype TopicRow = TopicRow(rank: nat, topic: string, count: nat, share: PercentLabel)

  function RowsFrom(topics: seq<TopicEntry>, before: nat, stats: Option<SentimentStats>): (rows: seq<TopicRow>)
    ensures |rows| == |topics|
    ensures forall i :: 0 <= i < |topics| ==>
      rows[i] == TopicRow(before + i + 1, topics[i].topic, topics[i].count, TopicShare(topics[i].count, stats))
    decreases |topics|
  {
    if topics == [] then []
    else
      [TopicRow(before + 1, topics[0].topic, topics[0].count, TopicShare(topics[0].count, stats))]
        + RowsFrom(topics[1..], before + 1, stats)
  }

  /** `topicStats.map((topic, index) => ...)`: one row per topic, ranked by position, never re-sorted. */
  function TopicRows(topics: seq<TopicEntry>, stats: Option<SentimentStats>): (rows: seq<TopicRow>)
    ensures |rows| == |topics|
    ensures forall i :: 0 <= i < |topics| ==>
      && rows[i].rank == i + 1
      && rows[i].topic == topics[i].topic
      && rows[i].count == topics[i].count
      && rows[i].share == TopicShare(topics[i].count, stats)
  {
    RowsFrom(topics, 0, stats)
  }

  /** The Top Topics panel: the table, or "No topic data available". */
  datatype TopicPanel = NoTopicData | TopicTable(rows: seq<TopicRow>)

  function TopicsPanel(topics: Option<seq<TopicEntry>>, stats: Option<SentimentStats>): (p: TopicPanel)
    ensures p == NoTopicData <==> topics.None? || topics.value == []
    ensures p.TopicTable? ==> p.rows == TopicRows(topics.value, stats) && |p.rows| > 0
  {
    if topics.Some? && |topics.value| > 0 then TopicTable(TopicRows(topics.value, stats)) else NoTopicData
  }

  /** The `chartData` object handed to the bar chart. */
  datatype ChartSeries = ChartSeries(
    labels: seq<string>,
    datasetLabel: string,
    values: seq<nat>,
    fill: seq<string>,
    border: seq<string>,
    borderWidth: nat)

  const ChartOrder: seq<Category> := [Positive, Neutral, Negative]

  function CategoryLabel(c: Category): string {
    match c
    case Positive => "Positive"
    case Neutral => "Neutral"
    case Negative => "Negative"
  }

  /** Green, blue, red. */
  function CategoryFill(c: Category): string {
    match c
    case Positive => "rgba(34, 197, 94, 0.8)"
    case Neutral => "rgba(59, 130, 246, 0.8)"
    case Negative => "rgba(239, 68, 68, 0.8)"
  }

  function CategoryBorder(c: Category): string {
    match c
    case Positive => "rgb(34, 197, 94)"
    case Neutral => "rgb(59, 130, 246)"
    case Negative => "rgb(239, 68, 68)"
  }

  /** Absent without sentiment data; otherwise three bars whose label, value and colours agree by position. */
  function Chart(stats: Option<SentimentStats>): (r: Option<ChartSeries>)
    ensures r.None? <==> stats.None?
    ensures r.Some? ==>
      && |r.value.labels| == |r.value.values| == |r.value.fill| == |r.value.border| == |ChartOrder|
      && forall i :: 0 <= i < |ChartOrder| ==>
        && r.value.labels[i] == CategoryLabel(ChartOrder[i])
        && r.value.values[i] == OrZero(CountOf(stats.value, ChartOrder[i]))
        && r.value.fill[i] == CategoryFill(ChartOrder[i])
        && r.value.border[i] == CategoryBorder(ChartOrder[i])
  {
    if stats.None? then None
    else
      var s := stats.value;
      Some(ChartSeries(
        ["Positive", "Neutral", "Negative"],
        "Number of Reviews",
        [OrZero(s.positive), OrZero(s.neutral), OrZero(s.negative)],
        ["rgba(34, 197, 94, 0.8)", "rgba(59, 130, 246, 0.8)", "rgba(239, 68, 68, 0.8)"],
        ["rgb(34, 197, 94)", "rgb(59, 130, 246)", "rgb(239, 68, 68)"],
        2))
  }

  // ---------------------------------------------------------------------------
  // Component state and the views chosen from it
  // ---------------------------------------------------------------------------

  /** A snapshot of the five `useState` slots; `lastUpdate` is an abstract timestamp. */
  datatype DashState = DashState(
    sentiment: Option<SentimentStats>,
    topics: Option<seq<TopicEntry>>,
    loading: bool,
    error: Option<string>,
    lastUpdate: Option<nat>)

  datatype View = LoadingView | ErrorView(message: string) | DashboardView

  /** JavaScript truthiness of the `error` slot: `null` and `""` are both false. */
  predicate ErrorShown(e: Option<string>): (shown: bool)
    ensures shown ==> e.Some?
    ensures e == Some("") ==> !shown
  {
    e.Some? && e.value != ""
  }

  /** The two early returns of the component, in order, then the dashboard. */
  function SelectView(s: DashState): (v: View)
    ensures v == LoadingView <==> s.loading && s.sentiment.None?
    ensures v.ErrorView? <==> !s.loading && s.sentiment.None? && ErrorShown(s.error)
    ensures v.ErrorView? ==> v.message == s.error.value
    ensures v == DashboardView <==> s.sentiment.Some? || (!s.loading && !ErrorShown(s.error))
  {
    if s.loading && s.sentiment.None? then LoadingView
    else if ErrorShown(s.error) && s.sentiment.None? then ErrorView(s.error.value)
    else DashboardView
  }

  /** A freshly mounted component: nothing loaded, nothing failed, loading. */
  function Mounted(): (s: DashState)
    ensures s.sentiment.None? && s.topics.None? && s.error.None? && s.lastUpdate.None? && s.loading
    ensures SelectView(s) == LoadingView
    ensures Chart(s.sentiment).None? && TopicsPanel(s.topics, s.sentiment) == NoTopicData
  {
    DashState(None, None, true, None, None)
  }

  /** `setLoading(true); setError(null)`. */
  function Started(s: DashState): (r: DashState)
    ensures r.loading && r.error.None?
    ensures r.sentiment == s.sentiment && r.topics == s.topics && r.lastUpdate == s.lastUpdate
  {
    s.(loading := true, error := None)
  }

  /** `fetchSentimentStats` settling: success replaces the slice, failure only overwrites `error`. */
  function WithSentiment(s: DashState, o: FetchOutcome<SentimentStats>): (r: DashState)
    ensures r.topics == s.topics && r.loading == s.loading && r.lastUpdate == s.lastUpdate
    ensures o.Fetched? ==> r.sentiment == Some(o.data) && r.error == s.error
    ensures !o.Fetched? ==> r.sentiment == s.sentiment && r.error == Some(ErrorMessage(o))
  {
    if o.Fetched? then s.(sentiment := Some(o.data)) else s.(error := Some(ErrorMessage(o)))
  }

  /** `fetchTopicStats` settling: success replaces the slice, failure only overwrites `error`. */
  function WithTopics(s: DashState, o: FetchOutcome<seq<TopicEntry>>): (r: DashState)
    ensures r.sentiment == s.sentiment && r.loading == s.loading && r.lastUpdate == s.lastUpdate
    ensures o.Fetched? ==> r.topics == Some(o.data) && r.error == s.error
    ensures !o.Fetched? ==> r.topics == s.topics && r.error == Some(ErrorMessage(o))
  {
    if o.Fetched? then s.(topics := Some(o.data)) else s.(error := Some(ErrorMessage(o)))
  }

  /** `setLoading(false); setLastUpdate(new Date())`. */
  function Finished(s: DashState, now: nat): (r: DashState)
    ensures !r.loading && r.lastUpdate == Some(now)
    ensures r.sentiment == s.sentiment && r.topics == s.topics && r.error == s.error
  {
    s.(loading := false, lastUpdate := Some(now))
  }

  /** Which of the two sub-fetches of `Promise.all` settles first. */
  datatype SettleOrder = SentimentFirst | TopicsFirst

  /**
   * One whole `loadData` cycle. Whatever the sub-fetches do, it ends not
   * loading and stamped; each slice is replaced only by its own success; the
   * error is that of the failing sub-fetch, or of the later one when both fail.
   */
  function AfterCycle(
    s: DashState, order: SettleOrder,
    so: FetchOutcome<SentimentStats>, to: FetchOutcome<seq<TopicEntry>>, now: nat): (r: DashState)
    ensures !r.loading && r.lastUpdate == Some(now)
    ensures r.sentiment == (if so.Fetched? then Some(so.data) else s.sentiment)
    ensures r.topics == (if to.Fetched? then Some(to.data) else s.topics)
    ensures so.Fetched? && to.Fetched? ==> r.error.None?
    ensures !so.Fetched? && to.Fetched? ==> r.error == Some(ErrorMessage(so))
    ensures so.Fetched? && !to.Fetched? ==> r.error == Some(ErrorMessage(to))
    ensures !so.Fetched? && !to.Fetched? ==>
      r.error == Some(if order == SentimentFirst then ErrorMessage(to) else ErrorMessage(so))
  {
    var begun := Started(s);
    var settled :=
      if order == SentimentFirst then WithTopics(WithSentiment(begun, so), to)
      else WithSentiment(WithTopics(begun, to), so);
    Finished(settled, now)
  }

  // ---------------------------------------------------------------------------
  // Arbitrary sequences of steps
  // ---------------------------------------------------------------------------

  /** One step of the component's life, as `loadData` performs it. */
  datatype Event =
    | CycleBegun
    | SentimentSettled(sentimentOutcome: FetchOutcome<SentimentStats>)
    | TopicsSettled(topicsOutcome: FetchOutcome<seq<TopicEntry>>)
    | CycleEnded(at: nat)

  function Apply(s: DashState, e: Event): DashState {
    match e
    case CycleBegun => Started(s)
    case SentimentSettled(o) => WithSentiment(s, o)
    case TopicsSettled(o) => WithTopics(s, o)
    case CycleEnded(now) => Finished(s, now)
  }

  function Run(s: DashState, events: seq<Event>): DashState
    decreases |events|
  {
    if events == [] then s else Run(Apply(s, events[0]), events[1..])
  }

  function CycleEvents(
    order: SettleOrder, so: FetchOutcome<SentimentStats>, to: FetchOutcome<seq<TopicEntry>>, now: nat): seq<Event>
  {
    if order == SentimentFirst then [CycleBegun, SentimentSettled(so), TopicsSettled(to), CycleEnded(now)]
    else [CycleBegun, TopicsSettled(to), SentimentSettled(so), CycleEnded(now)]
  }

  /** A load cycle is exactly its four steps run in settling order. */
  lemma CycleIsItsSteps(
    s: DashState, order: SettleOrder,
    so: FetchOutcome<SentimentStats>, to: FetchOutcome<seq<TopicEntry>>, now: nat)
    ensures AfterCycle(s, order, so, to, now) == Run(s, CycleEvents(order, so, to, now))
  {
    var es := CycleEvents(order, so, to, now);
    var s1 := Apply(s, es[0]);
    var s2 := Apply(s1, es[1]);
    var s3 := Apply(s2, es[2]);
    var s4 := Apply(s3, es[3]);
    assert es[1..][1..][1..][1..] == [];
    calc {
      Run(s, es);
      Run(s1, es[1..]);
      Run(s2, es[1..][1..]);
      Run(s3, es[1..][1..][1..]);
      Run(s4, es[1..][1..][1..][1..]);
      s4;
    }
  }

  /** Once sentiment data is held, no later step, failure or reload hides the dashboard. */
  lemma {:induction false} DashboardNeverHidden(s: DashState, events: seq<Event>)
    requires s.sentiment.Some?
    ensures Run(s, events).sentiment.Some?
    ensures SelectView(Run(s, events)) == DashboardView
    decreases |events|
  {
    if events != [] {
      DashboardNeverHidden(Apply(s, events[0]), events[1..]);
    }
  }

  predicate LoadsSentiment(e: Event) {
    e.SentimentSettled? && e.sentimentOutcome.Fetched?
  }

  predicate LoadsTopics(e: Event) {
    e.TopicsSettled? && e.topicsOutcome.Fetched?
  }

  /** Stale data is kept: without a successful sentiment fetch the sentiment slice keeps its last good value. */
  lemma {:induction false} FailuresKeepSentiment(s: DashState, events: seq<Event>)
    requires forall i :: 0 <= i < |events| ==> !LoadsSentiment(events[i])
    ensures Run(s, events).sentiment == s.sentiment
    decreases |events|
  {
    if events != [] {
      assert !LoadsSentiment(events[0]);
      FailuresKeepSentiment(Apply(s, events[0]), events[1..]);
    }
  }

  /** Stale data is kept: without a successful topics fetch the topic slice keeps its last good value. */
  lemma {:induction false} FailuresKeepTopics(s: DashState, events: seq<Event>)
    requires forall i :: 0 <= i < |events| ==> !LoadsTopics(events[i])
    ensures Run(s, events).topics == s.topics
    decreases |events|
  {
    if events != [] {
      assert !LoadsTopics(events[0]);
      FailuresKeepTopics(Apply(s, events[0]), events[1..]);
    }
  }

  /** One good first cycle from a fresh component, and what the dashboard then shows. */
  lemma FirstCycleExample()
    ensures var s := AfterCycle(Mounted(), SentimentFirst,
        Fetched(SentimentStats(Some(6), Some(3), Some(1), Some(10))),
        Fetched([TopicEntry("pricing", 4)]), 1);
      && SelectView(s) == DashboardView
      && CardPercent(s.sentiment, Positive) == Fixed(600)
      && CardPercent(s.sentiment, Negative) == Fixed(100)
      && RenderPercent(Fixed(600)) == "60.0%"
      && TopicsPanel(s.topics, s.sentiment) == TopicTable([TopicRow(1, "pricing", 4, Fixed(400))])
  {
    var s := AfterCycle(Mounted(), SentimentFirst,
        Fetched(SentimentStats(Some(6), Some(3), Some(1), Some(10))),
        Fetched([TopicEntry("pricing", 4)]), 1);
    assert PercentTenths(6, 10) == 600;
    assert PercentTenths(1, 10) == 100;
    assert PercentTenths(4, 10) == 400;
    assert Text.NatToDecimal(60) == "60";
    var rows := TopicRows([TopicEntry("pricing", 4)], s.sentiment);
    assert rows == [TopicRow(1, "pricing", 4, Fixed(400))];
  }

  /** One review in three shows as 33.3%. */
  lemma OneThirdExample()
    ensures PercentTenths(1, 3) == 333
    ensures RenderPercent(Fixed(PercentTenths(1, 3))) == "33.3%"
  {
    DivUnique(2003, 6, 333);
    assert Text.NatToDecimal(33) == "33";
  }

  /** Topic shares are not normalised: two topics tagging 40 of 100 reviews each show 40.0% and 40.0%. */
  lemma SharesNotNormalised()
    ensures var stats := Some(SentimentStats(Some(60), Some(20), Some(20), Some(100)));
      TopicRows([TopicEntry("a", 40), TopicEntry("b", 40)], stats)
        == [TopicRow(1, "a", 40, Fixed(400)), TopicRow(2, "b", 40, Fixed(400))]
  {
    assert PercentTenths(40, 100) == 400;
  }

  // ---------------------------------------------------------------------------
  // The component itself
  // ---------------------------------------------------------------------------

  /** The `App` component's state, updated step by step by the load cycle. */
  class DashboardComponent {
    var sentimentStats: Option<SentimentStats>
    var topicStats: Option<seq<TopicEntry>>
    var loading: bool
    var error: Option<string>
    var lastUpdate: Option<nat>

    function State(): DashState
      reads this
    {
      DashState(sentimentStats, topicStats, loading, error, lastUpdate)
    }

    constructor ()
      ensures State() == Mounted()
    {
      sentimentStats := None;
      topicStats := None;
      loading := true;
      error := None;
      lastUpdate := None;
    }

    method BeginCycle()
      modifies this
      ensures State() == Started(old(State()))
    {
      loading := true;
      error := None;
    }

    /** The body of `fetchSentimentStats` once its request has settled. */
    method SettleSentiment(o: FetchOutcome<SentimentStats>)
      modifies this
      ensures State() == WithSentiment(old(State()), o)
    {
      match o {
        case Fetched(data) =>
          sentimentStats := Some(data);
        case _ =>
          error := Some(ErrorMessage(o));
      }
    }

    /** The body of `fetchTopicStats` once its request has settled. */
    method SettleTopics(o: FetchOutcome<seq<TopicEntry>>)
      modifies this
      ensures State() == WithTopics(old(State()), o)
    {
      match o {
        case Fetched(data) =>
          topicStats := Some(data);
        case _ =>
          error := Some(ErrorMessage(o));
      }
    }

    method EndCycle(now: nat)
      modifies this
      ensures State() == Finished(old(State()), now)
    {
      loading := false;
      lastUpdate := Some(now);
    }

    /** `loadData`, with the settling order of the two sub-fetches as a parameter. */
    method LoadData(
      order: SettleOrder, so: FetchOutcome<SentimentStats>, to: FetchOutcome<seq<TopicEntry>>, now: nat)
      modifies this
      ensures State() == AfterCycle(old(State()), order, so, to, now)
      ensures !loading && lastUpdate == Some(now)
    {
      BeginCycle();
      if order == SentimentFirst {
        SettleSentiment(so);
        SettleTopics(to);
      } else {
        SettleTopics(to);
        SettleSentiment(so);
      }
      EndCycle(now);
    }
  }
}
