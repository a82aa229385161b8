# Review dashboard and analysis services in Dafny

This project models the logic at the heart of a product-review analytics system. The system has three parts:

- **A React dashboard** (`frontend/dashboard-react/src/App.jsx`). It polls two statistics endpoints and keeps five pieces of state (`sentimentStats`, `topicStats`, `loading`, `error`, `lastUpdate`). It picks a view by guard precedence: loading, error, or dashboard. It derives card percentages, a bar-chart series and a ranked topic table.
- **The AI analysis service** (`backend/ai-analysis-service/main.py`). It cleans the language model's markdown-fenced reply before parsing and normalises a parsed sentiment into a label with one-hot `details`. It has keyword fallbacks for sentiment and topics, plus rating-based tags. It stores each review's topics with `','.join` and counts them back into a frequency table sorted by decreasing count.
- **The statistics service** (`backend/stats-service/main.py`). It folds `GROUP BY sentiment` rows into four counters and falls back to zeros plus an error on failure. It formats topic rows and builds a summary from both.

Files:

- `wrappers.dfy` defines `Option`.
- `text.dfy` holds the string operations used by the services: `strip`, `lower`, `startswith`/`endswith`, the substring `in`, `split`/`join`, and integer rendering.
- `seqs.dfy` holds sequence vocabulary: duplicate-freedom, first-appearance dedup, occurrence counts and flattening.
- `dashboard.dfy`, `analysis.dfy`, `topic_counts.dfy` and `stats.dfy` hold one module each for the parts above.

How each part is modelled:

- **Dashboard.** The component is a class whose methods perform the steps of a load cycle: begin, sentiment settled, topics settled, end. Each method is specified by a pure transition on a state snapshot. The order in which the two sub-fetches settle is a parameter.
- **Percentages.** They are exact integer tenths of a percent. A half-way case is rounded up.
- **Loops.** The Python loops that update dicts and lists in place are `while`/`for` loops with invariants. They are proved against recursive specification functions, and the properties of those functions are proved as lemmas.

Notes on what the code does:

- A count card shows `'0%'` when the total is not positive. A topic share shows `0%` in that case.
- The component does not assume the counts are present. A missing category count against a positive total renders `NaN%` (`Dashboard.CardPercent`).
- The statistics service's `total` is not always the sum of the three labels: a row labelled `total` doubles it (`Stats.StepEffect`, `Stats.TotalRowExample`).

## Model

| member | source | states |
|---|---|---|
| Dashboard.ErrorMessage | frontend/dashboard-react/src/App.jsx:69-75 | an HTTP failure's message starts with `HTTP error! status: ` and goes on past it; a thrown error's message is kept as it is |
| Dashboard.HttpErrorNamesStatus | frontend/dashboard-react/src/App.jsx:69-70 | an HTTP failure's message is `HTTP error! status: ` followed by decimal digits that read back as the status code |
| Dashboard.PercentTenths | frontend/dashboard-react/src/App.jsx:292-294 | the result is the nearest tenth of a percent to part/total·100, half-way cases rounded up; at most 100.0 when part ≤ total |
| Dashboard.PercentEnds | frontend/dashboard-react/src/App.jsx:292-294 | a part of 0 shows 0.0 and a part equal to the total shows 100.0 |
| Dashboard.PercentMonotonic | frontend/dashboard-react/src/App.jsx:292-294 | a larger part never shows a smaller percentage against the same total |
| Dashboard.OneThirdExample | frontend/dashboard-react/src/App.jsx:292-294 | 1 of 3 renders as `33.3%` |
| Dashboard.RenderPercent | frontend/dashboard-react/src/App.jsx:293-294 | every rendered percentage ends in `%` |
| Dashboard.RenderFixedReadsBack | frontend/dashboard-react/src/App.jsx:293 | a computed share renders as digits, a point, one digit and `%`, and the digits read back as the tenths rendered |
| Dashboard.HasTotal | frontend/dashboard-react/src/App.jsx:292 | a positive total needs sentiment data with a total; a total of 0 is not positive |
| Dashboard.CardPercent | frontend/dashboard-react/src/App.jsx:292-294 | `'0%'` exactly when there is no positive total (no division happens); `NaN` exactly when the total is positive and the count is missing; otherwise the rounded share, at most 100.0 when the count does not exceed the total |
| Dashboard.TopicShare | frontend/dashboard-react/src/App.jsx:360-362 | a topic's share is its count against the review total, or 0 when there is no positive total; never NaN, since counts are numbers here |
| Dashboard.TopicRows | frontend/dashboard-react/src/App.jsx:359-369 | one row per topic, in server order; rank is the 1-based position; topic and count unchanged; share as `TopicShare` |
| Dashboard.SharesNotNormalised | frontend/dashboard-react/src/App.jsx:359-362 | two topics of 40 each out of 100 reviews both show 40.0%; shares are not scaled to the listed topics |
| Dashboard.TopicsPanel | frontend/dashboard-react/src/App.jsx:340-404 | "No topic data available" exactly when the list is absent or empty; otherwise a non-empty table of `TopicRows` |
| Dashboard.OrZero | frontend/dashboard-react/src/App.jsx:142-144 | a present count is kept and a missing one reads 0, the logical-or default of the chart data |
| Dashboard.Chart | frontend/dashboard-react/src/App.jsx:136-159 | absent exactly when there is no sentiment data; otherwise three bars Positive, Neutral, Negative whose values default to 0 and whose green, blue and red colours agree by position |
| Dashboard.ErrorShown | frontend/dashboard-react/src/App.jsx:208 | a shown error is present; an empty message is not shown, as `""` is falsy |
| Dashboard.SelectView | frontend/dashboard-react/src/App.jsx:194-228 | the loading view iff loading with no sentiment data; the error view (with the error's text) iff not loading, no sentiment data and a truthy error; the dashboard otherwise |
| Dashboard.Mounted | frontend/dashboard-react/src/App.jsx:47-51 | a fresh component holds no data, no error and no `lastUpdate`, is loading, shows the loading view and has no chart or topic table |
| Dashboard.Started | frontend/dashboard-react/src/App.jsx:104-105 | beginning a cycle sets `loading` and clears `error`, keeping the data slices and `lastUpdate` |
| Dashboard.WithSentiment | frontend/dashboard-react/src/App.jsx:66-78 | success replaces the sentiment slice and nothing else; failure keeps the slice and writes only `error` |
| Dashboard.WithTopics | frontend/dashboard-react/src/App.jsx:85-97 | success replaces the topic slice and nothing else; failure keeps the slice and writes only `error` |
| Dashboard.Finished | frontend/dashboard-react/src/App.jsx:112-113 | ending a cycle clears `loading` and stamps `lastUpdate`, keeping the rest |
| Dashboard.AfterCycle | frontend/dashboard-react/src/App.jsx:103-114 | after a whole cycle `loading` is false and `lastUpdate` set whatever happened; each slice is replaced only by its own success; the error is none, the one failure's message, or that of the later of two failures |
| Dashboard.CycleIsItsSteps | frontend/dashboard-react/src/App.jsx:103-114 | a cycle equals its four steps run in settling order |
| Dashboard.DashboardNeverHidden | frontend/dashboard-react/src/App.jsx:194-228 | once sentiment data is held, no sequence of later steps, failures or reloads loses it or leaves the dashboard view |
| Dashboard.FailuresKeepSentiment | frontend/dashboard-react/src/App.jsx:66-78 | without a successful sentiment fetch, any sequence of steps keeps the sentiment slice as it was |
| Dashboard.FailuresKeepTopics | frontend/dashboard-react/src/App.jsx:85-97 | without a successful topics fetch, any sequence of steps keeps the topic slice as it was |
| Dashboard.FirstCycleExample | frontend/dashboard-react/src/App.jsx:292-294 | a first good cycle with counts 6/3/1 of 10 and topic `pricing` 4 shows the dashboard, 60.0% and 10.0%, and `pricing` ranked 1 at 40.0% |
| Dashboard.DashboardComponent.constructor | frontend/dashboard-react/src/App.jsx:47-51 | the new component's state is `Mounted()` |
| Dashboard.DashboardComponent.BeginCycle | frontend/dashboard-react/src/App.jsx:104-105 | the new state is `Started` of the old one |
| Dashboard.DashboardComponent.SettleSentiment | frontend/dashboard-react/src/App.jsx:66-78 | the new state is `WithSentiment` of the old one |
| Dashboard.DashboardComponent.SettleTopics | frontend/dashboard-react/src/App.jsx:85-97 | the new state is `WithTopics` of the old one |
| Dashboard.DashboardComponent.EndCycle | frontend/dashboard-react/src/App.jsx:112-113 | the new state is `Finished` of the old one |
| Dashboard.DashboardComponent.LoadData | frontend/dashboard-react/src/App.jsx:103-114 | the new state is `AfterCycle` of the old one, for the given settling order |
| Text.Strip | backend/ai-analysis-service/main.py:97 | the result has no white space at either end; it is empty exactly when the input is all white space |
| Text.StripPadded | backend/ai-analysis-service/main.py:106 | white space around a string does not survive stripping |
| Text.Lower | backend/ai-analysis-service/main.py:122 | same length, each character lower-cased |
| Text.ContainsIffOccurs | backend/ai-analysis-service/main.py:126-127 | the substring test holds exactly when the word occurs at some position |
| Text.Split | backend/ai-analysis-service/main.py:391 | splitting on a character gives at least one piece, none containing the separator |
| Text.Join | backend/ai-analysis-service/main.py:334 | no parts join to the empty string; the join starts with the first part, followed by the separator when there are more |
| Text.JoinSplit | backend/ai-analysis-service/main.py:391 | joining the pieces of a split gives the string back |
| Text.SplitJoin | backend/ai-analysis-service/main.py:334 | splitting a join of separator-free parts gives the parts back |
| Text.NatToDecimal | frontend/dashboard-react/src/App.jsx:70 | a number renders as at least one character, all decimal digits |
| Text.DecimalRoundTrip | frontend/dashboard-react/src/App.jsx:70 | a rendered status code reads back as the number |
| Seqs.Dedup | backend/ai-analysis-service/main.py:224 | `list(set(...))` is no longer than its input and empty exactly when the input is |
| Seqs.DedupMembers | backend/ai-analysis-service/main.py:224 | `list(set(...))` keeps exactly the elements of the input |
| Seqs.DedupDistinct | backend/ai-analysis-service/main.py:224 | `list(set(...))` has no duplicates |
| Analysis.DropPrefix | backend/ai-analysis-service/main.py:99-102 | when the prefix is present the input is prefix + result, else the result is the input |
| Analysis.DropSuffix | backend/ai-analysis-service/main.py:103-104 | when the suffix is present the input is result + suffix, else the result is the input |
| Analysis.Unfenced | backend/ai-analysis-service/main.py:97-106 | the cleaned reply has no white space at either end |
| Analysis.UnfencedPlain | backend/ai-analysis-service/main.py:97-106 | a reply without backticks is only trimmed |
| Analysis.UnfencedJsonBlock | backend/ai-analysis-service/main.py:97-106 | a body fenced by ```` ```json ```` and ```` ``` ```` comes back as the trimmed body |
| Analysis.UnfencedBareBlock | backend/ai-analysis-service/main.py:177-186 | a body fenced by a bare ```` ``` ```` pair comes back as the trimmed body |
| Analysis.OneHot | backend/ai-analysis-service/main.py:144-148 | each key is 1 exactly when the label names it; the three sum to 1 exactly for a known label |
| Analysis.Normalise | backend/ai-analysis-service/main.py:108-117 | a given label is lower-cased with matching `details`; a missing label reads `neutral` with all-zero `details`; an unknown label has all-zero `details`; missing numbers and summary default to 0 and "" |
| Analysis.CountPresent | backend/ai-analysis-service/main.py:126-127 | the count is the number of listed words present in the text, each counted once, so at most the list's length |
| Analysis.FallbackSentiment | backend/ai-analysis-service/main.py:122-148 | positive iff more positive words, negative iff more negative words, neutral iff equal; score ±0.5 or 0; confidence 0.5; the fixed summary; one-hot `details` summing to 1 |
| Analysis.AnalyzeSentiment | backend/ai-analysis-service/main.py:92-149 | the fallback when the model call fails or the cleaned reply does not decode; otherwise the normalised decoded reply |
| Analysis.MentionsAny | backend/ai-analysis-service/main.py:216 | true exactly when some keyword occurs in the text |
| Analysis.RatingTag | backend/ai-analysis-service/main.py:219-222 | `negative_experience` iff a truthy rating of at most 2; `highly_satisfied` iff rating 5; nothing for no rating, 0, 3, 4 or above 5; never both |
| Analysis.TopicNamesDistinct | backend/ai-analysis-service/main.py:202-213 | the ten keyword topics are distinct and differ from both tags |
| Analysis.TagAndDedup | backend/ai-analysis-service/main.py:218-224 | no duplicates; exactly the given topics plus the rating's tag, if any |
| Analysis.FallbackTopics | backend/ai-analysis-service/main.py:198-224 | no duplicates; a topic is listed iff one of its keywords occurs in the lower-cased text, or it is the rating's tag |
| Analysis.Decoded | backend/ai-analysis-service/main.py:174-186 | a failed call decodes to nothing usable; otherwise the reply is decoded after cleaning |
| Analysis.ExtractTopics | backend/ai-analysis-service/main.py:173-224 | no duplicates; a decoded array plus the rating tag; a decoded object or string iterated as it is when there is no tag; the keyword fallback when the call fails, nothing usable decodes, or a tag is appended to an object or string |
| TopicCounts.RowPieces | backend/ai-analysis-service/main.py:390-393 | an empty row contributes no pieces, any other row at least one; every piece is stripped |
| TopicCounts.Tally | backend/ai-analysis-service/main.py:388-394 | the dict is empty exactly when there are no pieces; `TallyCounts` gives its contents |
| TopicCounts.TallyCounts | backend/ai-analysis-service/main.py:388-394 | the dict's keys are exactly the stripped pieces, and each maps to its number of occurrences |
| TopicCounts.Items | backend/ai-analysis-service/main.py:397 | `items()` pairs each key, in insertion order, with its count |
| TopicCounts.CountStep | backend/ai-analysis-service/main.py:394 | one more piece appends a new key to the key order and adds one to its count |
| TopicCounts.CountPiece | backend/ai-analysis-service/main.py:394 | a new key is appended to the key order with count 1; a known key keeps the order and gains one |
| TopicCounts.CountPieces | backend/ai-analysis-service/main.py:391-394 | the inner loop leaves the dict counting the pieces read so far plus the row's stripped pieces |
| TopicCounts.CountTopics | backend/ai-analysis-service/main.py:387-394 | the nested loop leaves the dict's key order as the first appearances of all pieces and its contents as their tally |
| TopicCounts.SortByCount | backend/ai-analysis-service/main.py:397 | the sort keeps the number of items; its other properties are the `Sort` lemmas below |
| TopicCounts.InsertSorted | backend/ai-analysis-service/main.py:397 | inserting into a non-increasing list keeps it non-increasing |
| TopicCounts.InsertPermutation | backend/ai-analysis-service/main.py:397 | inserting adds exactly the item |
| TopicCounts.InsertKeepsTies | backend/ai-analysis-service/main.py:397 | an inserted item goes after every item with its own count |
| TopicCounts.SortSorted | backend/ai-analysis-service/main.py:397 | the sorted list is non-increasing by count |
| TopicCounts.SortPermutation | backend/ai-analysis-service/main.py:397 | the sorted list is a permutation of the items |
| TopicCounts.SortSameItems | backend/ai-analysis-service/main.py:397 | the sort neither adds nor drops an item |
| TopicCounts.InsertDistinct | backend/ai-analysis-service/main.py:397 | inserting an item with a new topic keeps the topics distinct |
| TopicCounts.SortDistinct | backend/ai-analysis-service/main.py:397 | sorting items with distinct topics keeps them distinct |
| TopicCounts.SumSort | backend/ai-analysis-service/main.py:397 | sorting keeps the total of the counts |
| TopicCounts.SortIsStable | backend/ai-analysis-service/main.py:397 | for every count, the items with that count come out in the order they went in |
| TopicCounts.CountsSumToPieces | backend/ai-analysis-service/main.py:387-394 | the counts add up to the number of pieces |
| TopicCounts.CountedItemsMeaning | backend/ai-analysis-service/main.py:388-397 | one item per distinct piece, no topic twice, each carrying its number of occurrences (at least 1) |
| TopicCounts.TopicStats | backend/ai-analysis-service/main.py:397-400 | the response has one entry per distinct piece, and is empty exactly when there are no pieces |
| TopicCounts.TopicStatsItems | backend/ai-analysis-service/main.py:387-400 | each listed topic carries its number of occurrences (at least 1), a topic is listed iff it is a piece, and no topic is listed twice |
| TopicCounts.TopicStatsMeaning | backend/ai-analysis-service/main.py:387-400 | the response lists every piece once, with its occurrences, non-increasing by count, ties in first-appearance order, counts summing to the number of pieces |
| TopicCounts.GetTopicStats | backend/ai-analysis-service/main.py:376-406 | a failed query is an HTTP 500; otherwise the response is `TopicStats` of the fetched rows' pieces |
| TopicCounts.StoredRowPieces | backend/ai-analysis-service/main.py:334 | a stored join of storable topics splits and strips back to the topics; an empty list contributes nothing |
| TopicCounts.StoreThenCount | backend/ai-analysis-service/main.py:388-394 | storing every review's topics and counting them back yields all topics of all reviews, in order |
| TopicCounts.StoredCountsMatch | backend/ai-analysis-service/main.py:388-397 | so the stored strings give the same counts and key order as the topic lists themselves |
| Stats.Step | backend/stats-service/main.py:119-122 | the counters keep exactly the four keys |
| Stats.Fold | backend/stats-service/main.py:111-122 | the counters start at 0 and keep exactly the four keys |
| Stats.StepEffect | backend/stats-service/main.py:119-122 | a known label other than `total` has its counter overwritten and adds to `total`; a `total` row leaves twice its count; an unknown or NULL label changes nothing; other counters are kept |
| Stats.FoldWithoutTotalRow | backend/stats-service/main.py:119-122 | with no `total` row, each label's counter is its last row's count (or 0), and `total` adds every known row, repeats included |
| Stats.TotalIsSumOfLabels | backend/stats-service/main.py:119-124 | with distinct labels from positive/neutral/negative, `total` equals the sum of the three counters |
| Stats.TotalRowExample | backend/stats-service/main.py:120-122 | rows positive 2 then total 5 leave positive 2 and total 10 |
| Stats.CountSentiments | backend/stats-service/main.py:110-124 | the loop over the rows computes `Fold` |
| Stats.GetSentimentStats | backend/stats-service/main.py:97-134 | a connection failure propagates; a failed query gives four zero counters plus the error; otherwise the folded counters with no error; always the four keys |
| Stats.FormatTopics | backend/stats-service/main.py:180-183 | one record per row, in order, with its topic and count |
| Stats.FormatTopicsLossless | backend/stats-service/main.py:180-183 | the records read back as the rows |
| Stats.GetTopicStats | backend/stats-service/main.py:141-189 | the query runs with the given limit or 10; a failed query gives `[]`; a connection failure propagates; otherwise the formatted rows |
| Stats.TotalOrZero | backend/stats-service/main.py:215 | the `total` counter when there is one, 0 otherwise |
| Stats.GetSummary | backend/stats-service/main.py:195-219 | `total_reviews` is the sentiment `total`; a failed query embeds four zero counters and the error, and gives 0 reviews; the sentiment record is embedded unchanged; topics are asked for with limit 5; the timestamp is the clock's reading |
| Stats.SummaryTotalAddsUp | backend/stats-service/main.py:211-218 | with distinct labels from the three, `total_reviews` is their sum |

## Left out

- Polling with `setInterval`/`clearInterval`, unmounting, and overlapping load cycles are left out, because they are timer scheduling and concurrency. A cycle's two sub-fetches are modelled as settling in either order.
- `lastUpdate` is an abstract natural-number timestamp. `toLocaleTimeString` and the rest of the markup are presentation.
- `chartOptions`, Chart.js registration, Tailwind classes and icons are presentation.
- The count cards (`sentimentStats?.total || 0` and the like) are modelled only through `Dashboard.OrZero`, which the chart uses.
- Dashboard.PercentTenths: computes `toFixed(1)` on exact rationals, rounding half-way cases up. IEEE-754 binary ties of the floating-point division are not modelled.
- Dashboard.SentimentStats: the counts are natural numbers, as the server's `COUNT(*)` yields. Non-numeric or negative JSON values are not modelled.
- Dashboard.TopicShare: a topic's `count` is a natural number, so a topic without a numeric count, which renders `NaN` at frontend/dashboard-react/src/App.jsx:361, is not modelled.
- Analysis.Normalise: score and confidence are the decoded values in thousandths. `round(float(...), 3)` on floats is not modelled.
- Analysis.Unfenced: the successive reassignments of `response_text` are modelled as one composed function, not as separate local updates.
- Text.Lower: lower-cases ASCII letters only. Python's full Unicode case mapping is not modelled.
- Text.Strip removes the characters for which Python's `str.isspace()` holds.
- The calls to the language model and `json.loads` are not modelled. They become a `Reply` (call failed, or text returned) and a `decode` function parameter. Any exception they raise is a failed reply, or a decode giving `None` (sentiment) or `Unusable` (topics).
- Analysis.ExtractTopics: a decoded array of numbers, booleans or `null` passes `set` and would be returned; topics are strings here, so such a reply is not modelled. An array holding an array or object makes `set` raise, and `decode` gives `Unusable` for it.
- Analysis.ExtractTopics and Analysis.FallbackTopics: `list(set(...))` has no defined order, so the model returns the first-appearance order and promises only duplicate-freedom and membership.
- The database access is not modelled: `psycopg2` connections, cursors, commits and every SQL statement. Each query is a given outcome: rows, a failed query, or, in the statistics service, a failed connection. That connection is opened before the `try` there, so the failure propagates.
- The statistics service's topic SQL (`UNNEST`, `GROUP BY`, `ORDER BY`, `LIMIT`) is taken as given rows.
- The `timestamp` fields are not modelled. The analysis service's `get_topic_stats` timestamp comes from the clock and is left out. The summary's timestamp is a parameter.
- The `print` logging in the `except` branches is not modelled.
- FastAPI plumbing is not modelled: startup, CORS, the health endpoints and the Pydantic models.
- Four operations are not modelled:
  - `analyze_review`, a wrapper around the two analyses;
  - `analyze_all_reviews`, a database loop, except for the `','.join` it stores with;
  - the analysis service's `get_sentiment_stats`, pure SQL;
  - the scripts under `scripts/`: a CSV-to-database seeder and an HTTP client that only prints.
