/**
 * The deterministic part of the review analysis service
 * (backend/ai-analysis-service/main.py): cleaning the language model's reply
 * before it is parsed, normalising a parsed sentiment, and the keyword
 * fallbacks used whenever the model call or the parsing fails.
 */
module Analysis {
  import opened Wrappers
  import Text
  import Seqs

  // ---------------------------------------------------------------------------
  // Markdown fence removal
  // ---------------------------------------------------------------------------

  const JsonFence: string := "```json"
  const Fence: string := "```"

  /** `s[len(p):]` when `s.startswith(p)`, else `s`. */
  function DropPrefix(s: string, p: string): (r: string)
    ensures Text.StartsWith(s, p) ==> s == p + r
    ensures !Text.StartsWith(s, p) ==> r == s
  {
    if Text.StartsWith(s, p) then s[|p|..] else s
  }

  /** `s[:-len(p)]` when `s.endswith(p)`, else `s`. */
  function DropSuffix(s: string, p: string): (r: string)
    ensures Text.EndsWith(s, p) ==> s == r + p
    ensures !Text.EndsWith(s, p) ==> r == s
  {
    if Text.EndsWith(s, p) then s[..|s| - |p|] else s
  }

  /**
   * What remains of a reply once it is trimmed, an opening fence (with or
   * without `json`) and a closing fence are dropped, and it is trimmed again.
   */
  function Unfenced(raw: string): (r: string)
    ensures Text.IsTrimmed(r)
  {
    Text.Strip(DropSuffix(DropPrefix(DropPrefix(Text.Strip(raw), JsonFence), Fence), Fence))
  }

  lemma StripKeepsOnly(s: string, c: char)
    requires c in Text.Strip(s)
    ensures c in s
  {
    var t := Text.TrimStart(s);
    var r := Text.TrimEnd(t);
    var i :| 0 <= i < |r| && r[i] == c;
    assert t[i] == c;
    assert s[|s| - |t| + i] == c;
  }

  /** A reply without backticks is only trimmed. */
  lemma UnfencedPlain(raw: string)
    requires '`' !in raw
    ensures Unfenced(raw) == Text.Strip(raw)
  {
    var t := Text.Strip(raw);
    assert '`' !in t by {
      if '`' in t { StripKeepsOnly(raw, '`'); }
    }
    assert DropSuffix(DropPrefix(DropPrefix(t, JsonFence), Fence), Fence) == t;
    Text.StripTrimmed(t);
  }

  /** A reply that starts and ends with a backtick is already trimmed. */
  lemma BacktickEndsTrimmed(raw: string)
    requires raw != [] && raw[0] == '`' && raw[|raw| - 1] == '`'
    ensures Text.Strip(raw) == raw
  {
    Text.StripTrimmed(raw);
  }

  lemma DropOpening(p: string, s: string)
    ensures DropPrefix(p + s, p) == s
  {
    assert (p + s)[..|p|] == p;
  }

  /** A reply that differs from `p` at some position `i` of `p` does not start with `p`. */
  lemma KeepOpening(s: string, p: string, i: nat)
    requires i < |p| && i < |s| && s[i] != p[i]
    ensures DropPrefix(s, p) == s
  {
    if |p| <= |s| {
      assert s[..|p|][i] == s[i];
    }
  }

  lemma DropClosing(s: string, p: string)
    ensures DropSuffix(s + p, p) == s
  {
    assert (s + p)[|s + p| - |p|..] == p;
  }

  /** A body fenced as ```` ```json ```` ... ```` ``` ```` comes back exactly as the trimmed body. */
  lemma UnfencedJsonBlock(body: string)
    ensures Unfenced(JsonFence + "\n" + body + "\n" + Fence) == Text.Strip(body)
  {
    var inner := "\n" + body + "\n";
    var raw := JsonFence + "\n" + body + "\n" + Fence;
    assert raw == JsonFence + (inner + Fence);
    BacktickEndsTrimmed(raw);
    DropOpening(JsonFence, inner + Fence);
    assert (inner + Fence)[0] == inner[0] == '\n';
    KeepOpening(inner + Fence, Fence, 0);
    DropClosing(inner, Fence);
    Text.StripPadded("\n", body, "\n");
  }

  /** A body fenced by a bare ```` ``` ```` pair comes back exactly as the trimmed body. */
  lemma UnfencedBareBlock(body: string)
    ensures Unfenced(Fence + "\n" + body + "\n" + Fence) == Text.Strip(body)
  {
    var inner := "\n" + body + "\n";
    var raw := Fence + "\n" + body + "\n" + Fence;
    assert raw == Fence + (inner + Fence);
    BacktickEndsTrimmed(raw);
    assert raw[3] == '\n';
    KeepOpening(raw, JsonFence, 3);
    DropOpening(Fence, inner + Fence);
    DropClosing(inner, Fence);
    Text.StripPadded("\n", body, "\n");
  }

  // ---------------------------------------------------------------------------
  // Sentiment
  // ---------------------------------------------------------------------------

  /** The `details` dict; 1 stands for the float `1.0`. */
  datatype Details = Details(positive: nat, negative: nat, neutral: nat)

  /** The dict `analyze_sentiment` returns; score and confidence in thousandths. */
  datatype SentimentAnalysis = SentimentAnalysis(
    sentiment: string,
    scoreMilli: int,
    confidenceMilli: int,
    summary: string,
    details: Details)

  predicate IsKnownLabel(name: string) {
    name == "positive" || name == "negative" || name == "neutral"
  }

  /** `1.0 if name == key else 0` for each of the three keys. */
  function OneHot(name: string): (d: Details)
    ensures d.positive <= 1 && d.negative <= 1 && d.neutral <= 1
    ensures d.positive == 1 <==> name == "positive"
    ensures d.negative == 1 <==> name == "negative"
    ensures d.neutral == 1 <==> name == "neutral"
    ensures d.positive + d.negative + d.neutral == (if IsKnownLabel(name) then 1 else 0)
  {
    Details(
      if name == "positive" then 1 else 0,
      if name == "negative" then 1 else 0,
      if name == "neutral" then 1 else 0)
  }

  /**
   * The JSON object the model returned, as `json.loads` produced it; a field
   * is `None` when its key is missing. Score and confidence are the values
   * after `round(float(...), 3)`, in thousandths.
   */
  datatype ParsedSentiment = ParsedSentiment(
    sentiment: Option<string>,
    scoreMilli: Option<int>,
    confidenceMilli: Option<int>,
    summary: Option<string>)

  /**
   * The success branch of `analyze_sentiment`. A given label is lower-cased and
   * `details` agrees with it; a missing label reads "neutral" while `details`,
   * computed from the default "", is all zero.
   */
  function Normalise(p: ParsedSentiment): (r: SentimentAnalysis)
    ensures p.sentiment.Some? ==> r.sentiment == Text.Lower(p.sentiment.value) && r.details == OneHot(r.sentiment)
    ensures p.sentiment.None? ==> r.sentiment == "neutral" && r.details == Details(0, 0, 0)
    ensures !IsKnownLabel(r.sentiment) ==> r.details == Details(0, 0, 0)
    ensures r.scoreMilli == p.scoreMilli.GetOr(0) && r.confidenceMilli == p.confidenceMilli.GetOr(0)
    ensures r.summary == p.summary.GetOr("")
  {
    SentimentAnalysis(
      Text.Lower(p.sentiment.GetOr("neutral")),
      p.scoreMilli.GetOr(0),
      p.confidenceMilli.GetOr(0),
      p.summary.GetOr(""),
      OneHot(Text.Lower(p.sentiment.GetOr(""))))
  }

  const PositiveWords: seq<string> :=
    ["great", "excellent", "amazing", "love", "perfect", "wonderful", "outstanding"]
  const NegativeWords: seq<string> :=
    ["bad", "terrible", "hate", "awful", "horrible", "poor", "useless"]

  /** The positions of the words that occur somewhere in `text`. */
  function PresentIndices(words: seq<string>, text: string): set<int> {
    set i | 0 <= i < |words| && Text.Contains(text, words[i])
  }

  /** `sum(1 for word in words if word in text)`: each listed word counts once, however often it occurs. */
  function CountPresent(words: seq<string>, text: string): (n: nat)
    ensures n == |PresentIndices(words, text)|
    ensures n <= |words|
    decreases |words|
  {
    if words == [] then 0
    else
      var k := |words| - 1;
      var n := CountPresent(words[..k], text) + (if Text.Contains(text, words[k]) then 1 else 0);
      assert PresentIndices(words, text)
        == PresentIndices(words[..k], text) + (if Text.Contains(text, words[k]) then {k} else {});
      n
  }

  /** The `except` branch of `analyze_sentiment`: word counting on the lower-cased text. */
  function FallbackSentiment(text: string): (r: SentimentAnalysis)
    ensures var lower := Text.Lower(text);
      var pos := CountPresent(PositiveWords, lower);
      var neg := CountPresent(NegativeWords, lower);
      && (r.sentiment == "positive" <==> pos > neg)
      && (r.sentiment == "negative" <==> neg > pos)
      && (r.sentiment == "neutral" <==> pos == neg)
      && r.scoreMilli == (if pos > neg then 500 else if neg > pos then -500 else 0)
    ensures r.confidenceMilli == 500
    ensures r.summary == "Fallback analysis due to API error"
    ensures IsKnownLabel(r.sentiment) && r.details == OneHot(r.sentiment)
    ensures r.details.positive + r.details.negative + r.details.neutral == 1
  {
    var lower := Text.Lower(text);
    var pos := CountPresent(PositiveWords, lower);
    var neg := CountPresent(NegativeWords, lower);
    var name := if pos > neg then "positive" else if neg > pos then "negative" else "neutral";
    var score := if pos > neg then 500 else if neg > pos then -500 else 0;
    SentimentAnalysis(name, score, 500, "Fallback analysis due to API error", OneHot(name))
  }

  /** How the call to the language model ended. */
  datatype Reply = ApiFailed | Replied(text: string)

  /**
   * `analyze_sentiment`: the model's reply, cleaned and decoded, or the
   * fallback when the call fails or the cleaned reply does not decode.
   * `decode` stands for `json.loads` followed by the field accesses.
   */
  method AnalyzeSentiment(text: string, reply: Reply, decode: string -> Option<ParsedSentiment>)
    returns (r: SentimentAnalysis)
    ensures reply.ApiFailed? ==> r == FallbackSentiment(text)
    ensures reply.Replied? && decode(Unfenced(reply.text)).None? ==> r == FallbackSentiment(text)
    ensures reply.Replied? && decode(Unfenced(reply.text)).Some? ==>
      r == Normalise(decode(Unfenced(reply.text)).value)
  {
    if reply.ApiFailed? {
      return FallbackSentiment(text);
    }
    var cleaned := Unfenced(reply.text);
    var parsed := decode(cleaned);
    if parsed.None? {
      return FallbackSentiment(text);
    }
    r := Normalise(parsed.value);
  }

  // ---------------------------------------------------------------------------
  // Topics
  // ---------------------------------------------------------------------------

  /** The `topic_keywords` dict, in its insertion order. */
  const TopicKeywords: seq<(string, seq<string>)> := [
    ("performance", ["fast", "slow", "speed", "lag", "crash", "freeze", "responsive"]),
    ("quality", ["quality", "durability", "build", "material", "solid", "fragile"]),
    ("battery", ["battery", "charge", "charging", "power", "drain"]),
    ("connectivity", ["disconnect", "connection", "wifi", "bluetooth", "signal"]),
    ("design", ["design", "aesthetic", "look", "appearance", "color", "style"]),
    ("price", ["price", "expensive", "cost", "cheap", "afford", "value"]),
    ("comfort", ["comfortable", "ergonomic", "pain", "fatigue", "typing"]),
    ("customer_support", ["support", "customer service", "return", "warranty"]),
    ("heat_noise", ["hot", "heat", "noisy", "sound", "loud"]),
    ("display", ["display", "screen", "color", "brightness", "resolution"])
  ]

  const NegativeTag: string := "negative_experience"
  const SatisfiedTag: string := "highly_satisfied"

  /** `any(keyword in text for keyword in keywords)`. */
  function MentionsAny(text: string, keywords: seq<string>): (b: bool)
    ensures b <==> exists k :: 0 <= k < |keywords| && Text.Contains(text, keywords[k])
    decreases |keywords|
  {
    if keywords == [] then false
    else Text.Contains(text, keywords[0]) || MentionsAny(text, keywords[1..])
  }

  /** The topic a keyword entry contributes to the lower-cased text. */
  predicate KeywordTopic(lower: string, t: string) {
    exists j :: 0 <= j < |TopicKeywords| && TopicKeywords[j].0 == t && MentionsAny(lower, TopicKeywords[j].1)
  }

  /**
   * The tag a rating adds: a truthy rating of at most 2 adds the negative tag,
   * exactly 5 the satisfied one; no rating, 0, 3, 4 or more than 5 add nothing.
   */
  function RatingTag(rating: Option<int>): (tag: Option<string>)
    ensures tag == Some(NegativeTag) <==> rating.Some? && rating.value != 0 && rating.value <= 2
    ensures tag == Some(SatisfiedTag) <==> rating == Some(5)
    ensures tag.None? <==> rating.None? || rating.value == 0 || rating.value == 3 || rating.value == 4 || rating.value > 5
  {
    if rating.Some? && rating.value != 0 && rating.value <= 2 then Some(NegativeTag)
    else if rating.Some? && rating.value != 0 && rating.value == 5 then Some(SatisfiedTag)
    else None
  }

  lemma TopicNamesDistinct()
    ensures forall i, j :: 0 <= i < j < |TopicKeywords| ==> TopicKeywords[i].0 != TopicKeywords[j].0
    ensures forall i :: 0 <= i < |TopicKeywords| ==>
      TopicKeywords[i].0 != NegativeTag && TopicKeywords[i].0 != SatisfiedTag
  {
  }

  /** The common tail of both branches of `extract_topics`: append the rating tag, then `list(set(topics))`. */
  method TagAndDedup(found: seq<string>, rating: Option<int>) returns (topics: seq<string>)
    ensures Seqs.NoDuplicates(topics)
    ensures forall t :: t in topics <==> t in found || RatingTag(rating) == Some(t)
  {
    var listed := found;
    var tag := RatingTag(rating);
    if tag.Some? {
      listed := listed + [tag.value];
    }
    assert forall t :: t in listed <==> t in found || tag == Some(t);
    topics := Seqs.Dedup(listed);
    Seqs.DedupDistinct(listed);
    forall t ensures t in topics <==> t in listed {
      Seqs.DedupMembers(listed, t);
    }
  }

  /** The `except` branch of `extract_topics`: keyword topics, then the rating tag, without duplicates. */
  method FallbackTopics(text: string, rating: Option<int>) returns (topics: seq<string>)
    ensures Seqs.NoDuplicates(topics)
    ensures forall t :: t in topics <==> KeywordTopic(Text.Lower(text), t) || RatingTag(rating) == Some(t)
  {
    var lower := Text.Lower(text);
    TopicNamesDistinct();
    var found: seq<string> := [];
    var i := 0;
    while i < |TopicKeywords|
      invariant 0 <= i <= |TopicKeywords|
      invariant Seqs.NoDuplicates(found)
      invariant forall t :: t in found <==>
        exists j :: 0 <= j < i && TopicKeywords[j].0 == t && MentionsAny(lower, TopicKeywords[j].1)
    {
      var (topic, keywords) := TopicKeywords[i];
      if MentionsAny(lower, keywords) {
        assert topic !in found;
        found := found + [topic];
      }
      i := i + 1;
    }
    topics := TagAndDedup(found, rating);
  }

  /** What `json.loads` yields for the topics reply, as far as the rest of `extract_topics` can tell. */
  datatype DecodedTopics =
    | TopicArray(items: seq<string>)       // a JSON array of strings
    | OtherIterable(members: seq<string>)  // a JSON object (its keys) or a JSON string (its characters)
    | Unusable                             // `json.loads` raised, or a value `set` cannot take

  /** The decoded reply; a failed call decodes to nothing usable. */
  function Decoded(reply: Reply, decode: string -> DecodedTopics): (d: DecodedTopics)
    ensures reply.ApiFailed? ==> d.Unusable?
    ensures reply.Replied? ==> d == decode(Unfenced(reply.text))
  {
    if reply.ApiFailed? then Unusable else decode(Unfenced(reply.text))
  }

  /**
   * Whether `extract_topics` ends in the keyword fallback: nothing usable was
   * decoded, or a tag is appended to a value that has no `append`.
   */
  predicate FallsBackToKeywords(d: DecodedTopics, rating: Option<int>) {
    d.Unusable? || (d.OtherIterable? && RatingTag(rating).Some?)
  }

  /**
   * `extract_topics`: the decoded list of the model plus the rating tag,
   * returned as `list(set(...))`; an object or string decoded in its place
   * is iterated as it is when there is no tag; everything else takes the
   * keyword fallback. `decode` stands for `json.loads`.
   */
  method ExtractTopics(text: string, rating: Option<int>, reply: Reply, decode: string -> DecodedTopics)
    returns (topics: seq<string>)
    ensures Seqs.NoDuplicates(topics)
    ensures Decoded(reply, decode).TopicArray? ==>
      forall t :: t in topics <==> t in Decoded(reply, decode).items || RatingTag(rating) == Some(t)
    ensures Decoded(reply, decode).OtherIterable? && RatingTag(rating).None? ==>
      forall t :: t in topics <==> t in Decoded(reply, decode).members
    ensures FallsBackToKeywords(Decoded(reply, decode), rating) ==>
      forall t :: t in topics <==> KeywordTopic(Text.Lower(text), t) || RatingTag(rating) == Some(t)
  {
    if reply.ApiFailed? {
      topics := FallbackTopics(text, rating);
      return;
    }
    var cleaned := Unfenced(reply.text);
    var parsed := decode(cleaned);
    match parsed
    case TopicArray(items) =>
      topics := TagAndDedup(items, rating);
    case OtherIterable(members) =>
      if RatingTag(rating).Some? {
        topics := FallbackTopics(text, rating);
      } else {
        topics := TagAndDedup(members, rating);
      }
    case Unusable =>
      topics := FallbackTopics(text, rating);
  }
}
