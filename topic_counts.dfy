/**
 * Topic frequencies of the review analysis service
 * (`get_topic_stats` in backend/ai-analysis-service/main.py): every stored
 * topics string is split on commas, each stripped piece is counted, and the
 * counts are listed by decreasing frequency with a stable sort. Also the
 * `','.join` with which `analyze_all_reviews` stores a review's topics.
 */
module TopicCounts {
  import opened Wrappers
  import Text
  import Seqs

  // ---------------------------------------------------------------------------
  // The pieces counted
  // ---------------------------------------------------------------------------

  function StripAll(ps: seq<string>): (r: seq<string>)
    ensures |r| == |ps| && forall i :: 0 <= i < |ps| ==> r[i] == Text.Strip(ps[i])
  {
    seq(|ps|, i requires 0 <= i < |ps| => Text.Strip(ps[i]))
  }

  /** What one stored `topics` value contributes: nothing when empty, else each comma-separated piece, stripped. */
  function RowPieces(row: string): (r: seq<string>)
    ensures r == [] <==> row == ""
    ensures forall i :: 0 <= i < |r| ==> Text.IsTrimmed(r[i])
  {
    if row == "" then [] else StripAll(Text.Split(row, ','))
  }

  /** The pieces of all rows, in query order. */
  function AllPieces(rows: seq<string>): seq<string>
    decreases |rows|
  {
    if rows == [] then [] else AllPieces(rows[..|rows| - 1]) + RowPieces(rows[|rows| - 1])
  }

  /** The `topic_counts` dict filled from `ps`. */
  function Tally(ps: seq<string>): (r: map<string, nat>)
    ensures r == map[] <==> ps == []
    decreases |ps|
  {
    if ps == [] then map[]
    else
      var m := Tally(ps[..|ps| - 1]);
      var k := ps[|ps| - 1];
      m[k := (if k in m then m[k] else 0) + 1]
  }

  /** The keys of the tally are exactly the pieces, and each counts its occurrences among them. */
  lemma {:induction false} TallyCounts(ps: seq<string>, k: string)
    ensures k in Tally(ps) <==> k in ps
    ensures k in ps ==> Tally(ps)[k] == Seqs.Occurrences(ps, k)
    decreases |ps|
  {
    if ps != [] {
      var prefix := ps[..|ps| - 1];
      Seqs.LastSplit(ps);
      TallyCounts(prefix, k);
      if k !in prefix {
        Seqs.OccurrencesAbsent(prefix, k);
      }
    }
  }

  /** Every key in the order has a count. */
  lemma OrderKeysCounted(ps: seq<string>)
    ensures forall x :: x in Seqs.Dedup(ps) ==> x in Tally(ps)
  {
    forall x | x in Seqs.Dedup(ps) ensures x in Tally(ps) {
      Seqs.DedupMembers(ps, x);
      TallyCounts(ps, x);
    }
  }

  datatype TopicCount = TopicCount(topic: string, count: nat)

  /** `topic_counts.items()`, in key insertion order. */
  function Items(order: seq<string>, m: map<string, nat>): (r: seq<TopicCount>)
    requires forall k :: k in order ==> k in m
    ensures |r| == |order| && forall i :: 0 <= i < |order| ==> r[i] == TopicCount(order[i], m[order[i]])
    decreases |order|
  {
    if order == [] then [] else Items(order[..|order| - 1], m) + [TopicCount(order[|order| - 1], m[order[|order| - 1]])]
  }

  /** `topic_counts.items()` once the pieces `ps` are counted. */
  function CountedItems(ps: seq<string>): seq<TopicCount> {
    OrderKeysCounted(ps);
    Items(Seqs.Dedup(ps), Tally(ps))
  }

  function SumCounts(items: seq<TopicCount>): nat
    decreases |items|
  {
    if items == [] then 0 else SumCounts(items[..|items| - 1]) + items[|items| - 1].count
  }

  // ---------------------------------------------------------------------------
  // The counting loop
  // ---------------------------------------------------------------------------

  /** The dict after `ps`: its key order and its contents. */
  predicate Tracks(order: seq<string>, counts: map<string, nat>, ps: seq<string>) {
    order == Seqs.Dedup(ps) && counts == Tally(ps)
  }

  /**
   * One more piece: a key seen for the first time goes to the end of the
   * key order, and its count goes up by one.
   */
  lemma CountStep(order: seq<string>, counts: map<string, nat>, seen: seq<string>, t: string)
    requires Tracks(order, counts, seen)
    ensures Tracks(if t in counts then order else order + [t],
                   counts[t := (if t in counts then counts[t] else 0) + 1], seen + [t])
  {
    TallyCounts(seen, t);
    DedupStep(seen, t);
    TallyStep(seen, t);
  }

  lemma DedupStep(seen: seq<string>, t: string)
    ensures Seqs.Dedup(seen + [t]) == if t in seen then Seqs.Dedup(seen) else Seqs.Dedup(seen) + [t]
  {
    assert (seen + [t])[..|seen|] == seen;
    Seqs.DedupMembers(seen, t);
  }

  lemma TallyStep(seen: seq<string>, t: string)
    ensures var m := Tally(seen); Tally(seen + [t]) == m[t := (if t in m then m[t] else 0) + 1]
  {
    var s := seen + [t];
    assert s[..|s| - 1] == seen && s[|s| - 1] == t;
  }

  lemma AllPiecesStep(rows: seq<string>, r: nat)
    requires r < |rows|
    ensures AllPieces(rows[..r + 1]) == AllPieces(rows[..r]) + RowPieces(rows[r])
  {
    assert rows[..r + 1][..r] == rows[..r];
  }

  /** Counting the next of the pieces `targets` extends the counted prefix by one. */
  lemma PieceStep(seen0: seq<string>, targets: seq<string>, p: nat, order: seq<string>, counts: map<string, nat>, topic: string)
    requires p < |targets| && targets[p] == topic
    requires Tracks(order, counts, seen0 + targets[..p])
    ensures Tracks(if topic in counts then order else order + [topic],
                   counts[topic := (if topic in counts then counts[topic] else 0) + 1],
                   seen0 + targets[..p + 1])
  {
    CountStep(order, counts, seen0 + targets[..p], topic);
    Seqs.PrefixStep(seen0, targets, p);
  }

  /** `topic_counts[topic] = topic_counts.get(topic, 0) + 1`, with the dict's key order beside it. */
  method CountPiece(order0: seq<string>, counts0: map<string, nat>, topic: string)
    returns (order: seq<string>, counts: map<string, nat>)
    ensures order == if topic in counts0 then order0 else order0 + [topic]
    ensures counts == counts0[topic := (if topic in counts0 then counts0[topic] else 0) + 1]
  {
    order, counts := order0, counts0;
    if topic !in counts {
      order := order + [topic];
    }
    counts := counts[topic := (if topic in counts then counts[topic] else 0) + 1];
  }

  /** The inner loop: count the stripped `pieces` of one stored row. */
  method CountPieces(pieces: seq<string>, order0: seq<string>, counts0: map<string, nat>, ghost seen0: seq<string>)
    returns (order: seq<string>, counts: map<string, nat>)
    requires Tracks(order0, counts0, seen0)
    ensures Tracks(order, counts, seen0 + StripAll(pieces))
  {
    order, counts := order0, counts0;
    ghost var targets := StripAll(pieces);
    assert seen0 + targets[..0] == seen0;
    var p := 0;
    while p < |pieces|
      invariant 0 <= p <= |pieces|
      invariant Tracks(order, counts, seen0 + targets[..p])
    {
      var topic := Text.Strip(pieces[p]);
      PieceStep(seen0, targets, p, order, counts, topic);
      order, counts := CountPiece(order, counts, topic);
      p := p + 1;
    }
    assert targets[..p] == targets;
  }

  /**
   * The loop over the query rows: `order` is the dict's key order,
   * `counts` its contents.
   */
  method CountTopics(rows: seq<string>) returns (order: seq<string>, counts: map<string, nat>)
    ensures order == Seqs.Dedup(AllPieces(rows))
    ensures counts == Tally(AllPieces(rows))
  {
    order, counts := [], map[];
    var r := 0;
    while r < |rows|
      invariant 0 <= r <= |rows|
      invariant Tracks(order, counts, AllPieces(rows[..r]))
    {
      AllPiecesStep(rows, r);
      if rows[r] != "" {
        order, counts := CountPieces(Text.Split(rows[r], ','), order, counts, AllPieces(rows[..r]));
      } else {
        Seqs.AppendEmpty(AllPieces(rows[..r]));
      }
      r := r + 1;
    }
    Seqs.WholePrefix(rows);
  }

  // ---------------------------------------------------------------------------
  // The sort
  // ---------------------------------------------------------------------------

  predicate NonIncreasing(s: seq<TopicCount>) {
    forall i, j :: 0 <= i < j < |s| ==> s[i].count >= s[j].count
  }

  /** The items of `s` whose count is `c`, in order. */
  function WithCount(s: seq<TopicCount>, c: nat): seq<TopicCount>
    decreases |s|
  {
    if s == [] then [] else (if s[0].count == c then [s[0]] else []) + WithCount(s[1..], c)
  }

  lemma {:induction false} WithCountAppend(a: seq<TopicCount>, b: seq<TopicCount>, c: nat)
    ensures WithCount(a + b, c) == WithCount(a, c) + WithCount(b, c)
    decreases |a|
  {
    if a == [] {
      assert a + b == b;
    } else {
      var head := if a[0].count == c then [a[0]] else [];
      assert (a + b)[0] == a[0];
      assert (a + b)[1..] == a[1..] + b;
      assert WithCount(a + b, c) == head + WithCount(a[1..] + b, c);
      WithCountAppend(a[1..], b, c);
      assert WithCount(a, c) == head + WithCount(a[1..], c);
    }
  }

  lemma {:induction false} WithCountBelow(s: seq<TopicCount>, c: nat)
    requires forall i :: 0 <= i < |s| ==> s[i].count < c
    ensures WithCount(s, c) == []
    decreases |s|
  {
    if s != [] {
      WithCountBelow(s[1..], c);
    }
  }

  lemma TailNonIncreasing(s: seq<TopicCount>)
    requires s != [] && NonIncreasing(s)
    ensures NonIncreasing(s[1..])
  {
    var tail := s[1..];
    forall i, j | 0 <= i < j < |tail| ensures tail[i].count >= tail[j].count {
      assert tail[i] == s[i + 1] && tail[j] == s[j + 1];
    }
  }

  lemma ConsNonIncreasing(y: TopicCount, s: seq<TopicCount>)
    requires NonIncreasing(s)
    requires s == [] || y.count >= s[0].count
    ensures NonIncreasing([y] + s)
  {
    var t := [y] + s;
    forall i, j | 0 <= i < j < |t| ensures t[i].count >= t[j].count {
      if i == 0 {
        assert t[j] == s[j - 1];
      } else {
        assert t[i] == s[i - 1] && t[j] == s[j - 1];
      }
    }
  }

  /** Place `x` after every leading item whose count is at least its own. */
  function InsertByCount(x: TopicCount, sorted: seq<TopicCount>): (r: seq<TopicCount>)
    ensures |r| == |sorted| + 1
    decreases |sorted|
  {
    if sorted == [] then [x]
    else if sorted[0].count < x.count then [x] + sorted
    else [sorted[0]] + InsertByCount(x, sorted[1..])
  }

  /** Inserting into a non-increasing list keeps it non-increasing. */
  lemma {:induction false} InsertSorted(x: TopicCount, sorted: seq<TopicCount>)
    requires NonIncreasing(sorted)
    ensures NonIncreasing(InsertByCount(x, sorted))
    ensures var r := InsertByCount(x, sorted); r[0] == x || (sorted != [] && r[0] == sorted[0])
    decreases |sorted|
  {
    if sorted == [] {
    } else if sorted[0].count < x.count {
      ConsNonIncreasing(x, sorted);
    } else {
      var tail := sorted[1..];
      TailNonIncreasing(sorted);
      InsertSorted(x, tail);
      assert tail != [] ==> tail[0] == sorted[1];
      ConsNonIncreasing(sorted[0], InsertByCount(x, tail));
    }
  }

  /** Inserting adds exactly the item. */
  lemma {:induction false} InsertPermutation(x: TopicCount, sorted: seq<TopicCount>)
    ensures multiset(InsertByCount(x, sorted)) == multiset(sorted) + multiset{x}
    decreases |sorted|
  {
    if sorted != [] && sorted[0].count >= x.count {
      InsertPermutation(x, sorted[1..]);
      assert sorted == [sorted[0]] + sorted[1..];
    }
  }

  lemma {:induction false} InsertKeepsTies(x: TopicCount, sorted: seq<TopicCount>, c: nat)
    requires NonIncreasing(sorted)
    ensures WithCount(InsertByCount(x, sorted), c) == WithCount(sorted, c) + WithCount([x], c)
    decreases |sorted|
  {
    assert WithCount([x], c) == if x.count == c then [x] else [] by {
      assert [x][1..] == [];
    }
    if sorted == [] {
    } else if sorted[0].count < x.count {
      assert InsertByCount(x, sorted) == [x] + sorted;
      WithCountAppend([x], sorted, c);
      if x.count == c {
        WithCountBelow(sorted, c);
      }
    } else {
      var head := if sorted[0].count == c then [sorted[0]] else [];
      var rest := InsertByCount(x, sorted[1..]);
      TailNonIncreasing(sorted);
      InsertKeepsTies(x, sorted[1..], c);
      assert ([sorted[0]] + rest)[0] == sorted[0];
      assert ([sorted[0]] + rest)[1..] == rest;
      assert WithCount(InsertByCount(x, sorted), c) == head + WithCount(rest, c);
      assert WithCount(sorted, c) == head + WithCount(sorted[1..], c);
    }
  }

  /**
   * `sorted(items, key=lambda x: x[1], reverse=True)`: a stable sort by
   * decreasing count, here as an insertion sort.
   */
  function SortByCount(items: seq<TopicCount>): (r: seq<TopicCount>)
    ensures |r| == |items|
    decreases |items|
  {
    if items == [] then []
    else InsertByCount(items[|items| - 1], SortByCount(items[..|items| - 1]))
  }

  /** The sort's result is non-increasing by count. */
  lemma {:induction false} SortSorted(items: seq<TopicCount>)
    ensures NonIncreasing(SortByCount(items))
    decreases |items|
  {
    if items != [] {
      var prefix := items[..|items| - 1];
      SortSorted(prefix);
      InsertSorted(items[|items| - 1], SortByCount(prefix));
    }
  }

  /** The sort's result is a permutation of its input. */
  lemma {:induction false} SortPermutation(items: seq<TopicCount>)
    ensures multiset(SortByCount(items)) == multiset(items)
    decreases |items|
  {
    if items != [] {
      var prefix := items[..|items| - 1];
      var last := items[|items| - 1];
      SortPermutation(prefix);
      InsertPermutation(last, SortByCount(prefix));
      Seqs.LastSplit(items);
    }
  }

  /** The sort neither adds nor drops an item. */
  lemma SortSameItems(items: seq<TopicCount>)
    ensures forall x :: x in SortByCount(items) <==> x in items
  {
    var r := SortByCount(items);
    SortPermutation(items);
    forall x ensures x in r <==> x in items {
      assert x in r <==> x in multiset(r);
      assert x in items <==> x in multiset(items);
    }
  }

  /** Ties keep their order: for every count, the items with that count come out in the order they went in. */
  lemma {:induction false} SortIsStable(items: seq<TopicCount>, c: nat)
    ensures WithCount(SortByCount(items), c) == WithCount(items, c)
    decreases |items|
  {
    if items != [] {
      var prefix := items[..|items| - 1];
      var last := items[|items| - 1];
      var sortedPrefix := SortByCount(prefix);
      assert SortByCount(items) == InsertByCount(last, sortedPrefix);
      SortIsStable(prefix, c);
      SortSorted(prefix);
      InsertKeepsTies(last, sortedPrefix, c);
      Seqs.LastSplit(items);
      WithCountAppend(prefix, [last], c);
    }
  }

  // ---------------------------------------------------------------------------
  // Topics stay distinct
  // ---------------------------------------------------------------------------

  /** No topic is listed twice. */
  predicate DistinctTopics(s: seq<TopicCount>) {
    forall i, j :: 0 <= i < j < |s| ==> s[i].topic != s[j].topic
  }

  lemma ConsDistinctTopics(y: TopicCount, s: seq<TopicCount>)
    requires DistinctTopics(s)
    requires forall z :: z in s ==> z.topic != y.topic
    ensures DistinctTopics([y] + s)
  {
    var t := [y] + s;
    forall i, j | 0 <= i < j < |t| ensures t[i].topic != t[j].topic {
      assert t[j] == s[j - 1];
      if i > 0 {
        assert t[i] == s[i - 1];
      }
    }
  }

  /** Inserting an item whose topic is new keeps the topics distinct. */
  lemma {:induction false} InsertDistinct(x: TopicCount, sorted: seq<TopicCount>)
    requires DistinctTopics(sorted)
    requires forall z :: z in sorted ==> z.topic != x.topic
    ensures DistinctTopics(InsertByCount(x, sorted))
    decreases |sorted|
  {
    if sorted == [] {
    } else if sorted[0].count < x.count {
      ConsDistinctTopics(x, sorted);
    } else {
      var tail := sorted[1..];
      InsertDistinct(x, tail);
      var rest := InsertByCount(x, tail);
      InsertPermutation(x, tail);
      forall z | z in rest ensures z.topic != sorted[0].topic {
        assert z in multiset(rest);
        if z != x {
          assert z in multiset(tail);
          var k :| 0 <= k < |tail| && tail[k] == z;
          assert sorted[k + 1] == z;
        }
      }
      ConsDistinctTopics(sorted[0], rest);
    }
  }

  /** Sorting items with distinct topics keeps them distinct. */
  lemma {:induction false} SortDistinct(items: seq<TopicCount>)
    requires DistinctTopics(items)
    ensures DistinctTopics(SortByCount(items))
    decreases |items|
  {
    if items != [] {
      var prefix := items[..|items| - 1];
      var last := items[|items| - 1];
      assert DistinctTopics(prefix) by {
        forall i, j | 0 <= i < j < |prefix| ensures prefix[i].topic != prefix[j].topic {
          assert prefix[i] == items[i] && prefix[j] == items[j];
        }
      }
      SortDistinct(prefix);
      SortSameItems(prefix);
      forall z | z in SortByCount(prefix) ensures z.topic != last.topic {
        var k :| 0 <= k < |prefix| && prefix[k] == z;
        assert items[k] == z;
      }
      InsertDistinct(last, SortByCount(prefix));
    }
  }

  // ---------------------------------------------------------------------------
  // Counts add up
  // ---------------------------------------------------------------------------

  lemma {:induction false} ItemsAgree(order: seq<string>, m1: map<string, nat>, m2: map<string, nat>)
    requires forall k :: k in order ==> k in m1 && k in m2 && m1[k] == m2[k]
    ensures Items(order, m1) == Items(order, m2)
  {
  }

  lemma ItemsSnoc(order: seq<string>, z: string, m: map<string, nat>)
    requires forall k :: k in order ==> k in m
    requires z in m
    ensures Items(order + [z], m) == Items(order, m) + [TopicCount(z, m[z])]
  {
    assert (order + [z])[..|order|] == order;
  }

  lemma SumSnoc(items: seq<TopicCount>, y: TopicCount)
    ensures SumCounts(items + [y]) == SumCounts(items) + y.count
  {
    assert (items + [y])[..|items|] == items;
  }

  lemma {:induction false} SumAppend(a: seq<TopicCount>, b: seq<TopicCount>)
    ensures SumCounts(a + b) == SumCounts(a) + SumCounts(b)
    decreases |b|
  {
    if b == [] {
      assert a + b == a;
    } else {
      assert (a + b)[..|a + b| - 1] == a + b[..|b| - 1];
      SumAppend(a, b[..|b| - 1]);
    }
  }

  lemma SumCons(y: TopicCount, s: seq<TopicCount>)
    ensures SumCounts([y] + s) == y.count + SumCounts(s)
  {
    SumAppend([y], s);
    assert [y][..0] == [];
  }

  /** Inserting an item adds its count to the total. */
  lemma {:induction false} SumInsert(x: TopicCount, sorted: seq<TopicCount>)
    ensures SumCounts(InsertByCount(x, sorted)) == SumCounts(sorted) + x.count
    decreases |sorted|
  {
    if sorted == [] {
      SumCons(x, []);
    } else if sorted[0].count < x.count {
      SumCons(x, sorted);
    } else {
      SumInsert(x, sorted[1..]);
      SumCons(sorted[0], InsertByCount(x, sorted[1..]));
      SumCons(sorted[0], sorted[1..]);
      assert [sorted[0]] + sorted[1..] == sorted;
    }
  }

  /** Sorting does not change the total. */
  lemma {:induction false} SumSort(items: seq<TopicCount>)
    ensures SumCounts(SortByCount(items)) == SumCounts(items)
    decreases |items|
  {
    if items != [] {
      var prefix := items[..|items| - 1];
      SumSort(prefix);
      SumInsert(items[|items| - 1], SortByCount(prefix));
    }
  }

  lemma {:induction false} SumBump(order: seq<string>, m: map<string, nat>, k: string)
    requires Seqs.NoDuplicates(order)
    requires forall x :: x in order ==> x in m
    requires k in order
    ensures SumCounts(Items(order, m[k := m[k] + 1])) == SumCounts(Items(order, m)) + 1
    decreases |order|
  {
    var prefix := order[..|order| - 1];
    var z := order[|order| - 1];
    var m' := m[k := m[k] + 1];
    Seqs.LastSplit(order);
    Seqs.NoDuplicatesLast(order);
    ItemsSnoc(prefix, z, m);
    ItemsSnoc(prefix, z, m');
    SumSnoc(Items(prefix, m), TopicCount(z, m[z]));
    SumSnoc(Items(prefix, m'), TopicCount(z, m'[z]));
    if z == k {
      ItemsAgree(prefix, m, m');
    } else {
      SumBump(prefix, m, k);
    }
  }

  lemma SumAfterRepeat(prefix: seq<string>, k: string)
    requires k in prefix
    ensures SumCounts(CountedItems(prefix + [k])) == SumCounts(CountedItems(prefix)) + 1
  {
    var d, t := Seqs.Dedup(prefix), Tally(prefix);
    OrderKeysCounted(prefix);
    TallyCounts(prefix, k);
    Seqs.DedupMembers(prefix, k);
    assert k in d && k in t;
    var t' := t[k := t[k] + 1];
    assert Seqs.Dedup(prefix + [k]) == d by { DedupStep(prefix, k); }
    assert Tally(prefix + [k]) == t' by { TallyStep(prefix, k); }
    Seqs.DedupDistinct(prefix);
    SumBump(d, t, k);
  }

  lemma SumAfterFresh(prefix: seq<string>, k: string)
    requires k !in prefix
    ensures SumCounts(CountedItems(prefix + [k])) == SumCounts(CountedItems(prefix)) + 1
  {
    var d, t := Seqs.Dedup(prefix), Tally(prefix);
    OrderKeysCounted(prefix);
    TallyCounts(prefix, k);
    var t' := t[k := 1];
    assert Seqs.Dedup(prefix + [k]) == d + [k] by { DedupStep(prefix, k); }
    assert Tally(prefix + [k]) == t' by { TallyStep(prefix, k); }
    ItemsSnoc(d, k, t');
    SumSnoc(Items(d, t'), TopicCount(k, 1));
    ItemsAgree(d, t, t');
  }

  /** Each piece adds exactly one: the counts of all topics sum to the number of pieces. */
  lemma {:induction false} CountsSumToPieces(ps: seq<string>)
    ensures SumCounts(CountedItems(ps)) == |ps|
    decreases |ps|
  {
    if ps != [] {
      var prefix := ps[..|ps| - 1];
      var k := ps[|ps| - 1];
      CountsSumToPieces(prefix);
      Seqs.LastSplit(ps);
      if k in prefix {
        SumAfterRepeat(prefix, k);
      } else {
        SumAfterFresh(prefix, k);
      }
    }
  }

  // ---------------------------------------------------------------------------
  // The endpoint
  // ---------------------------------------------------------------------------

  /** The `SELECT topics ... WHERE topics IS NOT NULL` query, run or failed. */
  datatype TopicQuery = QueryFailed(message: string) | Rows(topics: seq<string>)

  /** What the dict holds: one item per distinct piece, each piece once, carrying its number of occurrences. */
  lemma CountedItemsMeaning(ps: seq<string>)
    ensures var items := CountedItems(ps);
      && (forall i :: 0 <= i < |items| ==> items[i].count == Seqs.Occurrences(ps, items[i].topic) >= 1)
      && (forall t :: t in ps <==> exists i :: 0 <= i < |items| && items[i].topic == t)
      && DistinctTopics(items)
  {
    var items, d := CountedItems(ps), Seqs.Dedup(ps);
    Seqs.DedupDistinct(ps);
    assert DistinctTopics(items) by {
      forall i, j | 0 <= i < j < |items| ensures items[i].topic != items[j].topic {
        assert items[i].topic == d[i] && items[j].topic == d[j];
      }
    }
    forall i | 0 <= i < |items|
      ensures items[i].count == Seqs.Occurrences(ps, items[i].topic) >= 1
    {
      Seqs.DedupMembers(ps, d[i]);
      TallyCounts(ps, d[i]);
      Seqs.OccurrencesAbsent(ps, d[i]);
    }
    forall t | t in ps
      ensures exists i :: 0 <= i < |items| && items[i].topic == t
    {
      Seqs.DedupMembers(ps, t);
      var i :| 0 <= i < |d| && d[i] == t;
      assert items[i].topic == t;
    }
    forall t | (exists i :: 0 <= i < |items| && items[i].topic == t)
      ensures t in ps
    {
      var i :| 0 <= i < |items| && items[i].topic == t;
      Seqs.DedupMembers(ps, d[i]);
    }
  }

  /** The response of `get_topic_stats` for the pieces `ps`. */
  function TopicStats(ps: seq<string>): (r: seq<TopicCount>)
    ensures |r| == |Seqs.Dedup(ps)|
    ensures r == [] <==> ps == []
  {
    SortByCount(CountedItems(ps))
  }

  /** Each listed topic carries its number of occurrences, and exactly the pieces are listed, each once. */
  lemma TopicStatsItems(ps: seq<string>)
    ensures var r := TopicStats(ps);
      && (forall i :: 0 <= i < |r| ==> r[i].count == Seqs.Occurrences(ps, r[i].topic) >= 1)
      && (forall t :: t in ps <==> exists i :: 0 <= i < |r| && r[i].topic == t)
      && DistinctTopics(r)
  {
    var items := CountedItems(ps);
    var r := SortByCount(items);
    SortSameItems(items);
    CountedItemsMeaning(ps);
    SortDistinct(items);
    forall i | 0 <= i < |r|
      ensures r[i].count == Seqs.Occurrences(ps, r[i].topic) >= 1
    {
      assert r[i] in items;
      var j :| 0 <= j < |items| && items[j] == r[i];
    }
    forall t | t in ps
      ensures exists i :: 0 <= i < |r| && r[i].topic == t
    {
      var j :| 0 <= j < |items| && items[j].topic == t;
      assert items[j] in r;
      var i :| 0 <= i < |r| && r[i] == items[j];
    }
    forall t | (exists i :: 0 <= i < |r| && r[i].topic == t)
      ensures t in ps
    {
      var i :| 0 <= i < |r| && r[i].topic == t;
      assert r[i] in items;
      var j :| 0 <= j < |items| && items[j] == r[i];
    }
  }

  /**
   * Every distinct piece is listed once with its number of occurrences, by
   * non-increasing count, equal counts in first-appearance order, and the
   * counts add up to the number of pieces.
   */
  lemma TopicStatsMeaning(ps: seq<string>)
    ensures var r := TopicStats(ps);
      && NonIncreasing(r)
      && (forall i :: 0 <= i < |r| ==> r[i].count == Seqs.Occurrences(ps, r[i].topic) >= 1)
      && (forall t :: t in ps <==> exists i :: 0 <= i < |r| && r[i].topic == t)
      && DistinctTopics(r)
      && (forall c :: WithCount(r, c) == WithCount(CountedItems(ps), c))
      && SumCounts(r) == |ps|
  {
    var items := CountedItems(ps);
    SortSorted(items);
    TopicStatsItems(ps);
    forall c | true ensures WithCount(SortByCount(items), c) == WithCount(items, c) {
      SortIsStable(items, c);
    }
    CountsSumToPieces(ps);
    SumSort(items);
  }

  /** `get_topic_stats`: the topic statistics of the fetched rows, or an HTTP 500 (`None`) when the query fails. */
  method GetTopicStats(q: TopicQuery) returns (r: Option<seq<TopicCount>>)
    ensures q.QueryFailed? <==> r.None?
    ensures r.Some? ==> r.value == TopicStats(AllPieces(q.topics))
  {
    if q.QueryFailed? {
      return None;
    }
    var order, counts := CountTopics(q.topics);
    OrderKeysCounted(AllPieces(q.topics));
    var items := Items(order, counts);
    r := Some(SortByCount(items));
  }

  // ---------------------------------------------------------------------------
  // Storing and counting back
  // ---------------------------------------------------------------------------

  /** `','.join(topics)`, the value stored for one review. */
  function StoredTopics(topics: seq<string>): string {
    Text.Join(topics, ',')
  }

  function StoredRows(lists: seq<seq<string>>): (rows: seq<string>)
    ensures |rows| == |lists| && forall i :: 0 <= i < |lists| ==> rows[i] == StoredTopics(lists[i])
  {
    seq(|lists|, i requires 0 <= i < |lists| => StoredTopics(lists[i]))
  }

  /** A topic that survives storing: non-empty, without a comma, without surrounding white space. */
  predicate Storable(t: string) {
    t != [] && ',' !in t && Text.IsTrimmed(t)
  }

  lemma StoredRowPieces(topics: seq<string>)
    requires forall j :: 0 <= j < |topics| ==> Storable(topics[j])
    ensures RowPieces(StoredTopics(topics)) == topics
  {
    if topics != [] {
      var joined := StoredTopics(topics);
      assert joined != [] by {
        if |topics| == 1 { assert joined == topics[0]; }
        else { assert |joined| >= 1; }
      }
      Text.SplitJoin(topics, ',');
      forall j | 0 <= j < |topics| ensures Text.Strip(topics[j]) == topics[j] {
        Text.StripTrimmed(topics[j]);
      }
    }
  }

  /**
   * Storing each review's topics with `','.join` and counting them back
   * yields exactly the topics of all reviews, in order; a review without
   * topics contributes nothing.
   */
  lemma {:induction false} StoreThenCount(lists: seq<seq<string>>)
    requires forall i, j :: 0 <= i < |lists| && 0 <= j < |lists[i]| ==> Storable(lists[i][j])
    ensures AllPieces(StoredRows(lists)) == Seqs.Flatten(lists)
    decreases |lists|
  {
    if lists != [] {
      var prefix := lists[..|lists| - 1];
      assert StoredRows(lists)[..|lists| - 1] == StoredRows(prefix);
      StoreThenCount(prefix);
      StoredRowPieces(lists[|lists| - 1]);
    }
  }

  /** Hence the stored strings give the same counts, in the same key order, as the topic lists themselves. */
  lemma StoredCountsMatch(lists: seq<seq<string>>)
    requires forall i, j :: 0 <= i < |lists| && 0 <= j < |lists[i]| ==> Storable(lists[i][j])
    ensures Tally(AllPieces(StoredRows(lists))) == Tally(Seqs.Flatten(lists))
    ensures Seqs.Dedup(AllPieces(StoredRows(lists))) == Seqs.Dedup(Seqs.Flatten(lists))
  {
    StoreThenCount(lists);
  }
}
