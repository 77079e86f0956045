/**
 * Trend mining over a scored batch (backend/app/services/viral_detection.py,
 * `detect_trending_patterns`): tier counts, the viral share, mean score per
 * media type, hashtags over-represented in viral posts, mean score per hour
 * of day and per weekday, which sub-score drives the viral posts, and
 * rule-based recommendations.
 *
 * The hashtag and timing passes walk the INPUT list by position but read the
 * classification at the same position of the SORTED batch, so tags and
 * timestamps are credited to whichever entry sorted into that position. The
 * model keeps this pairing as the source writes it.
 */
module TrendPatterns {

  import opened Wrappers
  import opened Text
  import opened Rounding
  import opened StableSort
  import opened Tally
  import opened ViralDetection

  // ---------------------------------------------------------------------------
  // Partitions of the batch
  // ---------------------------------------------------------------------------

  predicate IsViral(e: BatchEntry) {
    e.Scored? && (e.virality.tier == Viral || e.virality.tier == SuperViral)
  }

  predicate IsNormal(e: BatchEntry) {
    e.Scored? && e.virality.tier == Normal
  }

  /** `[c for c in entries if p(c)]` */
  function Filter<T(!new)>(s: seq<T>, p: T -> bool): (r: seq<T>)
    ensures |r| <= |s|
  {
    if s == [] then []
    else
      var init, last := s[..|s| - 1], s[|s| - 1];
      assert s == init + [last];
      Filter(init, p) + (if p(last) then [last] else [])
  }

  /** Filtering keeps every occurrence of a kept element and none of the others. */
  lemma {:induction false} FilterMultiset<T(!new)>(s: seq<T>, p: T -> bool)
    ensures forall x :: multiset(Filter(s, p))[x] == if p(x) then multiset(s)[x] else 0
    ensures forall x :: x in Filter(s, p) <==> x in s && p(x)
  {
    if s != [] {
      var init, last := s[..|s| - 1], s[|s| - 1];
      FilterMultiset(init, p);
      assert s == init + [last];
    }
    forall x ensures x in Filter(s, p) <==> x in s && p(x) {
      assert x in Filter(s, p) <==> x in multiset(Filter(s, p));
      assert x in s <==> x in multiset(s);
    }
  }

  /** Filtering keeps the order of the kept elements: it distributes over concatenation. */
  lemma {:induction false} FilterConcat<T(!new)>(a: seq<T>, b: seq<T>, p: T -> bool)
    ensures Filter(a + b, p) == Filter(a, p) + Filter(b, p)
  {
    if b == [] {
      assert a + b == a;
    } else {
      var init, last := b[..|b| - 1], b[|b| - 1];
      FilterConcat(a, init, p);
      assert b == init + [last];
      FilterConcatStep(a, init, last, p);
    }
  }

  /** The inductive step of `FilterConcat`: one more element at the end of the second part. */
  lemma FilterConcatStep<T(!new)>(a: seq<T>, init: seq<T>, last: T, p: T -> bool)
    requires Filter(a + init, p) == Filter(a, p) + Filter(init, p)
    ensures Filter(a + (init + [last]), p) == Filter(a, p) + Filter(init + [last], p)
  {
    assert a + (init + [last]) == (a + init) + [last];
    FilterSnoc(a + init, last, p);
    FilterSnoc(init, last, p);
  }

  /** Filtering a sequence with one more element at the end. */
  lemma FilterSnoc<T(!new)>(s: seq<T>, x: T, p: T -> bool)
    ensures Filter(s + [x], p) == Filter(s, p) + (if p(x) then [x] else [])
  {
    assert (s + [x])[..|s|] == s;
  }

  /** The tier counts of the report (`classification_breakdown`). */
  datatype Breakdown = Breakdown(superViral: nat, viral: nat, aboveAverage: nat, normal: nat, error: nat)

  /** Count one more entry under its own tier, or under `error`. */
  function Tick(b: Breakdown, e: BatchEntry): Breakdown {
    if e.Failed? then b.(error := b.error + 1)
    else match e.virality.tier
      case SuperViral => b.(superViral := b.superViral + 1)
      case Viral => b.(viral := b.viral + 1)
      case AboveAverage => b.(aboveAverage := b.aboveAverage + 1)
      case Normal => b.(normal := b.normal + 1)
  }

  function BreakdownOf(cs: seq<BatchEntry>): Breakdown {
    if cs == [] then Breakdown(0, 0, 0, 0, 0) else Tick(BreakdownOf(cs[..|cs| - 1]), cs[|cs| - 1])
  }

  function BreakdownSum(b: Breakdown): nat {
    b.superViral + b.viral + b.aboveAverage + b.normal + b.error
  }

  /** Every entry falls in exactly one of the five counts, so they add up to the batch size. */
  lemma {:induction false} BreakdownCovers(cs: seq<BatchEntry>)
    ensures BreakdownSum(BreakdownOf(cs)) == |cs|
  {
    if cs != [] {
      BreakdownCovers(cs[..|cs| - 1]);
    }
  }

  /** The viral entries are those counted as viral or super viral. */
  lemma {:induction false} ViralCounted(cs: seq<BatchEntry>)
    ensures |Filter(cs, IsViral)| == BreakdownOf(cs).superViral + BreakdownOf(cs).viral
  {
    if cs != [] {
      var init, last := cs[..|cs| - 1], cs[|cs| - 1];
      ViralCounted(init);
      assert Filter(cs, IsViral) == Filter(init, IsViral) + (if IsViral(last) then [last] else []);
    }
  }

  /** The normal entries are those counted as normal. */
  lemma {:induction false} NormalCounted(cs: seq<BatchEntry>)
    ensures |Filter(cs, IsNormal)| == BreakdownOf(cs).normal
  {
    if cs != [] {
      var init, last := cs[..|cs| - 1], cs[|cs| - 1];
      NormalCounted(init);
      assert Filter(cs, IsNormal) == Filter(init, IsNormal) + (if IsNormal(last) then [last] else []);
    }
  }

  /** `len(viral_items) / max(total, 1) * 100` */
  function ViralRatio(cs: seq<BatchEntry>): (r: real)
    ensures 0.0 <= r <= 100.0
  {
    var v, d := |Filter(cs, IsViral)| as real, MaxR(|cs| as real, 1.0);
    FractionBounds(v, d);
    v / d * 100.0
  }

  /** A part of a positive whole is between none and all of it. */
  lemma FractionBounds(p: real, t: real)
    requires 0.0 <= p <= t && 0.0 < t
    ensures 0.0 <= p / t <= 1.0
  {
    assert p / t * t == p;
  }

  // ---------------------------------------------------------------------------
  // Mean score per media type
  // ---------------------------------------------------------------------------

  /** `item.get("media_type", "unknown")` of a batch entry; error entries have none. */
  function MediaKey(e: BatchEntry): Option<string> {
    if e.Scored? then e.mediaType else Some("unknown")
  }

  /** The scores of the entries whose media key is `k`, in batch order. */
  function MediaScores(cs: seq<BatchEntry>, k: Option<string>): seq<real> {
    if cs == [] then []
    else MediaScores(cs[..|cs| - 1], k) + (if MediaKey(cs[|cs| - 1]) == k then [EntryScore(cs[|cs| - 1])] else [])
  }

  /**
   * The scores grouped by media type, in first-seen order of the sorted batch:
   * one group per media key that occurs, holding exactly that key's scores.
   */
  function MediaGroups(cs: seq<BatchEntry>): (g: Groups<Option<string>, real>)
    ensures NonEmptyGroups(g) && DistinctKeys(g)
    ensures Size(g) == |cs|
    ensures forall k :: ValuesOf(g, k) == MediaScores(cs, k)
  {
    if cs == [] then []
    else
      var g0, e := MediaGroups(cs[..|cs| - 1]), cs[|cs| - 1];
      AddToValues(g0, MediaKey(e), EntryScore(e));
      AddToDistinct(g0, MediaKey(e), EntryScore(e));
      AddTo(g0, MediaKey(e), EntryScore(e))
  }

  /** `round(sum(scores) / len(scores), 1)` for every group, keeping the group order. */
  function Averages<K>(g: Groups<K, real>): (r: seq<(K, real)>)
    requires NonEmptyGroups(g)
    ensures |r| == |g|
    ensures forall i :: 0 <= i < |g| ==> r[i].0 == g[i].0 && r[i].1 == Round(Mean(g[i].1), Tenths)
  {
    seq(|g|, i requires 0 <= i < |g| => (g[i].0, Round(Mean(g[i].1), Tenths)))
  }

  /**
   * The report's media-type averages: one entry per media key that occurs in
   * the batch, each the rounded mean of exactly that key's scores.
   */
  lemma TypeAverages(cs: seq<BatchEntry>)
    ensures forall i :: 0 <= i < |Averages(MediaGroups(cs))| ==>
      var a := Averages(MediaGroups(cs))[i];
      MediaScores(cs, a.0) != [] && a.1 == Round(Mean(MediaScores(cs, a.0)), Tenths)
    ensures forall k :: k in Keys(Averages(MediaGroups(cs))) <==> MediaScores(cs, k) != []
  {
    var g := MediaGroups(cs);
    var avg := Averages(g);
    forall i | 0 <= i < |avg|
      ensures MediaScores(cs, avg[i].0) != [] && avg[i].1 == Round(Mean(MediaScores(cs, avg[i].0)), Tenths)
    {
      ValuesOfStored(g, i);
      assert |g[i].1| >= 1;
    }
    forall k ensures k in Keys(avg) <==> MediaScores(cs, k) != [] {
      KeyHoldsValues(g, k);
      SameKeys(avg, g, k);
    }
  }

  // ---------------------------------------------------------------------------
  // Hashtags
  // ---------------------------------------------------------------------------

  /** The tags of input positions `0..n` whose SORTED entry at the same position is viral. */
  function ViralTags(items: seq<ContentItem>, cs: seq<BatchEntry>, n: nat): seq<string>
    requires n <= |items| == |cs|
  {
    if n == 0 then [] else ViralTags(items, cs, n - 1) + (if IsViral(cs[n - 1]) then items[n - 1].hashtags else [])
  }

  /** The tags of the other positions, including above-average and error entries. */
  function NormalTags(items: seq<ContentItem>, cs: seq<BatchEntry>, n: nat): seq<string>
    requires n <= |items| == |cs|
  {
    if n == 0 then [] else NormalTags(items, cs, n - 1) + (if IsViral(cs[n - 1]) then [] else items[n - 1].hashtags)
  }

  function AllTags(items: seq<ContentItem>, n: nat): seq<string>
    requires n <= |items|
  {
    if n == 0 then [] else AllTags(items, n - 1) + items[n - 1].hashtags
  }

  /** Every tag goes to exactly one of the two pools. */
  lemma {:induction false} TagPoolsPartition(items: seq<ContentItem>, cs: seq<BatchEntry>, n: nat)
    requires n <= |items| == |cs|
    ensures multiset(ViralTags(items, cs, n)) + multiset(NormalTags(items, cs, n)) == multiset(AllTags(items, n))
  {
    if n > 0 {
      TagPoolsPartition(items, cs, n - 1);
      var tags := items[n - 1].hashtags;
      var v, w, all := ViralTags(items, cs, n - 1), NormalTags(items, cs, n - 1), AllTags(items, n - 1);
      PartitionStep(v, w, all, tags);
      if IsViral(cs[n - 1]) {
        assert ViralTags(items, cs, n) == v + tags && NormalTags(items, cs, n) == w;
      } else {
        assert ViralTags(items, cs, n) == v && NormalTags(items, cs, n) == w + tags;
      }
    }
  }

  /** Adding the same tags to one part of a split and to the whole keeps the split. */
  lemma PartitionStep(v: seq<string>, w: seq<string>, all: seq<string>, tags: seq<string>)
    requires multiset(v) + multiset(w) == multiset(all)
    ensures multiset(v + tags) + multiset(w) == multiset(all + tags)
    ensures multiset(v) + multiset(w + tags) == multiset(all + tags)
  {
    assert multiset(v + tags) == multiset(v) + multiset(tags);
    assert multiset(w + tags) == multiset(w) + multiset(tags);
    assert multiset(all + tags) == multiset(all) + multiset(tags);
  }

  /** `Counter(viral_hashtags).most_common(10)` */
  function Candidates(viralTags: seq<string>): (r: seq<(string, nat)>)
    ensures |r| <= 10
  {
    Take(MostCommon(viralTags), 10)
  }

  /** Each candidate carries its number of occurrences in the viral pool. */
  lemma CandidatesCounted(viralTags: seq<string>)
    ensures forall i :: 0 <= i < |Candidates(viralTags)| ==>
      Candidates(viralTags)[i].1 == multiset(viralTags)[Candidates(viralTags)[i].0] >= 1
  {
    var sorted := MostCommon(viralTags);
    var cands := Candidates(viralTags);
    MostCommonExact(viralTags);
    forall i | 0 <= i < |cands|
      ensures cands[i].1 == multiset(viralTags)[cands[i].0] >= 1
    {
      assert cands[i] == sorted[i];
      assert sorted[i] in sorted;
    }
  }

  /**
   * The candidates are the most frequent viral tags: every viral tag is a
   * candidate or occurs no more often than any candidate.
   */
  lemma CandidatesAreMostFrequent(viralTags: seq<string>)
    ensures forall t :: t in viralTags ==>
      || (exists i :: 0 <= i < |Candidates(viralTags)| && Candidates(viralTags)[i].0 == t)
      || (forall i :: 0 <= i < |Candidates(viralTags)| ==> multiset(viralTags)[t] <= Candidates(viralTags)[i].1)
  {
    MostCommonExact(viralTags);
    MostCommonKeys(viralTags);
    forall t | t in viralTags
      ensures || (exists i :: 0 <= i < |Candidates(viralTags)| && Candidates(viralTags)[i].0 == t)
              || (forall i :: 0 <= i < |Candidates(viralTags)| ==> multiset(viralTags)[t] <= Candidates(viralTags)[i].1)
    {
      var sorted := MostCommon(viralTags);
      assert t in Keys(sorted);
      var j :| 0 <= j < |sorted| && Keys(sorted)[j] == t;
      CandidateOrBelow(viralTags, j);
    }
  }

  /** The tag at position `j` of the sorted counts is a candidate or counts no more than any candidate. */
  lemma CandidateOrBelow(viralTags: seq<string>, j: nat)
    requires j < |MostCommon(viralTags)|
    requires forall p :: p in MostCommon(viralTags) ==> p.1 == multiset(viralTags)[p.0] >= 1
    ensures var t := MostCommon(viralTags)[j].0;
      || (exists i :: 0 <= i < |Candidates(viralTags)| && Candidates(viralTags)[i].0 == t)
      || (forall i :: 0 <= i < |Candidates(viralTags)| ==> multiset(viralTags)[t] <= Candidates(viralTags)[i].1)
  {
    var sorted := MostCommon(viralTags);
    var cands := Candidates(viralTags);
    assert sorted[j] in sorted;
    if j < |cands| {
      assert cands[j] == sorted[j];
    } else {
      forall i | 0 <= i < |cands| ensures multiset(viralTags)[sorted[j].0] <= cands[i].1 {
        assert cands[i] == sorted[i];
        assert CountOf(sorted[i]) >= CountOf(sorted[j]);
      }
    }
  }

  datatype TrendingTag = TrendingTag(tag: string, viralCount: nat, lift: real)

  function LiftKey(t: TrendingTag): real {
    t.lift
  }

  /**
   * How much more often a tag appears per viral entry than per normal entry;
   * a normal frequency below 0.01 counts as 0.01.
   */
  function Lift(viralCount: nat, normalCount: nat, viralItems: nat, normalItems: nat): (r: real)
    ensures 0.0 <= r
  {
    var vf := viralCount as real / MaxR(viralItems as real, 1.0);
    var nf := normalCount as real / MaxR(normalItems as real, 1.0);
    RoundMonotone(0.0, vf / MaxR(nf, 0.01), Hundredths);
    Round(vf / MaxR(nf, 0.01), Hundredths)
  }

  /** A candidate `(tag, viral count)` with its lift against the normal pool's count of the tag. */
  function LiftedTag(c: (string, nat), normalCounts: Counts<string>, viralItems: nat, normalItems: nat): TrendingTag {
    TrendingTag(c.0, c.1, Lift(c.1, Lookup(normalCounts, c.0), viralItems, normalItems))
  }

  /** Every candidate with its lift, in candidate order. */
  function Lifted(cands: seq<(string, nat)>, normalCounts: Counts<string>, viralItems: nat, normalItems: nat)
    : (r: seq<TrendingTag>)
    ensures |r| == |cands|
    ensures forall i :: 0 <= i < |cands| ==> r[i] == LiftedTag(cands[i], normalCounts, viralItems, normalItems)
  {
    seq(|cands|, i requires 0 <= i < |cands| => LiftedTag(cands[i], normalCounts, viralItems, normalItems))
  }

  /**
   * The candidates with their lift, re-sorted by lift, highest first; equal
   * lifts keep candidate order.
   */
  function Trending(cands: seq<(string, nat)>, normalCounts: Counts<string>, viralItems: nat, normalItems: nat)
    : (r: seq<TrendingTag>)
    ensures |r| == |cands|
    ensures multiset(r) == multiset(Lifted(cands, normalCounts, viralItems, normalItems))
    ensures NonIncreasing(r, LiftKey)
    ensures forall k :: WithKey(r, LiftKey, k) == WithKey(Lifted(cands, normalCounts, viralItems, normalItems), LiftKey, k)
  {
    var tags := Lifted(cands, normalCounts, viralItems, normalItems);
    SortDescOrdered(tags, LiftKey);
    SortDescStableAll(tags, LiftKey);
    SortDesc(tags, LiftKey)
  }

  /** The trending list holds exactly the candidates, each with its own lift. */
  lemma TrendingEntries(cands: seq<(string, nat)>, normalCounts: Counts<string>, viralItems: nat, normalItems: nat)
    ensures forall t :: t in Trending(cands, normalCounts, viralItems, normalItems) <==>
      exists c :: c in cands && t == LiftedTag(c, normalCounts, viralItems, normalItems)
  {
    var r := Trending(cands, normalCounts, viralItems, normalItems);
    var tags := Lifted(cands, normalCounts, viralItems, normalItems);
    forall t ensures t in r <==> exists c :: c in cands && t == LiftedTag(c, normalCounts, viralItems, normalItems) {
      assert t in r <==> t in multiset(tags);
      if t in tags {
        var i :| 0 <= i < |tags| && tags[i] == t;
        assert cands[i] in cands;
      }
      if c :| c in cands && t == LiftedTag(c, normalCounts, viralItems, normalItems) {
        var i :| 0 <= i < |cands| && cands[i] == c;
        assert tags[i] == t;
      }
    }
  }

  // ---------------------------------------------------------------------------
  // Timing
  // ---------------------------------------------------------------------------

  /**
   * Scores grouped by `keyOf` of the posting time, over input positions `0..n`
   * that carry a usable timestamp; the score is read at the same position of
   * the sorted batch.
   */
  function TimingGroups<K(==,!new)>(items: seq<ContentItem>, cs: seq<BatchEntry>, n: nat, keyOf: Instant -> K)
    : (g: Groups<K, real>)
    requires n <= |items| == |cs|
    ensures NonEmptyGroups(g) && DistinctKeys(g)
    ensures forall k :: ValuesOf(g, k) == TimingScores(items, cs, n, keyOf, k)
  {
    if n == 0 then [] else TimingStep(TimingGroups(items, cs, n - 1, keyOf), items[n - 1], cs[n - 1], keyOf)
  }

  /** The time key of an item's posting time, if it has a usable timestamp. */
  function StampKey<K>(item: ContentItem, keyOf: Instant -> K): Option<K> {
    match UsableStamp(item.postedAt)
    case None => None
    case Some(s) => Some(keyOf(s.at))
  }

  /**
   * The scores filed under time key `k` from input positions `0..n`, in
   * input order: the score at each position whose item's timestamp has key `k`.
   */
  function TimingScores<K(==)>(items: seq<ContentItem>, cs: seq<BatchEntry>, n: nat, keyOf: Instant -> K, k: K)
    : seq<real>
    requires n <= |items| == |cs|
  {
    if n == 0 then []
    else TimingScores(items, cs, n - 1, keyOf, k)
         + (if StampKey(items[n - 1], keyOf) == Some(k) then [EntryScore(cs[n - 1])] else [])
  }

  /** One turn of the timing loop: file the entry's score under the item's time key, if it has a usable timestamp. */
  function TimingStep<K(==,!new)>(g: Groups<K, real>, item: ContentItem, e: BatchEntry, keyOf: Instant -> K)
    : (r: Groups<K, real>)
    ensures NonEmptyGroups(g) ==> NonEmptyGroups(r)
    ensures DistinctKeys(g) ==> DistinctKeys(r)
    ensures forall k :: k in Keys(r) ==> k in Keys(g) || StampKey(item, keyOf) == Some(k)
    ensures Size(r) == Size(g) + (if UsableStamp(item.postedAt).Some? then 1 else 0)
    ensures forall k :: ValuesOf(r, k) == ValuesOf(g, k) + (if StampKey(item, keyOf) == Some(k) then [EntryScore(e)] else [])
  {
    match UsableStamp(item.postedAt)
    case None => g
    case Some(s) =>
      AddToValues(g, keyOf(s.at), EntryScore(e));
      if DistinctKeys(g) then AddToDistinct(g, keyOf(s.at), EntryScore(e)); AddTo(g, keyOf(s.at), EntryScore(e))
      else AddTo(g, keyOf(s.at), EntryScore(e))
  }

  /** The scores by hour of day: one group per hour that occurs, holding exactly that hour's scores. */
  function HourGroups(items: seq<ContentItem>, cs: seq<BatchEntry>, n: nat): (g: Groups<nat, real>)
    requires n <= |items| == |cs|
    ensures NonEmptyGroups(g) && DistinctKeys(g)
    ensures forall i :: 0 <= i < |g| ==> g[i].0 < 24
    ensures forall h :: ValuesOf(g, h) == TimingScores(items, cs, n, HourOf, h)
  {
    HourKeysBelow(items, cs, n);
    TimingGroups(items, cs, n, HourOf)
  }

  /** The scores by weekday: one group per weekday that occurs, holding exactly that day's scores. */
  function DayGroups(items: seq<ContentItem>, cs: seq<BatchEntry>, n: nat): (g: Groups<Weekday, real>)
    requires n <= |items| == |cs|
    ensures NonEmptyGroups(g) && DistinctKeys(g)
    ensures forall d :: ValuesOf(g, d) == TimingScores(items, cs, n, WeekdayOf, d)
  {
    TimingGroups(items, cs, n, WeekdayOf)
  }

  /** How many of the first `n` items carry a usable timestamp. */
  function Stamped(items: seq<ContentItem>, n: nat): nat
    requires n <= |items|
  {
    if n == 0 then 0 else Stamped(items, n - 1) + (if UsableStamp(items[n - 1].postedAt).Some? then 1 else 0)
  }

  /** Each item with a usable timestamp contributes exactly one score, whatever the key. */
  lemma {:induction false} TimingGroupsSize<K(!new)>(items: seq<ContentItem>, cs: seq<BatchEntry>, n: nat, keyOf: Instant -> K)
    requires n <= |items| == |cs|
    ensures Size(TimingGroups(items, cs, n, keyOf)) == Stamped(items, n)
  {
    if n > 0 {
      TimingGroupsSize(items, cs, n - 1, keyOf);
      var g := TimingGroups(items, cs, n - 1, keyOf);
      assert TimingGroups(items, cs, n, keyOf) == TimingStep(g, items[n - 1], cs[n - 1], keyOf);
    }
  }

  lemma EmptyGroupsSize<K, V>(g: Groups<K, V>)
    requires NonEmptyGroups(g)
    ensures Size(g) == 0 <==> g == []
  {
    if g != [] {
      assert |g[0].1| >= 1;
    }
  }

  /** Hour and weekday groups are filled by the same items, so one is empty exactly when the other is. */
  lemma TimingGroupsTogether(items: seq<ContentItem>, cs: seq<BatchEntry>, n: nat)
    requires n <= |items| == |cs|
    ensures Size(HourGroups(items, cs, n)) == Size(DayGroups(items, cs, n)) == Stamped(items, n)
    ensures HourGroups(items, cs, n) == [] <==> DayGroups(items, cs, n) == []
  {
    TimingGroupsSize(items, cs, n, HourOf);
    TimingGroupsSize(items, cs, n, WeekdayOf);
    EmptyGroupsSize(HourGroups(items, cs, n));
    EmptyGroupsSize(DayGroups(items, cs, n));
  }

  /** `f"{hour:02d}:00"` */
  function HourLabel(h: nat): (s: string)
    requires h < 24
    ensures |s| == 5 && s[2..] == ":00" && AllDigits(s[..2]) && DigitsValue(s[..2]) == h
  {
    var s := PadTwo(h) + ":00";
    assert s[..2] == PadTwo(h);
    s
  }

  /** Averages keyed by hour, with each hour written `"HH:00"`. */
  function Labelled(avgs: seq<(nat, real)>): (r: seq<(string, real)>)
    requires forall i :: 0 <= i < |avgs| ==> avgs[i].0 < 24
    ensures |r| == |avgs|
    ensures forall i :: 0 <= i < |avgs| ==> r[i] == (HourLabel(avgs[i].0), avgs[i].1)
  {
    seq(|avgs|, i requires 0 <= i < |avgs| => (HourLabel(avgs[i].0), avgs[i].1))
  }

  /**
   * The hour averages keyed `"HH:00"`, sorted by average, highest first;
   * equal averages keep first-seen order.
   */
  function BestHours(g: Groups<nat, real>): (r: seq<(string, real)>)
    requires NonEmptyGroups(g)
    requires forall i :: 0 <= i < |g| ==> g[i].0 < 24
    ensures |r| == |g|
    ensures multiset(r) == multiset(Labelled(Averages(g)))
    ensures NonIncreasing(r, ValueKey)
    ensures forall k :: WithKey(r, ValueKey, k) == WithKey(Labelled(Averages(g)), ValueKey, k)
  {
    var labelled := Labelled(Averages(g));
    SortDescOrdered(labelled, ValueKey);
    SortDescStableAll(labelled, ValueKey);
    SortDesc(labelled, ValueKey)
  }

  /** The weekday averages sorted by average, highest first; equal averages keep first-seen order. */
  function BestDays(g: Groups<Weekday, real>): (r: seq<(Weekday, real)>)
    requires NonEmptyGroups(g)
    ensures |r| == |g|
    ensures multiset(r) == multiset(Averages(g))
    ensures NonIncreasing(r, ValueKey)
    ensures forall k :: WithKey(r, ValueKey, k) == WithKey(Averages(g), ValueKey, k)
  {
    SortDescOrdered(Averages(g), ValueKey);
    SortDescStableAll(Averages(g), ValueKey);
    SortDesc(Averages(g), ValueKey)
  }

  /**
   * The best-hours table of the first `n` positions: one entry per hour that
   * received a score, each the rounded mean of exactly that hour's scores.
   */
  lemma BestHoursEntries(items: seq<ContentItem>, cs: seq<BatchEntry>, n: nat)
    requires n <= |items| == |cs|
    ensures forall e :: e in BestHours(HourGroups(items, cs, n)) <==>
      exists h :: h < 24 && TimingScores(items, cs, n, HourOf, h) != []
               && e == (HourLabel(h), Round(Mean(TimingScores(items, cs, n, HourOf, h)), Tenths))
  {
    forall e ensures e in BestHours(HourGroups(items, cs, n)) <==>
      exists h :: h < 24 && TimingScores(items, cs, n, HourOf, h) != []
               && e == (HourLabel(h), Round(Mean(TimingScores(items, cs, n, HourOf, h)), Tenths))
    {
      if e in BestHours(HourGroups(items, cs, n)) {
        BestHourOf(items, cs, n, e);
      }
      if h :| h < 24 && TimingScores(items, cs, n, HourOf, h) != []
              && e == (HourLabel(h), Round(Mean(TimingScores(items, cs, n, HourOf, h)), Tenths)) {
        BestHourPresent(items, cs, n, h);
      }
    }
  }

  /** An entry of the best-hours table is some scored hour's rounded mean. */
  lemma BestHourOf(items: seq<ContentItem>, cs: seq<BatchEntry>, n: nat, e: (string, real))
    requires n <= |items| == |cs|
    requires e in BestHours(HourGroups(items, cs, n))
    ensures exists h :: h < 24 && TimingScores(items, cs, n, HourOf, h) != []
                      && e == (HourLabel(h), Round(Mean(TimingScores(items, cs, n, HourOf, h)), Tenths))
  {
    var g := HourGroups(items, cs, n);
    var labelled := Labelled(Averages(g));
    assert e in multiset(labelled);
    var i :| 0 <= i < |labelled| && labelled[i] == e;
    ValuesOfStored(g, i);
    assert |g[i].1| >= 1;
    var h := g[i].0;
    assert h < 24 && TimingScores(items, cs, n, HourOf, h) != [];
    assert e == (HourLabel(h), Round(Mean(TimingScores(items, cs, n, HourOf, h)), Tenths));
  }

  /** Every hour that received a score appears in the best-hours table with its rounded mean. */
  lemma BestHourPresent(items: seq<ContentItem>, cs: seq<BatchEntry>, n: nat, h: nat)
    requires n <= |items| == |cs|
    requires h < 24 && TimingScores(items, cs, n, HourOf, h) != []
    ensures (HourLabel(h), Round(Mean(TimingScores(items, cs, n, HourOf, h)), Tenths)) in BestHours(HourGroups(items, cs, n))
  {
    var g := HourGroups(items, cs, n);
    var labelled := Labelled(Averages(g));
    KeyHoldsValues(g, h);
    var i :| 0 <= i < |g| && Keys(g)[i] == h;
    ValuesOfStored(g, i);
    assert labelled[i] in multiset(BestHours(g));
  }

  /**
   * The best-days table of the first `n` positions: one entry per weekday
   * that received a score, each the rounded mean of exactly that day's scores.
   */
  lemma BestDaysEntries(items: seq<ContentItem>, cs: seq<BatchEntry>, n: nat)
    requires n <= |items| == |cs|
    ensures forall e :: e in BestDays(DayGroups(items, cs, n)) <==>
      TimingScores(items, cs, n, WeekdayOf, e.0) != []
      && e.1 == Round(Mean(TimingScores(items, cs, n, WeekdayOf, e.0)), Tenths)
  {
    var g := DayGroups(items, cs, n);
    var avgs := Averages(g);
    var r := BestDays(g);
    forall e ensures e in r <==> TimingScores(items, cs, n, WeekdayOf, e.0) != []
                                 && e.1 == Round(Mean(TimingScores(items, cs, n, WeekdayOf, e.0)), Tenths)
    {
      assert e in r <==> e in multiset(avgs);
      if e in avgs {
        var i :| 0 <= i < |avgs| && avgs[i] == e;
        ValuesOfStored(g, i);
        assert |g[i].1| >= 1;
      }
      if TimingScores(items, cs, n, WeekdayOf, e.0) != []
         && e.1 == Round(Mean(TimingScores(items, cs, n, WeekdayOf, e.0)), Tenths) {
        KeyHoldsValues(g, e.0);
        var i :| 0 <= i < |g| && Keys(g)[i] == e.0;
        ValuesOfStored(g, i);
        assert avgs[i] == e;
      }
    }
  }

  /** Every hour group's key is an hour of the day. */
  lemma {:induction false} HourKeysBelow(items: seq<ContentItem>, cs: seq<BatchEntry>, n: nat)
    requires n <= |items| == |cs|
    ensures forall i :: 0 <= i < |TimingGroups<nat>(items, cs, n, HourOf)| ==> TimingGroups<nat>(items, cs, n, HourOf)[i].0 < 24
  {
    if n > 0 {
      HourKeysBelow(items, cs, n - 1);
      var g := TimingGroups<nat>(items, cs, n - 1, HourOf);
      var r := TimingGroups<nat>(items, cs, n, HourOf);
      assert r == TimingStep(g, items[n - 1], cs[n - 1], HourOf);
      forall i | 0 <= i < |r| ensures r[i].0 < 24 {
        assert Keys(r)[i] in Keys(r);
        if Keys(r)[i] in Keys(g) {
          var j :| 0 <= j < |g| && Keys(g)[j] == Keys(r)[i];
        }
      }
    }
  }

  // ---------------------------------------------------------------------------
  // Engagement drivers and recommendations
  // ---------------------------------------------------------------------------

  function EntryRate(e: BatchEntry): real {
    if e.Scored? then e.virality.engagementRate else 0.0
  }

  datatype EngagementPatterns = EngagementPatterns(
    avgEngagementRate: real,
    avgViralityScore: real,
    shareDriven: nat,
    saveDriven: nat,
    velocityDriven: nat)

  function Patterns(cs: seq<BatchEntry>): (p: EngagementPatterns)
    ensures p.shareDriven + p.saveDriven <= |Filter(cs, IsViral)|
  {
    var viral := Filter(cs, IsViral);
    var rates := seq(|cs|, i requires 0 <= i < |cs| => EntryRate(cs[i]));
    var scores := seq(|cs|, i requires 0 <= i < |cs| => EntryScore(cs[i]));
    var share := Filter(viral, (e: BatchEntry) => e.Scored? && e.virality.shareScore > e.virality.saveScore);
    var save := Filter(viral, (e: BatchEntry) => e.Scored? && e.virality.saveScore > e.virality.shareScore);
    DisjointFilters(viral,
                    (e: BatchEntry) => e.Scored? && e.virality.shareScore > e.virality.saveScore,
                    (e: BatchEntry) => e.Scored? && e.virality.saveScore > e.virality.shareScore);
    EngagementPatterns(
      Round(Sum(rates) / MaxR(|cs| as real, 1.0), Hundredths),
      Round(Sum(scores) / MaxR(|cs| as real, 1.0), Tenths),
      |share|, |save|,
      |Filter(viral, (e: BatchEntry) => e.Scored? && e.virality.velocityScore > 60.0)|)
  }

  /** Two conditions that never hold together select at most all of the list between them. */
  lemma {:induction false} DisjointFilters<T(!new)>(s: seq<T>, p: T -> bool, q: T -> bool)
    requires forall x :: !(p(x) && q(x))
    ensures |Filter(s, p)| + |Filter(s, q)| <= |s|
  {
    if s != [] {
      DisjointFilters(s[..|s| - 1], p, q);
    }
  }

  datatype Recommendation =
    | PrioritizeType(mediaType: Option<string>, average: real)
    | ShareDriven
    | SaveDriven
    | LowViralRatio
    | HighViralRatio(ratio: real)
    | TopHashtags(tags: seq<string>)
    | BestSlot(hour: string, day: Weekday)

  function TagNames(ts: seq<TrendingTag>): (r: seq<string>)
    ensures |r| == |ts|
    ensures forall i :: 0 <= i < |ts| ==> r[i] == ts[i].tag
  {
    seq(|ts|, i requires 0 <= i < |ts| => ts[i].tag)
  }

  function TypeRule(topType: Option<string>, topAverage: real): seq<Recommendation> {
    if topType != Some("unknown") then [PrioritizeType(topType, topAverage)] else []
  }

  function DriverRule(p: EngagementPatterns): seq<Recommendation> {
    if p.shareDriven > p.saveDriven then [ShareDriven]
    else if p.saveDriven > p.shareDriven then [SaveDriven] else []
  }

  function RatioRule(ratio: real): seq<Recommendation> {
    if ratio < 10.0 then [LowViralRatio] else if ratio > 30.0 then [HighViralRatio(ratio)] else []
  }

  function HashtagRule(trending: seq<TrendingTag>): seq<Recommendation> {
    if trending != [] then [TopHashtags(TagNames(Take(trending, 3)))] else []
  }

  function SlotRule(bestHours: seq<(string, real)>, bestDays: seq<(Weekday, real)>): seq<Recommendation> {
    if bestHours != [] && bestDays != [] then [BestSlot(bestHours[0].0, bestDays[0].0)] else []
  }

  /** The recommendation rules, in the order the source appends them. */
  function Recommendations(topType: Option<string>, topAverage: real, p: EngagementPatterns, ratio: real,
                           trending: seq<TrendingTag>, bestHours: seq<(string, real)>,
                           bestDays: seq<(Weekday, real)>): seq<Recommendation>
  {
    TypeRule(topType, topAverage) + DriverRule(p) + RatioRule(ratio) + HashtagRule(trending)
    + SlotRule(bestHours, bestDays)
  }

  lemma InFive<T>(a: seq<T>, b: seq<T>, c: seq<T>, d: seq<T>, e: seq<T>, x: T)
    ensures x in a + b + c + d + e <==> x in a || x in b || x in c || x in d || x in e
  {
  }

  /** Each rule fires exactly under its condition; there are at most five recommendations. */
  lemma RecommendationRules(topType: Option<string>, topAverage: real, p: EngagementPatterns, ratio: real,
                            trending: seq<TrendingTag>, bestHours: seq<(string, real)>,
                            bestDays: seq<(Weekday, real)>)
    ensures |Recommendations(topType, topAverage, p, ratio, trending, bestHours, bestDays)| <= 5
    ensures PrioritizeType(topType, topAverage) in Recommendations(topType, topAverage, p, ratio, trending, bestHours, bestDays)
            <==> topType != Some("unknown")
    ensures ShareDriven in Recommendations(topType, topAverage, p, ratio, trending, bestHours, bestDays)
            <==> p.shareDriven > p.saveDriven
    ensures SaveDriven in Recommendations(topType, topAverage, p, ratio, trending, bestHours, bestDays)
            <==> p.saveDriven > p.shareDriven
    ensures LowViralRatio in Recommendations(topType, topAverage, p, ratio, trending, bestHours, bestDays)
            <==> ratio < 10.0
    ensures HighViralRatio(ratio) in Recommendations(topType, topAverage, p, ratio, trending, bestHours, bestDays)
            <==> ratio > 30.0
    ensures TopHashtags(TagNames(Take(trending, 3))) in Recommendations(topType, topAverage, p, ratio, trending, bestHours, bestDays)
            <==> trending != []
    ensures bestHours != [] && bestDays != [] ==>
            BestSlot(bestHours[0].0, bestDays[0].0) in Recommendations(topType, topAverage, p, ratio, trending, bestHours, bestDays)
    ensures forall h, d ::
              BestSlot(h, d) in Recommendations(topType, topAverage, p, ratio, trending, bestHours, bestDays)
              <==> bestHours != [] && bestDays != [] && h == bestHours[0].0 && d == bestDays[0].0
  {
    var a, b, c := TypeRule(topType, topAverage), DriverRule(p), RatioRule(ratio);
    var d, e := HashtagRule(trending), SlotRule(bestHours, bestDays);
    assert Recommendations(topType, topAverage, p, ratio, trending, bestHours, bestDays) == a + b + c + d + e;
    InFive(a, b, c, d, e, PrioritizeType(topType, topAverage));
    InFive(a, b, c, d, e, ShareDriven);
    InFive(a, b, c, d, e, SaveDriven);
    InFive(a, b, c, d, e, LowViralRatio);
    InFive(a, b, c, d, e, HighViralRatio(ratio));
    InFive(a, b, c, d, e, TopHashtags(TagNames(Take(trending, 3))));
    if bestHours != [] && bestDays != [] {
      InFive(a, b, c, d, e, BestSlot(bestHours[0].0, bestDays[0].0));
    }
    forall h, day ensures BestSlot(h, day) in a + b + c + d + e
                          <==> bestHours != [] && bestDays != [] && h == bestHours[0].0 && day == bestDays[0].0
    {
      InFive(a, b, c, d, e, BestSlot(h, day));
    }
  }

  // ---------------------------------------------------------------------------
  // The report
  // ---------------------------------------------------------------------------

  datatype Label = Ranked(tier: Tier) | Error

  function LabelOf(e: BatchEntry): Label {
    if e.Scored? then Ranked(e.virality.tier) else Error
  }

  /** One of `top_viral_content`. */
  datatype TopEntry = TopEntry(contentId: Option<string>, score: real, kind: Label, caption: string)

  /**
   * `top_viral_content`: the first five entries of the sorted batch, each
   * with its id, score, tier (or error) and the first 100 characters of its
   * caption; error entries have no caption.
   */
  function TopViral(cs: seq<BatchEntry>): (r: seq<TopEntry>)
    ensures |r| == if |cs| < 5 then |cs| else 5
    ensures forall i :: 0 <= i < |r| ==> (r[i].contentId == cs[i].contentId
      && r[i].score == EntryScore(cs[i]) && r[i].kind == LabelOf(cs[i])
      && r[i].caption == (if cs[i].Scored? then Take(cs[i].caption, 100) else "")
      && |r[i].caption| <= 100)
  {
    var top := Take(cs, 5);
    seq(|top|, i requires 0 <= i < |top| =>
      TopEntry(top[i].contentId, EntryScore(top[i]), LabelOf(top[i]),
               if top[i].Scored? then Take(top[i].caption, 100) else ""))
  }

  /** On a batch sorted by score, no entry past the top five scores higher than a top entry. */
  lemma TopViralHighest(cs: seq<BatchEntry>)
    requires NonIncreasing(cs, EntryScore)
    ensures forall i, j :: 0 <= i < |TopViral(cs)| <= j < |cs| ==> EntryScore(cs[j]) <= TopViral(cs)[i].score
  {
    var top := TopViral(cs);
    forall i, j | 0 <= i < |top| <= j < |cs| ensures EntryScore(cs[j]) <= top[i].score {
      assert top[i].score == EntryScore(cs[i]);
    }
  }

  datatype TrendReport =
    | EmptyInput
    | Report(
        total: nat,
        breakdown: Breakdown,
        viralRatio: real,
        topType: Option<string>,
        typeAverages: seq<(Option<string>, real)>,
        patterns: EngagementPatterns,
        trending: seq<TrendingTag>,
        bestHours: seq<(string, real)>,
        bestDays: seq<(Weekday, real)>,
        recommendations: seq<Recommendation>,
        topViral: seq<TopEntry>)

  /** The report built from the batch and the four collections the loops fill. */
  function Assemble(cs: seq<BatchEntry>, media: Groups<Option<string>, real>,
                    viralTags: seq<string>, normalTags: seq<string>,
                    hours: Groups<nat, real>, days: Groups<Weekday, real>): TrendReport
    requires NonEmptyGroups(media) && NonEmptyGroups(hours) && NonEmptyGroups(days)
    requires forall i :: 0 <= i < |hours| ==> hours[i].0 < 24
  {
    var averages := Averages(media);
    var top := if averages == [] then Some("unknown") else averages[FirstMax(averages, ValueKey)].0;
    var topAverage := if averages == [] then 0.0 else averages[FirstMax(averages, ValueKey)].1;
    var viralCount := |Filter(cs, IsViral)|;
    var normalCount := |Filter(cs, IsNormal)|;
    var trending := Trending(Candidates(viralTags), Count(normalTags), viralCount, normalCount);
    var patterns := Patterns(cs);
    var ratio := ViralRatio(cs);
    var bestHours := BestHours(hours);
    var bestDays := BestDays(days);
    Report(|cs|, BreakdownOf(cs), Round(ratio, Tenths), top, averages, patterns, trending,
           bestHours, bestDays,
           Recommendations(top, topAverage, patterns, ratio, trending, bestHours, bestDays),
           TopViral(cs))
  }

  /** `detect_trending_patterns` as a value. */
  function TrendingPatterns(items: seq<ContentItem>, now: Instant): (r: TrendReport)
    ensures r.EmptyInput? <==> items == []
  {
    if items == [] then EmptyInput
    else
      var cs := ClassifyBatch(items, now);
      var n := |items|;
      Assemble(cs, MediaGroups(cs), ViralTags(items, cs, n), NormalTags(items, cs, n),
               HourGroups(items, cs, n), DayGroups(items, cs, n))
  }

  /** The media-type loop: scores grouped by media type in batch order. */
  method GroupByMediaType(cs: seq<BatchEntry>) returns (media: Groups<Option<string>, real>)
    ensures media == MediaGroups(cs)
  {
    media := [];
    for i := 0 to |cs|
      invariant media == MediaGroups(cs[..i])
    {
      MediaGroupsStep(cs, i);
      media := AddTo(media, MediaKey(cs[i]), EntryScore(cs[i]));
    }
    assert cs[..|cs|] == cs;
  }

  /** One more entry of the batch is filed under its media key. */
  lemma MediaGroupsStep(cs: seq<BatchEntry>, i: nat)
    requires i < |cs|
    ensures MediaGroups(cs[..i + 1]) == AddTo(MediaGroups(cs[..i]), MediaKey(cs[i]), EntryScore(cs[i]))
  {
    assert cs[..i + 1][..i] == cs[..i];
  }

  /** The hashtag loop: each position's tags go to the viral or the normal pool. */
  method PoolHashtags(items: seq<ContentItem>, cs: seq<BatchEntry>) returns (viralTags: seq<string>, normalTags: seq<string>)
    requires |items| == |cs|
    ensures viralTags == ViralTags(items, cs, |items|)
    ensures normalTags == NormalTags(items, cs, |items|)
  {
    viralTags, normalTags := [], [];
    for idx := 0 to |items|
      invariant viralTags == ViralTags(items, cs, idx)
      invariant normalTags == NormalTags(items, cs, idx)
    {
      if IsViral(cs[idx]) {
        viralTags := viralTags + items[idx].hashtags;
      } else {
        normalTags := normalTags + items[idx].hashtags;
      }
    }
  }

  /** The timing loop: scores by hour and by weekday, skipping items without a usable timestamp. */
  method GroupByTiming(items: seq<ContentItem>, cs: seq<BatchEntry>) returns (hours: Groups<nat, real>, days: Groups<Weekday, real>)
    requires |items| == |cs|
    ensures hours == HourGroups(items, cs, |items|)
    ensures days == DayGroups(items, cs, |items|)
  {
    hours, days := [], [];
    for idx := 0 to |items|
      invariant hours == HourGroups(items, cs, idx)
      invariant days == DayGroups(items, cs, idx)
    {
      hours := TimingStep(hours, items[idx], cs[idx], HourOf);
      days := TimingStep(days, items[idx], cs[idx], WeekdayOf);
    }
  }

  /**
   * The shape of a report for a non-empty batch: one breakdown slot per item,
   * a viral share within [0, 100], at most ten trending tags sorted by lift,
   * hour and weekday tables sorted by average and empty together, and at most
   * five top entries.
   */
  lemma ReportSpec(items: seq<ContentItem>, now: Instant)
    requires items != []
    ensures TrendingPatterns(items, now).Report?
    ensures TrendingPatterns(items, now).total == |items|
    ensures BreakdownSum(TrendingPatterns(items, now).breakdown) == |items|
    ensures 0.0 <= TrendingPatterns(items, now).viralRatio <= 100.0
    ensures |TrendingPatterns(items, now).trending| <= 10
    ensures NonIncreasing(TrendingPatterns(items, now).trending, LiftKey)
    ensures NonIncreasing(TrendingPatterns(items, now).bestHours, ValueKey)
    ensures NonIncreasing(TrendingPatterns(items, now).bestDays, ValueKey)
    ensures TrendingPatterns(items, now).bestHours == [] <==> TrendingPatterns(items, now).bestDays == []
    ensures |TrendingPatterns(items, now).topViral| <= 5
  {
    var cs := ClassifyBatch(items, now);
    BreakdownCovers(cs);
    RoundBetween(ViralRatio(cs), Tenths, 0, 100);
    TimingGroupsTogether(items, cs, |items|);
  }

  /** Each table of a report is computed from the sorted batch by its own function. */
  lemma ReportParts(items: seq<ContentItem>, now: Instant)
    requires items != []
    ensures var cs, n, r := ClassifyBatch(items, now), |items|, TrendingPatterns(items, now);
      && r.typeAverages == Averages(MediaGroups(cs))
      && r.trending == Trending(Candidates(ViralTags(items, cs, n)), Count(NormalTags(items, cs, n)),
                                |Filter(cs, IsViral)|, |Filter(cs, IsNormal)|)
      && r.bestHours == BestHours(HourGroups(items, cs, n))
      && r.bestDays == BestDays(DayGroups(items, cs, n))
      && r.topViral == TopViral(cs)
  {
  }

  /**
   * Every trending tag drawn from two tag pools is one of the ten most
   * common viral tags, with its count in the viral pool and the lift of that
   * count against its count in the normal pool.
   */
  lemma TrendingCounted(viralTags: seq<string>, normalTags: seq<string>, vi: nat, ni: nat)
    ensures forall t :: t in Trending(Candidates(viralTags), Count(normalTags), vi, ni) ==>
      && (exists i :: 0 <= i < |Candidates(viralTags)| && Candidates(viralTags)[i].0 == t.tag)
      && t.viralCount == multiset(viralTags)[t.tag] >= 1
      && t.lift == Lift(t.viralCount, multiset(normalTags)[t.tag], vi, ni)
  {
    var cands := Candidates(viralTags);
    TrendingEntries(cands, Count(normalTags), vi, ni);
    CandidatesCounted(viralTags);
    forall t | t in Trending(cands, Count(normalTags), vi, ni)
      ensures && (exists i :: 0 <= i < |cands| && cands[i].0 == t.tag)
              && t.viralCount == multiset(viralTags)[t.tag] >= 1
              && t.lift == Lift(t.viralCount, multiset(normalTags)[t.tag], vi, ni)
    {
      var c :| c in cands && t == LiftedTag(c, Count(normalTags), vi, ni);
      var i :| 0 <= i < |cands| && cands[i] == c;
      CountLookup(normalTags, c.0);
    }
  }

  /** `TrendingCounted` for the pools of a report. */
  lemma ReportTrending(items: seq<ContentItem>, now: Instant)
    requires items != []
    ensures var cs, n := ClassifyBatch(items, now), |items|;
      forall t :: t in TrendingPatterns(items, now).trending ==>
        && (exists i :: 0 <= i < |Candidates(ViralTags(items, cs, n))| && Candidates(ViralTags(items, cs, n))[i].0 == t.tag)
        && t.viralCount == multiset(ViralTags(items, cs, n))[t.tag] >= 1
        && t.lift == Lift(t.viralCount, multiset(NormalTags(items, cs, n))[t.tag],
                          |Filter(cs, IsViral)|, |Filter(cs, IsNormal)|)
  {
    var cs, n := ClassifyBatch(items, now), |items|;
    ReportParts(items, now);
    TrendingCounted(ViralTags(items, cs, n), NormalTags(items, cs, n), |Filter(cs, IsViral)|, |Filter(cs, IsNormal)|);
  }

  /** A report's media-type averages: one per media key of the batch, the rounded mean of that key's scores. */
  lemma ReportTypeAverages(items: seq<ContentItem>, now: Instant)
    requires items != []
    ensures var cs, avg := ClassifyBatch(items, now), TrendingPatterns(items, now).typeAverages;
      && (forall i :: 0 <= i < |avg| ==>
            MediaScores(cs, avg[i].0) != [] && avg[i].1 == Round(Mean(MediaScores(cs, avg[i].0)), Tenths))
      && (forall k :: k in Keys(avg) <==> MediaScores(cs, k) != [])
  {
    ReportParts(items, now);
    TypeAverages(ClassifyBatch(items, now));
  }

  /** A report's best hours and best days: one entry per scored hour or weekday, with its rounded mean. */
  lemma ReportTiming(items: seq<ContentItem>, now: Instant)
    requires items != []
    ensures var cs, n, r := ClassifyBatch(items, now), |items|, TrendingPatterns(items, now);
      && (forall e :: e in r.bestHours <==>
            exists h :: h < 24 && TimingScores(items, cs, n, HourOf, h) != []
                     && e == (HourLabel(h), Round(Mean(TimingScores(items, cs, n, HourOf, h)), Tenths)))
      && (forall e :: e in r.bestDays <==>
            TimingScores(items, cs, n, WeekdayOf, e.0) != []
            && e.1 == Round(Mean(TimingScores(items, cs, n, WeekdayOf, e.0)), Tenths))
  {
    ReportParts(items, now);
    BestHoursEntries(items, ClassifyBatch(items, now), |items|);
    BestDaysEntries(items, ClassifyBatch(items, now), |items|);
  }

  /** A report's top entries score at least as high as every other entry of the batch. */
  lemma ReportTopViral(items: seq<ContentItem>, now: Instant)
    requires items != []
    ensures var cs, top := ClassifyBatch(items, now), TrendingPatterns(items, now).topViral;
      forall i, j :: 0 <= i < |top| <= j < |cs| ==> EntryScore(cs[j]) <= top[i].score
  {
    ReportParts(items, now);
    ClassifyBatchSpec(items, now);
    TopViralHighest(ClassifyBatch(items, now));
  }

  // ---------------------------------------------------------------------------
  // Positional tag attribution
  // ---------------------------------------------------------------------------

  /**
   * Of two posts where the second scores higher, sorting puts the second
   * entry first; with `PoolsOfTwo` below, the viral pool then takes the first
   * post's tags when the second post is viral, whatever the first post's tier.
   */
  lemma PositionalAttribution(items: seq<ContentItem>, now: Instant)
    requires |items| == 2
    requires EntryScore(ScoreItem(items[0], 0, now)) < EntryScore(ScoreItem(items[1], 1, now))
    ensures ClassifyBatch(items, now) == [ScoreItem(items[1], 1, now), ScoreItem(items[0], 0, now)]
  {
    ScoreTwo(items, now);
    SortTwo(ScoreItem(items[0], 0, now), ScoreItem(items[1], 1, now));
  }

  /**
   * Tags are credited by position in the sorted batch, not by the post they
   * came from: position 0's entry decides where item 0's tags go.
   */
  lemma PoolsOfTwo(items: seq<ContentItem>, cs: seq<BatchEntry>)
    requires |items| == |cs| == 2
    ensures ViralTags(items, cs, 2) == (if IsViral(cs[0]) then items[0].hashtags else [])
                                     + (if IsViral(cs[1]) then items[1].hashtags else [])
  {
    assert ViralTags(items, cs, 1) == (if IsViral(cs[0]) then items[0].hashtags else []);
  }

  /** Of two entries, the higher-scored one sorts first. */
  lemma SortTwo(e0: BatchEntry, e1: BatchEntry)
    requires EntryScore(e0) < EntryScore(e1)
    ensures SortDesc([e0, e1], EntryScore) == [e1, e0]
  {
    assert SortDesc([e0], EntryScore) == [e0];
    assert SortDesc([e0, e1], EntryScore) == Insert([e0], e1, EntryScore);
  }

  lemma ScoreTwo(items: seq<ContentItem>, now: Instant)
    requires |items| == 2
    ensures ScoreAll(items, now) == [ScoreItem(items[0], 0, now), ScoreItem(items[1], 1, now)]
  {
  }

  /**
   * `detect_trending_patterns`: classify the batch, then fill the media-type,
   * hashtag and timing collections in loops and assemble the report.
   */
  method DetectTrendingPatterns(items: seq<ContentItem>, now: Instant) returns (r: TrendReport)
    ensures r == TrendingPatterns(items, now)
  {
    if items == [] {
      return EmptyInput;
    }
    var cs := ClassifyContentBatch(items, now);
    var media := GroupByMediaType(cs);
    var viralTags, normalTags := PoolHashtags(items, cs);
    var hours, days := GroupByTiming(items, cs);
    r := Assemble(cs, media, viralTags, normalTags, hours, days);
  }
}
