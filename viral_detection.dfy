/**
 * Virality scoring of social-media posts and batch classification
 * (backend/app/services/viral_detection.py, `calculate_virality_score` and
 * `classify_content_batch`).
 *
 * A post's score is a 40/30/30 weighting of three sub-scores, each capped at
 * 100: engagement velocity relative to 1% of the audience, the share rate and
 * the save rate (20% of engagement saturates either). The score is rounded to
 * one decimal and mapped to four tiers at 31, 61 and 81.
 */
module ViralDetection {

  import opened Wrappers
  import opened Text
  import opened Rounding
  import opened StableSort

  // ---------------------------------------------------------------------------
  // Time
  // ---------------------------------------------------------------------------

  /** A wall-clock time, in whole seconds since 1970-01-01 00:00 (a Thursday). */
  datatype Instant = Instant(seconds: int)

  datatype Weekday = Monday | Tuesday | Wednesday | Thursday | Friday | Saturday | Sunday

  /** `posted_at.hour` */
  function HourOf(t: Instant): (h: nat)
    ensures h < 24
  {
    (t.seconds / 3600) % 24
  }

  /** `posted_at.strftime("%A")`, as a value rather than the English day name. */
  function WeekdayOf(t: Instant): Weekday {
    match (t.seconds / 86400 + 3) % 7
    case 0 => Monday
    case 1 => Tuesday
    case 2 => Wednesday
    case 3 => Thursday
    case 4 => Friday
    case 5 => Saturday
    case _ => Sunday
  }

  /**
   * A parsed `datetime`: naive (no offset) or aware. `fromisoformat` keeps an
   * offset other than `Z`/`+00:00`, and an aware value cannot be subtracted
   * from the naive `utcnow()`.
   */
  datatype Stamp = Naive(at: Instant) | Aware(at: Instant)

  /**
   * An item's `posted_at`: missing or `null`, ISO text (with the outcome of
   * parsing it, `None` when `fromisoformat` rejects it), a `datetime`, or a
   * value of any other type.
   */
  datatype PostedAt = NoTimestamp | IsoText(parsed: Option<Stamp>) | DateTimeValue(stamp: Stamp) | OtherValue

  /** The timestamp the timing analysis can use, if any. */
  function UsableStamp(p: PostedAt): Option<Stamp> {
    match p
    case IsoText(parsed) => parsed
    case DateTimeValue(s) => Some(s)
    case _ => None
  }

  // ---------------------------------------------------------------------------
  // Scoring one post
  // ---------------------------------------------------------------------------

  function MaxR(a: real, b: real): (m: real)
    ensures a <= m && b <= m && (m == a || m == b)
  {
    if a >= b then a else b
  }

  function MinR(a: real, b: real): (m: real)
    ensures m <= a && m <= b && (m == a || m == b)
  {
    if a <= b then a else b
  }

  /** Hours since posting, never less than one hour (also for a future `posted_at`). */
  function HoursSincePost(elapsedSeconds: real): (h: real)
    ensures 1.0 <= h
    ensures elapsedSeconds / 3600.0 <= h
    ensures h == 1.0 || h == elapsedSeconds / 3600.0
  {
    MaxR(elapsedSeconds / 3600.0, 1.0)
  }

  /** Engagement as a percentage of the audience; no audience counts as one follower. */
  function EngagementRate(total: int, followers: int): (r: real)
    ensures 0 <= total ==> 0.0 <= r
    ensures 1 <= followers ==> r * followers as real == total as real * 100.0
    ensures followers <= 1 ==> r == total as real * 100.0
  {
    (total as real / MaxR(followers as real, 1.0)) * 100.0
  }

  /** 1% of the audience, at least 1. */
  function Audience(followers: int): (a: real)
    ensures 1.0 <= a
    ensures 100 <= followers ==> a * 100.0 == followers as real
  {
    MaxR(followers as real * 0.01, 1.0)
  }

  /**
   * Engagement per hour against 1% of the audience (at least 1), as a
   * percentage capped at 100: the cap is reached once engagement covers
   * `hours * Audience(followers)`, and below it the score is proportional.
   */
  function VelocityScore(total: int, hours: real, followers: int): (r: real)
    requires 1.0 <= hours
    ensures r <= 100.0
    ensures 0 <= total ==> 0.0 <= r
    ensures hours * Audience(followers) <= total as real ==> r == 100.0
    ensures total as real < hours * Audience(followers) ==> r * (hours * Audience(followers)) == total as real * 100.0
  {
    var a := Audience(followers);
    var q := (total as real / hours) / a;
    VelocityQuotient(total as real, hours, a, q);
    MinR(q * 100.0, 100.0)
  }

  /** What `(t / h) / a` gives back for positive `h` and `a`, in the terms `VelocityScore` needs. */
  lemma VelocityQuotient(t: real, h: real, a: real, q: real)
    requires 1.0 <= h && 1.0 <= a && q == (t / h) / a
    ensures q * (h * a) == t
    ensures 0.0 <= t ==> 0.0 <= q
    ensures h * a <= t ==> 100.0 <= q * 100.0
  {
    assert (t / h) * h == t;
    assert q * a == t / h;
    assert q * (h * a) == (q * a) * h;
  }

  /** A share or save rate scaled so that 20% of engagement gives the cap of 100. */
  function RateScore(part: int, total: int): (r: real)
    ensures r <= 100.0
    ensures 0 <= part ==> 0.0 <= r
    ensures 0 < total && total <= 5 * part ==> r == 100.0
    ensures 0 < total && 5 * part < total ==> r * total as real == part as real * 500.0
  {
    var q := part as real / MaxR(total as real, 1.0);
    if 0 < total then
      QuotientBound(part as real, total as real, q);
      MinR(q * 100.0 * 5.0, 100.0)
    else
      MinR(q * 100.0 * 5.0, 100.0)
  }

  /** What a quotient by a positive divisor gives back, in the terms `RateScore` needs. */
  lemma QuotientBound(p: real, t: real, q: real)
    requires 0.0 < t && q == p / t
    ensures q * t == p
    ensures t <= 5.0 * p ==> 100.0 <= q * 100.0 * 5.0
    ensures 5.0 * p < t ==> q * 100.0 * 5.0 * t == p * 500.0
  {
    assert q * t == p;
    if t <= 5.0 * p {
      assert (q * 500.0) * t >= 100.0 * t;
    }
  }

  datatype Tier = Normal | AboveAverage | Viral | SuperViral

  /** The tier breakpoints of the rounded score. */
  function Classify(score: real): (t: Tier)
    ensures t == SuperViral <==> 81.0 <= score
    ensures t == Viral <==> 61.0 <= score < 81.0
    ensures t == AboveAverage <==> 31.0 <= score < 61.0
    ensures t == Normal <==> score < 31.0
  {
    if score >= 81.0 then SuperViral
    else if score >= 61.0 then Viral
    else if score >= 31.0 then AboveAverage
    else Normal
  }

  function Rank(t: Tier): nat {
    match t
    case Normal => 0
    case AboveAverage => 1
    case Viral => 2
    case SuperViral => 3
  }

  /** A higher score never gets a lower tier. */
  lemma ClassifyMonotone(x: real, y: real)
    requires x <= y
    ensures Rank(Classify(x)) <= Rank(Classify(y))
  {
  }

  /** What `calculate_virality_score` returns (all reals already rounded as the source rounds them). */
  datatype Virality = Virality(
    score: real,
    tier: Tier,
    engagementRate: real,
    velocityScore: real,
    shareScore: real,
    saveScore: real,
    hoursSincePost: real,
    totalEngagement: int)

  /** The weighted, unrounded score. */
  function Weighted(velocity: real, share: real, save: real): real {
    velocity * 0.4 + share * 0.3 + save * 0.3
  }

  /** `calculate_virality_score`; `views` is accepted and never used. */
  function CalculateVirality(likes: int, comments: int, shares: int, saves: int, views: int,
                             elapsedSeconds: real, followers: int): (v: Virality)
    ensures v.totalEngagement == likes + comments + shares + saves
    ensures v.tier == Classify(v.score)
  {
    var hours := HoursSincePost(elapsedSeconds);
    var total := likes + comments + shares + saves;
    var velocity := VelocityScore(total, hours, followers);
    var share := RateScore(shares, total);
    var save := RateScore(saves, total);
    var score := Round(Weighted(velocity, share, save), Tenths);
    Virality(score, Classify(score), Round(EngagementRate(total, followers), Hundredths),
             Round(velocity, Tenths), Round(share, Tenths), Round(save, Tenths),
             Round(hours, Tenths), total)
  }

  /** With non-negative counters every sub-score and the final score lie in [0, 100]. */
  lemma ScoreBounds(likes: int, comments: int, shares: int, saves: int, views: int,
                    elapsedSeconds: real, followers: int)
    requires 0 <= likes && 0 <= comments && 0 <= shares && 0 <= saves
    ensures var v := CalculateVirality(likes, comments, shares, saves, views, elapsedSeconds, followers);
      && 0.0 <= v.score <= 100.0
      && 0.0 <= v.velocityScore <= 100.0
      && 0.0 <= v.shareScore <= 100.0
      && 0.0 <= v.saveScore <= 100.0
      && 1.0 <= v.hoursSincePost
      && 0.0 <= v.engagementRate
  {
    var hours := HoursSincePost(elapsedSeconds);
    var total := likes + comments + shares + saves;
    var velocity := VelocityScore(total, hours, followers);
    var share := RateScore(shares, total);
    var save := RateScore(saves, total);
    RoundBetween(Weighted(velocity, share, save), Tenths, 0, 100);
    RoundBetween(velocity, Tenths, 0, 100);
    RoundBetween(share, Tenths, 0, 100);
    RoundBetween(save, Tenths, 0, 100);
    RoundMonotone(1.0, hours, Tenths);
    RoundOnGrid(10, Tenths);
    RoundMonotone(0.0, EngagementRate(total, followers), Hundredths);
    RoundOnGrid(0, Hundredths);
  }

  /** `views` never changes the result. */
  lemma ViewsIgnored(likes: int, comments: int, shares: int, saves: int, views1: int, views2: int,
                     elapsedSeconds: real, followers: int)
    ensures CalculateVirality(likes, comments, shares, saves, views1, elapsedSeconds, followers)
         == CalculateVirality(likes, comments, shares, saves, views2, elapsedSeconds, followers)
  {
  }

  /**
   * The post with 100 likes, 20 comments, 50 shares and 30 saves, two hours
   * after posting, for 1000 followers: velocity and share saturate, the save
   * rate is 15%, and the score is 40 + 30 + 22.5 = 92.5, super viral.
   */
  lemma WorkedExample()
    ensures var v := CalculateVirality(100, 20, 50, 30, 0, 7200.0, 1000);
      v.score == 92.5 && v.tier == SuperViral && v.totalEngagement == 200
      && v.engagementRate == 20.0 && v.hoursSincePost == 2.0 && v.saveScore == 75.0
  {
    assert HoursSincePost(7200.0) == 2.0;
    assert VelocityScore(200, 2.0, 1000) == 100.0;
    assert RateScore(50, 200) == 100.0;
    assert RateScore(30, 200) == 75.0;
    assert RoundHalfEven(925.0) == 925;
    assert RoundHalfEven(750.0) == 750;
    assert RoundHalfEven(20.0) == 20;
    assert RoundHalfEven(2000.0) == 2000;
  }

  // ---------------------------------------------------------------------------
  // Scoring a batch
  // ---------------------------------------------------------------------------

  /** A counter as `int(...)` sees it: an integral value, or one it cannot convert. */
  datatype Numeric = Integral(n: int) | Unconvertible

  /** One input record of `classify_content_batch`. */
  datatype ContentItem = ContentItem(
    likes: Field<Numeric>,
    comments: Field<Numeric>,
    shares: Field<Numeric>,
    saves: Field<Numeric>,
    views: Field<Numeric>,
    followers: Field<Numeric>,
    postedAt: PostedAt,
    id: Field<string>,
    caption: Field<string>,
    platform: Field<string>,
    mediaType: Field<string>,
    hashtags: seq<string>)

  /** Why scoring an item raised. */
  datatype Fault =
    | UnparsableTimestamp   // fromisoformat rejected the text
    | NotAnInteger          // int(...) of a counter failed, or the counter was null
    | OffsetAwareTimestamp  // naive utcnow() minus an aware datetime
    | NotADateTime          // utcnow() minus a value that is not a datetime
    | CaptionNotText        // slicing a null caption

  /** `int(item.get(key, default))` */
  function ToInt(f: Field<Numeric>, default: int): (r: Option<int>)
    ensures r.None? <==> f.Null? || f == Present(Unconvertible)
    ensures f.Missing? ==> r == Some(default)
    ensures f.Present? && f.value.Integral? ==> r == Some(f.value.n)
  {
    match f
    case Missing => Some(default)
    case Null => None
    case Present(Integral(n)) => Some(n)
    case Present(Unconvertible) => None
  }

  /** One record of the batch result: the score and metadata, or the error record. */
  datatype BatchEntry =
    | Scored(contentId: Option<string>, virality: Virality, caption: string,
             platform: Option<string>, mediaType: Option<string>)
    | Failed(contentId: Option<string>, fault: Fault)

  /** `entry.get("virality_score", 0)`: error records score 0. */
  function EntryScore(e: BatchEntry): real {
    if e.Scored? then e.virality.score else 0.0
  }

  /** The content id of the item at position `idx`. */
  function ContentId(item: ContentItem, idx: nat): Option<string> {
    item.id.Get("item_" + NatToString(idx))
  }

  /** An item on which scoring raises: a reference statement of every failure path. */
  predicate Faulty(item: ContentItem) {
    || item.postedAt == IsoText(None)
    || ToInt(item.likes, 0).None? || ToInt(item.comments, 0).None?
    || ToInt(item.shares, 0).None? || ToInt(item.saves, 0).None?
    || ToInt(item.views, 0).None? || ToInt(item.followers, 1).None?
    || (UsableStamp(item.postedAt).Some? && UsableStamp(item.postedAt).value.Aware?)
    || item.postedAt == OtherValue
    || item.caption.Null?
  }

  /** The result for the item at position `idx` of the batch, scored at time `now`. */
  function ScoreItem(item: ContentItem, idx: nat, now: Instant): (e: BatchEntry)
    ensures e.contentId == ContentId(item, idx)
    ensures e.Failed? <==> Faulty(item)
    ensures e.Scored? ==> |e.caption| <= 200 && e.virality.tier == Classify(e.virality.score)
    ensures e.Failed? ==> EntryScore(e) == 0.0
  {
    var id := ContentId(item, idx);
    if item.postedAt == IsoText(None) then Failed(id, UnparsableTimestamp)
    else
      var likes, comments := ToInt(item.likes, 0), ToInt(item.comments, 0);
      var shares, saves := ToInt(item.shares, 0), ToInt(item.saves, 0);
      var views, followers := ToInt(item.views, 0), ToInt(item.followers, 1);
      if likes.None? || comments.None? || shares.None? || saves.None? || views.None? || followers.None? then
        Failed(id, NotAnInteger)
      else
        var elapsed: Option<real> :=
          match item.postedAt
          case NoTimestamp => Some(0.0)
          case IsoText(Some(Naive(t))) => Some((now.seconds - t.seconds) as real)
          case DateTimeValue(Naive(t)) => Some((now.seconds - t.seconds) as real)
          case _ => None;
        if elapsed.None? then
          Failed(id, if item.postedAt == OtherValue then NotADateTime else OffsetAwareTimestamp)
        else
          var v := CalculateVirality(likes.value, comments.value, shares.value, saves.value,
                                     views.value, elapsed.value, followers.value);
          match item.caption
          case Null => Failed(id, CaptionNotText)
          case _ =>
            Scored(id, v, Take(item.caption.Get("").value, 200),
                   item.platform.Get("unknown"), item.mediaType.Get("unknown"))
  }

  /** Items without an id get distinct default ids `item_<position>`. */
  lemma DefaultIdsDistinct(a: ContentItem, i: nat, b: ContentItem, j: nat)
    requires a.id.Missing? && b.id.Missing? && i != j
    ensures ContentId(a, i) != ContentId(b, j)
  {
    if ContentId(a, i) == ContentId(b, j) {
      var pa, pb := "item_" + NatToString(i), "item_" + NatToString(j);
      assert pa[5..] == NatToString(i) && pb[5..] == NatToString(j);
      NatToStringInjective(i, j);
    }
  }

  /** The entries in input order, before sorting; entry `i` depends on item `i` alone. */
  function ScoreAll(items: seq<ContentItem>, now: Instant): (r: seq<BatchEntry>)
    ensures |r| == |items|
    ensures forall i :: 0 <= i < |items| ==> r[i] == ScoreItem(items[i], i, now)
  {
    seq(|items|, i requires 0 <= i < |items| => ScoreItem(items[i], i, now))
  }

  /** `classify_content_batch` as a value: the entries, stably sorted by score, highest first. */
  function ClassifyBatch(items: seq<ContentItem>, now: Instant): seq<BatchEntry> {
    SortDesc(ScoreAll(items, now), EntryScore)
  }

  /**
   * `classify_content_batch`: score each item, recording a failure as an error
   * entry instead of raising, then sort in place by score, descending.
   */
  method ClassifyContentBatch(items: seq<ContentItem>, now: Instant) returns (results: seq<BatchEntry>)
    ensures results == ClassifyBatch(items, now)
    ensures |results| == |items|
    ensures NonIncreasing(results, EntryScore)
  {
    results := [];
    var idx := 0;
    while idx < |items|
      invariant 0 <= idx <= |items|
      invariant results == ScoreAll(items[..idx], now)
    {
      results := results + [ScoreItem(items[idx], idx, now)];
      idx := idx + 1;
    }
    assert items[..idx] == items;
    results := SortDesc(results, EntryScore);
    SortDescOrdered(ScoreAll(items, now), EntryScore);
  }

  /**
   * The batch holds exactly one entry per item, sorted by score with ties in
   * input order.
   */
  lemma {:induction false} ClassifyBatchSpec(items: seq<ContentItem>, now: Instant)
    ensures multiset(ClassifyBatch(items, now)) == multiset(ScoreAll(items, now))
    ensures NonIncreasing(ClassifyBatch(items, now), EntryScore)
    ensures forall k :: WithKey(ClassifyBatch(items, now), EntryScore, k) == WithKey(ScoreAll(items, now), EntryScore, k)
  {
    SortDescOrdered(ScoreAll(items, now), EntryScore);
    forall k ensures WithKey(ClassifyBatch(items, now), EntryScore, k) == WithKey(ScoreAll(items, now), EntryScore, k) {
      SortDescStable(ScoreAll(items, now), EntryScore, k);
    }
  }

  /** Every item's own entry is in the batch, whatever the other items are. */
  lemma ClassifyBatchHasEach(items: seq<ContentItem>, now: Instant, i: nat)
    requires i < |items|
    ensures ScoreItem(items[i], i, now) in ClassifyBatch(items, now)
  {
    var all := ScoreAll(items, now);
    assert all[i] in multiset(all);
    assert ScoreItem(items[i], i, now) in multiset(ClassifyBatch(items, now));
  }
}
