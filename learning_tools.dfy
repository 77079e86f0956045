/**
 * The agent's learning tools (backend/app/tools/learning_tools.py): the growth
 * summary over a window of analytics snapshots, the comparison of the best
 * and worst fifth of the content pieces, and the outcome of saving a learning.
 * The database queries are left out: each tool starts from the rows the query
 * returned, in the query's order.
 */
module LearningTools {

  import opened Wrappers
  import opened Rounding
  import opened StableSort
  import opened Tally
  import opened LearningService

  // ---------------------------------------------------------------------
  // get_growth_trajectory
  // ---------------------------------------------------------------------

  /** One analytics snapshot (the columns the summary reads), oldest first in a window. */
  datatype Snapshot = Snapshot(
    followers: Field<int>,
    engagementRate: Field<real>,
    reach: Field<int>)

  /** `s.get(k, 0) or 0`: an absent or null number counts as 0. */
  function OrZero(f: Field<int>): (n: int)
    ensures f.Present? ==> n == f.value
    ensures !f.Present? ==> n == 0
  {
    if f.Present? then f.value else 0
  }

  function OrZeroReal(f: Field<real>): (x: real)
    ensures f.Present? ==> x == f.value
    ensures !f.Present? ==> x == 0.0
  {
    if f.Present? then f.value else 0.0
  }

  function Rates(snaps: seq<Snapshot>): (vs: seq<real>)
    ensures |vs| == |snaps|
    ensures forall i {:trigger vs[i]} :: 0 <= i < |snaps| ==> vs[i] == OrZeroReal(snaps[i].engagementRate)
  {
    seq(|snaps|, i requires 0 <= i < |snaps| => OrZeroReal(snaps[i].engagementRate))
  }

  function Reaches(snaps: seq<Snapshot>): (vs: seq<real>)
    ensures |vs| == |snaps|
    ensures forall i {:trigger vs[i]} :: 0 <= i < |snaps| ==> vs[i] == OrZero(snaps[i].reach) as real
  {
    seq(|snaps|, i requires 0 <= i < |snaps| => OrZero(snaps[i].reach) as real)
  }

  /** The tool's answer: no snapshots in the window, or the summary and the latest snapshots. */
  datatype Growth =
    | NoSnapshots
    | Trajectory(
        periodDays: int,
        totalSnapshots: nat,
        followersStart: Option<int>,
        followersEnd: Option<int>,
        followersChange: int,
        avgEngagement: real,
        avgReach: int,
        recent: seq<Snapshot>)

  /**
   * The growth summary: follower counts at both ends of the window (as
   * stored, null included), their difference with missing values as 0, the
   * mean engagement rate to four places, the mean reach to a whole number,
   * and the last five snapshots.
   */
  function GrowthTrajectory(days: int, snaps: seq<Snapshot>): (g: Growth)
    ensures g.NoSnapshots? <==> snaps == []
    ensures g.Trajectory? ==> g.totalSnapshots == |snaps|
    ensures g.Trajectory? ==> |g.recent| == if |snaps| < 5 then |snaps| else 5
    ensures g.Trajectory? ==> g.recent == snaps[|snaps| - |g.recent|..]
  {
    if snaps == [] then NoSnapshots
    else
      var first, last := snaps[0], snaps[|snaps| - 1];
      Trajectory(
        days,
        |snaps|,
        first.followers.Get(0),
        last.followers.Get(0),
        OrZero(last.followers) - OrZero(first.followers),
        Round(Mean(Rates(snaps)), TenThousandths),
        RoundHalfEven(Mean(Reaches(snaps))),
        TakeLast(snaps, 5))
  }

  /** The follower counts of the window, missing values as 0. */
  function FollowerCounts(snaps: seq<Snapshot>): (fs: seq<int>)
    ensures |fs| == |snaps|
    ensures forall i {:trigger fs[i]} :: 0 <= i < |snaps| ==> fs[i] == OrZero(snaps[i].followers)
  {
    seq(|snaps|, i requires 0 <= i < |snaps| => OrZero(snaps[i].followers))
  }

  /** The change between each snapshot and the next. */
  function Steps(fs: seq<int>): (ds: seq<int>)
    ensures |ds| == if fs == [] then 0 else |fs| - 1
    ensures forall i :: 0 <= i < |ds| ==> ds[i] == fs[i + 1] - fs[i]
  {
    if |fs| <= 1 then [] else seq(|fs| - 1, i requires 0 <= i < |fs| - 1 => fs[i + 1] - fs[i])
  }

  function IntSum(ds: seq<int>): int {
    if ds == [] then 0 else IntSum(ds[..|ds| - 1]) + ds[|ds| - 1]
  }

  lemma {:induction false} StepsTelescope(fs: seq<int>)
    requires fs != []
    ensures IntSum(Steps(fs)) == fs[|fs| - 1] - fs[0]
  {
    if |fs| > 1 {
      var init := fs[..|fs| - 1];
      StepsTelescope(init);
      assert Steps(fs)[..|fs| - 2] == Steps(init);
    }
  }

  /** The follower change over the window is the sum of the changes between consecutive snapshots. */
  lemma GrowthChangeTelescopes(days: int, snaps: seq<Snapshot>)
    requires snaps != []
    ensures GrowthTrajectory(days, snaps).followersChange == IntSum(Steps(FollowerCounts(snaps)))
  {
    FollowerStepsSum(snaps);
  }

  lemma FollowerStepsSum(snaps: seq<Snapshot>)
    requires snaps != []
    ensures IntSum(Steps(FollowerCounts(snaps))) == OrZero(snaps[|snaps| - 1].followers) - OrZero(snaps[0].followers)
  {
    StepsTelescope(FollowerCounts(snaps));
  }

  /**
   * A window of one snapshot: no change, both ends the same, the averages
   * that snapshot's own values rounded, and that snapshot as the latest.
   */
  lemma GrowthSingle(days: int, s: Snapshot)
    ensures GrowthTrajectory(days, [s])
         == Trajectory(days, 1, s.followers.Get(0), s.followers.Get(0), 0,
                       Round(OrZeroReal(s.engagementRate), TenThousandths),
                       RoundHalfEven(OrZero(s.reach) as real), [s])
  {
    var rate, reach := OrZeroReal(s.engagementRate), OrZero(s.reach) as real;
    assert Mean(Rates([s])) == rate by {
      assert Rates([s]) == [rate];
      MeanSingle(rate);
    }
    assert Mean(Reaches([s])) == reach by {
      assert Reaches([s]) == [reach];
      MeanSingle(reach);
    }
  }

  /** The averages stay within any whole-number bounds of the values averaged. */
  lemma GrowthAveragesBetween(days: int, snaps: seq<Snapshot>, lo: int, hi: int)
    requires snaps != []
    requires forall i :: 0 <= i < |snaps| ==> lo as real <= OrZeroReal(snaps[i].engagementRate) <= hi as real
    requires forall i :: 0 <= i < |snaps| ==> lo <= OrZero(snaps[i].reach) <= hi
    ensures lo as real <= GrowthTrajectory(days, snaps).avgEngagement <= hi as real
    ensures lo <= GrowthTrajectory(days, snaps).avgReach <= hi
  {
    MeanBetween(Rates(snaps), lo as real, hi as real);
    RoundBetween(Mean(Rates(snaps)), TenThousandths, lo, hi);
    MeanBetween(Reaches(snaps), lo as real, hi as real);
    RoundHalfEvenBetween(Mean(Reaches(snaps)), lo, hi);
  }

  // ---------------------------------------------------------------------
  // get_engagement_insights
  // ---------------------------------------------------------------------

  /** `max(1, n // 5)`: the size of the best and of the worst fifth. */
  function Cutoff(n: nat): (c: nat)
    ensures 1 <= c
    ensures 5 <= n ==> 5 * c <= n < 5 * (c + 1)
    ensures n < 5 ==> c == 1
  {
    if n / 5 < 1 then 1 else n / 5
  }

  /** What `summarize` reports about a group of content pieces. */
  datatype Summary = Summary(
    count: nat,
    contentTypes: Counts<Option<string>>,
    tones: Counts<Option<string>>,
    avgLength: int,
    avgEngagement: real)

  function Scores(items: seq<ContentRow>): (vs: seq<real>)
    ensures |vs| == |items|
    ensures forall i {:trigger vs[i]} :: 0 <= i < |items| ==> vs[i] == OrZeroReal(items[i].engagementScore)
  {
    seq(|items|, i requires 0 <= i < |items| => OrZeroReal(items[i].engagementScore))
  }

  /** The mean engagement score to two places, 0 for no items. */
  function AvgEngagement(items: seq<ContentRow>): real {
    if items == [] then 0.0 else Round(Mean(Scores(items)), Hundredths)
  }

  /**
   * `summarize` as a value: the tallies of types and tones in first-seen
   * order, the rounded mean body length and the mean score; `None` stands for
   * the `TypeError` a null body raises.
   */
  function SummaryOf(items: seq<ContentRow>): (r: Option<Summary>)
    ensures r.Some? <==> forall i :: 0 <= i < |items| ==> BodyLength(items[i]).Some?
  {
    match AvgLength(items)
    case None => None
    case Some(len) =>
      Some(Summary(|items|, Count(ColumnValues(items, ContentType)), Count(ColumnValues(items, Tone)),
                   len, AvgEngagement(items)))
  }

  /** What the loop in `summarize` has gathered so far. */
  datatype Tallies = Tallies(types: Counts<Option<string>>, tones: Counts<Option<string>>, totalLength: nat)

  /** One turn of the loop: bump both tallies and add the body length; `None` when the body is null. */
  function Gather(t: Tallies, item: ContentRow): Option<Tallies> {
    match BodyLength(item)
    case None => None
    case Some(len) =>
      Some(Tallies(Bump(t.types, ColumnValue(item, ContentType)), Bump(t.tones, ColumnValue(item, Tone)),
                   t.totalLength + len))
  }

  /** The tallies after the loop has gone through `items`. */
  function Gathered(items: seq<ContentRow>): Option<Tallies> {
    if items == [] then Some(Tallies([], [], 0))
    else
      match Gathered(items[..|items| - 1])
      case None => None
      case Some(t) => Gather(t, items[|items| - 1])
  }

  /** The loop's tallies are the counts of the types and tones seen and the summed body length. */
  lemma GatheredCounts(items: seq<ContentRow>)
    ensures Gathered(items).Some? <==> TotalLength(items).Some?
    ensures Gathered(items).Some? ==>
              && Gathered(items).value.types == Count(ColumnValues(items, ContentType))
              && Gathered(items).value.tones == Count(ColumnValues(items, Tone))
              && Gathered(items).value.totalLength == TotalLength(items).value
  {
    GatheredLength(items);
    if Gathered(items).Some? {
      GatheredTally(items, ContentType);
      GatheredTally(items, Tone);
    }
  }

  lemma {:induction false} GatheredLength(items: seq<ContentRow>)
    ensures Gathered(items).Some? <==> TotalLength(items).Some?
    ensures Gathered(items).Some? ==> Gathered(items).value.totalLength == TotalLength(items).value
  {
    if items != [] {
      GatheredLength(items[..|items| - 1]);
    }
  }

  /** The tally the loop keeps for a column. */
  function TallyFor(t: Tallies, c: Column): Counts<Option<string>>
    requires c != PostedDay
  {
    if c == ContentType then t.types else t.tones
  }

  lemma {:induction false} GatheredTally(items: seq<ContentRow>, c: Column)
    requires c != PostedDay && Gathered(items).Some?
    ensures TallyFor(Gathered(items).value, c) == Count(ColumnValues(items, c))
  {
    if items != [] {
      var front := items[..|items| - 1];
      GatheredTally(front, c);
      CountColumnLast(items, c);
      var t := Gathered(front).value;
      assert TallyFor(Gathered(items).value, c) == Bump(TallyFor(t, c), ColumnValue(items[|items| - 1], c));
    }
  }

  lemma CountColumnLast(items: seq<ContentRow>, c: Column)
    requires items != []
    ensures Count(ColumnValues(items, c))
         == Bump(Count(ColumnValues(items[..|items| - 1], c)), ColumnValue(items[|items| - 1], c))
  {
    CountColumnStep(items, |items| - 1, c);
    assert items[..|items|] == items;
  }

  /** `summarize`: one pass that bumps both tallies and adds up the body lengths. */
  method Summarize(items: seq<ContentRow>) returns (r: Option<Summary>)
    ensures r == SummaryOf(items)
  {
    var types: Counts<Option<string>> := [];
    var tones: Counts<Option<string>> := [];
    var totalLength: nat := 0;
    for i := 0 to |items|
      invariant Gathered(items[..i]) == Some(Tallies(types, tones, totalLength))
    {
      GatherStep(items, i, Tallies(types, tones, totalLength));
      var next := Gather(Tallies(types, tones, totalLength), items[i]);
      if next.None? {
        assert BodyLength(items[i]).None?;
        return None;
      }
      types, tones, totalLength := next.value.types, next.value.tones, next.value.totalLength;
    }
    SummarizeDone(items, types, tones, totalLength);
    r := Some(Summary(|items|, types, tones, AvgLength(items).value, AvgEngagement(items)));
  }

  /** One turn of the loop in `summarize`. */
  lemma GatherStep(items: seq<ContentRow>, i: nat, t: Tallies)
    requires i < |items| && Gathered(items[..i]) == Some(t)
    ensures Gathered(items[..i + 1]) == Gather(t, items[i])
  {
    assert items[..i + 1][..i] == items[..i];
  }

  /** The loop in `summarize` has gone through every item. */
  lemma SummarizeDone(items: seq<ContentRow>, types: Counts<Option<string>>, tones: Counts<Option<string>>, total: nat)
    requires Gathered(items[..|items|]) == Some(Tallies(types, tones, total))
    ensures AvgLength(items).Some?
    ensures SummaryOf(items) == Some(Summary(|items|, types, tones, AvgLength(items).value, AvgEngagement(items)))
  {
    assert items[..|items|] == items;
    GatheredCounts(items);
  }

  /** The count is the group size, and the tallies each add up to it with no key listed twice. */
  lemma SummaryTallies(items: seq<ContentRow>, s: Summary)
    requires SummaryOf(items) == Some(s)
    ensures s.count == |items|
    ensures Total(s.contentTypes) == |items| && Total(s.tones) == |items|
    ensures DistinctKeys(s.contentTypes) && DistinctKeys(s.tones)
  {
    var types, tones := ColumnValues(items, ContentType), ColumnValues(items, Tone);
    assert s.contentTypes == Count(types) && s.tones == Count(tones);
    CountTotal(types);
    CountTotal(tones);
    CountDistinct(types);
    CountDistinct(tones);
  }

  /** The mean score stays within any whole-number bounds of the scores. */
  lemma SummaryEngagementBetween(items: seq<ContentRow>, lo: int, hi: int)
    requires items != []
    requires forall i :: 0 <= i < |items| ==> lo as real <= OrZeroReal(items[i].engagementScore) <= hi as real
    ensures lo as real <= AvgEngagement(items) <= hi as real
  {
    MeanBetween(Scores(items), lo as real, hi as real);
    RoundBetween(Mean(Scores(items)), Hundredths, lo, hi);
  }

  /** The recommended format, or "N/A" (`default=`) when there are no types. */
  datatype Pick = NotAvailable | Picked(contentType: Option<string>)

  /** `max(types, key=types.get, default='N/A')`: the first type with the highest count. */
  function Recommend(types: Counts<Option<string>>): (p: Pick)
    ensures p.NotAvailable? <==> types == []
    ensures p.Picked? ==> exists i :: 0 <= i < |types| && types[i].0 == p.contentType
                                  && (forall j :: 0 <= j < |types| ==> types[j].1 <= types[i].1)
                                  && (forall j :: 0 <= j < i ==> types[j].1 < types[i].1)
  {
    if types == [] then NotAvailable else Picked(types[FirstMax(types, CountOf)].0)
  }

  /** The tool's answer. `Failed` is the error reply a null body provokes. */
  datatype Insights =
    | Insufficient
    | Failed
    | Insights(top: Summary, low: Summary, recommendation: Pick)

  /**
   * `get_engagement_insights` after the query (at most 50 rows, best score
   * first): fewer than five rows is not enough; otherwise the best and the
   * worst `max(1, n // 5)` rows are summarised and the best group's most
   * frequent type is recommended.
   */
  function EngagementInsights(items: seq<ContentRow>): (r: Insights)
    ensures r.Insufficient? <==> |items| < 5
  {
    if |items| < 5 then Insufficient
    else
      var c := Cutoff(|items|);
      match (SummaryOf(items[..c]), SummaryOf(items[|items| - c..]))
      case (Some(top), Some(low)) => Insights(top, low, Recommend(top.contentTypes))
      case _ => Failed
  }

  /** The two groups are the same size, a fifth of the rows each, and do not overlap. */
  lemma InsightsGroups(items: seq<ContentRow>)
    requires EngagementInsights(items).Insights?
    ensures EngagementInsights(items).top.count == EngagementInsights(items).low.count == Cutoff(|items|)
    ensures 5 * EngagementInsights(items).top.count <= |items|
    ensures EngagementInsights(items).top.count + EngagementInsights(items).low.count <= |items|
  {
  }

  /**
   * The recommendation is a content type of the best group, and no type
   * occurs more often in that group.
   */
  lemma RecommendationIsMostFrequent(items: seq<ContentRow>)
    requires EngagementInsights(items).Insights?
    ensures EngagementInsights(items).recommendation.Picked?
    ensures var xs := ColumnValues(items[..Cutoff(|items|)], ContentType);
            var rec := EngagementInsights(items).recommendation.contentType;
            rec in xs && forall v :: v in xs ==> multiset(xs)[v] <= multiset(xs)[rec]
  {
    var xs := ColumnValues(items[..Cutoff(|items|)], ContentType);
    assert EngagementInsights(items).recommendation == Recommend(Count(xs));
    RecommendMostFrequent(xs);
  }

  /** Over the tally of a non-empty list, `Recommend` names a most frequent value of that list. */
  lemma RecommendMostFrequent(xs: seq<Option<string>>)
    requires xs != []
    ensures Recommend(Count(xs)).Picked?
    ensures Recommend(Count(xs)).contentType in xs
    ensures forall v :: v in xs ==> multiset(xs)[v] <= multiset(xs)[Recommend(Count(xs)).contentType]
  {
    var types := Count(xs);
    CountKeys(xs);
    CountDistinct(xs);
    assert xs[0] in Keys(types);
    var i := FirstMax(types, CountOf);
    var rec := types[i].0;
    assert rec in Keys(types) by { assert Keys(types)[i] == rec; }
    forall v | v in xs ensures multiset(xs)[v] <= multiset(xs)[rec] {
      CountBelowFirstMax(xs, i, v);
    }
  }

  lemma CountBelowFirstMax(xs: seq<Option<string>>, i: nat, v: Option<string>)
    requires |Count(xs)| >= 1 && i == FirstMax(Count(xs), CountOf)
    requires v in xs
    ensures multiset(xs)[v] <= multiset(xs)[Count(xs)[i].0]
  {
    var types := Count(xs);
    CountKeys(xs);
    CountDistinct(xs);
    assert v in Keys(types);
    var j :| 0 <= j < |types| && Keys(types)[j] == v;
    LookupStored(types, i);
    CountLookup(xs, types[i].0);
    LookupStored(types, j);
    CountLookup(xs, v);
    assert CountOf(types[j]) <= CountOf(types[i]);
  }

  // ---------------------------------------------------------------------
  // save_learning
  // ---------------------------------------------------------------------

  /** `TABLES.get("learnings", "social_midia_learnings")` */
  function LearningsTable(tables: map<string, string>): (t: string)
    ensures "learnings" in tables ==> t == tables["learnings"]
    ensures "learnings" !in tables ==> t == "social_midia_learnings"
  {
    if "learnings" in tables then tables["learnings"] else "social_midia_learnings"
  }

  datatype SaveStatus = Saved(learningType: string) | Skipped(reason: string)

  /**
   * `save_learning`, given how the insert ended (`None` for success, the
   * exception's message otherwise): a failure is reported, never raised.
   */
  function SaveLearning(learningType: string, failure: Option<string>): (r: SaveStatus)
    ensures r.Saved? <==> failure.None?
    ensures r.Saved? ==> r.learningType == learningType
    ensures r.Skipped? ==> r.reason == failure.value
  {
    match failure
    case None => Saved(learningType)
    case Some(e) => Skipped(e)
  }
}
