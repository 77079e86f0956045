/**
 * Content-pattern analysis over a user's best content pieces
 * (backend/app/services/learning_service.py). The query result (at most 50
 * rows, ordered by engagement score, highest first) is the input; the module
 * slices it into a top and a low window, tallies content types, tones and
 * posting days of the top window, and averages body lengths.
 */
module LearningService {

  import opened Wrappers
  import opened Rounding
  import opened StableSort
  import opened Tally

  /** One content piece as returned by the query; every column may be absent or null. */
  datatype ContentRow = ContentRow(
    contentType: Field<string>,
    tone: Field<string>,
    postedDay: Field<string>,
    body: Field<string>,
    engagementScore: Field<real>)

  /** The columns `_count_field` is asked about. */
  datatype Column = ContentType | Tone | PostedDay

  /** The column `c` of `row`. */
  function Cell(row: ContentRow, c: Column): Field<string> {
    match c
    case ContentType => row.contentType
    case Tone => row.tone
    case PostedDay => row.postedDay
  }

  /**
   * `item.get(field, "unknown")`: an absent column reads as "unknown", a null
   * one as `None`, which is counted as a key of its own.
   */
  function ColumnValue(row: ContentRow, c: Column): (v: Option<string>)
    ensures Cell(row, c).Missing? ==> v == Some("unknown")
    ensures Cell(row, c).Null? ==> v == None
    ensures Cell(row, c).Present? ==> v == Some(Cell(row, c).value)
  {
    Cell(row, c).Get("unknown")
  }

  function ColumnValues(rows: seq<ContentRow>, c: Column): (vs: seq<Option<string>>)
    ensures |vs| == |rows|
    ensures forall i {:trigger vs[i]} :: 0 <= i < |rows| ==> vs[i] == ColumnValue(rows[i], c)
  {
    seq(|rows|, i requires 0 <= i < |rows| => ColumnValue(rows[i], c))
  }

  /**
   * `_count_field`: count the column's values in a loop, then order the
   * counts highest first, keeping first-seen order among equal counts.
   */
  method CountField(rows: seq<ContentRow>, c: Column) returns (r: Counts<Option<string>>)
    ensures r == MostCommon(ColumnValues(rows, c))
  {
    var counts: Counts<Option<string>> := [];
    for i := 0 to |rows|
      invariant counts == Count(ColumnValues(rows[..i], c))
    {
      CountColumnStep(rows, i, c);
      counts := Bump(counts, ColumnValue(rows[i], c));
    }
    assert rows[..|rows|] == rows;
    SortDescOrdered(counts, CountOf);
    r := SortDesc(counts, CountOf);
  }

  /** One more row bumps the tally of its value. */
  lemma CountColumnStep(rows: seq<ContentRow>, i: nat, c: Column)
    requires i < |rows|
    ensures Count(ColumnValues(rows[..i + 1], c)) == Bump(Count(ColumnValues(rows[..i], c)), ColumnValue(rows[i], c))
  {
    assert ColumnValues(rows[..i + 1], c)[..i] == ColumnValues(rows[..i], c);
  }

  /** What `_count_field` returns: counts that add up, exact per key, ordered, stable on ties. */
  lemma CountFieldSpec(rows: seq<ContentRow>, c: Column)
    ensures Total(MostCommon(ColumnValues(rows, c))) == |rows|
    ensures forall p :: p in MostCommon(ColumnValues(rows, c)) ==> p.1 == multiset(ColumnValues(rows, c))[p.0] >= 1
    ensures forall v :: v in Keys(MostCommon(ColumnValues(rows, c))) <==> v in ColumnValues(rows, c)
    ensures NonIncreasing(MostCommon(ColumnValues(rows, c)), CountOf)
    ensures forall k :: WithKey(MostCommon(ColumnValues(rows, c)), CountOf, k)
                     == WithKey(Count(ColumnValues(rows, c)), CountOf, k)
  {
    MostCommonTotal(ColumnValues(rows, c));
    MostCommonExact(ColumnValues(rows, c));
    MostCommonKeys(ColumnValues(rows, c));
    forall k ensures WithKey(MostCommon(ColumnValues(rows, c)), CountOf, k)
                  == WithKey(Count(ColumnValues(rows, c)), CountOf, k) {
      MostCommonStable(ColumnValues(rows, c), k);
    }
  }

  /** `len(item.get("body", ""))`: an absent body has length 0; `len(None)` raises. */
  function BodyLength(row: ContentRow): Option<nat> {
    match row.body
    case Missing => Some(0)
    case Null => None
    case Present(s) => Some(|s|)
  }

  /** The summed body lengths, or `None` when some body is null. */
  function TotalLength(rows: seq<ContentRow>): (r: Option<nat>)
    ensures r.Some? <==> forall i :: 0 <= i < |rows| ==> BodyLength(rows[i]).Some?
  {
    if rows == [] then Some(0)
    else
      var last := BodyLength(rows[|rows| - 1]);
      match TotalLength(rows[..|rows| - 1])
      case None => None
      case Some(t) => if last.None? then None else Some(t + last.value)
  }

  /** One more readable row adds its body length to the total. */
  lemma TotalLengthStep(rows: seq<ContentRow>, i: nat)
    requires i < |rows|
    requires TotalLength(rows[..i]).Some? && BodyLength(rows[i]).Some?
    ensures TotalLength(rows[..i + 1]) == Some(TotalLength(rows[..i]).value + BodyLength(rows[i]).value)
  {
    assert rows[..i + 1][..i] == rows[..i];
  }

  /**
   * `_avg_length`: 0 for no rows, otherwise the mean body length rounded half
   * to even; `None` stands for the `TypeError` a null body raises.
   */
  function AvgLength(rows: seq<ContentRow>): (r: Option<int>)
    ensures rows == [] ==> r == Some(0)
    ensures r.Some? <==> TotalLength(rows).Some?
  {
    if rows == [] then Some(0)
    else
      match TotalLength(rows)
      case None => None
      case Some(t) => Some(RoundHalfEven(t as real / |rows| as real))
  }

  /** The average is the mean body length to the nearest whole number, never negative. */
  lemma AvgLengthNearMean(rows: seq<ContentRow>)
    requires rows != [] && AvgLength(rows).Some?
    ensures var mean := TotalLength(rows).value as real / |rows| as real;
            mean - 0.5 <= AvgLength(rows).value as real <= mean + 0.5
    ensures 0 <= AvgLength(rows).value <= TotalLength(rows).value
  {
    var t := TotalLength(rows).value;
    FractionBetween(t, |rows|);
    RoundHalfEvenBetween(t as real / |rows| as real, 0, t);
  }

  lemma FractionBetween(t: nat, n: nat)
    requires 1 <= n
    ensures 0.0 <= t as real / n as real <= t as real
  {
    var q := t as real / n as real;
    assert q * n as real == t as real;
    assert (t as real - q) == q * (n as real - 1.0);
  }

  /** The result of `analyze_content_patterns`. */
  datatype Analysis =
    | NoContent
    | BodyNotText
    | Patterns(
        topContentTypes: Counts<Option<string>>,
        topTones: Counts<Option<string>>,
        avgLengthTop: int,
        avgLengthLow: int,
        bestPostingDays: Counts<Option<string>>,
        totalAnalyzed: nat)

  /** `analyze_content_patterns` after the query, as a value. */
  function ContentPatterns(rows: seq<ContentRow>): (r: Analysis)
    ensures r.NoContent? <==> rows == []
  {
    if rows == [] then NoContent
    else
      var top, low := Take(rows, 10), TakeLast(rows, 10);
      match (AvgLength(top), AvgLength(low))
      case (Some(lenTop), Some(lenLow)) =>
        Patterns(MostCommon(ColumnValues(top, ContentType)), MostCommon(ColumnValues(top, Tone)),
                 lenTop, lenLow, MostCommon(ColumnValues(top, PostedDay)), |rows|)
      case _ => BodyNotText
  }

  /**
   * `analyze_content_patterns`: the top window is the first 10 rows, the low
   * window the last 10 (the same rows when there are at most 10).
   */
  method AnalyzeContentPatterns(rows: seq<ContentRow>) returns (r: Analysis)
    ensures r == ContentPatterns(rows)
  {
    if rows == [] {
      return NoContent;
    }
    var top, low := Take(rows, 10), TakeLast(rows, 10);
    var types := CountField(top, ContentType);
    var tones := CountField(top, Tone);
    var lenTop := AvgLength(top);
    var lenLow := AvgLength(low);
    var days := CountField(top, PostedDay);
    if lenTop.None? || lenLow.None? {
      return BodyNotText;
    }
    r := Patterns(types, tones, lenTop.value, lenLow.value, days, |rows|);
  }

  /** With readable bodies the analysis succeeds and counts every row. */
  lemma ContentPatternsSucceeds(rows: seq<ContentRow>)
    requires rows != []
    requires forall i :: 0 <= i < |rows| ==> BodyLength(rows[i]).Some?
    ensures ContentPatterns(rows).Patterns?
    ensures ContentPatterns(rows).totalAnalyzed == |rows|
  {
    var top, low := Take(rows, 10), TakeLast(rows, 10);
    assert forall i :: 0 <= i < |top| ==> top[i] == rows[i];
    assert forall i :: 0 <= i < |low| ==> low[i] == rows[|rows| - |low| + i];
  }

  /** A null body anywhere in either window makes the analysis fail. */
  lemma ContentPatternsNullBody(rows: seq<ContentRow>, i: nat)
    requires i < |rows| && rows[i].body.Null?
    requires i < 10 || |rows| - 10 <= i
    ensures ContentPatterns(rows).BodyNotText?
  {
    var top, low := Take(rows, 10), TakeLast(rows, 10);
    assert BodyLength(rows[i]).None?;
    if i < 10 {
      assert top[i] == rows[i];
      assert AvgLength(top).None?;
    } else {
      var k := i - (|rows| - |low|);
      assert low[k] == rows[i];
      assert AvgLength(low).None?;
    }
  }

  /** The three tallies each cover exactly the first `min(10, n)` rows. */
  lemma ContentPatternsTallies(rows: seq<ContentRow>)
    requires ContentPatterns(rows).Patterns?
    ensures Total(ContentPatterns(rows).topContentTypes) == if |rows| < 10 then |rows| else 10
    ensures Total(ContentPatterns(rows).topTones) == if |rows| < 10 then |rows| else 10
    ensures Total(ContentPatterns(rows).bestPostingDays) == if |rows| < 10 then |rows| else 10
  {
    var top := Take(rows, 10);
    MostCommonTotal(ColumnValues(top, ContentType));
    MostCommonTotal(ColumnValues(top, Tone));
    MostCommonTotal(ColumnValues(top, PostedDay));
  }

  /** With at most 10 rows the top and low windows are the same rows. */
  lemma ContentPatternsOverlap(rows: seq<ContentRow>)
    requires ContentPatterns(rows).Patterns?
    requires |rows| <= 10
    ensures ContentPatterns(rows).avgLengthTop == ContentPatterns(rows).avgLengthLow
  {
  }
}
