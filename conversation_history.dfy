/**
 * The two display helpers of the conversation-history panel
 * (frontend/src/components/chat/conversation-history.tsx): the relative age
 * shown next to a conversation, and the cut applied to its first message.
 */
module ConversationHistory {

  import opened Text

  const MinuteMs: nat := 60000
  const HourMs: nat := 3600000
  const DayMs: nat := 86400000

  /** What `formatDate` shows: a relative age, or the calendar day for anything a week old or more. */
  datatype DateLabel = Relative(text: string) | CalendarDay

  /**
   * `formatDate`, given `now - date` in milliseconds. Each count is
   * `Math.floor` of the difference over its unit; the buckets are tried from
   * the smallest unit up, so a date in the future reads "Agora".
   */
  function FormatDate(diffMs: int): (r: DateLabel)
    ensures r.CalendarDay? <==> diffMs >= 7 * DayMs
    ensures r == Relative("Agora") <==> diffMs < MinuteMs
  {
    var mins, hours, days := diffMs / MinuteMs, diffMs / HourMs, diffMs / DayMs;
    if mins < 1 then Relative("Agora")
    else if mins < 60 then Relative(Ago(mins, "m"))
    else if hours < 24 then Relative(Ago(hours, "h"))
    else if days < 7 then Relative(Ago(days, "d"))
    else CalendarDay
  }

  /** A count and a unit letter followed by " atrás". */
  function Ago(n: nat, unit: string): (s: string)
    ensures s != "Agora"
  {
    var digits := NatToString(n);
    assert IsDigit(digits[0]);
    digits + unit + " atrás"
  }

  /**
   * Reading a relative age back: every label other than "Agora" is a number
   * followed by the unit letter and " atrás", where the unit is the largest
   * of minutes, hours and days that has fully passed, and the number is how
   * many whole units have passed (less than 60, 24 and 7 respectively).
   */
  lemma FormatDateReadsBack(diffMs: int)
    requires MinuteMs <= diffMs < 7 * DayMs
    ensures exists digits: string, unit: string, size: nat, bound: nat ::
              && FormatDate(diffMs) == Relative(digits + unit + " atrás")
              && (unit, size, bound) in {("m", MinuteMs, 60), ("h", HourMs, 24), ("d", DayMs, 7)}
              && ParseNat(digits).Some?
              && var n := ParseNat(digits).value;
                 1 <= n < bound && n * size <= diffMs < (n + 1) * size
  {
    var n, unit, size, bound;
    if diffMs < HourMs {
      n, unit, size, bound := diffMs / MinuteMs, "m", MinuteMs, 60;
    } else if diffMs < DayMs {
      n, unit, size, bound := diffMs / HourMs, "h", HourMs, 24;
    } else {
      n, unit, size, bound := diffMs / DayMs, "d", DayMs, 7;
    }
    NatToStringRoundTrip(n);
    var digits := NatToString(n);
    assert FormatDate(diffMs) == Relative(digits + unit + " atrás");
    assert (unit, size, bound) in {("m", MinuteMs, 60), ("h", HourMs, 24), ("d", DayMs, 7)};
  }

  /** The ages the panel's own test expects: five minutes and two hours ago. */
  lemma FormatDateExamples()
    ensures FormatDate(5 * MinuteMs) == Relative("5m atrás")
    ensures FormatDate(2 * HourMs) == Relative("2h atrás")
  {
    assert NatToString(5) == "5";
    assert NatToString(2) == "2";
  }

  /** `truncateMessage(msg, maxLength = 50)`: a longer message keeps its first `maxLength` characters and gains "...". */
  function TruncateMessage(msg: string, maxLength: nat := 50): (r: string)
    ensures |msg| <= maxLength ==> r == msg
    ensures |msg| > maxLength ==> |r| == maxLength + 3 && r[..maxLength] == msg[..maxLength] && r[maxLength..] == "..."
  {
    if |msg| <= maxLength then msg else msg[..maxLength] + "..."
  }

  /**
   * A message is shown shorter than it is exactly when it is more than three
   * characters over the limit: at 51 to 53 characters the "truncated" text
   * is as long as the message or longer.
   */
  lemma TruncatedShorterIff(msg: string, maxLength: nat)
    ensures |TruncateMessage(msg, maxLength)| < |msg| <==> |msg| > maxLength + 3
    ensures |TruncateMessage(msg, maxLength)| <= maxLength + 3
  {
  }

  /** The panel's test: a 100-character message is shown shorter, ending in "...". */
  lemma TruncateLongMessage(msg: string)
    requires |msg| == 100
    ensures var r := TruncateMessage(msg);
            |r| < |msg| && r[|r| - 3..] == "..." && r[..|r| - 3] == msg[..50]
  {
  }
}
