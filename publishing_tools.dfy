/**
 * The Instagram publishing tools (backend/app/tools/publishing_tools.py)
 * with the Graph API calls given as inputs: the credential, media-type,
 * carousel-size and schedule-window guards, the request payloads, the loop
 * that creates the carousel's item containers, the container-status polling
 * loop and the permalink fallback.
 */
module PublishingTools {

  import opened Wrappers
  import opened Text

  /** `_get_ig_credentials`: both settings must be non-empty. */
  function Credentials(token: string, accountId: string): (r: Option<(string, string)>)
    ensures r.Some? <==> token != "" && accountId != ""
    ensures r.Some? ==> r.value == (token, accountId)
  {
    if token == "" || accountId == "" then None else Some((token, accountId))
  }

  /** What a publishing tool decides before it calls the Graph API. */
  datatype Guard =
    | NotConfigured      // `_INSTAGRAM_NOT_CONFIGURED_MSG`
    | BadMediaType
    | TooFewImages
    | TooManyImages
    | BadTimeFormat
    | TooSoon
    | TooLate
    | Proceed

  /**
   * The guards of `publish_to_instagram`: credentials first, then the
   * upper-cased media type must be IMAGE or VIDEO.
   */
  function PublishGuard(token: string, accountId: string, mediaType: string): (g: Guard)
    ensures g == Proceed <==> Credentials(token, accountId).Some? && Upper(mediaType) in {"IMAGE", "VIDEO"}
    ensures Credentials(token, accountId).None? ==> g == NotConfigured
    ensures Credentials(token, accountId).Some? && Upper(mediaType) !in {"IMAGE", "VIDEO"} ==> g == BadMediaType
  {
    if Credentials(token, accountId).None? then NotConfigured
    else if Upper(mediaType) !in {"IMAGE", "VIDEO"} then BadMediaType
    else Proceed
  }

  /** The media type is case-insensitive. */
  lemma PublishGuardIgnoresCase(token: string, accountId: string, m1: string, m2: string)
    requires Upper(m1) == Upper(m2)
    ensures PublishGuard(token, accountId, m1) == PublishGuard(token, accountId, m2)
  {
  }

  /**
   * The container request of `publish_to_instagram` for an accepted
   * (upper-cased) media type: an image URL for IMAGE, a video URL and the
   * VIDEO type for VIDEO.
   */
  function ContainerPayload(caption: string, url: string, mediaType: string, token: string): (p: map<string, string>)
    ensures "caption" in p && "access_token" in p && p["caption"] == caption && p["access_token"] == token
    ensures mediaType == "IMAGE" ==> p.Keys == {"caption", "access_token", "image_url"} && p["image_url"] == url
    ensures mediaType != "IMAGE" ==>
              p.Keys == {"caption", "access_token", "media_type", "video_url"}
              && p["media_type"] == "VIDEO" && p["video_url"] == url
  {
    var base := map["caption" := caption, "access_token" := token];
    if mediaType == "IMAGE" then base["image_url" := url]
    else base["media_type" := "VIDEO"]["video_url" := url]
  }

  /** The guards of `publish_carousel_to_instagram`: credentials, then between 2 and 10 image URLs. */
  function CarouselGuard(token: string, accountId: string, imageUrls: seq<string>): (g: Guard)
    ensures g == Proceed <==> Credentials(token, accountId).Some? && 2 <= |imageUrls| <= 10
    ensures Credentials(token, accountId).Some? && |imageUrls| < 2 ==> g == TooFewImages
    ensures Credentials(token, accountId).Some? && |imageUrls| > 10 ==> g == TooManyImages
  {
    if Credentials(token, accountId).None? then NotConfigured
    else if |imageUrls| < 2 then TooFewImages
    else if |imageUrls| > 10 then TooManyImages
    else Proceed
  }

  /**
   * The item-container loop of `publish_carousel_to_instagram`. `returned[i]`
   * is the id the API returned for image `i` ("" when it returned none). The
   * loop stops at the first image without an id and reports its 1-based
   * position; otherwise it collects every id in order.
   */
  method CreateChildren(returned: seq<string>) returns (children: seq<string>, failedAt: Option<nat>)
    ensures failedAt.None? <==> forall i :: 0 <= i < |returned| ==> returned[i] != ""
    ensures failedAt.None? ==> children == returned
    ensures failedAt.Some? ==>
              var k := failedAt.value - 1;
              && 1 <= failedAt.value <= |returned|
              && returned[k] == ""
              && (forall i :: 0 <= i < k ==> returned[i] != "")
              && children == returned[..k]
  {
    children := [];
    for i := 0 to |returned|
      invariant children == returned[..i]
      invariant forall j :: 0 <= j < i ==> returned[j] != ""
    {
      if returned[i] == "" {
        return children, Some(i + 1);
      }
      children := children + [returned[i]];
    }
    failedAt := None;
  }

  /** Seconds in the 75 days Instagram allows a post to be scheduled ahead. */
  const MaxScheduleAhead: int := 75 * 24 * 60 * 60

  /** Seconds a scheduled post must lie in the future at least. */
  const MinScheduleAhead: int := 600

  /**
   * The guards of `schedule_instagram_post`: credentials, a parsable time
   * (`scheduledTs` is `None` when it does not parse), then the window from
   * ten minutes to 75 days after `nowTs`, both ends included.
   */
  function ScheduleGuard(token: string, accountId: string, scheduledTs: Option<int>, nowTs: int): (g: Guard)
    ensures g == Proceed <==>
              Credentials(token, accountId).Some? && scheduledTs.Some?
              && nowTs + MinScheduleAhead <= scheduledTs.value <= nowTs + MaxScheduleAhead
    ensures Credentials(token, accountId).Some? && scheduledTs.Some? ==>
              (scheduledTs.value < nowTs + MinScheduleAhead <==> g == TooSoon)
    ensures Credentials(token, accountId).Some? && scheduledTs.Some? ==>
              (nowTs + MinScheduleAhead <= scheduledTs.value && scheduledTs.value > nowTs + MaxScheduleAhead <==> g == TooLate)
  {
    if Credentials(token, accountId).None? then NotConfigured
    else if scheduledTs.None? then BadTimeFormat
    else if scheduledTs.value < nowTs + MinScheduleAhead then TooSoon
    else if scheduledTs.value > nowTs + MaxScheduleAhead then TooLate
    else Proceed
  }

  /**
   * "Now" as written: `datetime.utcnow().timestamp()` reads the UTC wall
   * clock as if it were local time, so on a server `utcOffset` seconds east
   * of UTC it is `utcOffset` seconds behind the true `trueNow`.
   */
  function NowTimestampAsWritten(trueNow: int, utcOffset: int): (ts: int)
    ensures utcOffset == 0 ==> ts == trueNow
  {
    trueNow - utcOffset
  }

  /**
   * On a server three hours behind UTC, a post one hour ahead, which the
   * window admits, is refused as too soon.
   */
  lemma ScheduleRefusedBehindUtc(token: string, accountId: string, trueNow: int)
    requires token != "" && accountId != ""
    ensures ScheduleGuard(token, accountId, Some(trueNow + 3600), NowTimestampAsWritten(trueNow, -10800)) == TooSoon
    ensures ScheduleGuard(token, accountId, Some(trueNow + 3600), NowTimestamp(trueNow)) == Proceed
  {
  }

  /** "Now" read as an aware UTC time: the true Unix time. */
  function NowTimestamp(trueNow: int): (ts: int)
    ensures ts == NowTimestampAsWritten(trueNow, 0)
  {
    trueNow
  }

  /** With the true time, the window is exactly ten minutes to 75 days from now. */
  lemma ScheduleWindowExact(token: string, accountId: string, scheduledTs: int, trueNow: int)
    requires token != "" && accountId != ""
    ensures ScheduleGuard(token, accountId, Some(scheduledTs), NowTimestamp(trueNow)) == Proceed
        <==> trueNow + 600 <= scheduledTs <= trueNow + 6480000
  {
  }

  /**
   * The container request of `schedule_instagram_post` as written: an
   * unpublished image container. The scheduled time is not part of it.
   */
  function ScheduleContainerAsWritten(imageUrl: string, caption: string, token: string, scheduledTs: int): (p: map<string, string>)
    ensures p.Keys == {"image_url", "caption", "published", "access_token"}
    ensures p["published"] == "false"
  {
    map["image_url" := imageUrl, "caption" := caption, "published" := "false", "access_token" := token]
  }

  /** As written, two different scheduled times send the very same requests. */
  lemma ScheduledTimeNotSent(imageUrl: string, caption: string, token: string, t1: int, t2: int)
    requires t1 != t2
    ensures ScheduleContainerAsWritten(imageUrl, caption, token, t1) == ScheduleContainerAsWritten(imageUrl, caption, token, t2)
  {
  }

  /** `str(n)` for any integer. */
  function IntToString(n: int): (s: string)
    ensures n >= 0 ==> s == NatToString(n)
  {
    if n >= 0 then NatToString(n) else "-" + NatToString(-n)
  }

  /**
   * The container request carrying the scheduled Unix time, as the
   * step's own description ("with publish_time") intends.
   */
  function ScheduleContainer(imageUrl: string, caption: string, token: string, scheduledTs: int): (p: map<string, string>)
    ensures p.Keys == {"image_url", "caption", "published", "access_token", "scheduled_publish_time"}
    ensures p["published"] == "false"
  {
    ScheduleContainerAsWritten(imageUrl, caption, token, scheduledTs)["scheduled_publish_time" := IntToString(scheduledTs)]
  }

  /** The scheduled time is read back from the request exactly. */
  lemma ScheduledTimeSent(imageUrl: string, caption: string, token: string, scheduledTs: nat)
    ensures ParseNat(ScheduleContainer(imageUrl, caption, token, scheduledTs)["scheduled_publish_time"]) == Some(scheduledTs)
  {
    NatToStringRoundTrip(scheduledTs);
  }

  /** One polling attempt of `_wait_for_container`: a `status_code`, or an exception. */
  datatype Poll = Status(code: Option<string>) | Raised

  /** How the polling ends. */
  datatype WaitResult = Finished | ProcessingError | Expired | TimedOut

  const ProcessingErrorText: string :=
    "Erro no processamento do video pelo Instagram. Verifique se o formato e resolucao sao suportados."
  const ExpiredText: string := "O container de midia expirou antes de ser publicado."
  const TimedOutText: string :=
    "Tempo esgotado aguardando processamento do video. Tente novamente ou verifique o formato do video."

  /** The message each ending returns; `None` for success. */
  function WaitMessage(r: WaitResult): Option<string> {
    match r
    case Finished => None
    case ProcessingError => Some(ProcessingErrorText)
    case Expired => Some(ExpiredText)
    case TimedOut => Some(TimedOutText)
  }

  /** Each failure has its own message, and only success has none. */
  lemma WaitMessagesDistinct(a: WaitResult, b: WaitResult)
    requires a != b
    ensures WaitMessage(a) != WaitMessage(b)
  {
    assert |ProcessingErrorText| == 97;
    assert |ExpiredText| == 52;
    assert |TimedOutText| == 98;
  }

  /** The statuses that end the polling. */
  predicate Terminal(p: Poll) {
    p.Status? && p.code in {Some("FINISHED"), Some("ERROR"), Some("EXPIRED")}
  }

  function Ending(p: Poll): WaitResult
    requires Terminal(p)
  {
    if p.code == Some("FINISHED") then Finished
    else if p.code == Some("ERROR") then ProcessingError
    else Expired
  }

  /** The ending of polling from `attempt` on, with `poll(i)` the outcome of attempt `i`. */
  function WaitFrom(poll: nat -> Poll, attempt: nat, maxAttempts: nat): WaitResult
    decreases maxAttempts - attempt
  {
    if attempt >= maxAttempts then TimedOut
    else if Terminal(poll(attempt)) then Ending(poll(attempt))
    else WaitFrom(poll, attempt + 1, maxAttempts)
  }

  /**
   * `_wait_for_container`: poll up to `maxAttempts` times; FINISHED, ERROR
   * and EXPIRED end the loop, any other status or an exception uses up the
   * attempt, and running out of attempts times out.
   */
  method WaitForContainer(poll: nat -> Poll, maxAttempts: nat) returns (r: WaitResult)
    ensures r == WaitFrom(poll, 0, maxAttempts)
  {
    var attempt := 0;
    while attempt < maxAttempts
      invariant attempt <= maxAttempts
      invariant WaitFrom(poll, attempt, maxAttempts) == WaitFrom(poll, 0, maxAttempts)
    {
      var p := poll(attempt);
      if p.Status? && p.code == Some("FINISHED") {
        return Finished;
      }
      if p.Status? && p.code == Some("ERROR") {
        return ProcessingError;
      }
      if p.Status? && p.code == Some("EXPIRED") {
        return Expired;
      }
      attempt := attempt + 1;
    }
    r := TimedOut;
  }

  /** Polling ends with the first terminal status among the allowed attempts. */
  lemma {:induction false} WaitEndsAtFirstTerminal(poll: nat -> Poll, attempt: nat, maxAttempts: nat, k: nat)
    requires attempt <= k < maxAttempts && Terminal(poll(k))
    requires forall j :: attempt <= j < k ==> !Terminal(poll(j))
    ensures WaitFrom(poll, attempt, maxAttempts) == Ending(poll(k))
    decreases k - attempt
  {
    if attempt < k {
      WaitEndsAtFirstTerminal(poll, attempt + 1, maxAttempts, k);
    }
  }

  /** Without a terminal status in the allowed attempts, polling times out. */
  lemma {:induction false} WaitTimesOut(poll: nat -> Poll, attempt: nat, maxAttempts: nat)
    requires forall j :: attempt <= j < maxAttempts ==> !Terminal(poll(j))
    ensures WaitFrom(poll, attempt, maxAttempts) == TimedOut
    decreases maxAttempts - attempt
  {
    if attempt < maxAttempts {
      WaitTimesOut(poll, attempt + 1, maxAttempts);
    }
  }

  /** The permalink lookup: its result, or an exception. */
  datatype PermalinkLookup = Looked(permalink: Field<string>) | LookupRaised

  /** `_get_permalink`: the returned permalink, or "Permalink nao disponivel" when it is absent or the lookup fails; a `null` permalink is formatted as "None". */
  function Permalink(lookup: PermalinkLookup): (s: string)
    ensures lookup.LookupRaised? ==> s == "Permalink nao disponivel"
    ensures lookup.Looked? && lookup.permalink.Missing? ==> s == "Permalink nao disponivel"
    ensures lookup.Looked? && lookup.permalink.Null? ==> s == "None"
    ensures lookup.Looked? && lookup.permalink.Present? ==> s == lookup.permalink.value
  {
    match lookup
    case LookupRaised => "Permalink nao disponivel"
    case Looked(p) =>
      match p
      case Missing => "Permalink nao disponivel"
      case Null => "None"
      case Present(s) => s
  }
}
