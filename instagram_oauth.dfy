/**
 * The CSRF state table of the Instagram login flow
 * (backend/app/services/instagram_oauth.py). A module-level dictionary maps
 * each issued `state` token to the user it was issued for and the time it was
 * issued; states older than ten minutes are swept before every use, and a
 * state is popped when it is validated, so it can be used once. The clock and
 * the random token are parameters.
 */
module InstagramOAuth {

  import opened Wrappers

  /** `_STATE_TTL_SECONDS` */
  const StateTtlSeconds: real := 600.0

  /** `INSTAGRAM_AUTH_URL`, the page the authorization URL points at. */
  const AuthorizeUrl: string := "https://www.instagram.com/oauth/authorize"

  /** `OAUTH_SCOPES` */
  const OAuthScopes: string :=
    "instagram_business_basic,instagram_business_manage_messages,instagram_business_manage_comments,instagram_business_content_publish,instagram_business_manage_insights"

  /** One entry of `_csrf_states`. */
  datatype StateEntry = StateEntry(userId: string, createdAt: real)

  type States = map<string, StateEntry>

  /** A state is expired once its age strictly exceeds the TTL. */
  predicate Expired(e: StateEntry, now: real) {
    now - e.createdAt > StateTtlSeconds
  }

  /** The table after `_cleanup_expired_states` at time `now`. */
  function Unexpired(m: States, now: real): (r: States)
    ensures forall k :: k in r <==> k in m && !Expired(m[k], now)
    ensures forall k :: k in r ==> r[k] == m[k]
  {
    map k | k in m && !Expired(m[k], now) :: m[k]
  }

  /** Sweeping twice is sweeping once at the later time. */
  lemma UnexpiredLater(m: States, earlier: real, later: real)
    requires earlier <= later
    ensures Unexpired(Unexpired(m, earlier), later) == Unexpired(m, later)
  {
    assert forall k :: k in m && !Expired(m[k], later) ==> !Expired(m[k], earlier);
  }

  /** What `validate_and_consume_state` returns for `state` at time `now`. */
  function Lookup(m: States, state: string, now: real): (r: Option<string>)
    ensures r.Some? <==> state in m && !Expired(m[state], now)
    ensures r.Some? ==> r.value == m[state].userId
  {
    var live := Unexpired(m, now);
    if state in live then Some(live[state].userId) else None
  }

  /** The table after `validate_and_consume_state(state)` at time `now`. */
  function Consumed(m: States, state: string, now: real): (r: States)
    ensures state !in r
    ensures forall k :: k in r <==> k in m && k != state && !Expired(m[k], now)
  {
    Unexpired(m, now) - {state}
  }

  /** The table after issuing `state` for `userId` at time `now`. */
  function Issued(m: States, state: string, userId: string, now: real): (r: States)
    ensures forall k :: k in r <==> k == state || (k in m && !Expired(m[k], now))
  {
    Unexpired(m, now)[state := StateEntry(userId, now)]
  }

  /** A state validates once: looking it up again after consuming it finds nothing. */
  lemma SingleUse(m: States, state: string, now: real, later: real)
    ensures Lookup(Consumed(m, state, now), state, later) == None
  {
  }

  /** An issued state validates to its user exactly while it is at most ten minutes old. */
  lemma IssuedThenLookup(m: States, state: string, userId: string, now: real, later: real)
    ensures Lookup(Issued(m, state, userId, now), state, later)
         == if later - now <= StateTtlSeconds then Some(userId) else None
  {
    assert Issued(m, state, userId, now)[state] == StateEntry(userId, now);
  }

  /** Issuing or consuming one state leaves every other live state as it was. */
  lemma OtherStatesUntouched(m: States, state: string, other: string, userId: string, now: real)
    requires other != state
    ensures Lookup(Issued(m, state, userId, now), other, now) == Lookup(m, other, now)
    ensures Lookup(Consumed(m, state, now), other, now) == Lookup(m, other, now)
  {
    var issued := Issued(m, state, userId, now);
    if other in issued {
      assert issued[other] == m[other];
    }
  }

  /** The query string `generate_oauth_url` encodes, before URL encoding. */
  datatype AuthorizationParams = AuthorizationParams(
    clientId: string,
    redirectUri: string,
    responseType: string,
    scope: string,
    state: string)

  /** The result of `generate_oauth_url`: the `ValueError` of an unconfigured app, or the parameters. */
  datatype AuthorizationUrl = NotConfigured | AuthorizationUrl(params: AuthorizationParams)

  /** The two Meta settings the flow reads; an empty string is an unset value. */
  datatype MetaSettings = MetaSettings(appId: string, redirectUri: string)

  /**
   * The attributes `Settings` declares (backend/app/config.py:8-49). With
   * `extra` set to "ignore", environment variables under any other name are
   * dropped, and reading such an attribute raises `AttributeError`.
   */
  const DeclaredSettings: set<string> := {
    "APP_NAME", "ENVIRONMENT", "DEBUG", "API_SECRET_KEY", "SUPABASE_URL",
    "SUPABASE_KEY", "SUPABASE_SERVICE_ROLE_KEY", "OPENAI_API_KEY",
    "DATABASE_URL", "REDIS_URL", "CORS_ORIGINS", "INSTAGRAM_ACCESS_TOKEN",
    "INSTAGRAM_BUSINESS_ACCOUNT_ID", "YOUTUBE_API_KEY", "RESEND_API_KEY",
    "EMAIL_FROM", "MAX_UPLOAD_SIZE_MB", "SUPABASE_JWT_SECRET"}

  /**
   * The declared settings whose default is not the empty string, written as
   * text (`str()` of the default for the boolean, integer and list settings).
   */
  const SettingDefaults: map<string, string> := map[
    "APP_NAME" := "AgenteSocial API",
    "ENVIRONMENT" := "development",
    "DEBUG" := "True",
    "REDIS_URL" := "redis://localhost:6379/0",
    "CORS_ORIGINS" := "['http://localhost:3000', 'http://localhost:3001', 'https://social-midia-ia.vercel.app']",
    "EMAIL_FROM" := "noreply@agentesocial.com",
    "MAX_UPLOAD_SIZE_MB" := "50"]

  /**
   * `settings.<name>` as written, as text: `None` stands for the
   * `AttributeError` an undeclared name raises; an unset declared setting
   * has its default, which is "" for every setting not in `SettingDefaults`.
   */
  function ReadSettingAsWritten(env: map<string, string>, name: string): (r: Option<string>)
    ensures r.Some? <==> name in DeclaredSettings
    ensures r.Some? && name in env ==> r.value == env[name]
    ensures r.Some? && name !in env ==> r.value == if name in SettingDefaults then SettingDefaults[name] else ""
  {
    if name !in DeclaredSettings then None
    else if name in env then Some(env[name])
    else if name in SettingDefaults then Some(SettingDefaults[name])
    else Some("")
  }

  /** The Meta settings as written: `None` is the `AttributeError`. */
  function MetaSettingsAsWritten(env: map<string, string>): Option<MetaSettings> {
    match (ReadSettingAsWritten(env, "META_APP_ID"), ReadSettingAsWritten(env, "META_REDIRECT_URI"))
    case (Some(id), Some(uri)) => Some(MetaSettings(id, uri))
    case _ => None
  }

  /**
   * As written, whatever the environment holds, reading the Meta settings
   * raises before the configuration guard can run.
   */
  lemma MetaSettingsAsWrittenRaise(env: map<string, string>)
    ensures MetaSettingsAsWritten(env) == None
  {
    assert "META_APP_ID" !in DeclaredSettings;
  }

  /**
   * The Meta settings once `Settings` declares `META_APP_ID` and
   * `META_REDIRECT_URI` as strings defaulting to "".
   */
  function MetaSettingsOf(env: map<string, string>): (s: MetaSettings)
    ensures "META_APP_ID" in env ==> s.appId == env["META_APP_ID"]
    ensures "META_APP_ID" !in env ==> s.appId == ""
    ensures "META_REDIRECT_URI" in env ==> s.redirectUri == env["META_REDIRECT_URI"]
    ensures "META_REDIRECT_URI" !in env ==> s.redirectUri == ""
  {
    MetaSettings(
      if "META_APP_ID" in env then env["META_APP_ID"] else "",
      if "META_REDIRECT_URI" in env then env["META_REDIRECT_URI"] else "")
  }

  /** The configuration guard: both settings must be non-empty. */
  predicate Configured(s: MetaSettings) {
    s.appId != "" && s.redirectUri != ""
  }

  /** The module-level `_csrf_states` dictionary. */
  class CsrfStateStore {

    var states: States

    constructor ()
      ensures states == map[]
    {
      states := map[];
    }

    /** `_cleanup_expired_states`: collect the expired keys, then delete them one by one. */
    method CleanupExpiredStates(now: real)
      modifies this
      ensures states == Unexpired(old(states), now)
    {
      ghost var start := states;
      var expired := set k | k in states && Expired(states[k], now);
      while expired != {}
        invariant expired <= start.Keys
        invariant forall k :: k in expired ==> Expired(start[k], now)
        invariant states == map k | k in start && (k in expired || !Expired(start[k], now)) :: start[k]
        decreases expired
      {
        var k :| k in expired;
        states := states - {k};
        expired := expired - {k};
      }
    }

    /**
     * `generate_oauth_url(user_id)`: refuse an unconfigured app before
     * touching the table; otherwise sweep, record the fresh `state` for the
     * user at time `now`, and return the authorization parameters.
     */
    method GenerateOAuthUrl(settings: MetaSettings, userId: string, now: real, state: string)
      returns (r: AuthorizationUrl)
      modifies this
      ensures !Configured(settings) ==> r == NotConfigured && states == old(states)
      ensures Configured(settings) ==>
                r == AuthorizationUrl(AuthorizationParams(settings.appId, settings.redirectUri, "code", OAuthScopes, state))
                && states == Issued(old(states), state, userId, now)
    {
      if settings.appId == "" || settings.redirectUri == "" {
        return NotConfigured;
      }
      CleanupExpiredStates(now);
      states := states[state := StateEntry(userId, now)];
      r := AuthorizationUrl(AuthorizationParams(settings.appId, settings.redirectUri, "code", OAuthScopes, state));
    }

    /**
     * `validate_and_consume_state(state)`: sweep, then pop the state; its user
     * when it was live, `None` when it was unknown or expired.
     */
    method ValidateAndConsumeState(state: string, now: real) returns (userId: Option<string>)
      modifies this
      ensures userId == Lookup(old(states), state, now)
      ensures states == Consumed(old(states), state, now)
    {
      CleanupExpiredStates(now);
      if state in states {
        userId := Some(states[state].userId);
        states := states - {state};
      } else {
        userId := None;
      }
    }
  }
}
