/** Shared/Stores/UsageStore.swift: the app's view of the usage. A refresh first
    lets a token that Claude Code rotated in the keychain replace a dead one, then
    fetches unless the stored token is the one last refused (`lastFailedToken`),
    and maps the outcome onto the published fields. The notification service is
    reached through its protocol; its calls are recorded in `thresholdChecks`. */
module UsageStores {
  import opened Wrappers
  import opened Localized
  import opened Decimal
  import opened UsageModels
  import opened Pacing
  import opened Metrics
  import opened ThemeModels
  import opened ClaudeJsonReader
  import opened SharedFile
  import opened ApiClient
  import opened UsageRepositories

  /** The published fields and `lastFailedToken`. */
  datatype StoreState = StoreState(
    fiveHourPct: int,
    sevenDayPct: int,
    sonnetPct: int,
    fiveHourReset: Text,
    pacingDelta: int,
    pacingZone: PacingZone,
    pacingResult: Option<PacingResult>,
    lastUpdate: Option<int>,
    isLoading: bool,
    errorState: AppErrorState,
    hasConfig: bool,
    lastFailedToken: Option<string>)

  const InitialState := StoreState(0, 0, 0, Literal(""), 0, OnTrack, None, None, false, NoError, false, None)

  /** `NotificationServiceProtocol.checkThresholds(fiveHour:sevenDay:sonnet:thresholds:)`. */
  datatype ThresholdCheck = ThresholdCheck(fiveHour: int, sevenDay: int, sonnet: int, thresholds: UsageThresholds)

  /** `Int(bucket?.utilization ?? 0)`. */
  function Pct(b: Option<UsageBucket>): (p: int)
    ensures b.None? ==> p == 0
    ensures b.Some? && b.value.utilization >= 0.0 ==> p as real <= b.value.utilization < p as real + 1.0
  {
    Truncate(if b.Some? then b.value.utilization else 0.0)
  }

  /** The five-hour countdown text: "{h}h {m}min", "{m}min", the `relative.now`
      key once the reset has passed, and "" without a reset date. */
  function ResetText(reset: Option<int>, now: int): (t: Text)
    ensures reset.None? ==> t == Literal("")
    ensures reset.Some? && reset.value <= now ==> t == Plain("relative.now")
    ensures reset.Some? && reset.value - now >= 3600 ==>
      t == Literal(NatToString((reset.value - now) / 3600) + "h " + NatToString(((reset.value - now) % 3600) / 60) + "min")
    ensures reset.Some? && 0 < reset.value - now < 3600 ==>
      t == Literal(NatToString((reset.value - now) / 60) + "min")
  {
    match reset
    case None => Literal("")
    case Some(r) =>
      var diff := r - now;
      if diff > 0 then
        var h := diff / 3600;
        var m := (diff % 3600) / 60;
        if h > 0 then Literal(NatToString(h) + "h " + NatToString(m) + "min") else Literal(NatToString(m) + "min")
      else Plain("relative.now")
  }

  /** `update(from:)`: the three percentages and the countdown always; the
      pacing fields only when pacing can be computed. */
  function UpdateFrom(s: StoreState, usage: UsageResponse, now: int): (s': StoreState)
    ensures s'.fiveHourPct == Pct(usage.fiveHour) && s'.sevenDayPct == Pct(usage.sevenDay) && s'.sonnetPct == Pct(usage.sevenDaySonnet)
    ensures Calculate(usage, now).None? ==> s'.pacingResult == s.pacingResult && s'.pacingZone == s.pacingZone && s'.pacingDelta == s.pacingDelta
    ensures Calculate(usage, now).Some? ==> s'.pacingResult == Calculate(usage, now) && s'.pacingZone == Calculate(usage, now).value.zone
    ensures Calculate(usage, now).Some? ==> s'.pacingDelta == Truncate(Calculate(usage, now).value.delta)
    ensures s'.fiveHourReset == ResetText(BucketResetDate(usage.fiveHour), now)
    ensures s'.lastFailedToken == s.lastFailedToken && s'.errorState == s.errorState && s'.hasConfig == s.hasConfig
    ensures s'.isLoading == s.isLoading && s'.lastUpdate == s.lastUpdate
  {
    WithPacing(WithPercentages(s, usage, now), Calculate(usage, now))
  }

  /** The percentages and the reset text of `update(from:)`. */
  function WithPercentages(s: StoreState, usage: UsageResponse, now: int): StoreState {
    s.(fiveHourPct := Pct(usage.fiveHour), sevenDayPct := Pct(usage.sevenDay), sonnetPct := Pct(usage.sevenDaySonnet),
       fiveHourReset := ResetText(BucketResetDate(usage.fiveHour), now))
  }

  /** The pacing part of `update(from:)`: a missing result keeps the last one. */
  function WithPacing(s: StoreState, pacing: Option<PacingResult>): StoreState {
    match pacing
    case None => s
    case Some(p) => s.(pacingDelta := Truncate(p.delta), pacingZone := p.zone, pacingResult := Some(p))
  }

  /** How a failed refresh is shown. */
  function ErrorStateOf(e: FetchError): (a: AppErrorState)
    ensures a == AppErrorState.TokenExpired <==> e == Api(APIError.TokenExpired)
    ensures a == AppErrorState.KeychainLocked <==> e == Api(APIError.KeychainLocked)
    ensures a != NoError
  {
    match e
    case Api(err) =>
      if err == APIError.TokenExpired then AppErrorState.TokenExpired
      else if err == APIError.KeychainLocked then AppErrorState.KeychainLocked
      else NetworkError(err.Description())
    case Other(d) => NetworkError(d)
  }

  /** The opening step of `refresh`: when there is no token, or the stored one
      is the one last refused, a silent keychain read may bring a new token,
      which clears the failure. Returns the store state and the shared record. */
  function SilentRecovery(s: StoreState, d: SharedData, silent: Option<string>): (r: (StoreState, SharedData))
  {
    if d.oauthToken.None? || s.lastFailedToken == d.oauthToken then
      var d1 := if silent.Some? then d.(oauthToken := silent) else d;
      var s1 := if d1.oauthToken.Some? && d1.oauthToken != s.lastFailedToken then s.(lastFailedToken := None, errorState := NoError) else s;
      (s1, d1)
    else (s, d)
  }

  /** How a finished fetch lands in the store: `token` is the stored token
      after the fetch, remembered when it was refused. */
  function Settle(s: StoreState, result: Result<UsageResponse, FetchError>, token: Option<string>,
                  now: int, thresholds: UsageThresholds): (r: (StoreState, seq<ThresholdCheck>))
    ensures result.Failure? ==> r.1 == [] && r.0.errorState == ErrorStateOf(result.error)
    ensures result.Failure? ==> r.0.lastFailedToken == (if r.0.errorState == AppErrorState.TokenExpired then token else s.lastFailedToken)
    ensures result.Success? ==> r.0.errorState == NoError && r.0.lastFailedToken.None? && r.0.lastUpdate == Some(now)
    ensures result.Success? ==> r.1 == [ThresholdCheck(r.0.fiveHourPct, r.0.sevenDayPct, r.0.sonnetPct, thresholds)]
  {
    match result
    case Success(usage) =>
      var s' := UpdateFrom(s, usage, now).(errorState := NoError, lastFailedToken := None, lastUpdate := Some(now));
      (s', [ThresholdCheck(s'.fiveHourPct, s'.sevenDayPct, s'.sonnetPct, thresholds)])
    case Failure(e) =>
      if e == Api(APIError.TokenExpired) then (s.(lastFailedToken := token, errorState := AppErrorState.TokenExpired), [])
      else (s.(errorState := ErrorStateOf(e)), [])
  }

  /** `refresh(thresholds:)`: the new state, the new shared record, the
      threshold checks requested, and the tokens the API was called with. */
  function RefreshSpec(s: StoreState, d: SharedData, silent: Option<string>, api: UsageApi, proxy: Option<ProxyConfig>,
                       now: int, stats: seq<ModelTokenStats>, thresholds: UsageThresholds)
    : (r: (StoreState, SharedData, seq<ThresholdCheck>, seq<string>))
  {
    var (s1, d1) := SilentRecovery(s, d, silent);
    if d1.oauthToken.None? || d1.oauthToken == s1.lastFailedToken then
      (s1.(hasConfig := s1.lastFailedToken.Some?), d1, [], [])
    else
      var (result, d2, calls) := RefreshOutcome(d1, silent, api, proxy, now, stats);
      var (s3, checks) := Settle(s1.(hasConfig := true, isLoading := false), result, d2.oauthToken, now, thresholds);
      (s3, d2, checks, calls)
  }

  /** A refused token is sticky: while the keychain offers nothing newer, a
      refresh does not call the API again, changes nothing in the shared record,
      and only reports that a configuration exists. */
  lemma DeadTokenIsNotRetried(s: StoreState, d: SharedData, silent: Option<string>, api: UsageApi, proxy: Option<ProxyConfig>,
                              now: int, stats: seq<ModelTokenStats>, thresholds: UsageThresholds)
    requires d.oauthToken.Some? && s.lastFailedToken == d.oauthToken
    requires silent.None? || silent == d.oauthToken
    ensures var (s', d', checks, calls) := RefreshSpec(s, d, silent, api, proxy, now, stats, thresholds);
            calls == [] && checks == [] && d' == d && s' == s.(hasConfig := true)
  {
  }

  /** Once a refresh ends in an expired token, the next refresh with the same
      keychain contents makes no call: the refused token is remembered whether
      it was the stored one or one just adopted from the keychain. */
  lemma ExpiredTokenThenQuiet(s: StoreState, d: SharedData, silent: Option<string>, api: UsageApi, proxy: Option<ProxyConfig>,
                              now: int, stats: seq<ModelTokenStats>, thresholds: UsageThresholds, later: int)
    ensures var (s1, d1, _, calls1) := RefreshSpec(s, d, silent, api, proxy, now, stats, thresholds);
      calls1 != [] && s1.errorState == AppErrorState.TokenExpired ==>
        && s1.lastFailedToken == d1.oauthToken && d1.oauthToken.Some?
        && RefreshSpec(s1, d1, silent, api, proxy, later, stats, thresholds).3 == []
  {
    var (s1, d1, _, calls1) := RefreshSpec(s, d, silent, api, proxy, now, stats, thresholds);
    if calls1 != [] && s1.errorState == AppErrorState.TokenExpired {
      var (sa, da) := SilentRecovery(s, d, silent);
      RecoveryRetriesAtMostOnce(da, silent, api, proxy, now, stats);
      RefreshEffectOnRecord(da, silent, api, proxy, now, stats);
      DeadTokenIsNotRetried(s1, d1, silent, api, proxy, later, stats, thresholds);
    }
  }

  /** A new token in the keychain revives a store stuck on a refused one: the
      failure is cleared and the API is called with the new token. */
  lemma NewKeychainTokenRevives(s: StoreState, d: SharedData, t: string, api: UsageApi, proxy: Option<ProxyConfig>,
                                now: int, stats: seq<ModelTokenStats>, thresholds: UsageThresholds)
    requires s.lastFailedToken == d.oauthToken && Some(t) != d.oauthToken
    ensures var (s', d', _, calls) := RefreshSpec(s, d, Some(t), api, proxy, now, stats, thresholds);
            calls != [] && calls[0] == t && s'.hasConfig && !s'.isLoading
  {
    var (s1, d1) := SilentRecovery(s, d, Some(t));
    assert d1.oauthToken == Some(t) && s1.lastFailedToken == None;
    RecoveryRetriesAtMostOnce(d1, Some(t), api, proxy, now, stats);
  }

  /** When the repository's refresh succeeds (with the token the store holds
      after the silent keychain read), the error is cleared, the dead token
      forgotten, the time recorded, the percentages and the countdown are those
      of the response, the cache holds the response, and exactly one threshold
      check is requested with those percentages. */
  lemma SuccessfulRefresh(s: StoreState, d: SharedData, silent: Option<string>, api: UsageApi, proxy: Option<ProxyConfig>,
                          now: int, stats: seq<ModelTokenStats>, thresholds: UsageThresholds)
    ensures var (s1, d1) := SilentRecovery(s, d, silent);
      var outcome := RefreshOutcome(d1, silent, api, proxy, now, stats).0;
      var (s', d', checks, calls) := RefreshSpec(s, d, silent, api, proxy, now, stats, thresholds);
      (d1.oauthToken.Some? && d1.oauthToken != s1.lastFailedToken && outcome.Success?) ==>
        && calls != [] && s'.errorState == NoError && s'.lastFailedToken.None? && s'.lastUpdate == Some(now)
        && s'.hasConfig && !s'.isLoading
        && d'.cachedUsage == Some(CachedUsage(outcome.value, now)) && d'.lastSyncDate == Some(now)
        && s'.fiveHourPct == Pct(outcome.value.fiveHour)
        && s'.sevenDayPct == Pct(outcome.value.sevenDay)
        && s'.sonnetPct == Pct(outcome.value.sevenDaySonnet)
        && s'.fiveHourReset == ResetText(BucketResetDate(outcome.value.fiveHour), now)
        && checks == [ThresholdCheck(s'.fiveHourPct, s'.sevenDayPct, s'.sonnetPct, thresholds)]
  {
    var (s1, d1) := SilentRecovery(s, d, silent);
    if d1.oauthToken.Some? && d1.oauthToken != s1.lastFailedToken {
      RecoveryRetriesAtMostOnce(d1, silent, api, proxy, now, stats);
      RefreshEffectOnRecord(d1, silent, api, proxy, now, stats);
    }
  }

  /** Without any token, in the store or in the keychain, nothing is fetched and
      the store reports no configuration unless a failure is remembered. */
  lemma NoTokenNoFetch(s: StoreState, d: SharedData, api: UsageApi, proxy: Option<ProxyConfig>,
                       now: int, stats: seq<ModelTokenStats>, thresholds: UsageThresholds)
    requires d.oauthToken.None?
    ensures var (s', d', checks, calls) := RefreshSpec(s, d, None, api, proxy, now, stats, thresholds);
            calls == [] && checks == [] && d' == d && s' == s.(hasConfig := s.lastFailedToken.Some?)
  {
  }

  /** `isLoading` is raised only around the fetch, so a refresh that starts
      idle ends idle, whatever its outcome. */
  lemma RefreshEndsNotLoading(s: StoreState, d: SharedData, silent: Option<string>, api: UsageApi, proxy: Option<ProxyConfig>,
                              now: int, stats: seq<ModelTokenStats>, thresholds: UsageThresholds)
    requires !s.isLoading
    ensures !RefreshSpec(s, d, silent, api, proxy, now, stats, thresholds).0.isLoading
  {
  }

  /** After `reloadConfig` has forgotten the refused token, the next refresh
      calls the API exactly when a token is stored or the keychain has one,
      and it calls it first with the stored token, else the keychain's. */
  lemma ReloadRearmsRefresh(s: StoreState, d: SharedData, silent: Option<string>, api: UsageApi, proxy: Option<ProxyConfig>,
                            now: int, stats: seq<ModelTokenStats>, thresholds: UsageThresholds)
    requires s.lastFailedToken.None?
    ensures var calls := RefreshSpec(s, d, silent, api, proxy, now, stats, thresholds).3;
      && ((d.oauthToken.Some? || silent.Some?) <==> calls != [])
      && (d.oauthToken.Some? ==> calls[0] == d.oauthToken.value)
      && (d.oauthToken.None? && silent.Some? ==> calls[0] == silent.value)
  {
    var (s1, d1) := SilentRecovery(s, d, silent);
    RecoveryRetriesAtMostOnce(d1, silent, api, proxy, now, stats);
  }

  class UsageStore {
    var fiveHourPct: int
    var sevenDayPct: int
    var sonnetPct: int
    var fiveHourReset: Text
    var pacingDelta: int
    var pacingZone: PacingZone
    var pacingResult: Option<PacingResult>
    var lastUpdate: Option<int>
    var isLoading: bool
    var errorState: AppErrorState
    var hasConfig: bool
    var lastFailedToken: Option<string>
    var proxyConfig: Option<ProxyConfig>
    var thresholdChecks: seq<ThresholdCheck>
    var permissionRequests: nat
    const repository: UsageRepository

    function State(): StoreState
      reads this
    {
      StoreState(fiveHourPct, sevenDayPct, sonnetPct, fiveHourReset, pacingDelta, pacingZone, pacingResult,
                 lastUpdate, isLoading, errorState, hasConfig, lastFailedToken)
    }

    function HasError(): bool
      reads this
    {
      errorState != NoError
    }

    constructor(repository: UsageRepository)
      ensures this.repository == repository && State() == InitialState
      ensures proxyConfig.None? && thresholdChecks == [] && permissionRequests == 0
    {
      this.repository := repository;
      fiveHourPct, sevenDayPct, sonnetPct := 0, 0, 0;
      fiveHourReset := Literal("");
      pacingDelta, pacingZone, pacingResult := 0, OnTrack, None;
      lastUpdate, isLoading, errorState, hasConfig, lastFailedToken := None, false, NoError, false, None;
      proxyConfig := None;
      thresholdChecks := [];
      permissionRequests := 0;
    }

    /** `update(from:)`. */
    method Update(usage: UsageResponse, now: int)
      modifies this
      ensures State() == UpdateFrom(old(State()), usage, now)
      ensures proxyConfig == old(proxyConfig) && thresholdChecks == old(thresholdChecks) && permissionRequests == old(permissionRequests)
    {
      ShowPercentages(usage, now);
      var pacing := Calculate(usage, now);
      ShowPacing(pacing);
    }

    method ShowPercentages(usage: UsageResponse, now: int)
      modifies this
      ensures State() == WithPercentages(old(State()), usage, now)
      ensures proxyConfig == old(proxyConfig) && thresholdChecks == old(thresholdChecks) && permissionRequests == old(permissionRequests)
    {
      fiveHourPct := Pct(usage.fiveHour);
      sevenDayPct := Pct(usage.sevenDay);
      sonnetPct := Pct(usage.sevenDaySonnet);
      fiveHourReset := ResetText(BucketResetDate(usage.fiveHour), now);
    }

    method ShowPacing(pacing: Option<PacingResult>)
      modifies this
      ensures State() == WithPacing(old(State()), pacing)
      ensures proxyConfig == old(proxyConfig) && thresholdChecks == old(thresholdChecks) && permissionRequests == old(permissionRequests)
    {
      if pacing.Some? {
        pacingDelta := Truncate(pacing.value.delta);
        pacingZone := pacing.value.zone;
        pacingResult := pacing;
      }
    }

    /** The opening step of `refresh`. */
    method RecoverSilently()
      modifies this, repository.sharedFile
      ensures (State(), repository.sharedFile.Load()) == SilentRecovery(old(State()), old(repository.sharedFile.Load()), repository.keychain.silentToken)
      ensures proxyConfig == old(proxyConfig) && thresholdChecks == old(thresholdChecks) && permissionRequests == old(permissionRequests)
      ensures repository.fetches == old(repository.fetches)
    {
      var token := repository.CurrentToken();
      if !repository.IsConfigured() || lastFailedToken == token {
        repository.SyncKeychainTokenSilently();
        var current := repository.CurrentToken();
        if current.Some? && current != lastFailedToken {
          lastFailedToken := None;
          errorState := NoError;
        }
      }
    }

    /** The end of `refresh` once a fetch has finished. */
    method ApplyResult(result: Result<UsageResponse, FetchError>, now: int, thresholds: UsageThresholds)
      modifies this
      ensures var (s', checks) := Settle(old(State()), result, repository.CurrentToken(), now, thresholds);
              State() == s' && thresholdChecks == old(thresholdChecks) + checks
      ensures proxyConfig == old(proxyConfig) && permissionRequests == old(permissionRequests)
    {
      match result
      case Success(usage) => ApplySuccess(usage, now, thresholds);
      case Failure(e) => ApplyFailure(e, now, thresholds);
    }

    method ApplySuccess(usage: UsageResponse, now: int, thresholds: UsageThresholds)
      modifies this
      ensures var (s', checks) := Settle(old(State()), Success(usage), repository.CurrentToken(), now, thresholds);
              State() == s' && thresholdChecks == old(thresholdChecks) + checks
      ensures proxyConfig == old(proxyConfig) && permissionRequests == old(permissionRequests)
    {
      Update(usage, now);
      errorState := NoError;
      lastFailedToken := None;
      lastUpdate := Some(now);
      thresholdChecks := thresholdChecks + [ThresholdCheck(fiveHourPct, sevenDayPct, sonnetPct, thresholds)];
    }

    method ApplyFailure(e: FetchError, now: int, thresholds: UsageThresholds)
      modifies this
      ensures var (s', checks) := Settle(old(State()), Failure(e), repository.CurrentToken(), now, thresholds);
              State() == s' && thresholdChecks == old(thresholdChecks) + checks
      ensures proxyConfig == old(proxyConfig) && permissionRequests == old(permissionRequests)
    {
      if e == Api(APIError.TokenExpired) {
        lastFailedToken := repository.CurrentToken();
        errorState := AppErrorState.TokenExpired;
      } else {
        errorState := ErrorStateOf(e);
      }
      assert thresholdChecks == old(thresholdChecks) + [];
    }

    /** `refresh(thresholds:)`; `stats` is what the local model statistics read returns. */
    method Refresh(thresholds: UsageThresholds, api: UsageApi, now: int, stats: seq<ModelTokenStats>)
      modifies this, repository, repository.sharedFile
      ensures var (s', d', checks, calls) := RefreshSpec(old(State()), old(repository.sharedFile.Load()),
                                                         repository.keychain.silentToken, api, old(proxyConfig), now, stats, thresholds);
        && State() == s' && repository.sharedFile.Load() == d'
        && thresholdChecks == old(thresholdChecks) + checks
        && repository.fetches == old(repository.fetches) + calls
      ensures proxyConfig == old(proxyConfig) && permissionRequests == old(permissionRequests)
    {
      RecoverSilently();
      if !repository.IsConfigured() || repository.CurrentToken() == lastFailedToken {
        hasConfig := lastFailedToken.Some?;
        assert repository.fetches == old(repository.fetches) + [];
        assert thresholdChecks == old(thresholdChecks) + [];
        return;
      }
      hasConfig := true;
      isLoading := true;
      var result := repository.RefreshUsage(api, proxyConfig, now, stats);
      isLoading := false;
      ApplyResult(result, now, thresholds);
    }

    /** `loadCached()`: the cached response, shown with its fetch date. */
    method LoadCached(now: int)
      modifies this
      ensures repository.CachedUsage().None? ==> State() == old(State())
      ensures repository.CachedUsage().Some? ==>
        State() == UpdateFrom(old(State()), repository.CachedUsage().value.usage, now).(lastUpdate := Some(repository.CachedUsage().value.fetchDate))
      ensures proxyConfig == old(proxyConfig) && thresholdChecks == old(thresholdChecks) && permissionRequests == old(permissionRequests)
    {
      var cached := repository.CachedUsage();
      if cached.Some? {
        Update(cached.value.usage, now);
        lastUpdate := Some(cached.value.fetchDate);
      }
    }

    /** The opening of `reloadConfig`: a silent keychain read, the refused
        token and the error forgotten, the configuration flag re-read. */
    method ForgetFailure()
      modifies this, repository.sharedFile
      ensures State() == old(State()).(lastFailedToken := None, errorState := NoError, hasConfig := repository.IsConfigured())
      ensures repository.keychain.silentToken.Some? ==>
        repository.sharedFile.Load() == old(repository.sharedFile.Load()).(oauthToken := repository.keychain.silentToken)
      ensures repository.keychain.silentToken.None? ==> repository.sharedFile.disk == old(repository.sharedFile.disk)
      ensures repository.CachedUsage() == old(repository.CachedUsage())
      ensures proxyConfig == old(proxyConfig) && thresholdChecks == old(thresholdChecks) && permissionRequests == old(permissionRequests)
    {
      repository.SyncKeychainTokenSilently();
      lastFailedToken := None;
      errorState := NoError;
      hasConfig := repository.IsConfigured();
    }

    /** The synchronous part of `reloadConfig(thresholds:)`: a silent keychain
        read, the failure forgotten, the configuration flag re-read, the cache
        shown and notification permission requested. */
    method ReloadConfig(now: int)
      modifies this, repository.sharedFile
      ensures lastFailedToken.None? && errorState == NoError
      ensures hasConfig == repository.IsConfigured()
      ensures repository.keychain.silentToken.Some? ==>
        repository.sharedFile.Load() == old(repository.sharedFile.Load()).(oauthToken := repository.keychain.silentToken)
      ensures repository.keychain.silentToken.None? ==> repository.sharedFile.disk == old(repository.sharedFile.disk)
      ensures var cleared := old(State()).(lastFailedToken := None, errorState := NoError, hasConfig := hasConfig);
        && (old(repository.CachedUsage()).None? ==> State() == cleared)
        && (old(repository.CachedUsage()).Some? ==>
              State() == UpdateFrom(cleared, old(repository.CachedUsage()).value.usage, now)
                           .(lastUpdate := Some(old(repository.CachedUsage()).value.fetchDate)))
      ensures proxyConfig == old(proxyConfig) && thresholdChecks == old(thresholdChecks)
      ensures permissionRequests == old(permissionRequests) + 1
    {
      ForgetFailure();
      LoadCached(now);
      permissionRequests := permissionRequests + 1;
    }

    /** `connectAutoDetect()`: a silent keychain read, then a connection test;
        success marks the store configured. */
    method ConnectAutoDetect(test: (string, Option<ProxyConfig>) -> ConnectionTestResult)
      returns (r: ConnectionTestResult)
      modifies this, repository.sharedFile
      ensures repository.keychain.silentToken.Some? ==> r == test(repository.keychain.silentToken.value, proxyConfig)
      ensures old(repository.CurrentToken()).None? && repository.keychain.silentToken.None? ==> !r.success
      ensures repository.keychain.silentToken.None? && old(repository.CurrentToken()).Some? ==>
        r == test(old(repository.CurrentToken()).value, proxyConfig)
      ensures hasConfig == (old(hasConfig) || r.success)
      ensures State() == old(State()).(hasConfig := hasConfig)
      ensures repository.keychain.silentToken.Some? ==>
        repository.sharedFile.Load() == old(repository.sharedFile.Load()).(oauthToken := repository.keychain.silentToken)
      ensures repository.keychain.silentToken.None? ==> repository.sharedFile.disk == old(repository.sharedFile.disk)
      ensures proxyConfig == old(proxyConfig) && thresholdChecks == old(thresholdChecks) && permissionRequests == old(permissionRequests)
    {
      repository.SyncKeychainTokenSilently();
      r := repository.TestConnection(test, proxyConfig);
      if r.success {
        hasConfig := true;
      }
    }
  }
}
