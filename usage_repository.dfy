/** Shared/Repositories/UsageRepository.swift: the token lives in the shared file;
    a fetch refused with an expired token triggers one silent keychain read, and
    a different token found there is adopted and tried once. The API client is
    an oracle from (token, proxy) to an outcome, as APIClientProtocol makes it;
    the keychain is an object whose two reads return what it currently holds. */
module UsageRepositories {
  import opened Wrappers
  import opened UsageModels
  import opened ClaudeJsonReader
  import opened SharedFile
  import opened ApiClient

  /** `APIClientProtocol.fetchUsage(token:proxyConfig:)`. */
  type UsageApi = (string, Option<ProxyConfig>) -> Result<UsageResponse, FetchError>

  /** The concrete client: `APIClient` over a network. */
  function NetworkApi(network: Network): (api: UsageApi)
  {
    (token, proxy) => ApiClient.FetchUsage(network, token, proxy)
  }

  /** `KeychainService`: what an interactive read and a silent read return. */
  class KeychainService {
    var interactiveToken: Option<string>
    var silentToken: Option<string>

    constructor(interactiveToken: Option<string>, silentToken: Option<string>)
      ensures this.interactiveToken == interactiveToken && this.silentToken == silentToken
    {
      this.interactiveToken := interactiveToken;
      this.silentToken := silentToken;
    }
  }

  /** The record after a successful fetch: `updateAfterSync` then `updateModelStats`. */
  function Synced(d: SharedData, usage: UsageResponse, now: int, stats: seq<ModelTokenStats>): SharedData {
    d.(cachedUsage := Some(CachedUsage(usage, now)), lastSyncDate := Some(now), modelStats := Some(stats))
  }

  /** The outcome of `refreshUsage(proxyConfig:)` on the shared record `d`: the
      result, the new record, and the tokens the API was called with. `silent` is
      what a silent keychain read returns. */
  function RefreshOutcome(d: SharedData, silent: Option<string>, api: UsageApi, proxy: Option<ProxyConfig>,
                          now: int, stats: seq<ModelTokenStats>)
    : (r: (Result<UsageResponse, FetchError>, SharedData, seq<string>))
  {
    match d.oauthToken
    case None => (Failure(Api(NoToken)), d, [])
    case Some(token) =>
      match api(token, proxy)
      case Success(usage) => (Success(usage), Synced(d, usage, now, stats), [token])
      case Failure(e) =>
        if e != Api(TokenExpired) then (Failure(e), d, [token])
        else
          var (r, d', calls) := RecoveryOutcome(d, silent, api, proxy, now, stats);
          (r, d', [token] + calls)
  }

  /** `attemptSilentTokenRecovery(proxyConfig:)`. */
  function RecoveryOutcome(d: SharedData, silent: Option<string>, api: UsageApi, proxy: Option<ProxyConfig>,
                           now: int, stats: seq<ModelTokenStats>)
    : (r: (Result<UsageResponse, FetchError>, SharedData, seq<string>))
  {
    match silent
    case None => (Failure(Api(KeychainLocked)), d, [])
    case Some(renewed) =>
      if Some(renewed) == d.oauthToken then (Failure(Api(TokenExpired)), d, [])
      else
        var d1 := d.(oauthToken := Some(renewed));
        match api(renewed, proxy)
        case Success(usage) => (Success(usage), Synced(d1, usage, now, stats), [renewed])
        case Failure(e) => (Failure(e), d1, [renewed])
  }

  /** One silent re-read, at most one retry: the API is called at most twice,
      the second time only after an expired-token refusal and with a token
      different from the first. A locked keychain or an unchanged token ends the
      attempt without a second call and without touching the record. */
  lemma RecoveryRetriesAtMostOnce(d: SharedData, silent: Option<string>, api: UsageApi, proxy: Option<ProxyConfig>,
                                  now: int, stats: seq<ModelTokenStats>)
    ensures var (r, d', calls) := RefreshOutcome(d, silent, api, proxy, now, stats);
      && |calls| <= 2
      && (d.oauthToken.None? <==> calls == [])
      && (d.oauthToken.Some? ==> calls[0] == d.oauthToken.value)
      && (|calls| == 2 ==> api(calls[0], proxy) == Failure(Api(TokenExpired)) && silent == Some(calls[1]) && calls[1] != calls[0])
      && (d.oauthToken.Some? && api(d.oauthToken.value, proxy) == Failure(Api(TokenExpired)) ==>
            (silent.None? ==> r == Failure(Api(KeychainLocked)) && d' == d) &&
            (silent == d.oauthToken ==> r == Failure(Api(TokenExpired)) && d' == d) &&
            (silent.Some? && silent != d.oauthToken ==> d'.oauthToken == silent && |calls| == 2))
  {
  }

  /** Only a successful fetch touches the cache, and then it stores that very
      response with the sync date; the theme, thresholds and cached data are
      otherwise left as they were, and only recovery changes the token. */
  lemma RefreshEffectOnRecord(d: SharedData, silent: Option<string>, api: UsageApi, proxy: Option<ProxyConfig>,
                              now: int, stats: seq<ModelTokenStats>)
    ensures var (r, d', calls) := RefreshOutcome(d, silent, api, proxy, now, stats);
      && d'.theme == d.theme && d'.thresholds == d.thresholds
      && (r.Success? ==> d'.cachedUsage == Some(CachedUsage(r.value, now)) && d'.lastSyncDate == Some(now)
                         && d'.modelStats == Some(stats) && d'.oauthToken == Some(calls[|calls| - 1]))
      && (r.Failure? ==> d'.cachedUsage == d.cachedUsage && d'.lastSyncDate == d.lastSyncDate && d'.modelStats == d.modelStats)
      && (d'.oauthToken != d.oauthToken ==> |calls| == 2 && d'.oauthToken == silent)
  {
  }

  class UsageRepository {
    const keychain: KeychainService
    const sharedFile: SharedFileService
    /** The tokens the API client was called with, oldest first. */
    var fetches: seq<string>

    constructor(keychain: KeychainService, sharedFile: SharedFileService)
      ensures this.keychain == keychain && this.sharedFile == sharedFile && fetches == []
    {
      this.keychain := keychain;
      this.sharedFile := sharedFile;
      fetches := [];
    }

    function IsConfigured(): (b: bool)
      reads sharedFile
      ensures b <==> CurrentToken().Some?
    {
      sharedFile.IsConfigured()
    }

    function CurrentToken(): Option<string>
      reads sharedFile
    {
      sharedFile.OAuthToken()
    }

    function CachedUsage(): Option<UsageModels.CachedUsage>
      reads sharedFile
    {
      sharedFile.CachedUsage()
    }

    /** `syncKeychainToken()`: an interactive read; a token found replaces the stored one. */
    method SyncKeychainToken()
      modifies sharedFile
      ensures keychain.interactiveToken.Some? ==> sharedFile.Load() == old(sharedFile.Load()).(oauthToken := keychain.interactiveToken)
      ensures keychain.interactiveToken.None? ==> sharedFile.disk == old(sharedFile.disk)
    {
      if keychain.interactiveToken.Some? {
        sharedFile.SetOAuthToken(keychain.interactiveToken);
      }
    }

    /** `syncKeychainTokenSilently()`: the same with the silent read. */
    method SyncKeychainTokenSilently()
      modifies sharedFile
      ensures keychain.silentToken.Some? ==> sharedFile.Load() == old(sharedFile.Load()).(oauthToken := keychain.silentToken)
      ensures keychain.silentToken.None? ==> sharedFile.disk == old(sharedFile.disk)
      ensures sharedFile.disk - {NewFile} == old(sharedFile.disk) - {NewFile}
    {
      if keychain.silentToken.Some? {
        sharedFile.SetOAuthToken(keychain.silentToken);
      }
    }

    /** `refreshUsage(proxyConfig:)`. */
    method RefreshUsage(api: UsageApi, proxy: Option<ProxyConfig>, now: int, stats: seq<ModelTokenStats>)
      returns (r: Result<UsageResponse, FetchError>)
      modifies this, sharedFile
      ensures var (r', d', calls) := RefreshOutcome(old(sharedFile.Load()), keychain.silentToken, api, proxy, now, stats);
              r == r' && sharedFile.Load() == d' && fetches == old(fetches) + calls
      ensures sharedFile.disk - {NewFile} == old(sharedFile.disk) - {NewFile}
    {
      var token := sharedFile.OAuthToken();
      if token.None? {
        assert fetches == old(fetches) + [];
        return Failure(Api(NoToken));
      }
      fetches := fetches + [token.value];
      r := api(token.value, proxy);
      if r.Success? {
        sharedFile.UpdateAfterSync(UsageModels.CachedUsage(r.value, now), now);
        sharedFile.UpdateModelStats(stats);
      } else if r.error == Api(TokenExpired) {
        r := AttemptSilentTokenRecovery(api, proxy, now, stats);
      }
    }

    method AttemptSilentTokenRecovery(api: UsageApi, proxy: Option<ProxyConfig>, now: int, stats: seq<ModelTokenStats>)
      returns (r: Result<UsageResponse, FetchError>)
      modifies this, sharedFile
      ensures var (r', d', calls) := RecoveryOutcome(old(sharedFile.Load()), keychain.silentToken, api, proxy, now, stats);
              r == r' && sharedFile.Load() == d' && fetches == old(fetches) + calls
      ensures sharedFile.disk - {NewFile} == old(sharedFile.disk) - {NewFile}
    {
      var current := sharedFile.OAuthToken();
      var renewed := keychain.silentToken;
      if renewed.None? {
        assert fetches == old(fetches) + [];
        return Failure(Api(KeychainLocked));
      }
      if renewed == current {
        assert fetches == old(fetches) + [];
        return Failure(Api(TokenExpired));
      }
      sharedFile.SetOAuthToken(renewed);
      fetches := fetches + [renewed.value];
      r := api(renewed.value, proxy);
      if r.Success? {
        sharedFile.UpdateAfterSync(UsageModels.CachedUsage(r.value, now), now);
        sharedFile.UpdateModelStats(stats);
      }
    }

    /** `testConnection(proxyConfig:)`: without a token, a failure with the no-token message. */
    method TestConnection(test: (string, Option<ProxyConfig>) -> ConnectionTestResult, proxy: Option<ProxyConfig>)
      returns (r: ConnectionTestResult)
      ensures CurrentToken().None? ==> r == ConnectionTestResult(false, APIError.NoToken.Description())
      ensures CurrentToken().Some? ==> r == test(CurrentToken().value, proxy)
    {
      var token := sharedFile.OAuthToken();
      if token.None? {
        return ConnectionTestResult(false, NoToken.Description());
      }
      r := test(token.value, proxy);
    }
  }
}
