/** TokenEaterWidget/Provider.swift: the widget's timeline entry, read from
    the shared file the app writes after each sync; the widget never fetches.
    `UsageEntry` itself is not part of this model: its `.placeholder` and
    `.unconfigured` values are kept as named variants, and its other fields
    take the defaults the initialiser calls leave out (not stale, no error,
    no model statistics). */
module WidgetProviders {
  import opened Wrappers
  import opened Localized
  import opened UsageModels
  import opened ClaudeJsonReader
  import opened SharedFile

  datatype UsageEntry =
    | Placeholder
    | Unconfigured
    | Entry(date: int, usage: Option<UsageResponse>, error: Option<Text>, isStale: bool, modelStats: Option<seq<ModelTokenStats>>)

  /** A timeline of entries, reloaded at time `after`. */
  datatype Timeline = Timeline(entries: seq<UsageEntry>, after: int)

  /** Seconds after the last sync past which the data counts as stale. */
  const StaleAfter := 120

  /** Seconds between two timeline reloads. */
  const ReloadInterval := 5 * 60

  const NoDataText := Plain("error.nodata")

  /** A cache whose sync date is unknown, or more than two minutes old, is stale. */
  predicate Stale(lastSync: Option<int>, now: int) {
    lastSync.None? || now - lastSync.value > StaleAfter
  }

  /** `fetchEntry()` on the record the shared file holds at time `now`. */
  function FetchEntry(data: SharedData, now: int): (e: UsageEntry)
    ensures e.Unconfigured? <==> data.oauthToken.None?
    ensures !e.Placeholder?
    ensures e.Entry? ==> e.date == now
    ensures e.Entry? && e.usage.Some? ==>
              data.cachedUsage.Some? && e.usage.value == data.cachedUsage.value.usage && e.error.None?
    ensures e.Entry? && e.usage.None? ==> data.cachedUsage.None? && e.error == Some(NoDataText)
  {
    if data.oauthToken.None? then Unconfigured
    else if data.cachedUsage.Some? then
      Entry(now, Some(data.cachedUsage.value.usage), None, Stale(data.lastSyncDate, now), data.modelStats)
    else Entry(now, None, Some(NoDataText), false, None)
  }

  /** `getSnapshot(in:completion:)`: the placeholder in a preview. */
  function Snapshot(isPreview: bool, data: SharedData, now: int): (e: UsageEntry)
    ensures e.Placeholder? <==> isPreview
  {
    if isPreview then Placeholder else FetchEntry(data, now)
  }

  /** `getTimeline(in:completion:)`: one entry, the next reload five minutes on. */
  function TimelineFor(data: SharedData, now: int): Timeline {
    Timeline([FetchEntry(data, now)], now + ReloadInterval)
  }

  /** The timeline's one entry is the snapshot outside a preview, and the
      widget asks again five minutes later. */
  lemma TimelineMatchesSnapshot(data: SharedData, now: int)
    ensures var t := TimelineFor(data, now);
      |t.entries| == 1 && t.entries[0] == Snapshot(false, data, now) && t.after - now == 300
  {
  }

  /** Staleness only grows with time until the next sync. */
  lemma StaleIsMonotone(lastSync: Option<int>, now: int, later: int)
    requires Stale(lastSync, now) && now <= later
    ensures Stale(lastSync, later)
  {
  }

  /** After `updateAfterSync(usage:syncDate:)` at `t`, the widget shows that
      usage with the file's model statistics: fresh for two minutes, stale
      after. */
  lemma EntryAfterSync(data: SharedData, usage: CachedUsage, t: int, now: int)
    requires data.oauthToken.Some?
    ensures var e := FetchEntry(data.(cachedUsage := Some(usage), lastSyncDate := Some(t)), now);
      e.Entry? && e.usage == Some(usage.usage) && e.error.None? && e.modelStats == data.modelStats
      && (e.isStale <==> now - t > 120)
  {
  }

  /** A cache without a sync date is always stale. */
  lemma CacheWithoutSyncDateIsStale(data: SharedData, now: int)
    requires data.oauthToken.Some? && data.cachedUsage.Some? && data.lastSyncDate.None?
    ensures FetchEntry(data, now).isStale
  {
  }

  /** A cleared shared file (`clear()`, or none at all) shows the
      unconfigured entry; a token with nothing synced yet shows the no-data
      message. */
  lemma ClearedFileIsUnconfigured(now: int, token: string)
    ensures FetchEntry(EmptyData, now) == Unconfigured
    ensures FetchEntry(EmptyData.(oauthToken := Some(token)), now) == Entry(now, None, Some(NoDataText), false, None)
  {
  }
}

/** ClaudeUsageWidget/Provider.swift: the older widget, which fetches itself
    through `ClaudeAPIClient` and falls back to the client's cache.
    Whether the client counts as configured is a parameter: the client in
    Shared/ClaudeAPIClient.swift has no such property. */
module LegacyWidgetProviders {
  import opened Wrappers
  import opened Localized
  import opened UsageModels
  import opened LegacyApiClient
  import opened WidgetProviders

  /** Seconds between two timeline reloads. */
  const LegacyReloadInterval := 15 * 60

  /** `fetchEntry()` once the fetch has ended in `outcome`, with `cache` in
      the client's cache file. */
  function LegacyEntry(configured: bool, outcome: Result<UsageResponse, LegacyError>, cache: Option<CachedUsage>, now: int): (e: UsageEntry)
    ensures e.Unconfigured? <==> !configured
    ensures !e.Placeholder?
    ensures e.Entry? ==> e.date == now && e.modelStats.None?
    ensures e.Entry? && e.isStale <==> configured && outcome.Failure? && cache.Some?
    ensures e.Entry? && e.error.Some? <==> configured && outcome.Failure? && cache.None?
  {
    if !configured then Unconfigured
    else match outcome
      case Success(usage) => Entry(now, Some(usage), None, false, None)
      case Failure(err) =>
        if cache.Some? then Entry(now, Some(cache.value.usage), None, true, None)
        else Entry(now, None, Some(err.Description()), false, None)
  }

  /** A fetch that succeeds is shown fresh; one that fails shows the last
      cached usage, marked stale, or else the error's description. */
  lemma LegacyEntryShows(configured: bool, outcome: Result<UsageResponse, LegacyError>, cache: Option<CachedUsage>, now: int)
    requires configured
    ensures var e := LegacyEntry(configured, outcome, cache, now);
      && (outcome.Success? ==> e.usage == Some(outcome.value) && !e.isStale && e.error.None?)
      && (outcome.Failure? && cache.Some? ==> e.usage == Some(cache.value.usage))
      && (outcome.Failure? && cache.None? ==> e.usage.None? && e.error == Some(outcome.error.Description()))
  {
  }

  /** A successful fetch writes the cache the next failing fetch falls back
      on: the widget then keeps showing that usage, marked stale. */
  lemma FailureFallsBackOnLastSuccess(usage: UsageResponse, t: int, err: LegacyError, now: int)
    ensures LegacyEntry(true, Failure(err), Some(CachedUsage(usage, t)), now) == Entry(now, Some(usage), None, true, None)
  {
  }

  /** `fetchEntry()`: nothing is sent when the client is not configured. */
  method LegacyFetchEntry(client: ClaudeAPIClient, configured: bool, network: Network, parses: UrlParser, keychain: Option<string>,
                    config: Option<SharedConfig>, keychainLater: Option<string>, now: int) returns (e: UsageEntry)
    modifies client
    ensures e == LegacyEntry(configured, FetchUsageOutcome(network, parses, keychain, config, keychainLater).0, old(client.cache), now)
    ensures !configured ==> client.sent == old(client.sent) && client.cache == old(client.cache)
    ensures configured ==> client.sent == old(client.sent) + FetchUsageOutcome(network, parses, keychain, config, keychainLater).1
  {
    if !configured {
      return Unconfigured;
    }
    var r := client.FetchUsage(network, parses, keychain, config, keychainLater, now);
    match r
    case Success(usage) => e := Entry(now, Some(usage), None, false, None);
    case Failure(err) =>
      var cached := client.cache;
      if cached.Some? {
        e := Entry(now, Some(cached.value.usage), None, true, None);
      } else {
        e := Entry(now, None, Some(err.Description()), false, None);
      }
  }

  /** `timeline(for:in:)`: one entry, the next reload fifteen minutes on. */
  method LegacyTimeline(client: ClaudeAPIClient, configured: bool, network: Network, parses: UrlParser, keychain: Option<string>,
                        config: Option<SharedConfig>, keychainLater: Option<string>, now: int) returns (t: WidgetProviders.Timeline)
    modifies client
    ensures t == WidgetProviders.Timeline(
      [LegacyEntry(configured, FetchUsageOutcome(network, parses, keychain, config, keychainLater).0, old(client.cache), now)],
      now + LegacyReloadInterval)
  {
    var e := LegacyFetchEntry(client, configured, network, parses, keychain, config, keychainLater, now);
    t := WidgetProviders.Timeline([e], now + LegacyReloadInterval);
  }

  /** `snapshot(for:in:)`: the placeholder in a preview, where nothing is
      fetched. */
  method LegacySnapshot(isPreview: bool, client: ClaudeAPIClient, configured: bool, network: Network, parses: UrlParser, keychain: Option<string>,
                        config: Option<SharedConfig>, keychainLater: Option<string>, now: int) returns (e: UsageEntry)
    modifies client
    ensures isPreview ==> e == Placeholder && client.sent == old(client.sent)
    ensures !isPreview ==> e == LegacyEntry(configured, FetchUsageOutcome(network, parses, keychain, config, keychainLater).0, old(client.cache), now)
  {
    if isPreview {
      return Placeholder;
    }
    e := LegacyFetchEntry(client, configured, network, parses, keychain, config, keychainLater, now);
  }
}
