/** Shared/Models/UsageModels.swift (and its older twin Shared/UsageModels.swift):
    the usage payload, its tolerant decoder, the reset-date parsing and the cached
    snapshot; the proxy settings of the older file. */
module UsageModels {
  import opened Wrappers
  import opened Json
  import DateTime

  datatype UsageBucket = UsageBucket(utilization: real, resetsAt: Option<string>)

  datatype UsageResponse = UsageResponse(
    fiveHour: Option<UsageBucket>,
    sevenDay: Option<UsageBucket>,
    sevenDaySonnet: Option<UsageBucket>,
    sevenDayOauthApps: Option<UsageBucket>,
    sevenDayOpus: Option<UsageBucket>,
    sevenDayCowork: Option<UsageBucket>)

  /** The memberwise initializer with every argument left at its default. */
  const EmptyResponse: UsageResponse := UsageResponse(None, None, None, None, None, None)

  /** The wire names of the six buckets (`CodingKeys`). */
  const FiveHourKey := "five_hour"
  const SevenDayKey := "seven_day"
  const SonnetKey := "seven_day_sonnet"
  const OauthAppsKey := "seven_day_oauth_apps"
  const OpusKey := "seven_day_opus"
  const CoworkKey := "seven_day_cowork"
  const WireNames: set<string> := {FiveHourKey, SevenDayKey, SonnetKey, OauthAppsKey, OpusKey, CoworkKey}

  /** Synthesized `UsageBucket` decoding: an object with a numeric `utilization`;
      `resets_at` may be missing or null, and otherwise must be a string. */
  function DecodeBucket(j: Json): (r: Option<UsageBucket>)
    ensures r.Some? ==> j.JObject? && Member(j, "utilization") == Some(JNumber(r.value.utilization))
  {
    match Member(j, "utilization")
    case Some(JNumber(u)) =>
      (match Member(j, "resets_at")
       case None => Some(UsageBucket(u, None))
       case Some(JNull) => Some(UsageBucket(u, None))
       case Some(JString(s)) => Some(UsageBucket(u, Some(s)))
       case Some(_) => None)
    case _ => None
  }

  /** `try? container.decode(UsageBucket.self, forKey: key)`. */
  function DecodeMember(j: Json, key: string): Option<UsageBucket> {
    match Member(j, key)
    case None => None
    case Some(v) => DecodeBucket(v)
  }

  /** The tolerant `init(from:)`: it fails only when the payload is not an object;
      each bucket is decoded on its own and a malformed one becomes nil. */
  function DecodeResponse(j: Json): (r: Option<UsageResponse>)
    ensures r.Some? <==> j.JObject?
  {
    if !j.JObject? then None
    else Some(UsageResponse(
      DecodeMember(j, FiveHourKey), DecodeMember(j, SevenDayKey), DecodeMember(j, SonnetKey),
      DecodeMember(j, OauthAppsKey), DecodeMember(j, OpusKey), DecodeMember(j, CoworkKey)))
  }

  /** Synthesized encoding: a nil optional is left out of the object. */
  function EncodeBucket(b: UsageBucket): Json {
    var base := map["utilization" := JNumber(b.utilization)];
    JObject(if b.resetsAt.Some? then base["resets_at" := JString(b.resetsAt.value)] else base)
  }

  function EncodeMembers(entries: seq<(string, Option<UsageBucket>)>): map<string, Json> {
    if entries == [] then map[]
    else
      var rest := EncodeMembers(entries[1..]);
      var (k, b) := entries[0];
      if b.Some? then rest[k := EncodeBucket(b.value)] else rest
  }

  function Entries(r: UsageResponse): seq<(string, Option<UsageBucket>)> {
    [(FiveHourKey, r.fiveHour), (SevenDayKey, r.sevenDay), (SonnetKey, r.sevenDaySonnet),
     (OauthAppsKey, r.sevenDayOauthApps), (OpusKey, r.sevenDayOpus), (CoworkKey, r.sevenDayCowork)]
  }

  function EncodeResponse(r: UsageResponse): Json {
    JObject(EncodeMembers(Entries(r)))
  }

  lemma BucketRoundTrip(b: UsageBucket)
    ensures DecodeBucket(EncodeBucket(b)) == Some(b)
  {
  }

  lemma {:induction false} EncodeMembersAt(entries: seq<(string, Option<UsageBucket>)>, key: string)
    requires forall i, j :: 0 <= i < j < |entries| ==> entries[i].0 != entries[j].0
    ensures key in EncodeMembers(entries) <==> exists i :: 0 <= i < |entries| && entries[i].0 == key && entries[i].1.Some?
    ensures forall i :: 0 <= i < |entries| && entries[i].0 == key && entries[i].1.Some? ==>
              EncodeMembers(entries)[key] == EncodeBucket(entries[i].1.value)
  {
    if entries != [] {
      EncodeMembersAt(entries[1..], key);
      if key in EncodeMembers(entries) && entries[0].0 != key {
        var i :| 0 <= i < |entries[1..]| && entries[1..][i].0 == key && entries[1..][i].1.Some?;
        assert entries[i + 1].0 == key;
      }
      forall i | 1 <= i < |entries| && entries[i].0 == key && entries[i].1.Some?
        ensures key in EncodeMembers(entries)
      {
        assert entries[1..][i - 1] == entries[i];
      }
    }
  }

  /** What the app writes into the shared file decodes back to the same snapshot. */
  lemma ResponseRoundTrip(r: UsageResponse)
    ensures DecodeResponse(EncodeResponse(r)) == Some(r)
  {
    var es := Entries(r);
    var j := EncodeResponse(r);
    assert forall a, b :: 0 <= a < b < |es| ==> es[a].0 != es[b].0;
    forall i | 0 <= i < 6 ensures DecodeMember(j, es[i].0) == es[i].1 {
      EncodeMembersAt(es, es[i].0);
      if es[i].1.Some? { BucketRoundTrip(es[i].1.value); }
    }
    assert DecodeMember(j, FiveHourKey) == r.fiveHour by { assert es[0].0 == FiveHourKey; }
    assert DecodeMember(j, SevenDayKey) == r.sevenDay by { assert es[1].0 == SevenDayKey; }
    assert DecodeMember(j, SonnetKey) == r.sevenDaySonnet by { assert es[2].0 == SonnetKey; }
    assert DecodeMember(j, OauthAppsKey) == r.sevenDayOauthApps by { assert es[3].0 == OauthAppsKey; }
    assert DecodeMember(j, OpusKey) == r.sevenDayOpus by { assert es[4].0 == OpusKey; }
    assert DecodeMember(j, CoworkKey) == r.sevenDayCowork by { assert es[5].0 == CoworkKey; }
  }

  /** A member other than the six wire names never changes the decoded response. */
  lemma UnknownKeysIgnored(fields: map<string, Json>, key: string, value: Json)
    requires key !in WireNames
    ensures DecodeResponse(JObject(fields[key := value])) == DecodeResponse(JObject(fields))
  {
  }

  /** Each bucket depends only on its own member: breaking one bucket leaves the
      other five as they were. */
  lemma BucketsIndependent(fields: map<string, Json>, key: string, broken: Json)
    requires key in WireNames && DecodeBucket(broken).None?
    ensures var before := DecodeResponse(JObject(fields)).value;
            var after := DecodeResponse(JObject(fields[key := broken])).value;
            && (key == FiveHourKey ==> after == before.(fiveHour := None))
            && (key == SevenDayKey ==> after == before.(sevenDay := None))
            && (key == SonnetKey ==> after == before.(sevenDaySonnet := None))
            && (key == OauthAppsKey ==> after == before.(sevenDayOauthApps := None))
            && (key == OpusKey ==> after == before.(sevenDayOpus := None))
            && (key == CoworkKey ==> after == before.(sevenDayCowork := None))
  {
    MemberAfterBreak(fields, key, broken, FiveHourKey);
    MemberAfterBreak(fields, key, broken, SevenDayKey);
    MemberAfterBreak(fields, key, broken, SonnetKey);
    MemberAfterBreak(fields, key, broken, OauthAppsKey);
    MemberAfterBreak(fields, key, broken, OpusKey);
    MemberAfterBreak(fields, key, broken, CoworkKey);
  }

  /** Breaking the member `key` makes it decode to nil and leaves every other member alone. */
  lemma MemberAfterBreak(fields: map<string, Json>, key: string, broken: Json, k: string)
    requires DecodeBucket(broken).None?
    ensures DecodeMember(JObject(fields[key := broken]), k) == if k == key then None else DecodeMember(JObject(fields), k)
  {
  }

  /** An object whose buckets are all malformed still decodes, to the empty response. */
  lemma AllMalformedDecodesEmpty(fields: map<string, Json>)
    requires forall k :: k in WireNames && k in fields ==> DecodeBucket(fields[k]).None?
    ensures DecodeResponse(JObject(fields)) == Some(EmptyResponse)
  {
  }

  /** The tolerant-decoding scenario: one good bucket, one with a non-numeric
      utilization and an unrecognised member. */
  lemma TolerantDecodeExample()
    ensures var payload := JObject(map[
              FiveHourKey := JObject(map["utilization" := JNumber(42.0)]),
              SevenDayKey := JObject(map["utilization" := JString("lots")]),
              "extra_usage" := JBool(true)]);
            DecodeResponse(payload) == Some(EmptyResponse.(fiveHour := Some(UsageBucket(42.0, None))))
  {
  }

  /** `resetsAtDate`: the fractional-seconds form first, then the plain form. */
  function ResetsAtDate(b: UsageBucket): (r: Option<int>)
    ensures r.Some? <==> (b.resetsAt.Some? &&
              (DateTime.ParseInternetDateTime(b.resetsAt.value, true).Some? ||
               DateTime.ParseInternetDateTime(b.resetsAt.value, false).Some?))
    ensures r.Some? && DateTime.ParseInternetDateTime(b.resetsAt.value, true).Some? ==>
              r == DateTime.ParseInternetDateTime(b.resetsAt.value, true)
    ensures b.resetsAt.Some? && DateTime.ParseInternetDateTime(b.resetsAt.value, true).None? ==>
              r == DateTime.ParseInternetDateTime(b.resetsAt.value, false)
  {
    match b.resetsAt
    case None => None
    case Some(s) =>
      var withFractional := DateTime.ParseInternetDateTime(s, true);
      if withFractional.Some? then withFractional else DateTime.ParseInternetDateTime(s, false)
  }

  /** The date of an optional bucket, `bucket?.resetsAtDate`. */
  function BucketResetDate(b: Option<UsageBucket>): Option<int> {
    if b.Some? then ResetsAtDate(b.value) else None
  }

  /** `CachedUsage`: one response and the instant it was fetched. */
  datatype CachedUsage = CachedUsage(usage: UsageResponse, fetchDate: int)

  /** `ProxyConfig` of Shared/UsageModels.swift and Shared/Models/ProxyConfig.swift. */
  datatype ProxyConfig = ProxyConfig(enabled: bool, host: string, port: int)

  /** `ProxyConfig(enabled:host:port:)` with its default arguments. */
  function MakeProxyConfig(enabled: bool := false, host: string := "127.0.0.1", port: int := 1080): ProxyConfig
  {
    ProxyConfig(enabled, host, port)
  }

  /** With no arguments: disabled, on 127.0.0.1, port 1080. */
  lemma ProxyConfigDefaults()
    ensures MakeProxyConfig() == ProxyConfig(false, "127.0.0.1", 1080)
  {
  }
}
