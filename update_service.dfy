/** Shared/Services/UpdateService.swift and Shared/Models/UpdateModels.swift:
    the check against the latest GitHub release and the Homebrew update.
    The network is an `Exchange`, what came back for the request; whether a
    string is accepted by `URL(string:)` is a parameter. */
module UpdateServices {
  import opened Wrappers
  import opened Json
  import opened Localized
  import opened Decimal
  import opened Strings
  import ApiClient

  /** `UpdateError`, with its `errorDescription`. */
  datatype UpdateError = InvalidResponse | ScriptLaunchFailed
  {
    function Description(): Text {
      match this
      case InvalidResponse => Plain("update.error.response")
      case ScriptLaunchFailed => Plain("update.error.launch")
    }
  }

  /** What `checkForUpdate()` throws: an `UpdateError`, or a URL-loading or
      decoding error with its localized description. */
  datatype CheckError = Update(error: UpdateError) | Failed(description: Text)
  {
    function Description(): Text {
      match this
      case Update(e) => e.Description()
      case Failed(d) => d
    }
  }

  datatype GitHubAsset = GitHubAsset(name: string, browserDownloadURL: string)

  datatype GitHubRelease = GitHubRelease(
    tagName: string,
    name: Option<string>,
    body: Option<string>,
    htmlURL: string,
    assets: seq<GitHubAsset>)

  datatype UpdateInfo = UpdateInfo(version: string, releaseNotes: Option<string>, downloadURL: Option<string>, releaseURL: string)

  const Repo := "AThevon/TokenEater"
  const LatestReleaseURL := "https://api.github.com/repos/" + Repo + "/releases/latest"
  const AcceptHeader := ("Accept", "application/vnd.github+json")

  function CheckRequest(): (r: ApiClient.Request)
    ensures r.url == LatestReleaseURL && r.headers == [AcceptHeader]
  {
    ApiClient.Request(LatestReleaseURL, "GET", [AcceptHeader])
  }

  /** `CFBundleShortVersionString`, or "0.0.0" when the bundle has none. */
  function CurrentVersion(bundleVersion: Option<string>): string {
    bundleVersion.GetOr("0.0.0")
  }

  // ---------------------------------------------------------------------------
  // Decoding the release (JSONDecoder with the CodingKeys of UpdateModels.swift)

  /** A required string member. */
  function RequiredString(fields: map<string, Json>, key: string): (r: Option<string>)
    ensures r.Some? <==> key in fields && fields[key].JString?
  {
    if key in fields && fields[key].JString? then Some(fields[key].s) else None
  }

  /** An optional string member (`decodeIfPresent`): absent or null reads as
      nil, a string as itself, anything else is a decoding error (outer None). */
  function OptionalString(fields: map<string, Json>, key: string): (r: Option<Option<string>>)
    ensures r == Some(None) <==> key !in fields || fields[key].JNull?
    ensures r.Some? && r.value.Some? <==> key in fields && fields[key].JString?
  {
    if key !in fields || fields[key].JNull? then Some(None)
    else if fields[key].JString? then Some(Some(fields[key].s))
    else None
  }

  function DecodeAsset(j: Json): (r: Option<GitHubAsset>)
    ensures r.Some? ==> j.JObject?
  {
    match j
    case JObject(fields) =>
      var name := RequiredString(fields, "name");
      var url := RequiredString(fields, "browser_download_url");
      if name.Some? && url.Some? then Some(GitHubAsset(name.value, url.value)) else None
    case _ => None
  }

  /** An array of assets decodes only when every element does. */
  function DecodeAssets(items: seq<Json>): (r: Option<seq<GitHubAsset>>)
    ensures r.Some? ==> |r.value| == |items|
    ensures r.Some? ==> forall i :: 0 <= i < |items| ==> DecodeAsset(items[i]) == Some(r.value[i])
    ensures r.None? ==> exists i :: 0 <= i < |items| && DecodeAsset(items[i]).None?
  {
    if |items| == 0 then Some([])
    else
      match (DecodeAsset(items[0]), DecodeAssets(items[1..]))
      case (Some(a), Some(rest)) => Some([a] + rest)
      case (None, _) => None
      case (_, None) => None
  }

  function DecodeRelease(j: Json): (r: Option<GitHubRelease>)
    ensures r.Some? ==> j.JObject? && "tag_name" in j.fields && "html_url" in j.fields && "assets" in j.fields
  {
    match j
    case JObject(f) =>
      var tag := RequiredString(f, "tag_name");
      var name := OptionalString(f, "name");
      var body := OptionalString(f, "body");
      var html := RequiredString(f, "html_url");
      var assets := if "assets" in f && f["assets"].JArray? then DecodeAssets(f["assets"].items) else None;
      if tag.Some? && name.Some? && body.Some? && html.Some? && assets.Some? then
        Some(GitHubRelease(tag.value, name.value, body.value, html.value, assets.value))
      else None
    case _ => None
  }

  /** The JSON GitHub sends for a release, as far as the decoder reads it. */
  function EncodeAsset(a: GitHubAsset): Json {
    JObject(map["name" := JString(a.name), "browser_download_url" := JString(a.browserDownloadURL)])
  }

  function EncodeRelease(r: GitHubRelease): Json {
    JObject(map[
      "tag_name" := JString(r.tagName),
      "name" := (if r.name.Some? then JString(r.name.value) else JNull),
      "body" := (if r.body.Some? then JString(r.body.value) else JNull),
      "html_url" := JString(r.htmlURL),
      "assets" := JArray(EncodeAssets(r.assets))])
  }

  function EncodeAssets(assets: seq<GitHubAsset>): (items: seq<Json>)
    ensures |items| == |assets| && forall i :: 0 <= i < |assets| ==> items[i] == EncodeAsset(assets[i])
  {
    seq(|assets|, i requires 0 <= i < |assets| => EncodeAsset(assets[i]))
  }

  lemma {:induction false} AssetsRoundTrip(assets: seq<GitHubAsset>)
    ensures DecodeAssets(EncodeAssets(assets)) == Some(assets)
    decreases |assets|
  {
    var items := EncodeAssets(assets);
    if |assets| > 0 {
      var m := map["name" := JString(assets[0].name), "browser_download_url" := JString(assets[0].browserDownloadURL)];
      assert items[0] == JObject(m);
      assert DecodeAsset(items[0]) == Some(assets[0]);
      assert items[1..] == EncodeAssets(assets[1..]);
      AssetsRoundTrip(assets[1..]);
      assert DecodeAssets(items) == Some([assets[0]] + assets[1..]);
      assert [assets[0]] + assets[1..] == assets;
    }
  }

  /** Every release decodes back from its JSON. */
  lemma ReleaseRoundTrip(r: GitHubRelease)
    ensures DecodeRelease(EncodeRelease(r)) == Some(r)
  {
    var items := EncodeAssets(r.assets);
    AssetsRoundTrip(r.assets);
    var f := EncodeRelease(r).fields;
    assert f["tag_name"] == JString(r.tagName) && f["html_url"] == JString(r.htmlURL);
    assert f["assets"] == JArray(items);
    assert OptionalString(f, "name") == Some(r.name);
    assert OptionalString(f, "body") == Some(r.body);
    assert RequiredString(f, "tag_name") == Some(r.tagName);
    assert RequiredString(f, "html_url") == Some(r.htmlURL);
    assert DecodeAssets(f["assets"].items) == Some(r.assets);
    assert EncodeRelease(r) == JObject(f);
  }

  // ---------------------------------------------------------------------------
  // Version comparison

  /** The numeric components of a version: split on '.', dropping empty
      pieces, and keeping only those `Int(_:)` accepts (`compactMap`). */
  function CompactParse(parts: seq<string>): (r: seq<int>)
    ensures |r| <= |parts|
    ensures |r| == |parts| <==> forall i :: 0 <= i < |parts| ==> ParseInt(parts[i]).Some?
    ensures forall x :: x in r ==> exists p :: p in parts && ParseInt(p) == Some(x)
  {
    if |parts| == 0 then []
    else
      match ParseInt(parts[0])
      case Some(v) => [v] + CompactParse(parts[1..])
      case None => CompactParse(parts[1..])
  }

  /** `compactMap` parses each component on its own and keeps the results in
      order: a single component gives its value or nothing, and the parse of a
      concatenation is the concatenation of the parses. */
  lemma CompactParseSingle(p: string)
    ensures CompactParse([p]) == (if ParseInt(p).Some? then [ParseInt(p).value] else [])
  {
    assert [p][1..] == [];
  }

  lemma {:induction false} CompactParseAppend(a: seq<string>, b: seq<string>)
    ensures CompactParse(a + b) == CompactParse(a) + CompactParse(b)
    decreases |a|
  {
    if |a| > 0 {
      var head := if ParseInt(a[0]).Some? then [ParseInt(a[0]).value] else [];
      assert (a + b)[0] == a[0];
      assert (a + b)[1..] == a[1..] + b;
      assert CompactParse(a + b) == head + CompactParse(a[1..] + b);
      assert CompactParse(a) == head + CompactParse(a[1..]);
      CompactParseAppend(a[1..], b);
      assert CompactParse(a + b) == head + (CompactParse(a[1..]) + CompactParse(b));
    } else {
      assert a + b == b;
    }
  }

  function VersionParts(v: string): seq<int> {
    CompactParse(SplitOmittingEmpty(v, '.'))
  }

  /** A component, with missing ones read as 0. */
  function At(parts: seq<int>, i: nat): int {
    if i < |parts| then parts[i] else 0
  }

  function Max(a: int, b: int): int { if a > b then a else b }

  /** The reference ordering: at the first component where the two differ,
      the remote one is larger. */
  predicate Newer(r: seq<int>, l: seq<int>) {
    exists k: nat :: k < Max(|r|, |l|) && At(r, k) > At(l, k) && forall j: nat :: j < k ==> At(r, j) == At(l, j)
  }

  /** `isNewer(_:than:)`. */
  method IsNewer(remote: string, local: string) returns (b: bool)
    ensures b == Newer(VersionParts(remote), VersionParts(local))
  {
    b := NewerParts(VersionParts(remote), VersionParts(local));
  }

  /** The loop of `isNewer(_:than:)` over the longer component list. */
  method NewerParts(r: seq<int>, l: seq<int>) returns (b: bool)
    ensures b == Newer(r, l)
  {
    var n := if |r| > |l| then |r| else |l|;
    for i := 0 to n
      invariant forall j: nat :: j < i ==> At(r, j) == At(l, j)
    {
      var rv := if i < |r| then r[i] else 0;
      var lv := if i < |l| then l[i] else 0;
      if rv > lv {
        NewerAtFirstDifference(r, l, i);
        return true;
      }
      if rv < lv {
        NotNewerAfterSmaller(r, l, i);
        return false;
      }
    }
    NotNewerWhenEqual(r, l);
    return false;
  }

  /** The first component where the two differ decides for the remote when
      it is larger there. */
  lemma NewerAtFirstDifference(r: seq<int>, l: seq<int>, i: nat)
    requires At(r, i) > At(l, i)
    requires forall j: nat :: j < i ==> At(r, j) == At(l, j)
    ensures Newer(r, l)
  {
    assert i < Max(|r|, |l|);
  }

  /** Versions equal at every component up to the longer length are not newer. */
  lemma NotNewerWhenEqual(r: seq<int>, l: seq<int>)
    requires forall j: nat :: j < Max(|r|, |l|) ==> At(r, j) == At(l, j)
    ensures !Newer(r, l)
  {
  }

  /** Once the remote is smaller at a component where all earlier ones agree,
      it is not newer. */
  lemma NotNewerAfterSmaller(r: seq<int>, l: seq<int>, i: nat)
    requires At(r, i) < At(l, i)
    requires forall j: nat :: j < i ==> At(r, j) == At(l, j)
    ensures !Newer(r, l)
  {
    forall k: nat
      ensures !(k < Max(|r|, |l|) && At(r, k) > At(l, k) && forall j: nat :: j < k ==> At(r, j) == At(l, j))
    {
      if k > i {
        assert i < k;
      }
    }
  }

  /** No version is newer than itself. */
  lemma NewerIrreflexive(v: seq<int>)
    ensures !Newer(v, v)
  {
  }

  /** Of two versions at most one is newer. */
  lemma NewerAsymmetric(a: seq<int>, b: seq<int>)
    requires Newer(a, b)
    ensures !Newer(b, a)
  {
    var k: nat :| k < Max(|a|, |b|) && At(a, k) > At(b, k) && forall j: nat :: j < k ==> At(a, j) == At(b, j);
    NotNewerAfterSmaller(b, a, k);
  }

  /** A trailing zero component changes nothing: "1.2.0" and "1.2" compare
      the same against every version, so neither is newer than the other. */
  lemma TrailingZeroIrrelevant(v: seq<int>, other: seq<int>)
    ensures Newer(v + [0], other) == Newer(v, other)
    ensures Newer(other, v + [0]) == Newer(other, v)
  {
    var w := v + [0];
    assert forall i: nat :: At(w, i) == At(v, i);
    if Newer(w, other) {
      var k: nat :| k < Max(|w|, |other|) && At(w, k) > At(other, k) && forall j: nat :: j < k ==> At(w, j) == At(other, j);
      assert k < Max(|v|, |other|);
    }
    if Newer(other, w) {
      var k: nat :| k < Max(|other|, |w|) && At(other, k) > At(w, k) && forall j: nat :: j < k ==> At(other, j) == At(w, j);
      assert k < Max(|other|, |v|);
    }
  }

  /** Components compare as numbers: 1.10 is newer than 1.9. */
  lemma NumericNotTextual()
    ensures Newer([1, 10], [1, 9])
    ensures !Newer([1, 9], [1, 10])
  {
    assert At([1, 10], 0) == At([1, 9], 0);
    assert At([1, 10], 1) > At([1, 9], 1);
    NewerAsymmetric([1, 10], [1, 9]);
  }

  // ---------------------------------------------------------------------------
  // The check

  /** `tagName` without one leading "v". */
  function StripV(tag: string): (v: string)
    ensures HasPrefix(tag, "v") ==> tag == "v" + v
    ensures !HasPrefix(tag, "v") ==> v == tag
  {
    if HasPrefix(tag, "v") then tag[1..] else tag
  }

  /** `assets.first { $0.name.hasSuffix(".dmg") }`. */
  function FirstDmg(assets: seq<GitHubAsset>): (r: Option<GitHubAsset>)
    ensures r.None? <==> forall i :: 0 <= i < |assets| ==> !HasSuffix(assets[i].name, ".dmg")
    ensures r.Some? ==> exists i :: 0 <= i < |assets| && assets[i] == r.value && HasSuffix(assets[i].name, ".dmg")
                                     && (forall j :: 0 <= j < i ==> !HasSuffix(assets[j].name, ".dmg"))
  {
    if |assets| == 0 then None
    else if HasSuffix(assets[0].name, ".dmg") then Some(assets[0])
    else
      var r := FirstDmg(assets[1..]);
      if r.Some? then
        var i :| 0 <= i < |assets[1..]| && assets[1..][i] == r.value && HasSuffix(assets[1..][i].name, ".dmg")
                 && (forall j :: 0 <= j < i ==> !HasSuffix(assets[1..][j].name, ".dmg"));
        assert assets[i + 1] == r.value;
        r
      else r
  }

  /** `checkForUpdate()` once the exchange is known: nil when the latest
      release is not newer than the running version. */
  function CheckOutcome(x: ApiClient.Exchange, currentVersion: string, isURL: string -> bool): (r: Result<Option<UpdateInfo>, CheckError>)
  {
    match x
    case TransportError(d) => Failure(Failed(d))
    case NonHttp => Failure(Update(InvalidResponse))
    case Http(status, body) =>
      if status != 200 then Failure(Update(InvalidResponse))
      else if body.None? || DecodeRelease(body.value).None? then Failure(Failed(ApiClient.DecodingErrorText))
      else
        var release := DecodeRelease(body.value).value;
        var remote := StripV(release.tagName);
        if !Newer(VersionParts(remote), VersionParts(currentVersion)) then Success(None)
        else if !isURL(release.htmlURL) then Failure(Update(InvalidResponse))
        else
          var dmg := FirstDmg(release.assets);
          var download := if dmg.Some? && isURL(dmg.value.browserDownloadURL) then Some(dmg.value.browserDownloadURL) else None;
          Success(Some(UpdateInfo(remote, release.body, download, release.htmlURL)))
  }

  /** An update is offered only from a 200 response whose release is newer
      than the running version; it carries the tag without its "v", the
      release notes and page, and the first disk image when there is one. */
  lemma CheckOutcomeOffers(x: ApiClient.Exchange, currentVersion: string, isURL: string -> bool)
    ensures var r := CheckOutcome(x, currentVersion, isURL);
      r.Success? && r.value.Some? ==>
        && x.Http? && x.status == 200 && x.body.Some? && DecodeRelease(x.body.value).Some?
        && var release := DecodeRelease(x.body.value).value;
        && r.value.value.version == StripV(release.tagName)
        && Newer(VersionParts(r.value.value.version), VersionParts(currentVersion))
        && r.value.value.releaseNotes == release.body
        && r.value.value.releaseURL == release.htmlURL && isURL(release.htmlURL)
        && (r.value.value.downloadURL.Some? ==>
              (FirstDmg(release.assets).Some? && r.value.value.downloadURL.value == FirstDmg(release.assets).value.browserDownloadURL))
  {
  }

  /** A release that is not newer than the running one is never offered, and
      a version is never offered to itself. */
  lemma SameVersionNotOffered(release: GitHubRelease, isURL: string -> bool)
    ensures CheckOutcome(ApiClient.Http(200, Some(EncodeRelease(release))), StripV(release.tagName), isURL) == Success(None)
  {
    ReleaseRoundTrip(release);
    NewerIrreflexive(VersionParts(StripV(release.tagName)));
  }

  /** Only a 200 answer can succeed; transport errors keep their description. */
  lemma CheckOutcomeErrors(x: ApiClient.Exchange, currentVersion: string, isURL: string -> bool)
    ensures CheckOutcome(x, currentVersion, isURL).Success? ==> x.Http? && x.status == 200
    ensures x.TransportError? ==> CheckOutcome(x, currentVersion, isURL) == Failure(Failed(x.description))
    ensures x.NonHttp? || (x.Http? && x.status != 200) ==> CheckOutcome(x, currentVersion, isURL) == Failure(Update(InvalidResponse))
  {
  }

  /** `checkForUpdate()`, comparing versions with the loop of `isNewer`. */
  method CheckForUpdate(x: ApiClient.Exchange, bundleVersion: Option<string>, isURL: string -> bool)
    returns (r: Result<Option<UpdateInfo>, CheckError>)
    ensures r == CheckOutcome(x, CurrentVersion(bundleVersion), isURL)
  {
    match x
    case TransportError(d) => return Failure(Failed(d));
    case NonHttp => return Failure(Update(InvalidResponse));
    case Http(status, body) =>
      if status != 200 {
        return Failure(Update(InvalidResponse));
      }
      if body.None? || DecodeRelease(body.value).None? {
        return Failure(Failed(ApiClient.DecodingErrorText));
      }
      var release := DecodeRelease(body.value).value;
      var remote := if HasPrefix(release.tagName, "v") then release.tagName[1..] else release.tagName;
      var newer := IsNewer(remote, CurrentVersion(bundleVersion));
      if !newer {
        return Success(None);
      }
      if !isURL(release.htmlURL) {
        return Failure(Update(InvalidResponse));
      }
      var dmg := FirstDmg(release.assets);
      var download := if dmg.Some? && isURL(dmg.value.browserDownloadURL) then Some(dmg.value.browserDownloadURL) else None;
      return Success(Some(UpdateInfo(remote, release.body, download, release.htmlURL)));
  }

  // ---------------------------------------------------------------------------
  // The Homebrew update

  /** What is left on the pasteboard for the user to paste when the script
      cannot be run. */
  const ManualCommand := "brew update && brew upgrade --cask --greedy tokeneater"

  const BrewCommand := "BREW=$([ -x /opt/homebrew/bin/brew ] && echo /opt/homebrew/bin/brew || echo /usr/local/bin/brew); $BREW update; $BREW upgrade --cask --greedy tokeneater && sleep 1 && open /Applications/TokenEater.app"

  /** The AppleScript that has Terminal run the update. */
  function TerminalScript(): string {
    "tell application \"Terminal\"\nactivate\ndo script \"" + BrewCommand + "\"\nend tell"
  }

  class Pasteboard {
    var contents: Option<string>

    constructor(contents: Option<string>)
      ensures this.contents == contents
    {
      this.contents := contents;
    }
  }

  /** `launchBrewUpdate()`: `scriptCompiles` is whether `NSAppleScript` accepts
      the script, `executionFails` whether running it later reports an error.
      Either failure leaves the manual command on the pasteboard; only the
      first is thrown. */
  method LaunchBrewUpdate(pasteboard: Pasteboard, scriptCompiles: bool, executionFails: bool)
    returns (r: Option<UpdateError>)
    modifies pasteboard
    ensures r.Some? <==> !scriptCompiles
    ensures r.Some? ==> r.value == ScriptLaunchFailed
    ensures pasteboard.contents == if !scriptCompiles || executionFails then Some(ManualCommand) else old(pasteboard.contents)
  {
    if !scriptCompiles {
      pasteboard.contents := Some(ManualCommand);
      return Some(ScriptLaunchFailed);
    }
    if executionFails {
      pasteboard.contents := Some(ManualCommand);
    }
    return None;
  }
}
