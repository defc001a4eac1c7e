/** Shared/Stores/UpdateStore.swift: the observable state of the update
    check, the six-hour throttle kept in `UserDefaults`, the skipped version,
    and the Homebrew update. The clock is a parameter; the service's answer
    is the exchange `UpdateServices.CheckOutcome` reads. */
module UpdateStores {
  import opened Wrappers
  import opened Localized
  import opened UserDefaultsStore
  import opened UpdateServices
  import ApiClient

  const SkippedVersionKey := "skippedVersion"
  const LastCheckKey := "lastUpdateCheck"

  /** Six hours, in seconds: background checks closer together are skipped. */
  const CheckInterval := 6 * 3600

  /** The store's observable properties. */
  datatype UpdateState = UpdateState(
    updateAvailable: bool,
    latestVersion: Option<string>,
    releaseNotes: Option<string>,
    releaseURL: Option<string>,
    isChecking: bool,
    isUpdating: bool,
    updateError: Option<Text>,
    showUpdateModal: bool)

  const InitialState := UpdateState(false, None, None, None, false, false, None, false)

  /** The `skippedVersion` property, read from the defaults. */
  function SkippedVersion(store: map<string, DefaultsValue>): Option<string> {
    StringIn(store, SkippedVersionKey)
  }

  /** The `lastCheckDate` property, read from the defaults. */
  function LastCheckDate(store: map<string, DefaultsValue>): Option<int> {
    DateIn(store, LastCheckKey)
  }

  /** The guard of `checkForUpdate`: a check nobody asked for, less than six
      hours after the last recorded one. */
  predicate Throttled(store: map<string, DefaultsValue>, userInitiated: bool, now: int) {
    !userInitiated && LastCheckDate(store).Some? && now - LastCheckDate(store).value < CheckInterval
  }

  /** The state and defaults once the service has answered. */
  function CheckSettled(s: UpdateState, store: map<string, DefaultsValue>, userInitiated: bool, now: int,
                        outcome: Result<Option<UpdateInfo>, CheckError>): (r: (UpdateState, map<string, DefaultsValue>))
    ensures !r.0.isChecking && r.0.isUpdating == s.isUpdating
    ensures r.0.updateError.Some? <==> userInitiated && outcome.Failure?
    ensures outcome.Failure? ==> r.1 == store
    ensures outcome.Success? ==> r.1 == store[LastCheckKey := DateValue(now)]
  {
    var cleared := s.(isChecking := false, updateError := None);
    match outcome
    case Failure(e) =>
      (cleared.(updateError := if userInitiated then Some(e.Description()) else None), store)
    case Success(None) =>
      (cleared.(updateAvailable := false), store[LastCheckKey := DateValue(now)])
    case Success(Some(info)) =>
      var shown := userInitiated || SkippedVersion(store) != Some(info.version);
      (cleared.(latestVersion := Some(info.version), releaseNotes := info.releaseNotes,
                releaseURL := Some(info.releaseURL), updateAvailable := true,
                showUpdateModal := s.showUpdateModal || shown),
       store[LastCheckKey := DateValue(now)])
  }

  /** `checkForUpdate(userInitiated:)` at time `now`, when the service would
      see exchange `x`. */
  function CheckSpec(s: UpdateState, store: map<string, DefaultsValue>, userInitiated: bool, now: int,
                     x: ApiClient.Exchange, bundleVersion: Option<string>, isURL: string -> bool): (r: (UpdateState, map<string, DefaultsValue>))
  {
    if Throttled(store, userInitiated, now) then (s, store)
    else CheckSettled(s, store, userInitiated, now, CheckOutcome(x, CurrentVersion(bundleVersion), isURL))
  }

  /** `skipCurrentUpdate()`: the shown version is remembered (a missing one
      removes the key) and the modal closes. */
  function SkipSpec(s: UpdateState, store: map<string, DefaultsValue>): (r: (UpdateState, map<string, DefaultsValue>))
    ensures !r.0.showUpdateModal && SkippedVersion(r.1) == s.latestVersion
    ensures forall k :: k != SkippedVersionKey ==> (k in r.1 <==> k in store) && (k in store ==> r.1[k] == store[k])
  {
    var after := if s.latestVersion.Some? then store[SkippedVersionKey := StringValue(s.latestVersion.value)]
                 else store - {SkippedVersionKey};
    (s.(showUpdateModal := false), after)
  }

  /** `performUpdate()`: `scriptCompiles` and `executionFails` are what
      `launchBrewUpdate()` meets. The second result is whether the app is
      set to quit a second later. */
  function PerformSpec(s: UpdateState, scriptCompiles: bool): (r: (UpdateState, bool))
    ensures r.1 <==> scriptCompiles
    ensures r.0.isUpdating <==> scriptCompiles
    ensures r.0.updateError.Some? <==> !scriptCompiles
    ensures scriptCompiles ==> !r.0.showUpdateModal
  {
    if scriptCompiles then (s.(isUpdating := true, updateError := None, showUpdateModal := false), true)
    else (s.(isUpdating := false, updateError := Some(ScriptLaunchFailed.Description())), false)
  }

  // ---------------------------------------------------------------------------
  // Properties

  /** A background check within six hours of the last recorded one touches
      neither the state nor the defaults, whatever the network would say;
      past the window, or when the user asks, the service is consulted. */
  lemma ThrottleWindow(s: UpdateState, store: map<string, DefaultsValue>, userInitiated: bool, now: int,
                       x: ApiClient.Exchange, bundleVersion: Option<string>, isURL: string -> bool)
    ensures Throttled(store, userInitiated, now) ==> CheckSpec(s, store, userInitiated, now, x, bundleVersion, isURL) == (s, store)
    ensures !Throttled(store, userInitiated, now) ==>
      CheckSpec(s, store, userInitiated, now, x, bundleVersion, isURL)
        == CheckSettled(s, store, userInitiated, now, CheckOutcome(x, CurrentVersion(bundleVersion), isURL))
    ensures userInitiated ==> !Throttled(store, userInitiated, now)
  {
  }

  /** A check that got an answer (an update or none) starts a new six-hour
      window: any background check before it ends is skipped, one at its end
      is not. */
  lemma AnsweredCheckStartsWindow(s: UpdateState, store: map<string, DefaultsValue>, userInitiated: bool, now: int,
                                  x: ApiClient.Exchange, bundleVersion: Option<string>, isURL: string -> bool, later: int)
    requires !Throttled(store, userInitiated, now)
    requires CheckOutcome(x, CurrentVersion(bundleVersion), isURL).Success?
    ensures var (_, store') := CheckSpec(s, store, userInitiated, now, x, bundleVersion, isURL);
      LastCheckDate(store') == Some(now)
      && (now <= later < now + CheckInterval ==> Throttled(store', false, later))
      && (later >= now + CheckInterval ==> !Throttled(store', false, later))
  {
    var (_, store') := CheckSpec(s, store, userInitiated, now, x, bundleVersion, isURL);
    assert store' == store[LastCheckKey := DateValue(now)];
    assert LastCheckDate(store') == Some(now);
  }

  /** A failed background check leaves no trace: no error is shown and the
      window does not move, so the next background check tries again. */
  lemma BackgroundFailureIsSilent(s: UpdateState, store: map<string, DefaultsValue>, now: int,
                                  x: ApiClient.Exchange, bundleVersion: Option<string>, isURL: string -> bool)
    requires !Throttled(store, false, now)
    requires CheckOutcome(x, CurrentVersion(bundleVersion), isURL).Failure?
    ensures var (s', store') := CheckSpec(s, store, false, now, x, bundleVersion, isURL);
      s'.updateError.None? && store' == store && !Throttled(store', false, now)
      && s'.updateAvailable == s.updateAvailable && s'.showUpdateModal == s.showUpdateModal
  {
  }

  /** A check the user asked for reports a failure with the error's
      description. */
  lemma UserCheckReportsFailure(s: UpdateState, store: map<string, DefaultsValue>, now: int,
                                x: ApiClient.Exchange, bundleVersion: Option<string>, isURL: string -> bool)
    requires CheckOutcome(x, CurrentVersion(bundleVersion), isURL).Failure?
    ensures CheckSpec(s, store, true, now, x, bundleVersion, isURL).0.updateError
            == Some(CheckOutcome(x, CurrentVersion(bundleVersion), isURL).error.Description())
  {
  }

  /** An update found by a check the user asked for always opens the modal,
      whether or not that version was skipped before. */
  lemma UserCheckShowsUpdate(s: UpdateState, store: map<string, DefaultsValue>, now: int,
                             x: ApiClient.Exchange, bundleVersion: Option<string>, isURL: string -> bool)
    requires CheckOutcome(x, CurrentVersion(bundleVersion), isURL).Success?
    requires CheckOutcome(x, CurrentVersion(bundleVersion), isURL).value.Some?
    ensures var s' := CheckSpec(s, store, true, now, x, bundleVersion, isURL).0;
      s'.showUpdateModal && s'.updateAvailable
      && s'.latestVersion == Some(CheckOutcome(x, CurrentVersion(bundleVersion), isURL).value.value.version)
  {
  }

  /** Skipping a version keeps a later background check that finds the same
      version from opening the modal again; the update stays available. */
  lemma SkippedVersionStaysQuiet(s: UpdateState, store: map<string, DefaultsValue>, now: int,
                                 x: ApiClient.Exchange, bundleVersion: Option<string>, isURL: string -> bool, info: UpdateInfo)
    requires s.latestVersion == Some(info.version)
    requires !Throttled(store, false, now)
    requires CheckOutcome(x, CurrentVersion(bundleVersion), isURL) == Success(Some(info))
    ensures var (s1, store1) := SkipSpec(s, store);
      var (s2, _) := CheckSpec(s1, store1, false, now, x, bundleVersion, isURL);
      !s2.showUpdateModal && s2.updateAvailable
  {
    var (s1, store1) := SkipSpec(s, store);
    assert LastCheckDate(store1) == LastCheckDate(store) by {
      assert LastCheckKey != SkippedVersionKey;
    }
    assert SkippedVersion(store1) == s.latestVersion;
  }

  /** A newer version than the one skipped still opens the modal on a
      background check. */
  lemma NewerThanSkippedIsShown(s: UpdateState, store: map<string, DefaultsValue>, now: int, info: UpdateInfo)
    requires SkippedVersion(store) != Some(info.version)
    ensures CheckSettled(s, store, false, now, Success(Some(info))).0.showUpdateModal
  {
  }

  // ---------------------------------------------------------------------------
  // The store

  class UpdateStore {
    var updateAvailable: bool
    var latestVersion: Option<string>
    var releaseNotes: Option<string>
    var releaseURL: Option<string>
    var isChecking: bool
    var isUpdating: bool
    var updateError: Option<Text>
    var showUpdateModal: bool
    const defaults: UserDefaults

    function State(): UpdateState
      reads this
    {
      UpdateState(updateAvailable, latestVersion, releaseNotes, releaseURL, isChecking, isUpdating, updateError, showUpdateModal)
    }

    constructor(defaults: UserDefaults)
      ensures State() == InitialState && this.defaults == defaults
    {
      updateAvailable := false;
      latestVersion := None;
      releaseNotes := None;
      releaseURL := None;
      isChecking := false;
      isUpdating := false;
      updateError := None;
      showUpdateModal := false;
      this.defaults := defaults;
    }

    /** `checkForUpdate(userInitiated:)`, the service answering through
        `UpdateServices.CheckForUpdate`. */
    method CheckForUpdate(userInitiated: bool, now: int, x: ApiClient.Exchange, bundleVersion: Option<string>, isURL: string -> bool)
      modifies this, defaults
      ensures (State(), defaults.store) == CheckSpec(old(State()), old(defaults.store), userInitiated, now, x, bundleVersion, isURL)
    {
      ghost var s0, store0 := State(), defaults.store;
      ThrottleWindow(s0, store0, userInitiated, now, x, bundleVersion, isURL);
      var last := DateIn(defaults.store, LastCheckKey);
      if !userInitiated && last.Some? && now - last.value < CheckInterval {
        assert Throttled(store0, userInitiated, now);
        return;
      }
      assert !Throttled(store0, userInitiated, now);
      Check(userInitiated, now, x, bundleVersion, isURL);
    }

    /** The part of `checkForUpdate` past the throttle: the service is asked,
        and `isChecking` is reset on every path, as the `defer` does. */
    method Check(userInitiated: bool, now: int, x: ApiClient.Exchange, bundleVersion: Option<string>, isURL: string -> bool)
      modifies this, defaults
      ensures (State(), defaults.store)
              == CheckSettled(old(State()), old(defaults.store), userInitiated, now, CheckOutcome(x, CurrentVersion(bundleVersion), isURL))
    {
      ghost var before := State();
      isChecking := true;
      updateError := None;
      var outcome := UpdateServices.CheckForUpdate(x, bundleVersion, isURL);
      Settle(userInitiated, now, outcome, before);
    }

    /** What `checkForUpdate` does with the service's answer, once `before`
        has been marked as checking. */
    method Settle(userInitiated: bool, now: int, outcome: Result<Option<UpdateInfo>, CheckError>, ghost before: UpdateState)
      requires State() == before.(isChecking := true, updateError := None)
      modifies this, defaults
      ensures (State(), defaults.store) == CheckSettled(before, old(defaults.store), userInitiated, now, outcome)
    {
      match outcome {
        case Failure(e) =>
          if userInitiated {
            updateError := Some(e.Description());
          }
        case Success(None) =>
          updateAvailable := false;
          defaults.Set(LastCheckKey, DateValue(now));
        case Success(Some(info)) =>
          var skipped := StringIn(defaults.store, SkippedVersionKey);
          latestVersion := Some(info.version);
          releaseNotes := info.releaseNotes;
          releaseURL := Some(info.releaseURL);
          updateAvailable := true;
          defaults.Set(LastCheckKey, DateValue(now));
          if userInitiated || skipped != Some(info.version) {
            showUpdateModal := true;
          }
      }
      isChecking := false;
    }

    /** `performUpdate()`: returns whether the app quits a second later. */
    method PerformUpdate(pasteboard: Pasteboard, scriptCompiles: bool, executionFails: bool) returns (terminates: bool)
      modifies this, pasteboard
      ensures (State(), terminates) == PerformSpec(old(State()), scriptCompiles)
      ensures pasteboard.contents == if !scriptCompiles || executionFails then Some(ManualCommand) else old(pasteboard.contents)
    {
      isUpdating := true;
      updateError := None;
      var failure := LaunchBrewUpdate(pasteboard, scriptCompiles, executionFails);
      if failure.None? {
        showUpdateModal := false;
        return true;
      }
      updateError := Some(failure.value.Description());
      isUpdating := false;
      return false;
    }

    /** `skipCurrentUpdate()`. */
    method SkipCurrentUpdate()
      modifies this, defaults
      ensures (State(), defaults.store) == SkipSpec(old(State()), old(defaults.store))
    {
      if latestVersion.Some? {
        defaults.Set(SkippedVersionKey, StringValue(latestVersion.value));
      } else {
        defaults.Remove(SkippedVersionKey);
      }
      showUpdateModal := false;
    }

    /** `dismissUpdate()`: only the modal closes. */
    method DismissUpdate()
      modifies this
      ensures State() == old(State()).(showUpdateModal := false)
    {
      showUpdateModal := false;
    }
  }
}
