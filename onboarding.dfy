/** TokenEaterApp/OnboardingViewModel.swift: the four onboarding steps, the
    mapping of the notification authorization, and the connection step,
    which reads the keychain into the shared file and then fetches once
    through the repository. The keychain, the API and the notification
    centre's answer are parameters or the repository's own collaborators. */
module Onboarding {
  import opened Wrappers
  import opened Localized
  import opened UsageModels
  import opened ClaudeJsonReader
  import opened SharedFile
  import opened ApiClient
  import opened UsageRepositories

  /** `OnboardingStep`, an `Int` enumeration with raw values 0 to 3. */
  datatype OnboardingStep = Welcome | Prerequisites | Notifications | Connection
  {
    function RawValue(): (n: int)
      ensures 0 <= n <= 3
    {
      match this
      case Welcome => 0
      case Prerequisites => 1
      case Notifications => 2
      case Connection => 3
    }
  }

  /** `OnboardingStep(rawValue:)`: nil outside 0 to 3. */
  function StepFromRaw(n: int): (r: Option<OnboardingStep>)
    ensures r.Some? <==> 0 <= n <= 3
    ensures r.Some? ==> r.value.RawValue() == n
  {
    if n == 0 then Some(Welcome)
    else if n == 1 then Some(Prerequisites)
    else if n == 2 then Some(Notifications)
    else if n == 3 then Some(Connection)
    else None
  }

  /** Raw values identify the steps. */
  lemma RawValueRoundTrip(s: OnboardingStep)
    ensures StepFromRaw(s.RawValue()) == Some(s)
  {
  }

  datatype ClaudeCodeStatus = Checking | Detected | NotFound

  datatype ConnectionStatus = Idle | Connecting | Succeeded(usage: UsageResponse) | Failed(message: Text)

  datatype NotificationStatus = Unknown | Authorized | Denied | NotYetAsked

  /** `UNAuthorizationStatus`, with room for values added later. */
  datatype AuthorizationStatus = NotDetermined | DeniedStatus | AuthorizedStatus | Provisional | Ephemeral | Unrecognised(raw: int)

  const NoTokenText := Plain("onboarding.connection.failed.notoken")

  /** `goNext()`: one step on, staying at the last one. */
  function NextStep(s: OnboardingStep): OnboardingStep {
    var next := StepFromRaw(s.RawValue() + 1);
    if next.Some? then next.value else s
  }

  /** `goBack()`: one step back, staying at the first one. */
  function PreviousStep(s: OnboardingStep): OnboardingStep {
    var prev := StepFromRaw(s.RawValue() - 1);
    if prev.Some? then prev.value else s
  }

  /** Going on advances the raw value by one, except at `connection`;
      going back lowers it by one, except at `welcome`. */
  lemma StepNavigation(s: OnboardingStep)
    ensures s != Connection ==> NextStep(s).RawValue() == s.RawValue() + 1
    ensures NextStep(Connection) == Connection
    ensures s != Welcome ==> PreviousStep(s).RawValue() == s.RawValue() - 1
    ensures PreviousStep(Welcome) == Welcome
  {
  }

  /** Back undoes next, and next undoes back, away from the ends. */
  lemma BackUndoesNext(s: OnboardingStep)
    ensures s != Connection ==> PreviousStep(NextStep(s)) == s
    ensures s != Welcome ==> NextStep(PreviousStep(s)) == s
  {
  }

  /** `n` presses of the next button. */
  function Advance(s: OnboardingStep, n: nat): OnboardingStep
    decreases n
  {
    if n == 0 then s else Advance(NextStep(s), n - 1)
  }

  /** From any step, `n` presses of next reach raw value `min(raw + n, 3)`:
      the flow never leaves its four steps. */
  lemma {:induction false} AdvanceStopsAtConnection(s: OnboardingStep, n: nat)
    ensures Advance(s, n).RawValue() == if s.RawValue() + n < 3 then s.RawValue() + n else 3
    decreases n
  {
    if n > 0 {
      StepNavigation(s);
      AdvanceStopsAtConnection(NextStep(s), n - 1);
    }
  }

  /** `checkNotificationStatus()`'s mapping. */
  function StatusFor(a: AuthorizationStatus): (r: NotificationStatus)
    ensures r == Authorized <==> a == AuthorizedStatus || a == Provisional || a == Ephemeral
    ensures r == Denied <==> a == DeniedStatus
    ensures r == NotYetAsked <==> a == NotDetermined
    ensures r == Unknown <==> a.Unrecognised?
  {
    match a
    case AuthorizedStatus => Authorized
    case Provisional => Authorized
    case Ephemeral => Authorized
    case DeniedStatus => Denied
    case NotDetermined => NotYetAsked
    case Unrecognised(_) => Unknown
  }

  /** `connect()` on the shared record `d`: `interactive` and `silent` are
      what the keychain's two reads return. The result is the final status,
      the record, and the tokens the API was called with. */
  function ConnectSpec(d: SharedData, interactive: Option<string>, silent: Option<string>, api: UsageApi,
                       now: int, stats: seq<ModelTokenStats>): (r: (ConnectionStatus, SharedData, seq<string>))
    ensures r.0 != Idle && r.0 != Connecting
  {
    var synced := if interactive.Some? then d.(oauthToken := interactive) else d;
    if synced.oauthToken.None? then (Failed(NoTokenText), synced, [])
    else
      var (result, d', calls) := RefreshOutcome(synced, silent, api, None, now, stats);
      match result
      case Success(usage) => (Succeeded(usage), d', calls)
      case Failure(e) => (Failed(e.Description()), d', calls)
  }

  /** With no token in the keychain or the shared file, `connect()` fails
      with its own message and calls nothing. */
  lemma ConnectWithoutTokenFetchesNothing(d: SharedData, silent: Option<string>, api: UsageApi, now: int, stats: seq<ModelTokenStats>)
    requires d.oauthToken.None?
    ensures ConnectSpec(d, None, silent, api, now, stats) == (Failed(NoTokenText), d, [])
  {
  }

  /** A token in the keychain is stored and is the first one the API sees;
      the step succeeds exactly when the repository's refresh does. */
  lemma ConnectUsesKeychainToken(d: SharedData, token: string, silent: Option<string>, api: UsageApi, now: int, stats: seq<ModelTokenStats>)
    ensures var (status, _, calls) := ConnectSpec(d, Some(token), silent, api, now, stats);
      var (result, _, _) := RefreshOutcome(d.(oauthToken := Some(token)), silent, api, None, now, stats);
      |calls| >= 1 && calls[0] == token
      && (status.Succeeded? <==> result.Success?)
      && (result.Success? ==> status == Succeeded(result.value))
  {
  }

  class OnboardingViewModel {
    var currentStep: OnboardingStep
    var claudeCodeStatus: ClaudeCodeStatus
    var connectionStatus: ConnectionStatus
    var notificationStatus: NotificationStatus
    const repository: UsageRepository

    constructor(repository: UsageRepository)
      ensures currentStep == Welcome && claudeCodeStatus == Checking
      ensures connectionStatus == Idle && notificationStatus == Unknown
      ensures this.repository == repository
    {
      currentStep := Welcome;
      claudeCodeStatus := Checking;
      connectionStatus := Idle;
      notificationStatus := Unknown;
      this.repository := repository;
    }

    /** `goNext()`. */
    method GoNext()
      modifies this
      ensures currentStep == NextStep(old(currentStep))
      ensures claudeCodeStatus == old(claudeCodeStatus) && connectionStatus == old(connectionStatus)
      ensures notificationStatus == old(notificationStatus)
    {
      var next := StepFromRaw(currentStep.RawValue() + 1);
      if next.None? {
        return;
      }
      currentStep := next.value;
    }

    /** `goBack()`. */
    method GoBack()
      modifies this
      ensures currentStep == PreviousStep(old(currentStep))
      ensures claudeCodeStatus == old(claudeCodeStatus) && connectionStatus == old(connectionStatus)
      ensures notificationStatus == old(notificationStatus)
    {
      var prev := StepFromRaw(currentStep.RawValue() - 1);
      if prev.None? {
        return;
      }
      currentStep := prev.value;
    }

    /** `checkClaudeCode()`: the status is `checking` until the delayed
        `tokenExists()` answer arrives. */
    method CheckClaudeCode()
      modifies this
      ensures claudeCodeStatus == Checking
      ensures currentStep == old(currentStep) && connectionStatus == old(connectionStatus)
      ensures notificationStatus == old(notificationStatus)
    {
      claudeCodeStatus := Checking;
    }

    /** The delayed half of `checkClaudeCode()`. */
    method ClaudeCodeChecked(tokenExists: bool)
      modifies this
      ensures claudeCodeStatus == if tokenExists then Detected else NotFound
      ensures currentStep == old(currentStep) && connectionStatus == old(connectionStatus)
      ensures notificationStatus == old(notificationStatus)
    {
      claudeCodeStatus := if tokenExists then Detected else NotFound;
    }

    /** `checkNotificationStatus()`, once the centre has answered `a`. */
    method CheckNotificationStatus(a: AuthorizationStatus)
      modifies this
      ensures notificationStatus == StatusFor(a)
      ensures currentStep == old(currentStep) && connectionStatus == old(connectionStatus)
      ensures claudeCodeStatus == old(claudeCodeStatus)
    {
      match a {
        case AuthorizedStatus => notificationStatus := Authorized;
        case Provisional => notificationStatus := Authorized;
        case Ephemeral => notificationStatus := Authorized;
        case DeniedStatus => notificationStatus := Denied;
        case NotDetermined => notificationStatus := NotYetAsked;
        case Unrecognised(_) => notificationStatus := Unknown;
      }
    }

    /** `connect()`: the interactive keychain read, the guard, then one
        refresh without a proxy. */
    method Connect(api: UsageApi, now: int, stats: seq<ModelTokenStats>)
      modifies this, repository, repository.sharedFile
      ensures var (status, d', calls) := ConnectSpec(old(repository.sharedFile.Load()), repository.keychain.interactiveToken,
                                                      repository.keychain.silentToken, api, now, stats);
              connectionStatus == status && repository.sharedFile.Load() == d' && repository.fetches == old(repository.fetches) + calls
      ensures currentStep == old(currentStep) && claudeCodeStatus == old(claudeCodeStatus)
      ensures notificationStatus == old(notificationStatus)
    {
      connectionStatus := Connecting;
      repository.SyncKeychainToken();
      if !repository.IsConfigured() {
        connectionStatus := Failed(NoTokenText);
        assert repository.fetches == old(repository.fetches) + [];
        return;
      }
      var r := repository.RefreshUsage(api, None, now, stats);
      match r
      case Success(usage) => connectionStatus := Succeeded(usage);
      case Failure(e) => connectionStatus := Failed(e.Description());
    }
  }
}
