/**
 The desktop updater: a reducer over feed events and the controller that serializes checks,
 downloads and installs. Each atomic stretch of the controller, from one `await` to the next, is
 one action; feed events and calls interleave with them in any order.
 */
module DesktopUpdates {
  import opened Common

  const MIN_CHECK_INTERVAL_MS := 60_000

  datatype Phase = Unsupported | Idle | Checking | Available | Downloading | Ready | Failed

  datatype Message = TurnedOff | NotInstalled | NoneReleased | Unreachable | Unverified | Incomplete

  datatype Failure = NoReleases | Offline | Signature | Other

  datatype UpdateState = UpdateState(
    phase: Phase,
    availableVersion: Option<string>,
    percent: Option<int>,
    message: Option<Message>,
    checkedAt: Option<int>)

  datatype Event =
    | CheckStart
    | Offer(version: string)
    | NotAvailable
    | DownloadStart
    | Progress(percent: real)
    | Downloaded(version: string)
    | Broken(failure: Failure, userInitiated: bool, installFailed: bool)

  function MessageOf(failure: Failure): Option<Message> {
    match failure
    case NoReleases => Some(NoneReleased)
    case Offline => None
    case Signature => Some(Unverified)
    case Other => Some(Incomplete)
  }

  function Round(x: real): int {
    (x + 0.5).Floor
  }

  function Clamp(x: int): int {
    if x < 0 then 0 else if x > 100 then 100 else x
  }

  function ReduceFailure(s: UpdateState, e: Event, now: int): UpdateState
    requires e.Broken?
  {
    if s.phase.Ready? && !e.installFailed then s
    else if s.phase.Ready? then
      s.(message := if MessageOf(e.failure).Some? then MessageOf(e.failure) else Some(Incomplete))
    else if e.failure.NoReleases? && s.phase.Checking? then
      UpdateState(Unsupported, None, None, Some(NoneReleased), Some(now))
    else if e.failure.NoReleases? then
      s.(phase := Failed, percent := None, message := Some(Incomplete), checkedAt := Some(now))
    else if e.failure.Offline? && !e.installFailed then
      s.(phase := Idle, percent := None, message := if e.userInitiated then Some(Unreachable) else None, checkedAt := Some(now))
    else
      s.(phase := Failed, percent := None, message := MessageOf(e.failure), checkedAt := Some(now))
  }

  function Reduce(s: UpdateState, e: Event, now: int): UpdateState {
    if s.phase.Unsupported? then s
    else
      match e
      case CheckStart =>
        if s.phase.Available? || s.phase.Downloading? || s.phase.Ready? then s
        else s.(phase := Checking, percent := None, message := None)
      case Offer(version) =>
        if s.phase.Downloading? || s.phase.Ready? then s
        else UpdateState(Available, Some(version), None, None, Some(now))
      case NotAvailable =>
        if s.phase.Downloading? || s.phase.Ready? then s
        else UpdateState(Idle, None, None, None, Some(now))
      case DownloadStart =>
        if s.phase.Ready? then s else s.(phase := Downloading, percent := Some(0), message := None)
      case Progress(percent) =>
        if !s.phase.Available? && !s.phase.Downloading? then s
        else s.(phase := Downloading, percent := Some(Clamp(Round(percent))))
      case Downloaded(version) =>
        s.(phase := Ready, availableVersion := Some(version), percent := Some(100), message := None)
      case Broken(_, _, _) => ReduceFailure(s, e, now)
  }

  predicate Offering(phase: Phase) {
    phase.Available? || phase.Downloading? || phase.Ready?
  }

  /**
   Where an event can lead from a phase that is not frozen: only an empty feed met while checking
   freezes it, only a downloaded update makes it ready, an offer is lost only to a failure or to
   a feed that withdraws it before the download, and a failure before ready goes quietly back to
   idle exactly when the network was down and no install was begun. Progress counts only for an
   offer or a download, and is shown to the nearest percent.
   */
  lemma {:induction false} PhaseMoves(s: UpdateState, e: Event, now: int)
    requires !s.phase.Unsupported?
    ensures
      var t := Reduce(s, e, now);
      && (t.phase.Unsupported? <==> e.Broken? && e.failure.NoReleases? && s.phase.Checking?)
      && (t.phase.Ready? <==> s.phase.Ready? || e.Downloaded?)
      && (Offering(s.phase) && !Offering(t.phase) <==>
            !s.phase.Ready? && Offering(s.phase) && (e.Broken? || (e.NotAvailable? && s.phase.Available?)))
      && (e.Broken? && !s.phase.Ready? ==>
            t.checkedAt == Some(now) && (t.phase.Idle? <==> e.failure.Offline? && !e.installFailed))
      && (e.Broken? && !t.phase.Unsupported? ==> t.availableVersion == s.availableVersion)
      && (t.phase.Checking? ==> s.phase.Checking? || e.CheckStart?)
      && (t.phase.Available? ==> s.phase.Available? || e.Offer?)
      && (t.phase.Downloading? ==> s.phase.Downloading? || e.DownloadStart? || (e.Progress? && s.phase.Available?))
      && (e.Progress? && t.phase.Downloading? ==>
            && t.percent.Some? && 0 <= t.percent.value <= 100
            && (0.0 <= e.percent <= 100.0 ==> -0.5 <= t.percent.value as real - e.percent <= 0.5))
  {
  }

  // ---------------------------------------------------------------- the controller on values

  // Where the one unfinished runCheck stands; `started` is the time of its first look.
  datatype CheckCall = NoCheck | CheckLoading(manual: bool, started: int) | CheckAsking

  datatype DownloadCall = NoDownload | DownloadLoading | DownloadRunning

  // A feed check: when, in which phase, and whether a retry left the frozen phase since the one before.
  datatype FeedCheck = FeedCheck(at: int, phase: Phase, thawed: bool)

  /**
   The controller's fields, followed by the history the properties speak of: the feed checks
   made, whether a retry left the frozen phase since the last of them, whether a manual check was
   called since the phase froze, and the numbers of installs begun and failed.
   */
  datatype Updater = Updater(
    supported: bool,
    current: UpdateState,
    lastCheck: int,
    check: CheckCall,
    download: DownloadCall,
    requested: bool,
    installs: nat,
    installStarted: bool,
    checks: seq<FeedCheck>,
    thawed: bool,
    asked: bool,
    begun: nat,
    failed: nat)

  datatype Action =
    | CallCheck(userInitiated: bool)
    | ResumeCheck(updater: bool)
    | CheckAnswered(fault: Option<Failure>)
    | CallDownload
    | ResumeDownload(updater: bool)
    | DownloadAnswered(fault: Option<Failure>)
    | CallInstall
    | ResumeInstall(updater: bool, refused: Option<Failure>)
    | LoadFailed(error: Failure)
    | CheckingForUpdate
    | UpdateAvailable(version: Option<string>)
    | UpdateNotAvailable
    | DownloadProgress(percent: Option<real>)
    | UpdateDownloaded(version: Option<string>)
    | UpdaterError(error: Failure)

  datatype Environment = Environment(packaged: bool, disabled: bool)

  function Support(env: Environment): bool {
    !env.disabled && env.packaged
  }

  function InitialState(env: Environment): UpdateState {
    if Support(env) then UpdateState(Idle, None, None, None, None)
    else UpdateState(Unsupported, None, None, Some(if env.disabled then TurnedOff else NotInstalled), None)
  }

  function Initial(env: Environment): Updater {
    Updater(Support(env), InitialState(env), 0, NoCheck, NoDownload, false, 0, false, [], false, false, 0, 0)
  }

  predicate ShouldCheck(s: UpdateState, now: int, lastCheck: int, manual: bool, supported: bool) {
    if s.phase.Unsupported? then manual && supported
    else (s.phase.Idle? || s.phase.Failed?) && (now - lastCheck >= MIN_CHECK_INTERVAL_MS || lastCheck == 0)
  }

  predicate Resets(e: Event) {
    e.NotAvailable? || e.Downloaded? || e.Broken?
  }

  function Pushed(u: Updater, e: Event, now: int): Updater {
    var next := Reduce(u.current, e, now);
    u.(current := next,
       requested := u.requested && !Resets(e),
       asked := u.asked && (u.current.phase.Unsupported? || !next.phase.Unsupported?))
  }

  function Failing(u: Updater, failure: Failure, now: int): Updater {
    var pushed := Pushed(u.(installStarted := false), Broken(failure, u.requested || u.installStarted, u.installStarted), now);
    if u.installStarted then pushed.(failed := u.failed + 1) else pushed
  }

  // runCheck() up to its first await
  function RunStarted(u: Updater, now: int): Updater {
    if !ShouldCheck(u.current, now, u.lastCheck, u.requested, u.supported) then u
    else
      var loading := u.(check := CheckLoading(u.requested, now));
      if u.current.phase.Unsupported? then
        loading.(current := UpdateState(Idle, None, None, None, u.current.checkedAt), lastCheck := 0, thawed := true)
      else loading
  }

  function CheckCalled(u: Updater, userInitiated: bool, now: int): Updater {
    var v := if userInitiated then u.(requested := true, asked := true) else u;
    if v.check.NoCheck? then RunStarted(v, now) else v
  }

  function CheckResumed(u: Updater, updater: bool, now: int): Updater
    requires u.check.CheckLoading?
  {
    if !updater || !ShouldCheck(u.current, now, u.lastCheck, u.check.manual, u.supported) then u.(check := NoCheck)
    else u.(lastCheck := now, check := CheckAsking, thawed := false,
            checks := u.checks + [FeedCheck(now, u.current.phase, u.thawed)])
  }

  function CheckEnded(u: Updater, fault: Option<Failure>, now: int): Updater {
    var v := u.(check := NoCheck);
    if fault.Some? && (u.current.phase.Idle? || u.current.phase.Checking?)
    then Pushed(v, Broken(fault.value, u.requested, false), now)
    else v
  }

  function DownloadCalled(u: Updater): Updater {
    if u.download.NoDownload? && u.current.phase.Available? then u.(download := DownloadLoading) else u
  }

  function DownloadResumed(u: Updater, updater: bool, now: int): Updater {
    if !updater || !u.current.phase.Available? then u.(download := NoDownload)
    else Pushed(u.(download := DownloadRunning), DownloadStart, now)
  }

  function DownloadEnded(u: Updater, fault: Option<Failure>, now: int): Updater {
    var v := u.(download := NoDownload);
    if fault.Some? && u.current.phase.Downloading?
    then Pushed(v, Broken(fault.value, u.requested, false), now)
    else v
  }

  function InstallCalled(u: Updater): Updater {
    if u.installStarted || !u.current.phase.Ready? then u else u.(installs := u.installs + 1)
  }

  // quitAndInstall is called.
  function Handed(u: Updater): Updater
    requires u.installs > 0
  {
    u.(installs := u.installs - 1, installStarted := true, current := u.current.(message := None), begun := u.begun + 1)
  }

  function InstallResumed(u: Updater, updater: bool, refused: Option<Failure>, now: int): Updater
    requires u.installs > 0
  {
    var v := u.(installs := u.installs - 1);
    if !updater || u.installStarted || !u.current.phase.Ready? then v
    else
      var started := Handed(u);
      if refused.Some? then Failing(started, refused.value, now) else started
  }

  function Offered(u: Updater, version: Option<string>, now: int): Updater {
    if version.Some? then DownloadCalled(Pushed(u, Offer(version.value), now))
    else Pushed(u, Broken(Other, u.requested, false), now)
  }

  function Verified(u: Updater, version: Option<string>, now: int): Updater {
    if version.Some? then Pushed(u, Downloaded(version.value), now)
    else Pushed(u, Broken(Other, u.requested, false), now)
  }

  // Clock times are positive. An awaited updater is null where updates are unsupported, and there
  // no listener is attached.
  predicate Enabled(u: Updater, a: Action, now: int) {
    now > 0 &&
    match a
    case CallCheck(_) => true
    case ResumeCheck(updater) => u.check.CheckLoading? && now >= u.check.started && (updater ==> u.supported)
    case CheckAnswered(_) => u.check.CheckAsking?
    case CallDownload => true
    case ResumeDownload(updater) => u.download.DownloadLoading? && (updater ==> u.supported)
    case DownloadAnswered(_) => u.download.DownloadRunning?
    case CallInstall => true
    case ResumeInstall(updater, _) => u.installs > 0 && (updater ==> u.supported)
    case LoadFailed(_) => u.supported
    case CheckingForUpdate => u.supported
    case UpdateAvailable(_) => u.supported
    case UpdateNotAvailable => u.supported
    case DownloadProgress(_) => u.supported
    case UpdateDownloaded(_) => u.supported
    case UpdaterError(_) => u.supported
  }

  function Next(u: Updater, a: Action, now: int): Updater
    requires Enabled(u, a, now)
  {
    match a
    case CallCheck(userInitiated) => CheckCalled(u, userInitiated, now)
    case ResumeCheck(updater) => CheckResumed(u, updater, now)
    case CheckAnswered(fault) => CheckEnded(u, fault, now)
    case CallDownload => DownloadCalled(u)
    case ResumeDownload(updater) => DownloadResumed(u, updater, now)
    case DownloadAnswered(fault) => DownloadEnded(u, fault, now)
    case CallInstall => InstallCalled(u)
    case ResumeInstall(updater, refused) => InstallResumed(u, updater, refused, now)
    case LoadFailed(error) => Pushed(u, Broken(error, u.requested, false), now)
    case CheckingForUpdate => Pushed(u, CheckStart, now)
    case UpdateAvailable(version) => Offered(u, version, now)
    case UpdateNotAvailable => Pushed(u, NotAvailable, now)
    case DownloadProgress(percent) => if percent.Some? then Pushed(u, Progress(percent.value), now) else u
    case UpdateDownloaded(version) => Verified(u, version, now)
    case UpdaterError(error) => Failing(u, error, now)
  }

  /**
   What the feed's offers and downloads lead to: an offer with a version is shown and its download
   begun, unless one is under way or ready; a download with a version is ready to install; an event
   without its version is a failure.
   */
  lemma {:induction false} FeedMeans(u: Updater, version: Option<string>, now: int)
    requires !u.current.phase.Unsupported?
    ensures
      var offered, verified := Offered(u, version, now), Verified(u, version, now);
      && (version.Some? && !u.current.phase.Downloading? && !u.current.phase.Ready? ==>
            && offered.current.phase.Available? && offered.current.availableVersion == version && offered.current.checkedAt == Some(now)
            && offered.download == if u.download.NoDownload? then DownloadLoading else u.download)
      && (version.Some? && (u.current.phase.Downloading? || u.current.phase.Ready?) ==> offered == u)
      && (version.Some? ==> verified.current.phase.Ready? && verified.current.availableVersion == version && !verified.requested)
      && (version.None? && !u.current.phase.Ready? ==> offered.current.phase.Failed? && verified.current.phase.Failed?)
      && (version.None? ==> offered.download == u.download && !offered.requested && !verified.requested)
  {
  }

  /** A download runs exactly for an offer that is still there once the updater is, and starts at zero percent. */
  lemma {:induction false} DownloadMeans(u: Updater, updater: bool, now: int)
    requires u.download.DownloadLoading?
    ensures
      var v := DownloadResumed(u, updater, now);
      if updater && u.current.phase.Available?
      then v.download.DownloadRunning? && v.current.phase.Downloading? && v.current.percent == Some(0)
           && v.current.availableVersion == u.current.availableVersion
      else v.download.NoDownload? && v.current == u.current
  {
  }

  // ---------------------------------------------------------------- what every run keeps

  predicate Coherent(s: UpdateState) {
    && (s.phase.Available? || s.phase.Downloading? || s.phase.Ready? ==> s.availableVersion.Some?)
    && (s.phase.Downloading? ==> s.percent.Some? && 0 <= s.percent.value <= 100)
    && (s.phase.Ready? ==> s.percent == Some(100))
    && (!s.phase.Downloading? && !s.phase.Ready? ==> s.percent.None?)
  }

  // Never less than the interval after the check before it, except after a retry from the frozen phase.
  predicate SpacedAt(checks: seq<FeedCheck>, i: nat)
    requires 0 < i < |checks|
  {
    checks[i].thawed || checks[i].at - checks[i - 1].at >= MIN_CHECK_INTERVAL_MS
  }

  // Feed checks are spaced and none is made during a check or over an offer.
  predicate Spaced(checks: seq<FeedCheck>) {
    && (forall i :: 0 < i < |checks| ==> SpacedAt(checks, i))
    && (forall c :: c in checks ==> c.at > 0 && (c.phase.Idle? || c.phase.Failed? || c.phase.Unsupported?))
  }

  // A last check of zero is one that a retry has forgotten, or none.
  predicate Clocked(u: Updater) {
    if u.checks == [] || u.thawed then u.lastCheck == 0
    else
      var last := u.checks[|u.checks| - 1].at;
      u.lastCheck == last && (u.check.CheckLoading? ==> u.check.started - last >= MIN_CHECK_INTERVAL_MS)
  }

  predicate Valid(u: Updater) {
    && Coherent(u.current)
    && Spaced(u.checks)
    && Clocked(u)
    && (!u.supported ==> u.current.phase.Unsupported? && u.checks == [])
    && (u.supported && u.current.phase.Unsupported? && u.requested ==> u.asked)
    && (u.installStarted ==> u.current.phase.Ready?)
    && u.begun == u.failed + if u.installStarted then 1 else 0
  }

  lemma {:induction false} PushedKeeps(u: Updater, e: Event, now: int)
    requires Valid(u) && (e.DownloadStart? ==> u.current.availableVersion.Some?)
    ensures Valid(Pushed(u, e, now))
    ensures u.current.phase.Ready? ==> Pushed(u, e, now).current.phase.Ready?
  {
  }

  lemma {:induction false} FailingKeeps(u: Updater, failure: Failure, now: int)
    requires Valid(u)
    ensures Valid(Failing(u, failure, now))
  {
    if u.installStarted {
      PushedKeeps(u.(installStarted := false, failed := u.failed + 1), Broken(failure, true, true), now);
    } else {
      PushedKeeps(u, Broken(failure, u.requested, false), now);
    }
  }

  lemma {:induction false} CheckKeeps(u: Updater, updater: bool, now: int)
    requires Valid(u) && Enabled(u, ResumeCheck(updater), now)
    ensures Valid(CheckResumed(u, updater, now))
  {
    var v := CheckResumed(u, updater, now);
    var n := |u.checks|;
    forall i | 0 < i < |v.checks|
      ensures SpacedAt(v.checks, i)
    {
      if i < n {
        assert SpacedAt(u.checks, i);
      }
    }
  }

  lemma {:induction false} CallKeeps(u: Updater, userInitiated: bool, now: int)
    requires Valid(u)
    ensures Valid(CheckCalled(u, userInitiated, now)) && Valid(DownloadCalled(u)) && Valid(InstallCalled(u))
  {
  }

  lemma {:induction false} CheckEndKeeps(u: Updater, fault: Option<Failure>, now: int)
    requires Valid(u)
    ensures Valid(CheckEnded(u, fault, now))
  {
    if fault.Some? {
      PushedKeeps(u.(check := NoCheck), Broken(fault.value, u.requested, false), now);
    }
  }

  lemma {:induction false} DownloadKeeps(u: Updater, updater: bool, fault: Option<Failure>, now: int)
    requires Valid(u)
    ensures Valid(DownloadResumed(u, updater, now)) && Valid(DownloadEnded(u, fault, now))
  {
    if u.current.phase.Available? {
      PushedKeeps(u.(download := DownloadRunning), DownloadStart, now);
    }
    if fault.Some? {
      PushedKeeps(u.(download := NoDownload), Broken(fault.value, u.requested, false), now);
    }
  }

  lemma {:induction false} InstallKeeps(u: Updater, updater: bool, refused: Option<Failure>, now: int)
    requires Valid(u) && u.installs > 0
    ensures Valid(InstallResumed(u, updater, refused, now))
  {
    if updater && !u.installStarted && u.current.phase.Ready? {
      var started := u.(installs := u.installs - 1, installStarted := true,
                        current := u.current.(message := None), begun := u.begun + 1);
      assert Valid(started);
      if refused.Some? {
        FailingKeeps(started, refused.value, now);
      }
    }
  }

  lemma {:induction false} FeedKeeps(u: Updater, version: Option<string>, now: int)
    requires Valid(u)
    ensures Valid(Offered(u, version, now)) && Valid(Verified(u, version, now))
  {
    if version.Some? {
      PushedKeeps(u, Offer(version.value), now);
      PushedKeeps(u, Downloaded(version.value), now);
    } else {
      PushedKeeps(u, Broken(Other, u.requested, false), now);
    }
  }

  lemma {:induction false} NextKeeps(u: Updater, a: Action, now: int)
    requires Valid(u) && Enabled(u, a, now)
    ensures Valid(Next(u, a, now))
  {
    match a
    case CallCheck(userInitiated) => CallKeeps(u, userInitiated, now);
    case ResumeCheck(updater) => CheckKeeps(u, updater, now);
    case CheckAnswered(fault) => CheckEndKeeps(u, fault, now);
    case CallDownload => CallKeeps(u, false, now);
    case ResumeDownload(updater) => DownloadKeeps(u, updater, None, now);
    case DownloadAnswered(fault) => DownloadKeeps(u, false, fault, now);
    case CallInstall => CallKeeps(u, false, now);
    case ResumeInstall(updater, refused) => InstallKeeps(u, updater, refused, now);
    case LoadFailed(error) => PushedKeeps(u, Broken(error, u.requested, false), now);
    case CheckingForUpdate => PushedKeeps(u, CheckStart, now);
    case UpdateAvailable(version) => FeedKeeps(u, version, now);
    case UpdateNotAvailable => PushedKeeps(u, NotAvailable, now);
    case DownloadProgress(percent) =>
      if percent.Some? {
        PushedKeeps(u, Progress(percent.value), now);
      }
    case UpdateDownloaded(version) => FeedKeeps(u, version, now);
    case UpdaterError(error) => FailingKeeps(u, error, now);
  }

  function Play(u: Updater, run: seq<(Action, int)>): Option<Updater>
    decreases |run|
  {
    if run == [] then Some(u)
    else if !Enabled(u, run[0].0, run[0].1) then None
    else Play(Next(u, run[0].0, run[0].1), run[1..])
  }

  lemma {:induction false} PlayKeeps(u: Updater, run: seq<(Action, int)>)
    requires Valid(u) && Play(u, run).Some?
    ensures Valid(Play(u, run).value)
    ensures u.current.phase.Ready? ==> Play(u, run).value.current.phase.Ready?
    decreases |run|
  {
    if run != [] {
      NextKeeps(u, run[0].0, run[0].1);
      if u.current.phase.Ready? {
        ReadyStays(u, run[0].0, run[0].1);
      }
      PlayKeeps(Next(u, run[0].0, run[0].1), run[1..]);
    }
  }

  lemma {:induction false} InstallStaysReady(u: Updater, a: Action, now: int)
    requires u.current.phase.Ready? && Enabled(u, a, now) && (a.ResumeInstall? || a.CallInstall?)
    ensures Next(u, a, now).current.phase.Ready? && Next(u, a, now).checks == u.checks
  {
  }

  lemma {:induction false} FeedStaysReady(u: Updater, a: Action, now: int)
    requires u.current.phase.Ready? && Enabled(u, a, now)
    requires a.LoadFailed? || a.CheckingForUpdate? || a.UpdateAvailable? || a.UpdateNotAvailable?
             || a.DownloadProgress? || a.UpdateDownloaded? || a.UpdaterError?
    ensures Next(u, a, now).current.phase.Ready?
  {
  }

  lemma {:induction false} ReadyStays(u: Updater, a: Action, now: int)
    requires u.current.phase.Ready? && Enabled(u, a, now)
    ensures Next(u, a, now).current.phase.Ready?
  {
    if a.ResumeInstall? || a.CallInstall? {
      InstallStaysReady(u, a, now);
    } else if !(a.CallCheck? || a.ResumeCheck? || a.CheckAnswered? || a.CallDownload? || a.ResumeDownload? || a.DownloadAnswered?) {
      FeedStaysReady(u, a, now);
    }
  }

  /**
   In every run: an offer carries its version, the percentage is shown exactly while downloading
   and when ready, feed checks are spaced and never made over an offer, and installs are begun
   one at a time. A verified download stays installable whatever happens later.
   */
  lemma {:induction false} EveryRun(env: Environment, run: seq<(Action, int)>, later: seq<(Action, int)>)
    requires Play(Initial(env), run).Some? && Play(Play(Initial(env), run).value, later).Some?
    ensures
      var u := Play(Initial(env), run).value;
      && Coherent(u.current) && Spaced(u.checks)
      && u.begun <= u.failed + 1 && (u.begun > u.failed ==> u.current.phase.Ready?)
      && (u.current.phase.Ready? ==> Play(u, later).value.current.phase.Ready?)
      && (!Support(env) ==> u.current.phase.Unsupported? && u.checks == [])
  {
    PlayKeeps(Initial(env), run);
    SupportedFixed(Initial(env), run);
    PlayKeeps(Play(Initial(env), run).value, later);
  }

  lemma {:induction false} SupportedFixed(u: Updater, run: seq<(Action, int)>)
    requires Play(u, run).Some?
    ensures Play(u, run).value.supported == u.supported
    decreases |run|
  {
    if run != [] {
      SupportedFixed(Next(u, run[0].0, run[0].1), run[1..]);
    }
  }

  // A call of check() at this time, resumed at once with an updater, asks the feed.
  predicate Asks(u: Updater, userInitiated: bool, now: int) {
    var called := CheckCalled(u, userInitiated, now);
    called.check.CheckLoading? && CheckResumed(called, true, now).checks != u.checks
  }

  /**
   From every reachable resting state that has checked the feed before, a check at any time goes
   through exactly when the interval has passed or a retry has left the frozen phase since.
   */
  lemma {:induction false} NextCheckExactly(env: Environment, run: seq<(Action, int)>, userInitiated: bool, now: int)
    requires Play(Initial(env), run).Some? && now > 0
    requires
      var u := Play(Initial(env), run).value;
      u.check.NoCheck? && (u.current.phase.Idle? || u.current.phase.Failed?) && u.checks != []
    ensures
      var u := Play(Initial(env), run).value;
      Asks(u, userInitiated, now) <==> u.thawed || now - u.checks[|u.checks| - 1].at >= MIN_CHECK_INTERVAL_MS
  {
    PlayKeeps(Initial(env), run);
  }

  // Some run has feed checks one after the other at these times.
  ghost predicate Successive(env: Environment, first: int, second: int, thawed: bool) {
    exists run, i: nat :: Shows(env, run, i, first, second, thawed)
  }

  ghost predicate Shows(env: Environment, run: seq<(Action, int)>, i: nat, first: int, second: int, thawed: bool) {
    && Play(Initial(env), run).Some?
    && var checks := Play(Initial(env), run).value.checks;
       0 < i < |checks| && checks[i - 1].at == first && checks[i].at == second && checks[i].thawed == thawed
  }

  lemma {:induction false} PlayCons(u: Updater, a: Action, now: int, rest: seq<(Action, int)>)
    requires Enabled(u, a, now)
    ensures Play(u, [(a, now)] + rest) == Play(Next(u, a, now), rest)
  {
    assert ([(a, now)] + rest)[1..] == rest;
  }

  // A check, then the feed's answer, then another check.
  lemma {:induction false} TwoChecks(env: Environment, frozen: bool, first: int, second: int) returns (run: seq<(Action, int)>)
    requires Support(env) && first > 0 && second > 0 && (frozen || second - first >= MIN_CHECK_INTERVAL_MS)
    ensures Shows(env, run, 1, first, second, frozen)
  {
    var u0 := Initial(env);
    var u1 := Next(u0, CallCheck(false), first);
    var u2 := Next(u1, ResumeCheck(true), first);
    var u3 := if frozen then Next(u2, CheckingForUpdate, first) else u2;
    var answer := CheckAnswered(if frozen then Some(NoReleases) else None);
    var u4 := Next(u3, answer, first);
    var u5 := Next(u4, CallCheck(frozen), second);
    var u6 := Next(u5, ResumeCheck(true), second);
    var r6: seq<(Action, int)> := [];
    var r5 := [(ResumeCheck(true), second)] + r6;
    var r4 := [(CallCheck(frozen), second)] + r5;
    var r3 := [(answer, first)] + r4;
    var r2 := if frozen then [(CheckingForUpdate, first)] + r3 else r3;
    var r1 := [(ResumeCheck(true), first)] + r2;
    run := [(CallCheck(false), first)] + r1;
    PlayCons(u5, ResumeCheck(true), second, r6);
    PlayCons(u4, CallCheck(frozen), second, r5);
    PlayCons(u3, answer, first, r4);
    if frozen {
      PlayCons(u2, CheckingForUpdate, first, r3);
    }
    PlayCons(u1, ResumeCheck(true), first, r2);
    PlayCons(u0, CallCheck(false), first, r1);
    assert Play(u0, run) == Some(u6);
  }

  /**
   The exact spacing of feed checks over all runs: two can follow each other at these times exactly
   when they are the interval apart or a retry left the frozen phase in between.
   */
  lemma {:induction false} SpacingExactly(env: Environment, first: int, second: int, thawed: bool)
    ensures Successive(env, first, second, thawed)
            <==> Support(env) && first > 0 && second > 0 && (thawed || second - first >= MIN_CHECK_INTERVAL_MS)
  {
    if Successive(env, first, second, thawed) {
      var run, i: nat :| Shows(env, run, i, first, second, thawed);
      var checks := Play(Initial(env), run).value.checks;
      PlayKeeps(Initial(env), run);
      SupportedFixed(Initial(env), run);
      assert SpacedAt(checks, i) && checks[i - 1] in checks && checks[i] in checks;
    }
    if Support(env) && first > 0 && second > 0 && (thawed || second - first >= MIN_CHECK_INTERVAL_MS) {
      var run := TwoChecks(env, thawed, first, second);
    }
  }

  /** A feed without releases, then a retry by hand: two feed checks a millisecond apart. */
  lemma {:induction false} RetryIgnoresInterval()
    ensures Successive(Environment(true, false), 100, 101, true)
  {
    var run := TwoChecks(Environment(true, false), true, 100, 101);
  }

  /** The frozen phase is left only by a check called by hand, at that moment or since it froze. */
  lemma {:induction false} FrozenUntilAsked(env: Environment, run: seq<(Action, int)>, a: Action, now: int)
    requires Play(Initial(env), run).Some? && Enabled(Play(Initial(env), run).value, a, now)
    ensures
      var u := Play(Initial(env), run).value;
      u.current.phase.Unsupported? && !Next(u, a, now).current.phase.Unsupported? ==>
        Support(env) && a.CallCheck? && (a.userInitiated || u.asked)
  {
    PlayKeeps(Initial(env), run);
    SupportedFixed(Initial(env), run);
  }

  lemma {:induction false} InstallChecksNothing(u: Updater, a: Action, now: int)
    requires Enabled(u, a, now) && (a.ResumeInstall? || a.UpdaterError? || a.UpdateAvailable?)
    ensures Next(u, a, now).checks == u.checks
  {
  }

  lemma {:induction false} OnlyResumeChecks(u: Updater, a: Action, now: int)
    requires Enabled(u, a, now) && !a.ResumeCheck?
    ensures Next(u, a, now).checks == u.checks
  {
    if a.ResumeInstall? || a.UpdaterError? || a.UpdateAvailable? {
      InstallChecksNothing(u, a, now);
    }
  }

  /** The feed is asked exactly when a check resumes with an updater and the second look allows it. */
  lemma {:induction false} ChecksOnlyOnResume(u: Updater, a: Action, now: int)
    requires Enabled(u, a, now)
    ensures u.checks <= Next(u, a, now).checks
    ensures Next(u, a, now).checks != u.checks <==>
            a == ResumeCheck(true) && ShouldCheck(u.current, now, u.lastCheck, u.check.manual, u.supported)
  {
    if !a.ResumeCheck? {
      OnlyResumeChecks(u, a, now);
    }
  }

  // What a caller of check() can see before the call.
  predicate Starts(u: Updater, userInitiated: bool, now: int) {
    && u.check.NoCheck?
    && (if u.current.phase.Unsupported? then u.supported && (userInitiated || u.requested)
        else (u.current.phase.Idle? || u.current.phase.Failed?)
             && (u.checks == [] || u.thawed || now - u.checks[|u.checks| - 1].at >= MIN_CHECK_INTERVAL_MS))
  }

  lemma {:induction false} CallMeans(u: Updater, userInitiated: bool, now: int)
    requires Valid(u)
    ensures
      var v := CheckCalled(u, userInitiated, now);
      && Valid(v) && v.requested == (userInitiated || u.requested)
      && v.check == (if Starts(u, userInitiated, now) then CheckLoading(v.requested, now) else u.check)
      && (v.current != u.current || v.lastCheck != u.lastCheck ==>
            u.current.phase.Unsupported? && v.current.phase.Idle? && v.lastCheck == 0 && v.thawed && v.requested)
  {
    CallKeeps(u, userInitiated, now);
  }

  predicate HandsOver(u: Updater, updater: bool) {
    updater && !u.installStarted && u.current.phase.Ready?
  }

  lemma {:induction false} InstallMeans(u: Updater, updater: bool, refused: Option<Failure>, now: int)
    requires Valid(u) && u.installs > 0
    ensures
      var v := InstallResumed(u, updater, refused, now);
      && Valid(v) && v.begun == u.begun + (if HandsOver(u, updater) then 1 else 0)
      && v.installStarted == (u.installStarted || (HandsOver(u, updater) && refused.None?))
      && v.current == u.current.(message := v.current.message)
  {
    InstallKeeps(u, updater, refused, now);
  }

  // ---------------------------------------------------------------- the controller in place

  class DesktopUpdateController {
    const supported: bool
    var current: UpdateState
    var lastCheck: int
    var check: CheckCall
    var download: DownloadCall
    var checkWasRequested: bool
    var installs: nat
    var installStarted: bool
    ghost var checks: seq<FeedCheck>
    ghost var thawed: bool
    ghost var asked: bool
    ghost var begun: nat
    ghost var failed: nat

    ghost function State(): Updater
      reads this
    {
      Updater(supported, current, lastCheck, check, download, checkWasRequested, installs, installStarted,
              checks, thawed, asked, begun, failed)
    }

    constructor (env: Environment)
      ensures State() == Initial(env)
    {
      supported := Support(env);
      current, lastCheck, check, download := InitialState(env), 0, NoCheck, NoDownload;
      checkWasRequested, installs, installStarted := false, 0, false;
      checks, thawed, asked, begun, failed := [], false, false, 0, 0;
    }

    method Push(e: Event, now: int)
      modifies this`current, this`checkWasRequested, this`asked
      ensures State() == Pushed(old(State()), e, now)
    {
      asked := asked && (current.phase.Unsupported? || !Reduce(current, e, now).phase.Unsupported?);
      current := Reduce(current, e, now);
      if e.NotAvailable? || e.Downloaded? || e.Broken? {
        checkWasRequested := false;
      }
    }

    /**
     check(), and runCheck() up to its first await. A call joins a check in flight; otherwise it
     starts one exactly when the first look allows it. Only leaving the frozen phase touches the
     state and forgets the last check.
     */
    method Check(userInitiated: bool, now: int)
      requires Valid(State()) && now > 0
      modifies this`current, this`lastCheck, this`check, this`checkWasRequested, this`thawed, this`asked
      ensures Valid(State()) && State() == Next(old(State()), CallCheck(userInitiated), now)
      ensures checkWasRequested == (userInitiated || old(checkWasRequested))
      ensures check == if Starts(old(State()), userInitiated, now) then CheckLoading(checkWasRequested, now) else old(check)
      ensures current != old(current) || lastCheck != old(lastCheck) ==>
        old(current).phase.Unsupported? && current.phase.Idle? && lastCheck == 0 && thawed && checkWasRequested
    {
      CallMeans(State(), userInitiated, now);
      if userInitiated {
        checkWasRequested := true;
        asked := true;
      }
      if check.NoCheck? {
        RunCheck(now);
      }
    }

    method RunCheck(now: int)
      modifies this`current, this`lastCheck, this`check, this`thawed
      ensures State() == RunStarted(old(State()), now)
    {
      if !ShouldCheck(current, now, lastCheck, checkWasRequested, supported) {
        return;
      }
      if current.phase.Unsupported? && supported {
        current := current.(phase := Idle, availableVersion := None, percent := None, message := None);
        lastCheck := 0;
        thawed := true;
      }
      check := CheckLoading(checkWasRequested, now);
    }

    // runCheck() once the updater is there; true when the feed is asked.
    method ResumeRunCheck(updater: bool, now: int) returns (feed: bool)
      requires Valid(State()) && Enabled(State(), ResumeCheck(updater), now)
      modifies this
      ensures State() == Next(old(State()), ResumeCheck(updater), now)
      ensures feed <==> checks != old(checks)
    {
      if !updater || !ShouldCheck(current, now, lastCheck, check.manual, supported) {
        check := NoCheck;
        return false;
      }
      checks := checks + [FeedCheck(now, current.phase, thawed)];
      thawed := false;
      lastCheck := now;
      check := CheckAsking;
      return true;
    }

    method FinishCheck(fault: Option<Failure>, now: int)
      requires Enabled(State(), CheckAnswered(fault), now)
      modifies this
      ensures State() == Next(old(State()), CheckAnswered(fault), now)
    {
      if fault.Some? && (current.phase.Idle? || current.phase.Checking?) {
        Push(Broken(fault.value, checkWasRequested, false), now);
      }
      check := NoCheck;
    }

    // download(), and runDownload() up to its first await.
    method Download()
      modifies this`download
      ensures State() == DownloadCalled(old(State()))
    {
      if !download.NoDownload? {
        return;
      }
      if !current.phase.Available? {
        return;
      }
      download := DownloadLoading;
    }

    method ResumeRunDownload(updater: bool, now: int) returns (started: bool)
      requires Enabled(State(), ResumeDownload(updater), now)
      modifies this
      ensures State() == Next(old(State()), ResumeDownload(updater), now)
      ensures started <==> download.DownloadRunning?
    {
      if !updater || !current.phase.Available? {
        download := NoDownload;
        return false;
      }
      Push(DownloadStart, now);
      download := DownloadRunning;
      return true;
    }

    method FinishDownload(fault: Option<Failure>, now: int)
      requires Enabled(State(), DownloadAnswered(fault), now)
      modifies this
      ensures State() == Next(old(State()), DownloadAnswered(fault), now)
    {
      if fault.Some? && current.phase.Downloading? {
        Push(Broken(fault.value, checkWasRequested, false), now);
      }
      download := NoDownload;
    }

    // The listener of the feed's offers.
    method OnUpdateAvailable(version: Option<string>, now: int)
      modifies this
      ensures State() == Offered(old(State()), version, now)
    {
      if version.None? {
        Push(Broken(Other, checkWasRequested, false), now);
        return;
      }
      Push(Offer(version.value), now);
      Download();
    }

    method OnUpdateDownloaded(version: Option<string>, now: int)
      modifies this
      ensures State() == Verified(old(State()), version, now)
    {
      if version.Some? {
        Push(Downloaded(version.value), now);
      } else {
        Push(Broken(Other, checkWasRequested, false), now);
      }
    }

    method Fail(error: Failure, now: int)
      modifies this`current, this`checkWasRequested, this`asked, this`installStarted, this`failed
      ensures State() == Failing(old(State()), error, now)
    {
      var installFailed := installStarted;
      if installFailed {
        installStarted := false;
        failed := failed + 1;
      }
      Push(Broken(error, checkWasRequested || installFailed, installFailed), now);
    }

    // install() up to its await.
    method Install()
      modifies this`installs
      ensures State() == InstallCalled(old(State()))
    {
      if installStarted || !current.phase.Ready? {
        return;
      }
      installs := installs + 1;
    }

    /**
     install() once the updater is there; `refused` is what quitAndInstall throws. It hands over to
     the installer exactly in the ready phase with no install begun, stays ready whatever happens,
     and a refusal leaves the download installable again.
     */
    method ResumeInstallation(updater: bool, refused: Option<Failure>, now: int)
      requires Valid(State()) && Enabled(State(), ResumeInstall(updater, refused), now)
      modifies this`installs, this`installStarted, this`current, this`checkWasRequested, this`asked, this`begun, this`failed
      ensures Valid(State()) && State() == Next(old(State()), ResumeInstall(updater, refused), now)
      ensures begun == old(begun) + if HandsOver(old(State()), updater) then 1 else 0
      ensures installStarted == (old(installStarted) || (HandsOver(old(State()), updater) && refused.None?))
      ensures current == old(current).(message := current.message)
    {
      InstallMeans(State(), updater, refused, now);
      if !updater || installStarted || !current.phase.Ready? {
        installs := installs - 1;
        return;
      }
      HandOver();
      if refused.Some? {
        Fail(refused.value, now);
      }
    }

    method HandOver()
      requires installs > 0
      modifies this`installs, this`installStarted, this`current, this`begun
      ensures State() == Handed(old(State()))
    {
      installs := installs - 1;
      installStarted := true;
      begun := begun + 1;
      current := current.(message := None);
    }
  }
}
