/** The desktop updater: a reducer for what the renderer sees, and a controller whose checks,
    downloads and installs suspend while the updater loads and interleave with its events. */
module AutoUpdate {
  import opened Wrappers

  const MIN_CHECK_INTERVAL_MS: nat := 60_000

  datatype Phase = Unsupported | Idle | Checking | Available | Downloading | Ready | Failed

  /** The state without its display texts. */
  datatype UpdateState = UpdateState(phase: Phase, version: Option<string>, percent: Option<int>)

  datatype FailureKind = NoReleases | Offline | Signature | OtherFailure

  datatype UpdaterEvent =
    | CheckStart
    | UpdateFound(found: string)
    | NotAvailable
    | DownloadStart
    | Progress(progress: int)
    | Downloaded(downloaded: string)
    | Failure(kind: FailureKind, installFailed: bool)

  function Clamp(p: int): int { if p < 0 then 0 else if p > 100 then 100 else p }

  /** `reduceUpdateState`. */
  function Reduce(s: UpdateState, e: UpdaterEvent): UpdateState {
    if s.phase == Unsupported then s
    else
      match e
      case CheckStart =>
        if s.phase in {Available, Downloading, Ready} then s else s.(phase := Checking, percent := None)
      case UpdateFound(v) =>
        if s.phase in {Downloading, Ready} then s else UpdateState(Available, Some(v), None)
      case NotAvailable =>
        if s.phase in {Downloading, Ready} then s else UpdateState(Idle, None, None)
      case DownloadStart =>
        if s.phase == Ready then s else s.(phase := Downloading, percent := Some(0))
      case Progress(p) =>
        if s.phase in {Available, Downloading} then s.(phase := Downloading, percent := Some(Clamp(p))) else s
      case Downloaded(v) => UpdateState(Ready, Some(v), Some(100))
      case Failure(kind, installFailed) =>
        if s.phase == Ready && !installFailed then s
        else if kind == NoReleases && s.phase == Checking then UpdateState(Unsupported, None, None)
        else if kind == Offline && !installFailed then s.(phase := Idle, percent := None)
        else s.(phase := Failed, percent := None)
  }

  /** `shouldCheck`. */
  predicate ShouldCheck(s: UpdateState, now: nat, lastCheck: nat, manual: bool, supported: bool) {
    if s.phase == Unsupported then manual && supported
    else s.phase in {Idle, Failed} && (now >= lastCheck + MIN_CHECK_INTERVAL_MS || lastCheck == 0)
  }

  /** The suspension points of `runCheck` (with the options it captured) and of `runDownload`. */
  datatype CheckPc = NoCheck | CheckLoading(manual: bool) | CheckFeed
  datatype DownloadPc = NoDownload | DownloadLoading | DownloadRunning

  /** History: a feed check, a feed found empty, a call of `check` by the user, a retry that cleared
      the freeze, and a call of `quitAndInstall` with its outcome. */
  datatype Entry = FeedCheck(at: nat) | EmptyFeed | Asked | Retry | Install(threw: bool)

  datatype Controller = Controller(
    supported: bool,
    clock: nat,
    current: UpdateState,
    lastCheck: nat,
    check: CheckPc,
    download: DownloadPc,
    installs: nat,               // suspended install() calls
    checkWasRequested: bool,
    installStarted: bool,
    log: seq<Entry>)

  /** What can happen next. `loaded`: whether the updater could be loaded. */
  datatype Event =
    | Tick(ms: nat)
    | Updater(e: UpdaterEvent)                 // an event of the updater itself
    | CheckCall(userInitiated: bool)
    | CheckResume(loaded: bool)
    | CheckSettles(failure: Option<FailureKind>)
    | DownloadCall
    | DownloadResume(loaded: bool)
    | DownloadSettles(failure: Option<FailureKind>)
    | InstallCall
    | InstallResume(loaded: bool, failure: Option<FailureKind>)

  /** The updater never reports a failed install or a started download itself. */
  predicate FromUpdater(e: UpdaterEvent) { !e.DownloadStart? && !(e.Failure? && e.installFailed) }

  predicate Enabled(c: Controller, e: Event) {
    match e
    case Updater(u) => FromUpdater(u)
    case CheckResume(loaded) => c.check.CheckLoading? && (loaded ==> c.supported)
    case CheckSettles(_) => c.check == CheckFeed
    case DownloadResume(loaded) => c.download == DownloadLoading && (loaded ==> c.supported)
    case DownloadSettles(_) => c.download == DownloadRunning
    case InstallResume(loaded, _) => c.installs > 0 && (loaded ==> c.supported)
    case _ => true
  }

  /** `push`. */
  function Push(c: Controller, e: UpdaterEvent): Controller {
    var next := Reduce(c.current, e);
    c.(current := next,
       checkWasRequested := c.checkWasRequested && !(e.NotAvailable? || e.Downloaded? || e.Failure?),
       log := if next.phase == Unsupported && c.current.phase != Unsupported then c.log + [EmptyFeed] else c.log)
  }

  function CallDownload(c: Controller): Controller {
    if c.download != NoDownload || c.current.phase != Available then c else c.(download := DownloadLoading)
  }

  function CallCheck(c: Controller, userInitiated: bool): Controller {
    var asked := if userInitiated then c.(checkWasRequested := true, log := c.log + [Asked]) else c;
    if c.check != NoCheck || !ShouldCheck(asked.current, c.clock, c.lastCheck, asked.checkWasRequested, c.supported)
    then asked
    else
      var cleared := if asked.current.phase == Unsupported && c.supported
                     then asked.(current := UpdateState(Idle, None, None), lastCheck := 0, log := asked.log + [Retry])
                     else asked;
      cleared.(check := CheckLoading(asked.checkWasRequested))
  }

  function ResumeCheck(c: Controller, loaded: bool): Controller
    requires c.check.CheckLoading?
  {
    if !loaded || !ShouldCheck(c.current, c.clock, c.lastCheck, c.check.manual, c.supported) then c.(check := NoCheck)
    else c.(lastCheck := c.clock, check := CheckFeed, log := c.log + [FeedCheck(c.clock)])
  }

  function Next(c: Controller, e: Event): Controller
    requires Enabled(c, e)
  {
    match e
    case Tick(ms) => c.(clock := c.clock + ms)
    case Updater(u) => if u.UpdateFound? then CallDownload(Push(c, u)) else Push(c, u)
    case CheckCall(userInitiated) => CallCheck(c, userInitiated)
    case CheckResume(loaded) => ResumeCheck(c, loaded)
    case CheckSettles(failure) =>
      var ended := c.(check := NoCheck);
      if failure.Some? && c.current.phase in {Idle, Checking} then Push(ended, Failure(failure.value, false)) else ended
    case DownloadCall => CallDownload(c)
    case DownloadResume(loaded) =>
      if !loaded || c.current.phase != Available then c.(download := NoDownload)
      else Push(c, DownloadStart).(download := DownloadRunning)
    case DownloadSettles(failure) =>
      var ended := c.(download := NoDownload);
      if failure.Some? && c.current.phase == Downloading then Push(ended, Failure(failure.value, false)) else ended
    case InstallCall =>
      if c.installStarted || c.current.phase != Ready then c else c.(installs := c.installs + 1)
    case InstallResume(loaded, failure) =>
      var resumed := c.(installs := c.installs - 1);
      if !loaded || c.installStarted || c.current.phase != Ready then resumed
      else if failure.None? then resumed.(installStarted := true, log := c.log + [Install(false)])
      else Push(resumed.(log := c.log + [Install(true)]), Failure(failure.value, true))
  }

  predicate Legal(c: Controller, es: seq<Event>)
    decreases |es|
  {
    es == [] || (Enabled(c, es[0]) && Legal(Next(c, es[0]), es[1..]))
  }

  function After(c: Controller, es: seq<Event>): Controller
    requires Legal(c, es)
    decreases |es|
  {
    if es == [] then c else After(Next(c, es[0]), es[1..])
  }

  /** `initialUpdateState`; the clock never reads zero. */
  function Start(supported: bool, now: nat): Controller {
    Controller(supported, now, UpdateState(if supported then Idle else Unsupported, None, None), 0, NoCheck, NoDownload,
               0, false, false, [])
  }

  // ----- the controller class -----

  class DesktopUpdateController {
    const supported: bool
    var clock: nat
    var current: UpdateState
    var lastCheck: nat
    var checkPromise: CheckPc
    var downloadPromise: DownloadPc
    var installs: nat
    var checkWasRequested: bool
    var installStarted: bool
    ghost var log: seq<Entry>

    ghost function Value(): Controller
      reads this
    {
      Controller(supported, clock, current, lastCheck, checkPromise, downloadPromise, installs, checkWasRequested,
                 installStarted, log)
    }

    constructor (supported: bool, now: nat)
      ensures Value() == Start(supported, now)
    {
      this.supported, clock := supported, now;
      current := UpdateState(if supported then Idle else Unsupported, None, None);
      lastCheck, checkPromise, downloadPromise, installs := 0, NoCheck, NoDownload, 0;
      checkWasRequested, installStarted, log := false, false, [];
    }

    method PushEvent(e: UpdaterEvent)
      modifies this`current, this`checkWasRequested, this`log
      ensures Value() == Push(old(Value()), e)
    {
      ghost var before := current.phase;
      current := Reduce(current, e);
      if e.NotAvailable? || e.Downloaded? || e.Failure? { checkWasRequested := false; }
      if current.phase == Unsupported && before != Unsupported { log := log + [EmptyFeed]; }
    }

    method Download()
      modifies this`downloadPromise
      ensures Value() == Next(old(Value()), DownloadCall)
    {
      if downloadPromise != NoDownload { return; }
      if current.phase != Available { return; }
      downloadPromise := DownloadLoading;
    }

    /** The listener of `update-available`. */
    method OnUpdateAvailable(version: string)
      modifies this`current, this`checkWasRequested, this`log, this`downloadPromise
      ensures Value() == Next(old(Value()), Updater(UpdateFound(version)))
    {
      PushEvent(UpdateFound(version));
      Download();
    }

    /** `check` and `runCheck` up to the first await. */
    method Check(userInitiated: bool)
      modifies this
      ensures Value() == Next(old(Value()), CheckCall(userInitiated))
    {
      if userInitiated {
        checkWasRequested := true;
        log := log + [Asked];
      }
      if checkPromise != NoCheck { return; }
      var manual := checkWasRequested;
      if !ShouldCheck(current, clock, lastCheck, manual, supported) { return; }
      if current.phase == Unsupported && supported {
        current := UpdateState(Idle, None, None);
        lastCheck := 0;
        log := log + [Retry];
      }
      checkPromise := CheckLoading(manual);
    }

    /** `runCheck` from the loaded updater to the call of `checkForUpdates`. */
    method CheckLoaded(loaded: bool)
      requires checkPromise.CheckLoading? && (loaded ==> supported)
      modifies this`checkPromise, this`lastCheck, this`log
      ensures Value() == Next(old(Value()), CheckResume(loaded))
    {
      if !loaded || !ShouldCheck(current, clock, lastCheck, checkPromise.manual, supported) {
        checkPromise := NoCheck;
        return;
      }
      lastCheck := clock;
      checkPromise := CheckFeed;
      log := log + [FeedCheck(clock)];
    }

    method DownloadLoaded(loaded: bool)
      requires downloadPromise == DownloadLoading && (loaded ==> supported)
      modifies this
      ensures Value() == Next(old(Value()), DownloadResume(loaded))
    {
      if !loaded || current.phase != Available {
        downloadPromise := NoDownload;
        return;
      }
      PushEvent(DownloadStart);
      downloadPromise := DownloadRunning;
    }

    /** `install` from the loaded updater on; `failure`: what `quitAndInstall` throws. */
    method InstallLoaded(loaded: bool, failure: Option<FailureKind>)
      requires installs > 0 && (loaded ==> supported)
      modifies this
      ensures Value() == Next(old(Value()), InstallResume(loaded, failure))
    {
      installs := installs - 1;
      if !loaded || installStarted || current.phase != Ready { return; }
      if failure.None? {
        installStarted := true;
        log := log + [Install(false)];
      } else {
        log := log + [Install(true)];
        PushEvent(Failure(failure.value, true));
      }
    }
  }

  // ----- invariants over every interleaving -----

  ghost predicate StateInv(s: UpdateState) {
    && (s.percent.Some? <==> s.phase in {Downloading, Ready})
    && (s.percent.Some? ==> 0 <= s.percent.value <= 100)
    && (s.phase in {Available, Downloading, Ready} ==> s.version.Some?)
  }

  /** The time of the last feed check, if no manual retry has followed it. */
  function LastFeedCheck(log: seq<Entry>): Option<nat> {
    if log == [] then None
    else
      var last := log[|log| - 1];
      if last.FeedCheck? then Some(last.at) else if last.Retry? then None else LastFeedCheck(log[..|log| - 1])
  }

  /** The feed was found empty and nobody has retried since. */
  predicate Frozen(log: seq<Entry>) {
    log != [] && (log[|log| - 1].EmptyFeed? || (!log[|log| - 1].Retry? && Frozen(log[..|log| - 1])))
  }

  /** The user has asked for a check since the feed was last found empty. */
  predicate AskedSince(log: seq<Entry>) {
    log != [] && (log[|log| - 1].Asked? || (!log[|log| - 1].EmptyFeed? && AskedSince(log[..|log| - 1])))
  }

  function Installed(log: seq<Entry>): bool {
    log != [] && (log[|log| - 1] == Install(false) || Installed(log[..|log| - 1]))
  }

  /** Feed checks are spaced, a retry answers an empty feed on the user's word, nothing is installed
      after an install. */
  ghost predicate LogInv(log: seq<Entry>) {
    log != [] ==>
      var before, last := log[..|log| - 1], log[|log| - 1];
      && LogInv(before)
      && (last.FeedCheck? ==>
            0 < last.at
            && (LastFeedCheck(before).Some? ==> last.at >= LastFeedCheck(before).value + MIN_CHECK_INTERVAL_MS))
      && (last.Retry? ==> Frozen(before) && AskedSince(before))
      && (last.Install? ==> !Installed(before))
  }

  ghost predicate Inv(c: Controller) {
    && 0 < c.clock
    && StateInv(c.current) && LogInv(c.log)
    && c.lastCheck == (if LastFeedCheck(c.log).Some? then LastFeedCheck(c.log).value else 0)
    && (LastFeedCheck(c.log).Some? ==> 0 < c.lastCheck <= c.clock)
    && (c.check.CheckLoading? ==> c.lastCheck == 0 || c.clock >= c.lastCheck + MIN_CHECK_INTERVAL_MS)
    && (c.supported ==> (c.current.phase == Unsupported <==> Frozen(c.log)))
    && (!c.supported ==> c.current.phase == Unsupported)
    && (c.checkWasRequested && Frozen(c.log) ==> AskedSince(c.log))
    && (c.installStarted <==> Installed(c.log))
  }

  lemma ReduceKeeps(s: UpdateState, e: UpdaterEvent)
    requires StateInv(s) && (e.DownloadStart? ==> s.phase == Available)
    ensures StateInv(Reduce(s, e))
    ensures s.phase == Unsupported ==> Reduce(s, e) == s
  {}

  lemma PushKeeps(c: Controller, e: UpdaterEvent)
    requires Inv(c) && (e.DownloadStart? ==> c.current.phase == Available)
    ensures Inv(Push(c, e))
  {
    ReduceKeeps(c.current, e);
    var next := Push(c, e);
    assert next.log != c.log ==> next.log[..|next.log| - 1] == c.log;
  }

  lemma LogGrows(log: seq<Entry>, e: Entry)
    ensures (log + [e])[..|log + [e]| - 1] == log
  {}

  lemma AskingKeeps(c: Controller)
    requires Inv(c)
    ensures Inv(c.(checkWasRequested := true, log := c.log + [Asked]))
  {
    LogGrows(c.log, Asked);
  }

  /** Where a call goes once it is known who asked. */
  lemma CheckCallKeeps(c: Controller, userInitiated: bool)
    requires Inv(c)
    ensures Inv(CallCheck(c, userInitiated))
  {
    var asked := if userInitiated then c.(checkWasRequested := true, log := c.log + [Asked]) else c;
    if userInitiated { AskingKeeps(c); }
    if asked.supported && asked.current.phase == Unsupported && asked.checkWasRequested { RetryKeeps(asked); }
  }

  lemma RetryKeeps(c: Controller)
    requires Inv(c) && c.supported && c.current.phase == Unsupported && c.checkWasRequested
    ensures Inv(c.(current := UpdateState(Idle, None, None), lastCheck := 0, log := c.log + [Retry]))
  {
    LogGrows(c.log, Retry);
  }

  lemma CheckResumeKeeps(c: Controller, loaded: bool)
    requires Inv(c) && Enabled(c, CheckResume(loaded))
    ensures Inv(ResumeCheck(c, loaded))
  {
    LogGrows(c.log, FeedCheck(c.clock));
  }

  lemma InstallLogged(c: Controller, threw: bool)
    requires Inv(c) && !c.installStarted && c.current.phase == Ready && c.installs > 0
    ensures Inv(c.(installs := c.installs - 1, log := c.log + [Install(threw)], installStarted := !threw))
  {
    LogGrows(c.log, Install(threw));
  }

  lemma InstallKeeps(c: Controller, e: Event)
    requires Inv(c) && Enabled(c, e) && e.InstallResume?
    ensures Inv(Next(c, e))
  {
    if e.loaded && !c.installStarted && c.current.phase == Ready {
      InstallLogged(c, e.failure.Some?);
      if e.failure.Some? {
        PushKeeps(c.(installs := c.installs - 1, log := c.log + [Install(true)], installStarted := false),
                  Failure(e.failure.value, true));
      }
    }
  }

  lemma NextKeeps(c: Controller, e: Event)
    requires Inv(c) && Enabled(c, e)
    ensures Inv(Next(c, e))
  {
    match e
    case Updater(u) => PushKeeps(c, u);
    case CheckCall(userInitiated) => CheckCallKeeps(c, userInitiated);
    case CheckResume(loaded) => CheckResumeKeeps(c, loaded);
    case InstallResume(_, _) => InstallKeeps(c, e);
    case CheckSettles(_) => SettlingKeeps(c, e);
    case DownloadResume(_) => DownloadKeeps(c, e);
    case DownloadSettles(_) => SettlingKeeps(c, e);
    case _ => QuietKeeps(c, e);
  }

  lemma QuietKeeps(c: Controller, e: Event)
    requires Inv(c) && (e.Tick? || e.DownloadCall? || e.InstallCall?)
    ensures Inv(Next(c, e))
  {}

  lemma SettlingKeeps(c: Controller, e: Event)
    requires Inv(c) && Enabled(c, e) && (e.CheckSettles? || e.DownloadSettles?)
    ensures Inv(Next(c, e))
  {
    var ended := if e.CheckSettles? then c.(check := NoCheck) else c.(download := NoDownload);
    if e.failure.Some? { PushKeeps(ended, Failure(e.failure.value, false)); }
  }

  lemma DownloadKeeps(c: Controller, e: Event)
    requires Inv(c) && Enabled(c, e) && e.DownloadResume?
    ensures Inv(Next(c, e))
  {
    if c.current.phase == Available { PushKeeps(c, DownloadStart); }
  }

  lemma {:induction false} RunKeeps(c: Controller, es: seq<Event>)
    requires Inv(c) && Legal(c, es)
    ensures Inv(After(c, es))
    decreases |es|
  {
    if es != [] {
      NextKeeps(c, es[0]);
      RunKeeps(Next(c, es[0]), es[1..]);
    }
  }

  // ----- theorems -----

  /** Whatever the interleaving: a percentage is shown exactly while downloading or ready, and an
      offer always names its version. */
  lemma ShownStateIsConsistent(supported: bool, now: nat, es: seq<Event>)
    requires 0 < now && Legal(Start(supported, now), es)
    ensures var s := After(Start(supported, now), es).current;
            && (s.percent.Some? <==> s.phase in {Downloading, Ready})
            && (s.percent.Some? ==> 0 <= s.percent.value <= 100)
            && (s.phase in {Available, Downloading, Ready} ==> s.version.Some?)
  {
    RunKeeps(Start(supported, now), es);
  }

  /** One step leaves ready exactly when `quitAndInstall` throws. */
  lemma ReadyStep(c: Controller, e: Event)
    requires Enabled(c, e) && c.current.phase == Ready
    ensures c.log <= Next(c, e).log
    ensures Next(c, e).current.phase != Ready <==>
              e.InstallResume? && e.loaded && e.failure.Some? && !c.installStarted
    ensures Next(c, e).current.phase != Ready ==> Next(c, e).log == c.log + [Install(true)]
  {}

  lemma {:induction false} LogOnlyGrows(c: Controller, es: seq<Event>)
    requires Legal(c, es)
    ensures c.log <= After(c, es).log
    decreases |es|
  {
    if es != [] { LogOnlyGrows(Next(c, es[0]), es[1..]); }
  }

  /** Over any continuation, a verified download is given up only if installing it failed. */
  lemma {:induction false} ReadyIsLeftOnlyByFailedInstall(c: Controller, es: seq<Event>)
    requires Legal(c, es) && c.current.phase == Ready
    ensures c.log <= After(c, es).log
    ensures After(c, es).current.phase == Ready || Install(true) in After(c, es).log[|c.log|..]
    decreases |es|
  {
    if es != [] {
      var next := Next(c, es[0]);
      ReadyStep(c, es[0]);
      LogOnlyGrows(next, es[1..]);
      if next.current.phase == Ready {
        ReadyIsLeftOnlyByFailedInstall(next, es[1..]);
      } else {
        assert After(c, es).log[|c.log|] == Install(true);
      }
    }
  }

  predicate RetryBetween(log: seq<Entry>, p: int, q: int)
    requires 0 <= p <= q <= |log|
  {
    exists r :: p < r < q && log[r] == Retry
  }

  lemma {:induction false} PrefixOk(log: seq<Entry>, q: nat)
    requires LogInv(log) && q <= |log|
    ensures LogInv(log[..q])
    decreases |log| - q
  {
    if q < |log| {
      PrefixOk(log, q + 1);
      assert log[..q + 1][..q] == log[..q];
    } else {
      assert log[..q] == log;
    }
  }

  lemma {:induction false} LatestCheckIsNoEarlier(log: seq<Entry>, p: nat, q: nat)
    requires LogInv(log) && p < q <= |log| && log[p].FeedCheck? && !RetryBetween(log, p, q)
    ensures LastFeedCheck(log[..q]).Some? && LastFeedCheck(log[..q]).value >= log[p].at
    decreases q
  {
    assert log[..q][..q - 1] == log[..q - 1];
    if p < q - 1 {
      LatestCheckIsNoEarlier(log, p, q - 1);
      PrefixOk(log, q);
    }
  }

  /** The retry at `r` is the user's: after the feed was last found empty, at `e`, the user called
      `check`, at `a`, and nobody had retried since. */
  ghost predicate ManualRetry(log: seq<Entry>, r: nat, e: nat, a: nat)
    requires r < |log|
  {
    && e < a < r && log[r] == Retry && log[e] == EmptyFeed && log[a] == Asked
    && forall k :: e < k < r ==> log[k] != EmptyFeed && log[k] != Retry
  }

  /** What a frozen log on which the user has asked looks like. */
  lemma {:induction false} AskedAfterEmptyFeed(log: seq<Entry>) returns (e: nat, a: nat)
    requires Frozen(log) && AskedSince(log)
    ensures e < a < |log| && log[e] == EmptyFeed && log[a] == Asked
    ensures forall k :: e < k < |log| ==> log[k] != EmptyFeed && log[k] != Retry
    decreases |log|
  {
    var before := log[..|log| - 1];
    if log[|log| - 1].Asked? {
      e := LastEmptyFeed(before);
      a := |log| - 1;
    } else {
      e, a := AskedAfterEmptyFeed(before);
    }
  }

  lemma {:induction false} LastEmptyFeed(log: seq<Entry>) returns (e: nat)
    requires Frozen(log)
    ensures e < |log| && log[e] == EmptyFeed && forall k :: e < k < |log| ==> log[k] != EmptyFeed && log[k] != Retry
    decreases |log|
  {
    e := |log| - 1;
    if !log[e].EmptyFeed? { e := LastEmptyFeed(log[..e]); }
  }

  lemma RetryIsManual(log: seq<Entry>, r: nat) returns (e: nat, a: nat)
    requires LogInv(log) && r < |log| && log[r] == Retry
    ensures ManualRetry(log, r, e, a)
  {
    PrefixOk(log, r + 1);
    assert log[..r + 1][..r] == log[..r];
    e, a := AskedAfterEmptyFeed(log[..r]);
    assert forall k :: 0 <= k < r ==> log[..r][k] == log[k];
  }

  /** Two feed checks less than a minute apart are separated by a retry of the user's. */
  lemma CloseChecksNeedARetry(supported: bool, now: nat, es: seq<Event>, p: nat, q: nat)
    returns (r: nat, e: nat, a: nat)
    requires 0 < now && Legal(Start(supported, now), es)
    requires var log := After(Start(supported, now), es).log;
             && p < q < |log| && log[p].FeedCheck? && log[q].FeedCheck?
             && log[q].at < log[p].at + MIN_CHECK_INTERVAL_MS
    ensures p < r < q && ManualRetry(After(Start(supported, now), es).log, r, e, a)
  {
    var log := After(Start(supported, now), es).log;
    RunKeeps(Start(supported, now), es);
    PrefixOk(log, q + 1);
    assert log[..q + 1][..q] == log[..q];
    if !RetryBetween(log, p, q) { LatestCheckIsNoEarlier(log, p, q); }
    r :| p < r < q && log[r] == Retry;
    e, a := RetryIsManual(log, r);
  }

  /** Every retry is the user's. */
  lemma RetriesAnswerAnEmptyFeed(supported: bool, now: nat, es: seq<Event>, r: nat) returns (e: nat, a: nat)
    requires 0 < now && Legal(Start(supported, now), es)
    requires r < |After(Start(supported, now), es).log| && After(Start(supported, now), es).log[r] == Retry
    ensures ManualRetry(After(Start(supported, now), es).log, r, e, a)
  {
    RunKeeps(Start(supported, now), es);
    e, a := RetryIsManual(After(Start(supported, now), es).log, r);
  }

  /** `Asked` means what it says: exactly the user's calls of `check` log it. */
  lemma OnlyTheUserAsks(c: Controller, e: Event)
    requires Enabled(c, e)
    ensures |Next(c, e).log| > |c.log| && Next(c, e).log[|c.log|] == Asked <==> e == CheckCall(true)
  {}

  /** `quitAndInstall` is never called again once a call of it has returned. */
  lemma InstallsAtMostOnce(supported: bool, now: nat, es: seq<Event>, p: nat, q: nat)
    requires 0 < now && Legal(Start(supported, now), es)
    requires var log := After(Start(supported, now), es).log;
             p < q < |log| && log[p].Install? && log[q].Install?
    ensures After(Start(supported, now), es).log[p].threw
  {
    var log := After(Start(supported, now), es).log;
    RunKeeps(Start(supported, now), es);
    PrefixOk(log, q + 1);
    assert log[..q + 1][..q] == log[..q];
    if !log[p].threw { InstalledStays(log, p, q); }
  }

  lemma {:induction false} InstalledStays(log: seq<Entry>, p: nat, q: nat)
    requires p < q <= |log| && log[p] == Install(false)
    ensures Installed(log[..q])
    decreases q
  {
    assert log[..q][..q - 1] == log[..q - 1];
    if p < q - 1 { InstalledStays(log, p, q - 1); }
  }

  // ----- what a call does -----

  /** A check, called when none is running and carried on with a loaded updater, asks the feed if and
      only if: the updater is idle or failed and the interval is over; or the feed was found empty, this
      installation supports updates, and the user asks or has asked. */
  lemma WhichChecksAskTheFeed(c: Controller, userInitiated: bool)
    requires Inv(c) && c.check == NoCheck && c.supported
    ensures var called := Next(c, CheckCall(userInitiated));
            var asks := || (c.current.phase in {Idle, Failed}
                            && (c.lastCheck == 0 || c.clock >= c.lastCheck + MIN_CHECK_INTERVAL_MS))
                        || (c.current.phase == Unsupported && (userInitiated || c.checkWasRequested));
            && (called.check.CheckLoading? <==> asks)
            && (asks ==> var asked := Next(called, CheckResume(true));
                         asked.check == CheckFeed && asked.log == called.log + [FeedCheck(c.clock)])
  {}

  /** The whole way of an update, from any state that does not hold an offer already: found, it is
      offered and its download starts by itself; progress is shown within 0 to 100; downloaded, it is
      ready; and one install call starts the installer. */
  lemma AnUpdateGoesThrough(c: Controller, v: string, p: int, w: string)
    requires Inv(c) && c.supported && c.current.phase in {Idle, Checking, Available, Failed}
    requires c.download == NoDownload && c.installs == 0 && !c.installStarted
    ensures var found := Next(c, Updater(UpdateFound(v)));
            && found.current == UpdateState(Available, Some(v), None) && found.download == DownloadLoading
            && var started := Next(found, DownloadResume(true));
            && started.current == UpdateState(Downloading, Some(v), Some(0)) && started.download == DownloadRunning
            && var going := Next(started, Updater(Progress(p)));
            && going.current.phase == Downloading && going.current.version == Some(v)
            && (0 <= p <= 100 ==> going.current.percent == Some(p))
            && (p < 0 ==> going.current.percent == Some(0)) && (p > 100 ==> going.current.percent == Some(100))
            && var done := Next(going, Updater(Downloaded(w)));
            && done.current == UpdateState(Ready, Some(w), Some(100))
            && var called := Next(done, InstallCall);
            && called.installs == 1
            && var installed := Next(called, InstallResume(true, None));
            && installed.installStarted && installed.log == c.log + [Install(false)]
  {}

  /** Nothing replaces an offer but a better one: while an update is offered, downloading or ready,
      checking again, an empty answer or another find changes at most which version is offered. */
  lemma OffersAreKept(c: Controller, u: UpdaterEvent)
    requires u.CheckStart? || u.UpdateFound? || u.NotAvailable? || u.Progress?
    ensures c.current.phase == Ready ==> Push(c, u).current == c.current
    ensures c.current.phase == Downloading && !u.Progress? ==> Push(c, u).current == c.current
    ensures c.current.phase == Available && u.CheckStart? ==> Push(c, u).current == c.current
    ensures c.current.phase in {Idle, Checking, Failed} && u.Progress? ==> Push(c, u).current == c.current
  {}

  /** What a check shows while it runs and when it finds nothing. */
  lemma ChecksAreShown(c: Controller)
    requires Inv(c) && c.current.phase in {Idle, Checking, Failed, Available}
    ensures c.current.phase != Available ==> Push(c, CheckStart).current == c.current.(phase := Checking)
    ensures Push(c, NotAvailable).current == UpdateState(Idle, None, None)
  {}

  /** What a failure leaves. A download that is ready is given up only for a failed install; a check
      that found no releases at all freezes the updater; being offline is no error, except to an install;
      everything else is shown as one. */
  lemma FailuresAreShown(c: Controller, kind: FailureKind, install: bool)
    requires c.current.phase != Unsupported
    ensures var s := Push(c, Failure(kind, install)).current;
            && (s.phase == Ready <==> c.current.phase == Ready && !install)
            && (s.phase == Unsupported <==> kind == NoReleases && c.current.phase == Checking)
            && (s.phase == Idle <==> kind == Offline && !install && c.current.phase != Ready)
            && (s.phase == Failed <==> !(s.phase == Ready || s.phase == Unsupported || s.phase == Idle))
            && (s.phase != Ready ==> s.percent == None)
  {}

  /** A check or a download whose promise is rejected is over, and shown as failed only if the updater
      has not moved on. */
  lemma RejectionsAreShown(c: Controller, kind: FailureKind)
    ensures c.check == CheckFeed ==>
              var next := Next(c, CheckSettles(Some(kind)));
              && next.check == NoCheck && Next(c, CheckSettles(None)) == c.(check := NoCheck)
              && next.current == if c.current.phase in {Idle, Checking} then Push(c, Failure(kind, false)).current
                                 else c.current
    ensures c.download == DownloadRunning ==>
              var next := Next(c, DownloadSettles(Some(kind)));
              && next.download == NoDownload && Next(c, DownloadSettles(None)) == c.(download := NoDownload)
              && next.current == if c.current.phase == Downloading then Push(c, Failure(kind, false)).current
                                 else c.current
  {}

  /** A user's request is open until it is answered: by nothing new, a download or a failure. */
  lemma RequestsStayOpen(c: Controller, e: Event)
    requires Enabled(c, e)
    ensures e == CheckCall(true) ==> Next(c, e).checkWasRequested
    ensures e.Updater? ==>
              (Next(c, e).checkWasRequested <==>
                 c.checkWasRequested && !e.e.NotAvailable? && !e.e.Downloaded? && !e.e.Failure?)
    ensures (|| e.Tick? || e == CheckCall(false) || e.CheckResume? || e.DownloadCall?
             || e.DownloadResume? || e.InstallCall?) ==>
              Next(c, e).checkWasRequested == c.checkWasRequested
  {}
}
