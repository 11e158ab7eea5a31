/**
 * The dashboard's polling and idle bookkeeping, and its tab navigation.
 *
 * The browser's timers are modelled as a map from timer id to what the
 * timer does; `setInterval`/`setTimeout` hand out fresh ids and
 * `clearInterval`/`clearTimeout` remove an id (a stale id is ignored).
 * The data refreshes the timers trigger are counted, not performed.
 */
module Dashboard {
  import opened Wrappers

  /** Wallet-balance polling period: 50 s on mainnet, 10 s on testnet. */
  function WalletPollPeriod(testnet: bool): nat {
    if testnet then 1000 * 10 else 1000 * 50
  }

  /** Chain-info polling period: 3 min on mainnet, 30 s on testnet. */
  function ChainPollPeriod(testnet: bool): nat {
    if testnet then 1000 * 30 else 1000 * 60 * 3
  }

  /** Time without activity after which the dashboard turns idle: 4 min. */
  const IdleDelay: nat := 1000 * 60 * 4

  datatype TimerKind = WalletPoll(period: nat) | ChainPoll(period: nat) | IdleTimeout(delay: nat)

  datatype DashState = DashState(
    testnet: bool,
    activeTab: string,
    currentView: string,
    walletPollRef: Option<nat>,
    chainPollRef: Option<nat>,
    idleTimeoutRef: Option<nat>,
    isIdle: bool,
    timers: map<nat, TimerKind>,
    nextTimerId: nat,
    walletRefreshes: nat,
    chainRefreshes: nat,
    initLoads: nat)

  /**
   * The bookkeeping invariant: each ref names a live timer of its kind,
   * no other polling or idle timer is live, every timer runs at its
   * network's period, and every id handed out is below the next one.
   */
  predicate Wellformed(s: DashState) {
    && (s.walletPollRef.Some? ==> s.walletPollRef.value in s.timers && s.timers[s.walletPollRef.value].WalletPoll?)
    && (s.chainPollRef.Some? ==> s.chainPollRef.value in s.timers && s.timers[s.chainPollRef.value].ChainPoll?)
    && (s.idleTimeoutRef.Some? ==> s.idleTimeoutRef.value < s.nextTimerId)
    && (s.idleTimeoutRef.Some? && s.idleTimeoutRef.value in s.timers ==> s.timers[s.idleTimeoutRef.value].IdleTimeout?)
    && (forall id :: id in s.timers ==> id < s.nextTimerId)
    && (forall id :: id in s.timers && s.timers[id].WalletPoll? ==>
          s.walletPollRef == Some(id) && s.timers[id].period == WalletPollPeriod(s.testnet))
    && (forall id :: id in s.timers && s.timers[id].ChainPoll? ==>
          s.chainPollRef == Some(id) && s.timers[id].period == ChainPollPeriod(s.testnet))
    && (forall id :: id in s.timers && s.timers[id].IdleTimeout? ==>
          s.idleTimeoutRef == Some(id) && s.timers[id].delay == IdleDelay)
  }

  /** Whether a live timer of the wallet-polling kind exists. */
  predicate WalletPolling(s: DashState) {
    exists id :: id in s.timers && s.timers[id].WalletPoll?
  }

  /** Whether a live timer of the chain-polling kind exists. */
  predicate ChainPolling(s: DashState) {
    exists id :: id in s.timers && s.timers[id].ChainPoll?
  }

  /** `window.setInterval`/`setTimeout`: registers a timer under a fresh id. */
  function AddTimer(s: DashState, kind: TimerKind): DashState {
    s.(timers := s.timers[s.nextTimerId := kind], nextTimerId := s.nextTimerId + 1)
  }

  /** `clearInterval`/`clearTimeout` of the id a ref holds, if any. */
  function ClearTimer(timers: map<nat, TimerKind>, ref: Option<nat>): map<nat, TimerKind> {
    if ref.Some? then timers - {ref.value} else timers
  }

  /** The wallet half of `startPolling`: creates the interval only when its ref is empty. */
  function StartWallet(s: DashState): DashState {
    if s.walletPollRef.None?
    then AddTimer(s, WalletPoll(WalletPollPeriod(s.testnet))).(walletPollRef := Some(s.nextTimerId))
    else s
  }

  /** The chain half of `startPolling`: creates the interval only when its ref is empty. */
  function StartChain(s: DashState): DashState {
    if s.chainPollRef.None?
    then AddTimer(s, ChainPoll(ChainPollPeriod(s.testnet))).(chainPollRef := Some(s.nextTimerId))
    else s
  }

  /** `startPolling`: the wallet interval, then the chain interval. */
  function Started(s: DashState): DashState {
    StartChain(StartWallet(s))
  }

  /** `stopPolling`: nothing on testnet; on mainnet clears both intervals and empties both refs. */
  function Stopped(s: DashState): DashState {
    if s.testnet then s
    else s.(timers := ClearTimer(ClearTimer(s.timers, s.walletPollRef), s.chainPollRef),
            walletPollRef := None, chainPollRef := None)
  }

  /** `resetIdleTimer`: clears the pending idle timeout and arms a new one. */
  function IdleReset(s: DashState): DashState {
    var s1 := s.(timers := ClearTimer(s.timers, s.idleTimeoutRef));
    AddTimer(s1, IdleTimeout(IdleDelay)).(idleTimeoutRef := Some(s1.nextTimerId))
  }

  /** The idle timeout firing: the timeout is spent, the dashboard is idle and polling stops. */
  function IdleFired(s: DashState): DashState
    requires s.idleTimeoutRef.Some?
  {
    Stopped(s.(timers := s.timers - {s.idleTimeoutRef.value}, isIdle := true))
  }

  /** `handleActivity`: when idle, refresh both and restart polling; then leave idle and re-arm the timeout. */
  function Activity(s: DashState): DashState {
    var s1 := if s.isIdle
      then Started(s.(walletRefreshes := s.walletRefreshes + 1, chainRefreshes := s.chainRefreshes + 1))
      else s;
    IdleReset(s1.(isIdle := false))
  }

  /** Mounting: the initial load, then `startPolling` and `resetIdleTimer`. */
  function Mounted(s: DashState): DashState {
    IdleReset(Started(s.(initLoads := s.initLoads + 1)))
  }

  /** Unmounting: `stopPolling` and clearing the idle timeout. */
  function Unmounted(s: DashState): DashState {
    var s1 := Stopped(s);
    s1.(timers := ClearTimer(s1.timers, s1.idleTimeoutRef))
  }

  /** The initial state: home tab and view, no timers. */
  function Initial(testnet: bool): (s: DashState)
    ensures Wellformed(s) && !WalletPolling(s) && !ChainPolling(s)
  {
    DashState(testnet, "home", "home", None, None, None, false, map[], 0, 0, 0, 0)
  }

  /** After the wallet half a wallet interval is live at the network's period; an existing one is kept. */
  lemma StartWalletPolls(s: DashState)
    requires Wellformed(s)
    ensures var t := StartWallet(s);
      && Wellformed(t)
      && t.walletPollRef.Some? && t.timers[t.walletPollRef.value] == WalletPoll(WalletPollPeriod(s.testnet))
      && (s.walletPollRef.Some? ==> t == s)
      && t == s.(timers := t.timers, nextTimerId := t.nextTimerId, walletPollRef := t.walletPollRef)
  {
  }

  /** After the chain half a chain interval is live at the network's period; an existing one is kept. */
  lemma StartChainPolls(s: DashState)
    requires Wellformed(s)
    ensures var t := StartChain(s);
      && Wellformed(t)
      && t.chainPollRef.Some? && t.timers[t.chainPollRef.value] == ChainPoll(ChainPollPeriod(s.testnet))
      && (s.chainPollRef.Some? ==> t == s)
      && t == s.(timers := t.timers, nextTimerId := t.nextTimerId, chainPollRef := t.chainPollRef)
      && (s.walletPollRef.Some? ==> s.walletPollRef.value in t.timers
                                    && t.timers[s.walletPollRef.value] == s.timers[s.walletPollRef.value])
  {
  }

  /** After `startPolling` both intervals are live at the network's periods, and existing ones are kept. */
  lemma StartedPolls(s: DashState)
    requires Wellformed(s)
    ensures var t := Started(s);
      && Wellformed(t)
      && t.walletPollRef.Some? && t.timers[t.walletPollRef.value] == WalletPoll(WalletPollPeriod(s.testnet))
      && t.chainPollRef.Some? && t.timers[t.chainPollRef.value] == ChainPoll(ChainPollPeriod(s.testnet))
      && (s.walletPollRef.Some? ==> t.walletPollRef == s.walletPollRef)
      && (s.chainPollRef.Some? ==> t.chainPollRef == s.chainPollRef)
      && t.isIdle == s.isIdle && t.walletRefreshes == s.walletRefreshes && t.chainRefreshes == s.chainRefreshes
  {
    StartWalletPolls(s);
    StartChainPolls(StartWallet(s));
  }

  /** Starting twice is the same as starting once. */
  lemma StartIdempotent(s: DashState)
    requires Wellformed(s)
    ensures Started(Started(s)) == Started(s)
  {
    StartedPolls(s);
  }

  /** On mainnet, stopping leaves no polling timer live; on testnet it changes nothing. */
  lemma StopEffect(s: DashState)
    requires Wellformed(s)
    ensures Wellformed(Stopped(s))
    ensures !s.testnet ==> !WalletPolling(Stopped(s)) && !ChainPolling(Stopped(s))
    ensures s.testnet ==> Stopped(s) == s
  {
  }

  /** Re-arming leaves exactly one idle timeout live, the new one. */
  lemma IdleResetArms(s: DashState)
    requires Wellformed(s)
    ensures var t := IdleReset(s);
      && Wellformed(t)
      && t.idleTimeoutRef.Some? && t.timers[t.idleTimeoutRef.value] == IdleTimeout(IdleDelay)
      && (forall id :: id in t.timers && t.timers[id].IdleTimeout? ==> id == t.idleTimeoutRef.value)
      && t.walletPollRef == s.walletPollRef && t.chainPollRef == s.chainPollRef
  {
  }

  /** When the idle timeout fires the dashboard is idle, and on mainnet polling has stopped. */
  lemma IdleStopsPolling(s: DashState)
    requires Wellformed(s) && s.idleTimeoutRef.Some?
    ensures var t := IdleFired(s);
      && Wellformed(t) && t.isIdle
      && (!s.testnet ==> !WalletPolling(t) && !ChainPolling(t))
  {
    StopEffect(s.(timers := s.timers - {s.idleTimeoutRef.value}, isIdle := true));
  }

  /**
   * Activity while idle refreshes both data sets once and restarts
   * polling; any activity leaves the dashboard active with one fresh idle
   * timeout armed.
   */
  lemma ActivityResumes(s: DashState)
    requires Wellformed(s)
    ensures var t := Activity(s);
      && Wellformed(t) && !t.isIdle
      && t.idleTimeoutRef.Some? && t.timers[t.idleTimeoutRef.value] == IdleTimeout(IdleDelay)
      && (s.isIdle ==> WalletPolling(t) && ChainPolling(t)
                       && t.walletRefreshes == s.walletRefreshes + 1 && t.chainRefreshes == s.chainRefreshes + 1)
      && (!s.isIdle ==> t.walletRefreshes == s.walletRefreshes && t.chainRefreshes == s.chainRefreshes
                        && t.walletPollRef == s.walletPollRef && t.chainPollRef == s.chainPollRef)
  {
    var s0 := s.(walletRefreshes := s.walletRefreshes + 1, chainRefreshes := s.chainRefreshes + 1);
    var s1 := if s.isIdle then Started(s0) else s;
    if s.isIdle {
      StartedPolls(s0);
    }
    IdleResetArms(s1.(isIdle := false));
    var t := Activity(s);
    if s.isIdle {
      assert t.walletPollRef.value in t.timers && t.timers[t.walletPollRef.value].WalletPoll?;
      assert t.chainPollRef.value in t.timers && t.timers[t.chainPollRef.value].ChainPoll?;
    }
  }

  /** Unmounting keeps the bookkeeping invariant and leaves no idle timeout live. */
  lemma UnmountedWellformed(s: DashState)
    requires Wellformed(s)
    ensures var t := Unmounted(s);
      && Wellformed(t)
      && (forall id :: id in t.timers ==> !t.timers[id].IdleTimeout?)
      && (!s.testnet ==> !WalletPolling(t) && !ChainPolling(t))
  {
    StopEffect(s);
  }

  /** Unmounting on testnet leaves both polling intervals running. */
  lemma TestnetUnmountKeepsPolling(s: DashState)
    requires Wellformed(s) && s.testnet && s.walletPollRef.Some? && s.chainPollRef.Some?
    ensures WalletPolling(Unmounted(s)) && ChainPolling(Unmounted(s))
  {
    var t := Unmounted(s);
    assert t.timers[s.walletPollRef.value].WalletPoll?;
    assert t.timers[s.chainPollRef.value].ChainPoll?;
  }

  // ---------------------------------------------------------------------
  // Navigation
  // ---------------------------------------------------------------------

  /** The views that are also tabs of the bottom bar. */
  const Tabs: seq<string> := ["home", "assets", "buy", "sell", "trade"]

  /** `handleNavigation`: the view always changes, the tab only for a tab view. */
  function Navigate(s: DashState, view: string): (t: DashState)
    ensures t.currentView == view
    ensures t.activeTab == (if view in Tabs then view else s.activeTab)
    ensures t == s.(currentView := t.currentView, activeTab := t.activeTab)
  {
    s.(currentView := view, activeTab := if view in Tabs then view else s.activeTab)
  }

  /** The active tab is always one of the tab views. */
  lemma NavigationKeepsTab(s: DashState, view: string)
    requires s.activeTab in Tabs
    ensures Navigate(s, view).activeTab in Tabs
  {
  }

  datatype Screen = HomeScreen | AssetsScreen | ReceiveScreen | SendScreen | SettingsScreen | EngraveScreen | ExchangeScreen

  /** `renderCurrentView`: an unknown view renders the home screen. */
  function Rendered(view: string): (r: Screen)
    ensures r == HomeScreen <==> view !in ["assets", "receive", "send", "settings", "engrave", "buy", "sell", "trade"]
    ensures r == ExchangeScreen <==> view in ["buy", "sell", "trade"]
  {
    match view
    case "home" => HomeScreen
    case "assets" => AssetsScreen
    case "receive" => ReceiveScreen
    case "send" => SendScreen
    case "settings" => SettingsScreen
    case "engrave" => EngraveScreen
    case "buy" => ExchangeScreen
    case "sell" => ExchangeScreen
    case "trade" => ExchangeScreen
    case _ => HomeScreen
  }

  // ---------------------------------------------------------------------
  // The component
  // ---------------------------------------------------------------------

  class WalletDashboard {
    const testnet: bool
    var activeTab: string
    var currentView: string
    var walletPollRef: Option<nat>
    var chainPollRef: Option<nat>
    var idleTimeoutRef: Option<nat>
    var isIdle: bool
    /** The live browser timers, by id. */
    var timers: map<nat, TimerKind>
    var nextTimerId: nat
    /** Calls of `updateGetWalletInfo` made by activity. */
    var walletRefreshes: nat
    /** Calls of `setUpdateBlockchaininfo` made by activity. */
    var chainRefreshes: nat
    /** Calls of `initGetWalletInfo`. */
    var initLoads: nat

    function State(): DashState
      reads this
    {
      DashState(testnet, activeTab, currentView, walletPollRef, chainPollRef, idleTimeoutRef, isIdle,
                timers, nextTimerId, walletRefreshes, chainRefreshes, initLoads)
    }

    constructor(isTestnet: bool)
      ensures State() == Initial(isTestnet)
    {
      testnet := isTestnet;
      activeTab := "home";
      currentView := "home";
      walletPollRef := None;
      chainPollRef := None;
      idleTimeoutRef := None;
      isIdle := false;
      timers := map[];
      nextTimerId := 0;
      walletRefreshes := 0;
      chainRefreshes := 0;
      initLoads := 0;
    }

    /** `window.setInterval`/`setTimeout`. */
    method SetTimer(kind: TimerKind) returns (id: nat)
      modifies this
      ensures id == old(nextTimerId)
      ensures State() == AddTimer(old(State()), kind)
    {
      id := nextTimerId;
      timers := timers[id := kind];
      nextTimerId := nextTimerId + 1;
    }

    method StartPolling()
      modifies this
      ensures State() == Started(old(State()))
    {
      if walletPollRef.None? {
        var id := SetTimer(WalletPoll(WalletPollPeriod(testnet)));
        walletPollRef := Some(id);
      }
      if chainPollRef.None? {
        var id := SetTimer(ChainPoll(ChainPollPeriod(testnet)));
        chainPollRef := Some(id);
      }
    }

    method StopPolling()
      modifies this
      ensures State() == Stopped(old(State()))
    {
      if testnet {
        return;
      }
      if walletPollRef.Some? {
        timers := timers - {walletPollRef.value};
        walletPollRef := None;
      }
      if chainPollRef.Some? {
        timers := timers - {chainPollRef.value};
        chainPollRef := None;
      }
    }

    method ResetIdleTimer()
      modifies this
      ensures State() == IdleReset(old(State()))
    {
      if idleTimeoutRef.Some? {
        timers := timers - {idleTimeoutRef.value};
      }
      var id := SetTimer(IdleTimeout(IdleDelay));
      idleTimeoutRef := Some(id);
    }

    /** The idle timeout's callback, run when the armed timeout elapses. */
    method OnIdleTimeout()
      requires idleTimeoutRef.Some?
      modifies this
      ensures State() == IdleFired(old(State()))
    {
      timers := timers - {idleTimeoutRef.value};
      isIdle := true;
      StopPolling();
    }

    method HandleActivity()
      modifies this
      ensures State() == Activity(old(State()))
    {
      if isIdle {
        CountRefreshes();
        StartPolling();
      }
      SetActive();
      ResetIdleTimer();
    }

    /** The two refresh calls `handleActivity` makes when idle. */
    method CountRefreshes()
      modifies this
      ensures State() == old(State()).(walletRefreshes := old(walletRefreshes) + 1,
                                       chainRefreshes := old(chainRefreshes) + 1)
    {
      walletRefreshes := walletRefreshes + 1;
      chainRefreshes := chainRefreshes + 1;
    }

    /** `setIsIdle(false)`. */
    method SetActive()
      modifies this
      ensures State() == old(State()).(isIdle := false)
    {
      isIdle := false;
    }

    /** The mount effect. */
    method Mount()
      modifies this
      ensures State() == Mounted(old(State()))
    {
      initLoads := initLoads + 1;
      StartPolling();
      ResetIdleTimer();
    }

    /** The unmount cleanup. */
    method Unmount()
      modifies this
      ensures State() == Unmounted(old(State()))
    {
      StopPolling();
      if idleTimeoutRef.Some? {
        timers := timers - {idleTimeoutRef.value};
      }
    }

    method HandleNavigation(view: string)
      modifies this
      ensures State() == Navigate(old(State()), view)
    {
      currentView := view;
      if view in Tabs {
        activeTab := view;
      }
    }
  }
}
