/** lib/mmod/behavior.js: panel auto-hide (a hover/popup-driven state machine
    that tweens the panel off and on screen and guards the hidden panel with a
    pressure barrier) and suppression of the host's hot corner. */
module Behavior {
  import opened Host
  import Realize
  import Position

  /** The value written over the hot corner's threshold and handler. */
  const HOT_CORNER_DISABLED: int := 54321
  /** Timeout handed to the pressure barrier. */
  const PRESSURE_TIMEOUT: int := 1000

  // ---------------------------------------------------------------------
  // Flag maps

  /** The named keys of the hover and popup-open flag maps. */
  datatype Zone = Activities | Favorites | AppMenu | DateMenu | Aggregate | HoverBoxZone

  /** The keys of `hoverStates` and `visibleStates`, in declaration order
      (the order a for-in loop visits them). */
  const HOVER_KEYS: seq<Zone> := [Activities, Favorites, AppMenu, DateMenu, Aggregate, HoverBoxZone]
  const VISIBLE_KEYS: seq<Zone> := [Activities, Favorites, AppMenu, DateMenu, Aggregate]

  /** The same keys as sets: the domains of the two maps. */
  const HOVER_ZONES: set<Zone> := {Activities, Favorites, AppMenu, DateMenu, Aggregate, HoverBoxZone}
  const VISIBLE_ZONES: set<Zone> := {Activities, Favorites, AppMenu, DateMenu, Aggregate}

  /** A property key of a script object: a name or a number. */
  datatype Key = Named(zone: Zone) | Numeric(n: int)

  /** Property lookup on a flag map; None is `undefined`. The maps only have
      named keys, so a numeric key finds nothing. */
  function Lookup(states: map<Zone, bool>, key: Key): (r: Option<bool>)
    ensures key.Numeric? ==> r == None
    ensures key.Named? ==> (r.Some? <==> key.zone in states)
    ensures r.Some? ==> key.Named? && r.value == states[key.zone]
  {
    match key
    case Named(z) => if z in states then Some(states[z]) else None
    case Numeric(_) => None
  }

  /** A flag map with every key of `keys` false. */
  function AllFalse(keys: set<Zone>): (m: map<Zone, bool>)
    ensures m.Keys == keys
    ensures forall z :: z in m ==> !m[z]
  {
    map z | z in keys :: false
  }

  /** What `hoverChanged` computes as "hovered": some hover flag other than
      the hover box's, or some popup-open flag, is set. */
  ghost predicate AnyHovered(hoverStates: map<Zone, bool>, visibleStates: map<Zone, bool>) {
    (exists z :: z in hoverStates && z != HoverBoxZone && hoverStates[z]) ||
    (exists z :: z in visibleStates && visibleStates[z])
  }

  /** The two accumulating loops of `hoverChanged` over the flag maps, in
      for-in order. */
  method ComputeHovered(hoverStates: map<Zone, bool>, visibleStates: map<Zone, bool>) returns (hovered: bool)
    requires hoverStates.Keys == HOVER_ZONES
    requires visibleStates.Keys == VISIBLE_ZONES
    ensures hovered <==> AnyHovered(hoverStates, visibleStates)
  {
    hovered := false;
    var i := 0;
    while i < |HOVER_KEYS|
      invariant 0 <= i <= |HOVER_KEYS|
      invariant hovered <==> exists j :: 0 <= j < i && HOVER_KEYS[j] != HoverBoxZone && hoverStates[HOVER_KEYS[j]]
    {
      var k := HOVER_KEYS[i];
      if hoverStates[k] && k != HoverBoxZone {
        hovered := true;
      }
      i := i + 1;
    }
    ghost var fromHover := hovered;
    assert fromHover <==> exists z :: z in hoverStates && z != HoverBoxZone && hoverStates[z] by {
      if fromHover {
        var j :| 0 <= j < |HOVER_KEYS| && HOVER_KEYS[j] != HoverBoxZone && hoverStates[HOVER_KEYS[j]];
        assert HOVER_KEYS[j] in hoverStates;
      }
      if z :| z in hoverStates && z != HoverBoxZone && hoverStates[z] {
        assert z == HOVER_KEYS[IndexOfZone(z)];
      }
    }
    i := 0;
    while i < |VISIBLE_KEYS|
      invariant 0 <= i <= |VISIBLE_KEYS|
      invariant hovered <==> fromHover || exists j :: 0 <= j < i && visibleStates[VISIBLE_KEYS[j]]
    {
      if visibleStates[VISIBLE_KEYS[i]] {
        hovered := true;
      }
      i := i + 1;
    }
    assert hovered <==> fromHover || exists z :: z in visibleStates && visibleStates[z] by {
      if z :| z in visibleStates && visibleStates[z] {
        assert z == VISIBLE_KEYS[IndexOfZone(z)];
      }
    }
  }

  /** Where a zone sits in the key order. */
  function IndexOfZone(z: Zone): (i: nat)
    ensures i < |HOVER_KEYS| && HOVER_KEYS[i] == z
    ensures z != HoverBoxZone ==> i < |VISIBLE_KEYS| && VISIBLE_KEYS[i] == z
  {
    match z
    case Activities => 0
    case Favorites => 1
    case AppMenu => 2
    case DateMenu => 3
    case Aggregate => 4
    case HoverBoxZone => 5
  }

  // ---------------------------------------------------------------------
  // The decision of hoverChanged

  /** The outcomes of one `hoverChanged` evaluation. */
  datatype Decision =
    | EarlyHide     // the hiding branch: hide
    | EarlyStay     // the hiding branch on a hidden panel: nothing
    | Reveal        // show the hidden panel
    | Rearm         // keep the shown panel up and check again later
    | FallbackHide  // the final branch: hide
    | Idle          // nothing

  /** `hoverChanged`'s branches as written, given the loops' `hovered`, the
      value read as `hiding` (`hoverStates[5]`) and the value read as
      `this.hiden`; a missing value is falsy. With both reads undefined (they
      always are), the early-hide branch never runs and the final branch
      hides whenever nothing asked for the panel, hidden or not. */
  function Decide(hovered: bool, hiding: Option<bool>, hidden: bool, barrierTriggered: bool,
                  overviewVisible: bool, hiden: Option<bool>): (d: Decision)
    ensures (d == EarlyHide || d == EarlyStay) <==> hiding.GetOr(false) && !hovered
    ensures d == Reveal <==> !(hiding.GetOr(false) && !hovered) && (hovered || barrierTriggered || overviewVisible) && hidden
    ensures d == Rearm <==> !(hiding.GetOr(false) && !hovered) && (hovered || barrierTriggered || overviewVisible) && !hidden
    ensures hiding == None && hiden == None ==>
      (d == FallbackHide <==> !hovered && !barrierTriggered && !overviewVisible) && d != Idle
  {
    if hiding.GetOr(false) && !hovered then
      (if !hidden then EarlyHide else EarlyStay)
    else if hovered || barrierTriggered || overviewVisible then
      (if hidden then Reveal else Rearm)
    else if !hiden.GetOr(false) && !hovered then
      FallbackHide
    else
      Idle
  }

  /** The decision as evidently intended: the final branch tests `hidden`, so
      an idle hidden panel is left alone. */
  function DecideIntended(hovered: bool, hidden: bool, barrierTriggered: bool, overviewVisible: bool): (d: Decision)
    ensures d == Reveal <==> (hovered || barrierTriggered || overviewVisible) && hidden
    ensures d == Rearm <==> (hovered || barrierTriggered || overviewVisible) && !hidden
    ensures d == FallbackHide <==> !hovered && !barrierTriggered && !overviewVisible && !hidden
    ensures d == Idle <==> !hovered && !barrierTriggered && !overviewVisible && hidden
  {
    if hovered || barrierTriggered || overviewVisible then
      (if hidden then Reveal else Rearm)
    else if !hidden then FallbackHide
    else Idle
  }

  /** As written, an evaluation on a hidden panel that nothing asks for hides
      it again; the intended decision leaves it alone. Everywhere else the two
      agree. */
  lemma {:induction false} HiddenPanelRehidden(states: map<Zone, bool>, hovered: bool, hidden: bool,
                                               barrierTriggered: bool, overviewVisible: bool)
    ensures Decide(false, Lookup(states, Numeric(5)), true, false, false, None) == FallbackHide
    ensures DecideIntended(false, true, false, false) == Idle
    ensures !(hidden && !hovered && !barrierTriggered && !overviewVisible) ==>
      Decide(hovered, Lookup(states, Numeric(5)), hidden, barrierTriggered, overviewVisible, None)
        == DecideIntended(hovered, hidden, barrierTriggered, overviewVisible)
  {
    var hiding := Lookup(states, Numeric(5));
    assert hiding == None;
  }

  // ---------------------------------------------------------------------
  // Geometry

  /** The y the panel box is tweened to by `hide`: just off the bottom edge,
      or just off the top edge; undefined for any other edge. */
  function HideTarget(edge: Option<int>, monitor: Monitor, boxHeight: int): (r: Option<int>)
    ensures r.Some? <==> edge == Some(EDGE_BOTTOM) || edge == Some(EDGE_TOP)
    ensures r.Some? ==> ShowTarget(edge, monitor, boxHeight).Some?
    ensures edge == Some(EDGE_BOTTOM) ==> r.value == ShowTarget(edge, monitor, boxHeight).value + boxHeight
    ensures edge == Some(EDGE_TOP) ==> r.value + boxHeight == ShowTarget(edge, monitor, boxHeight).value
  {
    match edge
    case Some(0) => Some(monitor.height)
    case Some(1) => Some(monitor.y - boxHeight)
    case _ => None
  }

  /** The y the panel box is tweened to by `show`: where the position worker
      places it for that edge. */
  function ShowTarget(edge: Option<int>, monitor: Monitor, boxHeight: int): (r: Option<int>)
    ensures edge.Some? ==> r == Position.PlacedY(edge.value, monitor, boxHeight)
    ensures edge.None? ==> r == None
  {
    match edge
    case Some(0) => Some(monitor.height - boxHeight)
    case Some(1) => Some(monitor.y)
    case _ => None
  }

  /** The y of the hover box while the panel is out of the overview: one
      panel height inside the shown panel, overlapping it by 5 pixels. */
  function HoverBoxRestY(edge: Option<int>, monitor: Monitor, boxHeight: int): (r: Option<int>)
    ensures r.Some? <==> ShowTarget(edge, monitor, boxHeight).Some?
    ensures edge == Some(EDGE_BOTTOM) ==> r.value + boxHeight == ShowTarget(edge, monitor, boxHeight).value + 5
    ensures edge == Some(EDGE_TOP) ==> r.value == ShowTarget(edge, monitor, boxHeight).value + boxHeight - 5
  {
    match edge
    case Some(0) => Some(monitor.height - boxHeight * 2 + 5)
    case Some(1) => Some(monitor.y + (boxHeight - 5))
    case _ => None
  }

  /** The y of the barrier that reveals the hidden panel: the monitor edge the
      hidden panel lies against. */
  function BarrierY(edge: Option<int>, monitor: Monitor, boxHeight: int): (r: Option<int>)
    ensures r.Some? <==> HideTarget(edge, monitor, boxHeight).Some?
    ensures edge == Some(EDGE_BOTTOM) ==> r == HideTarget(edge, monitor, boxHeight)
    ensures edge == Some(EDGE_TOP) ==> r.value == HideTarget(edge, monitor, boxHeight).value + boxHeight
  {
    match edge
    case Some(0) => Some(monitor.height)
    case Some(1) => Some(monitor.y)
    case _ => None
  }

  // ---------------------------------------------------------------------
  // The auto-hide worker

  /** The invisible box that detects the pointer leaving the panel. */
  datatype HoverBox = HoverBox(x: int, y: Option<int>, height: int, width: int, visible: bool, triggered: bool)

  /** A horizontal pointer barrier across the monitor. */
  datatype Barrier = Barrier(id: nat, x1: int, x2: int, y: Option<int>)

  /** The pressure barrier: its threshold and timeout, its `_isTriggered`
      flag and the barriers registered with it. */
  datatype PressureBarrier = PressureBarrier(threshold: int, timeout: int, isTriggered: bool, barriers: seq<Barrier>)

  /** `addBarrier` on the pressure barrier: `b` joins the registered
      barriers. */
  function Registered(p: Option<PressureBarrier>, b: Barrier): (r: Option<PressureBarrier>)
    ensures r.Some? <==> p.Some?
    ensures r.Some? ==> r.value.barriers == p.value.barriers + [b] && r.value.isTriggered == p.value.isTriggered
  {
    if p.Some? then Some(p.value.(barriers := p.value.barriers + [b])) else None
  }

  /** `removeBarrier` on the pressure barrier: the barrier leaves the
      registered ones and the trigger flag is reset; without a barrier or a
      pressure barrier nothing changes. */
  function Unregistered(p: Option<PressureBarrier>, b: Option<Barrier>): (r: Option<PressureBarrier>)
    ensures r.Some? <==> p.Some?
    ensures b.Some? && p.Some? ==> r.value.barriers == RemoveFirst(p.value.barriers, b.value) && !r.value.isTriggered
    ensures b.None? ==> r == p
  {
    if b.Some? && p.Some? then Some(p.value.(barriers := RemoveFirst(p.value.barriers, b.value), isTriggered := false))
    else p
  }

  /** Delays and animation times read at `init`, in milliseconds. */
  datatype Config = Config(delay: int, animationTime: int, animationDelay: int)

  /** Which completion callback a panel tween runs. */
  datatype Completion = HideDone | ShowDone

  /** A pending tween of the panel box's y. */
  datatype Tween = Tween(y: Option<int>, time: int, delay: int, onComplete: Completion)

  /** The host signals the worker subscribes to. */
  datatype Signal =
    | BoxHover | ActivitiesHover | DateHover | DateOpenState | AggregateHover
    | AggregateOpenState | AppMenuHover | AppStateChanged | OverviewShowing | OverviewHidden
    | FavoritesHover

  /** The subscriptions `connect` makes, in order: ten, and the favorites
      box's hover when a favorites box was found. The activities open state is
      never subscribed. */
  function Subscriptions(favorites: bool): (r: seq<Signal>)
    ensures |r| == if favorites then 11 else 10
    ensures FavoritesHover in r <==> favorites
  {
    [BoxHover, ActivitiesHover, DateHover, DateOpenState, AggregateHover, AggregateOpenState,
     AppMenuHover, AppStateChanged, OverviewShowing, OverviewHidden]
    + (if favorites then [FavoritesHover] else [])
  }

  /** The left-box index of the favorites box. */
  function FavoritesIndex(favoritesBeforePreferences: bool): nat {
    if favoritesBeforePreferences then 1 else 2
  }

  class Autohide {
    const shell: Shell
    /** Whether the display supports pointer barriers, read at construction. */
    const barriers: bool

    var pressureBarrier: Option<PressureBarrier>
    var pressureThreshold: Option<int>
    var barrier: Option<Barrier>
    /** A null flag is false. */
    var barrierTriggered: bool
    var hoverBox: Option<HoverBox>
    var hoverStates: Option<map<Zone, bool>>
    var visibleStates: Option<map<Zone, bool>>
    var hidden: bool
    var config: Option<Config>
    /** The favorites box whose hover is tracked, if one was found. */
    var favorites: Option<Actor>
    var connections: Option<seq<Signal>>
    /** The pending panel tween (a new tween of y replaces the old one). */
    var tween: Option<Tween>
    /** Number of pending delayed `hoverChanged` calls. */
    var pendingRechecks: nat
    /** Source of fresh barrier identities. */
    var nextBarrierId: nat
    var realize: int
    var active: bool

    ghost predicate Valid()
      reads this
    {
      (hoverStates.Some? ==> hoverStates.value.Keys == HOVER_ZONES) &&
      (visibleStates.Some? ==> visibleStates.value.Keys == VISIBLE_ZONES) &&
      (hoverStates.Some? ==> visibleStates.Some? && hoverBox.Some? && config.Some?) &&
      (connections.Some? ==> hoverStates.Some?) &&
      (active ==> connections.Some? && pressureBarrier.Some?)
    }

    /** The tween `hide` starts: to the hide target, with the configured time
        and delay. */
    function HideTween(): Tween
      requires config.Some?
      reads this, shell
    {
      Tween(HideTarget(shell.edge, shell.monitor, shell.panelHeight),
            config.value.animationTime, config.value.animationDelay, HideDone)
    }

    /** The tween `show` starts: to the show target. */
    function ShowTween(): Tween
      requires config.Some?
      reads this, shell
    {
      Tween(ShowTarget(shell.edge, shell.monitor, shell.panelHeight),
            config.value.animationTime, config.value.animationDelay, ShowDone)
    }

    /** The state `init` sets up from the settings: a fresh pressure barrier
        with the configured threshold, the hover box at its rest position,
        all-false flag maps, the config, the subscriptions and a pending hide;
        the worker is active. */
    ghost predicate SetUp()
      reads this, shell
    {
      active && Armed() &&
      connections == Some(Subscriptions(favorites.Some?)) &&
      tween == Some(HideTween())
    }

    /** The pressure barrier, the hover box at its resting place, all flags
        false, the configured times and the favorites box, as `init` sets
        them up from the settings. */
    ghost predicate Armed()
      reads this, shell
    {
      var s := shell.settings;
      var h := shell.panelHeight;
      pressureThreshold == Some(s.autohidePressureThreshold) &&
      pressureBarrier == Some(PressureBarrier(s.autohidePressureThreshold, PRESSURE_TIMEOUT, false, [])) &&
      hoverBox == Some(HoverBox(0, HoverBoxRestY(shell.edge, shell.monitor, h), h, shell.monitor.width, true, false)) &&
      hoverStates == Some(AllFalse(HOVER_ZONES)) && visibleStates == Some(AllFalse(VISIBLE_ZONES)) &&
      config == Some(Config(s.autohideDelay, s.autohideAnimationTime, s.autohideAnimationDelay)) &&
      (s.displayFavoritesEnabled ==>
        var i := FavoritesIndex(s.favoritesBeforePreferences);
        favorites == (if i < |shell.leftBox| then Some(shell.leftBox[i]) else None))
    }

    /** What one decision of `hoverChanged` leaves behind, given the tween,
        hover box, re-check count and barrier flag before it: a hide or a show
        tween, or a re-armed hover box and one more re-check. */
    ghost predicate Decided(d: Decision, tween0: Option<Tween>, box0: Option<HoverBox>, pending0: nat, triggered0: bool)
      reads this, shell
    {
      config.Some? && box0.Some? &&
      match d
      case EarlyHide | FallbackHide =>
        tween == Some(HideTween()) && barrierTriggered == triggered0 && hoverBox == box0 && pendingRechecks == pending0
      case Reveal =>
        tween == Some(ShowTween()) && !barrierTriggered && hoverBox == box0 && pendingRechecks == pending0
      case Rearm =>
        tween == tween0 && !barrierTriggered && hoverBox == Some(box0.value.(triggered := false, visible := true)) &&
        pendingRechecks == pending0 + 1
      case EarlyStay | Idle =>
        tween == tween0 && barrierTriggered == triggered0 && hoverBox == box0 && pendingRechecks == pending0
    }

    constructor (shell: Shell)
      ensures this.shell == shell && barriers == shell.barriersSupported && Valid()
      ensures pressureBarrier == None && pressureThreshold == None && barrier == None && !barrierTriggered
      ensures hoverBox == None && hoverStates == None && visibleStates == None && !hidden && config == None
      ensures favorites == None && connections == None && tween == None && pendingRechecks == 0
      ensures realize == -1 && !active
    {
      this.shell := shell;
      barriers := shell.barriersSupported;
      pressureBarrier := None;
      pressureThreshold := None;
      barrier := None;
      barrierTriggered := false;
      hoverBox := None;
      hoverStates := None;
      visibleStates := None;
      hidden := false;
      config := None;
      favorites := None;
      connections := None;
      tween := None;
      pendingRechecks := 0;
      nextBarrierId := 0;
      realize := -1;
      active := false;
    }

    /** `init`: with autohide-panel on and past the realize check, and only
        when barriers are supported, sets everything up (see `SetUp`) and
        starts hiding the panel. `barrierTriggered`, `hidden` and the barrier
        are left as they were; without barrier support nothing but `realize`
        changes. */
    method Init(handlerId: int)
      requires handlerId > 0 && Valid()
      modifies this`realize, this`pressureThreshold, this`pressureBarrier, this`hoverBox, this`hoverStates,
               this`visibleStates, this`config, this`favorites, this`connections, this`tween, this`active
      ensures Valid()
      ensures !shell.settings.autohidePanel ==> unchanged(this)
      ensures shell.settings.autohidePanel ==>
        Realize.Check(old(realize), handlerId) == Realize.Step(realize, old(realize) >= 0)
      ensures shell.settings.autohidePanel && old(realize) >= 0 && barriers ==> SetUp()
      ensures !(shell.settings.autohidePanel && old(realize) >= 0 && barriers) ==>
        unchanged(this`pressureThreshold, this`pressureBarrier, this`hoverBox, this`hoverStates,
                  this`visibleStates, this`config, this`favorites, this`connections, this`tween, this`active)
    {
      if shell.settings.autohidePanel {
        if realize < 0 {
          realize := handlerId;
          return;
        }
        if realize > 0 {
          realize := 0;
        }
        if barriers {
          Setup();
        }
      }
    }

    /** The barrier-supported part of `init`. */
    method Setup()
      modifies this`pressureThreshold, this`pressureBarrier, this`hoverBox, this`hoverStates,
               this`visibleStates, this`config, this`favorites, this`connections, this`tween, this`active
      ensures Valid() && SetUp()
    {
      Arm();
      Connect();
      Hide();
      active := true;
    }

    /** The state `init` builds before subscribing. */
    method Arm()
      modifies this`pressureThreshold, this`pressureBarrier, this`hoverBox, this`hoverStates,
               this`visibleStates, this`config, this`favorites
      ensures Armed()
    {
      var s := shell.settings;
      pressureThreshold := Some(s.autohidePressureThreshold);
      pressureBarrier := Some(PressureBarrier(s.autohidePressureThreshold, PRESSURE_TIMEOUT, false, []));
      var h := shell.panelHeight;
      hoverBox := Some(HoverBox(0, HoverBoxRestY(shell.edge, shell.monitor, h), h, shell.monitor.width, true, false));
      hoverStates := Some(AllFalse(HOVER_ZONES));
      visibleStates := Some(AllFalse(VISIBLE_ZONES));
      config := Some(Config(s.autohideDelay, s.autohideAnimationTime, s.autohideAnimationDelay));
      if s.displayFavoritesEnabled {
        var index := FavoritesIndex(s.favoritesBeforePreferences);
        favorites := if index < |shell.leftBox| then Some(shell.leftBox[index]) else None;
      }
    }

    /** `disable`: an active worker unsubscribes, removes its barrier, drops
        the pressure barrier, the hover box, the flag maps, the config and the
        favorites box and becomes inactive; every call leaves `realize` at 0.
        `hidden`, a pending tween and pending re-checks are kept. */
    method Disable()
      requires Valid()
      modifies this`connections, this`barrier, this`pressureBarrier, this`pressureThreshold, this`barrierTriggered,
               this`hoverBox, this`hoverStates, this`visibleStates, this`config, this`favorites, this`active, this`realize
      ensures Valid() && !active && realize == 0
      ensures old(active) ==>
        connections == None && barrier == None && pressureBarrier == None && pressureThreshold == None &&
        !barrierTriggered && hoverBox == None && hoverStates == None && visibleStates == None &&
        config == None && favorites == None
      ensures !old(active) ==>
        unchanged(this`connections, this`barrier, this`pressureBarrier, this`pressureThreshold, this`barrierTriggered,
                  this`hoverBox, this`hoverStates, this`visibleStates, this`config, this`favorites)
    {
      if active {
        Teardown();
      }
      realize := 0;
    }

    /** The active part of `disable`. */
    method Teardown()
      requires active && Valid()
      modifies this`connections, this`barrier, this`pressureBarrier, this`pressureThreshold, this`barrierTriggered,
               this`hoverBox, this`hoverStates, this`visibleStates, this`config, this`favorites, this`active
      ensures Valid() && !active
      ensures connections == None && barrier == None && pressureBarrier == None && pressureThreshold == None &&
        !barrierTriggered && hoverBox == None && hoverStates == None && visibleStates == None &&
        config == None && favorites == None
    {
      Disconnect();
      RemoveBarrier();
      ClearState();
    }

    /** The releases at the end of `destroy`. */
    method ClearState()
      modifies this`pressureBarrier, this`pressureThreshold, this`barrierTriggered, this`hoverBox,
               this`hoverStates, this`visibleStates, this`config, this`favorites, this`active
      ensures pressureBarrier == None && pressureThreshold == None && !barrierTriggered && hoverBox == None &&
        hoverStates == None && visibleStates == None && config == None && favorites == None && !active
    {
      pressureBarrier := None;
      pressureThreshold := None;
      barrierTriggered := false;
      hoverBox := None;
      hoverStates := None;
      visibleStates := None;
      config := None;
      favorites := None;
      active := false;
    }

    /** `hide`: tweens the panel box to the hide target of the current edge. */
    method Hide()
      requires config.Some?
      modifies this`tween
      ensures tween == Some(HideTween())
    {
      tween := Some(HideTween());
    }

    /** `show`: tweens the panel box to the show target of the current edge. */
    method Show()
      requires config.Some?
      modifies this`tween
      ensures tween == Some(ShowTween())
    {
      tween := Some(ShowTween());
    }

    /** The host finishes the pending tween: the panel box reaches the
        tween's y and its completion callback runs. The hide callback raises
        a new barrier, marks the panel hidden and hides the hover box; the show
        callback removes the barrier, marks the panel shown, clears the hover
        box's trigger, shows the box unless the overview is up, and schedules
        one re-check. A callback that reaches the hover box after `disable`
        stops there (the script throws). */
    method CompleteTween()
      requires tween.Some? && Valid()
      modifies this`tween, shell`panelY, this`barrier, this`pressureBarrier, this`nextBarrierId,
               this`hidden, this`hoverBox, this`pendingRechecks
      ensures Valid() && tween == None
      ensures shell.panelY == old(tween).value.y.GetOr(old(shell.panelY))
      ensures old(tween).value.onComplete == HideDone ==>
        hidden && barrier == Some(Barrier(old(nextBarrierId), 0, shell.monitor.width, BarrierY(shell.edge, shell.monitor, shell.panelHeight))) &&
        pressureBarrier == Registered(old(pressureBarrier), barrier.value) &&
        hoverBox == (if old(hoverBox).Some? then Some(old(hoverBox).value.(visible := false)) else None) &&
        pendingRechecks == old(pendingRechecks)
      ensures old(tween).value.onComplete == ShowDone ==>
        !hidden && barrier == None &&
        pressureBarrier == Unregistered(old(pressureBarrier), old(barrier)) &&
        hoverBox == (if old(hoverBox).Some?
          then Some(old(hoverBox).value.(triggered := false, visible := old(hoverBox).value.visible || !shell.overviewVisible))
          else None) &&
        pendingRechecks == old(pendingRechecks) + (if old(hoverBox).Some? then 1 else 0)
    {
      var t := tween.value;
      tween := None;
      if t.y.Some? {
        shell.panelY := t.y.value;
      }
      match t.onComplete
      case HideDone => HideComplete();
      case ShowDone => ShowComplete();
    }

    /** The hide tween's completion callback. */
    method HideComplete()
      requires Valid()
      modifies this`barrier, this`pressureBarrier, this`nextBarrierId, this`hidden, this`hoverBox
      ensures Valid()
      ensures hidden && barrier == Some(Barrier(old(nextBarrierId), 0, shell.monitor.width, BarrierY(shell.edge, shell.monitor, shell.panelHeight)))
      ensures pressureBarrier == Registered(old(pressureBarrier), barrier.value)
      ensures hoverBox == (if old(hoverBox).Some? then Some(old(hoverBox).value.(visible := false)) else None)
    {
      AddBarrier();
      hidden := true;
      if hoverBox.Some? {
        hoverBox := Some(hoverBox.value.(visible := false));
      }
    }

    /** The show tween's completion callback. */
    method ShowComplete()
      requires Valid()
      modifies this`barrier, this`pressureBarrier, this`hidden, this`hoverBox, this`pendingRechecks
      ensures Valid()
      ensures !hidden && barrier == None && pressureBarrier == Unregistered(old(pressureBarrier), old(barrier))
      ensures hoverBox == (if old(hoverBox).Some?
          then Some(old(hoverBox).value.(triggered := false, visible := old(hoverBox).value.visible || !shell.overviewVisible))
          else None)
      ensures pendingRechecks == old(pendingRechecks) + (if old(hoverBox).Some? then 1 else 0)
    {
      RemoveBarrier();
      hidden := false;
      if hoverBox.Some? {
        var b := hoverBox.value.(triggered := false);
        if !shell.overviewVisible {
          b := b.(visible := true);
        }
        hoverBox := Some(b);
        pendingRechecks := pendingRechecks + 1;
      }
    }

    /** The host runs one of the pending delayed re-checks: `hoverChanged`. */
    method FireRecheck()
      requires pendingRechecks > 0 && Valid()
      modifies this`tween, this`barrierTriggered, this`hoverBox, this`pendingRechecks
      ensures Valid()
      ensures old(hoverStates).None? ==> pendingRechecks == old(pendingRechecks) - 1
      ensures old(hoverStates).Some? ==>
        Decided(Decide(AnyHovered(hoverStates.value, visibleStates.value), Lookup(hoverStates.value, Numeric(5)),
                       hidden, old(barrierTriggered), shell.overviewVisible, None),
                old(tween), old(hoverBox), old(pendingRechecks) - 1, old(barrierTriggered))
    {
      pendingRechecks := pendingRechecks - 1;
      HoverChanged();
    }

    /** `onBarrierTriggered`: the pointer pushed against the barrier; the
        flag is set and `hoverChanged` runs, which reveals a hidden panel. */
    method OnBarrierTriggered()
      requires Valid()
      modifies this`tween, this`barrierTriggered, this`hoverBox, this`pendingRechecks
      ensures Valid()
      ensures old(hoverStates).None? ==> barrierTriggered && unchanged(this`tween, this`hoverBox, this`pendingRechecks)
      ensures old(hoverStates).Some? ==>
        Decided(Decide(AnyHovered(hoverStates.value, visibleStates.value), Lookup(hoverStates.value, Numeric(5)),
                       hidden, true, shell.overviewVisible, None),
                old(tween), old(hoverBox), old(pendingRechecks), true)
      ensures old(hoverStates).Some? && hidden ==> tween == Some(ShowTween()) && !barrierTriggered
    {
      barrierTriggered := true;
      HoverChanged();
    }

    /** `hoverChanged`: with the flag maps present, decides from "hovered",
        `barrierTriggered`, `hidden` and the overview whether to hide the
        panel, show it, or keep it up and check again after the delay;
        without them it does nothing. */
    method HoverChanged()
      requires Valid()
      modifies this`tween, this`barrierTriggered, this`hoverBox, this`pendingRechecks
      ensures Valid()
      ensures old(hoverStates).None? ==> unchanged(this)
      ensures hoverStates.Some? ==>
        Decided(Decide(AnyHovered(hoverStates.value, visibleStates.value), Lookup(hoverStates.value, Numeric(5)),
                       hidden, old(barrierTriggered), shell.overviewVisible, None),
                old(tween), old(hoverBox), old(pendingRechecks), old(barrierTriggered))
    {
      if hoverStates.None? {
        return;
      }
      var hovered := ComputeHovered(hoverStates.value, visibleStates.value);
      var hiding := Lookup(hoverStates.value, Numeric(5));
      var d := Decide(hovered, hiding, hidden, barrierTriggered, shell.overviewVisible, None);
      Carry(d);
    }

    /** The branches of `hoverChanged` once the decision is taken. */
    method Carry(d: Decision)
      requires Valid() && hoverStates.Some?
      modifies this`tween, this`barrierTriggered, this`hoverBox, this`pendingRechecks
      ensures Valid()
      ensures Decided(d, old(tween), old(hoverBox), old(pendingRechecks), old(barrierTriggered))
    {
      match d
      case EarlyHide => Hide();
      case EarlyStay =>
      case Reveal =>
        barrierTriggered := false;
        Show();
      case Rearm =>
        barrierTriggered := false;
        hoverBox := Some(hoverBox.value.(triggered := false, visible := true));
        pendingRechecks := pendingRechecks + 1;
      case FallbackHide => Hide();
      case Idle =>
    }

    /** `connect`: the ten subscriptions, and the favorites box's hover when
        one was found. */
    method Connect()
      modifies this`connections
      ensures connections == Some(Subscriptions(favorites.Some?))
    {
      connections := Some(Subscriptions(favorites.Some?));
    }

    /** `disconnect`: drops every subscription; a second call does nothing. */
    method Disconnect()
      modifies this`connections
      ensures connections == None
    {
      if connections.Some? {
        connections := None;
      }
    }

    /** `addBarrier`: a fresh barrier across the monitor at the edge the
        hidden panel lies against, registered with the pressure barrier when
        there is one. A previous barrier is neither destroyed nor
        unregistered. */
    method AddBarrier()
      modifies this`barrier, this`pressureBarrier, this`nextBarrierId
      ensures barrier == Some(Barrier(old(nextBarrierId), 0, shell.monitor.width, BarrierY(shell.edge, shell.monitor, shell.panelHeight)))
      ensures nextBarrierId == old(nextBarrierId) + 1
      ensures pressureBarrier == Registered(old(pressureBarrier), barrier.value)
    {
      var b := Barrier(nextBarrierId, 0, shell.monitor.width, BarrierY(shell.edge, shell.monitor, shell.panelHeight));
      nextBarrierId := nextBarrierId + 1;
      barrier := Some(b);
      pressureBarrier := Registered(pressureBarrier, b);
    }

    /** `removeBarrier`: with a barrier, unregisters it from the pressure
        barrier (resetting its trigger flag) and drops it; without one,
        nothing. */
    method RemoveBarrier()
      modifies this`barrier, this`pressureBarrier
      ensures barrier == None
      ensures pressureBarrier == Unregistered(old(pressureBarrier), old(barrier))
    {
      if barrier.Some? {
        pressureBarrier := Unregistered(pressureBarrier, barrier);
        barrier := None;
      }
    }

    /** A hover handler (`activitiesHoverChanged`, `favoritesHoverChanged`,
        `appPrefsHoverChanged`, `dateHoverChanged`, `aggregateHoverChanged`):
        flips its own hover flag and nothing else; without flag maps it does
        nothing. It does not evaluate `hoverChanged`. */
    method FlipHover(zone: Zone)
      requires zone != HoverBoxZone && Valid()
      modifies this`hoverStates
      ensures Valid()
      ensures old(hoverStates).None? ==> hoverStates == None
      ensures old(hoverStates).Some? ==>
        hoverStates == Some(old(hoverStates).value[zone := !old(hoverStates).value[zone]])
    {
      if hoverStates.Some? {
        var m := hoverStates.value;
        hoverStates := Some(m[zone := !m[zone]]);
      }
    }

    /** `boxHoverChanged`: flips the hover box's flag and marks the box
        triggered; without flag maps it does nothing. */
    method BoxHoverChanged()
      requires Valid()
      modifies this`hoverStates, this`hoverBox
      ensures Valid()
      ensures old(hoverStates).None? ==> hoverStates == None && hoverBox == old(hoverBox)
      ensures old(hoverStates).Some? ==>
        hoverStates == Some(old(hoverStates).value[HoverBoxZone := !old(hoverStates).value[HoverBoxZone]]) &&
        hoverBox == Some(old(hoverBox).value.(triggered := true))
    {
      if hoverStates.Some? {
        var m := hoverStates.value;
        hoverStates := Some(m[HoverBoxZone := !m[HoverBoxZone]]);
        hoverBox := Some(hoverBox.value.(triggered := true));
      }
    }

    /** A popup open-state handler (`activitiesStateChanged`,
        `dateStateChanged`, `aggregateStateChanged`): flips its own popup
        flag and nothing else; without flag maps it does nothing. */
    method FlipVisible(zone: Zone)
      requires zone != HoverBoxZone && Valid()
      modifies this`visibleStates
      ensures Valid()
      ensures old(visibleStates).None? ==> visibleStates == None
      ensures old(visibleStates).Some? ==>
        visibleStates == Some(old(visibleStates).value[zone := !old(visibleStates).value[zone]])
    {
      if visibleStates.Some? {
        var m := visibleStates.value;
        visibleStates := Some(m[zone := !m[zone]]);
      }
    }

    /** `appStateChanged`: with autohide-panel on, hides the panel, whatever
        its state. */
    method OnAppStateChanged()
      requires connections.Some? && Valid()
      modifies this`tween
      ensures shell.settings.autohidePanel ==> tween == Some(HideTween())
      ensures !shell.settings.autohidePanel ==> tween == old(tween)
    {
      if shell.settings.autohidePanel {
        Hide();
      }
    }

    /** `onToggleOverview`: with autohide-panel on, shows the panel and moves
        the hover box to the hide target when the overview is visible, and
        hides the panel and moves the hover box back to rest otherwise. */
    method OnToggleOverview()
      requires connections.Some? && Valid()
      modifies this`tween, this`hoverBox
      ensures Valid()
      ensures shell.settings.autohidePanel && shell.overviewVisible ==>
        tween == Some(ShowTween()) &&
        hoverBox == Some(old(hoverBox).value.(x := 0, y := HideTarget(shell.edge, shell.monitor, shell.panelHeight)))
      ensures shell.settings.autohidePanel && !shell.overviewVisible ==>
        tween == Some(HideTween()) &&
        hoverBox == Some(old(hoverBox).value.(x := 0, y := HoverBoxRestY(shell.edge, shell.monitor, shell.panelHeight)))
      ensures !shell.settings.autohidePanel ==> tween == old(tween) && hoverBox == old(hoverBox)
    {
      if shell.settings.autohidePanel {
        if shell.overviewVisible {
          Show();
          hoverBox := Some(hoverBox.value.(x := 0, y := HideTarget(shell.edge, shell.monitor, shell.panelHeight)));
        } else {
          Hide();
          hoverBox := Some(hoverBox.value.(x := 0, y := HoverBoxRestY(shell.edge, shell.monitor, shell.panelHeight)));
        }
      }
    }
  }

  // ---------------------------------------------------------------------
  // Hot corner

  /** Suppresses the host's primary hot corner while hot-corner-enabled is
      off, by writing `HOT_CORNER_DISABLED` over its pressure threshold and
      its overview-toggle handler. */
  class HotCorner {
    const shell: Shell
    const barriers: bool
    /** The corner's threshold and handler as they were at construction. */
    const threshold: int
    const toggleOverview: CornerAction
    var realize: int
    var active: bool

    constructor (shell: Shell)
      ensures this.shell == shell && barriers == shell.barriersSupported
      ensures threshold == shell.hotCornerThreshold && toggleOverview == shell.hotCornerAction
      ensures realize == -1 && !active
    {
      this.shell := shell;
      barriers := shell.barriersSupported;
      threshold := shell.hotCornerThreshold;
      toggleOverview := shell.hotCornerAction;
      realize := -1;
      active := false;
    }

    /** `init`: with hot-corner-enabled off and past the realize check, and
        only when barriers are supported, overwrites the corner's threshold
        and handler with 54321 and becomes active. */
    method Init(handlerId: int)
      requires handlerId > 0
      modifies this`realize, this`active, shell`hotCornerThreshold, shell`hotCornerAction
      ensures shell.settings.hotCornerEnabled ==> unchanged(this) && unchanged(shell)
      ensures !shell.settings.hotCornerEnabled ==>
        Realize.Check(old(realize), handlerId) == Realize.Step(realize, old(realize) >= 0)
      ensures !shell.settings.hotCornerEnabled && old(realize) >= 0 && barriers ==>
        shell.hotCornerThreshold == HOT_CORNER_DISABLED && shell.hotCornerAction == Number(HOT_CORNER_DISABLED) && active
      ensures !(!shell.settings.hotCornerEnabled && old(realize) >= 0 && barriers) ==>
        unchanged(shell) && active == old(active)
    {
      if !shell.settings.hotCornerEnabled {
        if realize < 0 {
          realize := handlerId;
          return;
        }
        if realize > 0 {
          realize := 0;
        }
        if barriers {
          shell.hotCornerThreshold := HOT_CORNER_DISABLED;
          shell.hotCornerAction := Number(HOT_CORNER_DISABLED);
          active := true;
        }
      }
    }

    /** `enable`: runs `init` first, then, only when hot-corner-enabled is on
        and barriers are supported, puts back the threshold and handler saved
        at construction and becomes inactive; every call leaves `realize` at
        0. With the setting off, `init` has just suppressed the corner again,
        so it stays suppressed. */
    method Enable(handlerId: int)
      requires handlerId > 0
      modifies this`realize, this`active, shell`hotCornerThreshold, shell`hotCornerAction
      ensures realize == 0
      ensures shell.settings.hotCornerEnabled && barriers ==>
        shell.hotCornerThreshold == threshold && shell.hotCornerAction == toggleOverview && !active
      ensures !shell.settings.hotCornerEnabled && old(realize) >= 0 && barriers ==>
        shell.hotCornerThreshold == HOT_CORNER_DISABLED && shell.hotCornerAction == Number(HOT_CORNER_DISABLED) && active
      ensures !barriers || (!shell.settings.hotCornerEnabled && old(realize) < 0) ==>
        unchanged(shell) && active == old(active)
    {
      Init(handlerId);
      if shell.settings.hotCornerEnabled {
        if barriers {
          shell.hotCornerThreshold := threshold;
          shell.hotCornerAction := toggleOverview;
          active := false;
        }
      }
      realize := 0;
    }

    /** The evident intent of `enable`: put back the saved threshold and
        handler whenever this worker has overwritten them, whatever the
        setting says now. */
    method EnableIntended()
      modifies this`realize, this`active, shell`hotCornerThreshold, shell`hotCornerAction
      ensures realize == 0 && !active
      ensures old(active) ==> shell.hotCornerThreshold == threshold && shell.hotCornerAction == toggleOverview
      ensures !old(active) ==> unchanged(shell)
    {
      if active {
        shell.hotCornerThreshold := threshold;
        shell.hotCornerAction := toggleOverview;
        active := false;
      }
      realize := 0;
    }
  }

  /** As written, with hot-corner-enabled off, switching the worker on and
      then off again leaves the host's hot corner suppressed. */
  method CornerStaysSuppressed(shell: Shell, first: int, second: int, third: int)
    requires first > 0 && second > 0 && third > 0
    requires !shell.settings.hotCornerEnabled && shell.barriersSupported
    modifies shell`hotCornerThreshold, shell`hotCornerAction
    ensures shell.hotCornerThreshold == HOT_CORNER_DISABLED && shell.hotCornerAction == Number(HOT_CORNER_DISABLED)
  {
    var corner := new HotCorner(shell);
    corner.Init(first);
    corner.Init(second);
    corner.Enable(third);
  }

  /** With the intended `enable`, the same on/off cycle gives the host its
      hot corner back exactly as it was, whatever the setting. */
  method CornerRestoredIntended(shell: Shell, first: int, second: int)
    requires first > 0 && second > 0
    modifies shell`hotCornerThreshold, shell`hotCornerAction
    ensures shell.hotCornerThreshold == old(shell.hotCornerThreshold)
    ensures shell.hotCornerAction == old(shell.hotCornerAction)
  {
    var corner := new HotCorner(shell);
    corner.Init(first);
    corner.Init(second);
    corner.EnableIntended();
  }

  // ---------------------------------------------------------------------
  // The behavior worker

  /** Owns the auto-hide and hot-corner workers. */
  class BehaviorMod {
    const shell: Shell
    const autohide: Autohide
    const hotCorner: HotCorner
    var active: bool

    ghost predicate Valid()
      reads this, autohide
    {
      autohide.shell == shell && hotCorner.shell == shell && autohide.Valid()
    }

    constructor (shell: Shell)
      ensures this.shell == shell && Valid() && fresh(autohide) && fresh(hotCorner) && !active
      ensures autohide.realize == -1 && !autohide.active && hotCorner.realize == -1 && !hotCorner.active
    {
      this.shell := shell;
      autohide := new Autohide(shell);
      hotCorner := new HotCorner(shell);
      active := false;
    }

    /** `init`: always runs the auto-hide `init` and then the hot-corner
        `init`, and becomes active. */
    method Init(autohideId: int, cornerId: int)
      requires Valid() && autohideId > 0 && cornerId > 0
      modifies this`active, autohide, hotCorner, shell`hotCornerThreshold, shell`hotCornerAction
      ensures Valid() && active
      ensures shell.settings.autohidePanel && old(autohide.realize) >= 0 && autohide.barriers ==> autohide.SetUp()
      ensures shell.settings.autohidePanel ==>
        Realize.Check(old(autohide.realize), autohideId) == Realize.Step(autohide.realize, old(autohide.realize) >= 0)
      ensures !shell.settings.hotCornerEnabled && old(hotCorner.realize) >= 0 && hotCorner.barriers ==>
        shell.hotCornerThreshold == HOT_CORNER_DISABLED && hotCorner.active
    {
      autohide.Init(autohideId);
      hotCorner.Init(cornerId);
      active := true;
    }

    /** `destroy`: an active worker disables auto-hide, runs the hot-corner
        `enable` and becomes inactive. */
    method Destroy(cornerId: int)
      requires Valid() && cornerId > 0
      modifies this`active, autohide, hotCorner, shell`hotCornerThreshold, shell`hotCornerAction
      ensures Valid() && !active
      ensures old(active) ==> !autohide.active && autohide.realize == 0 && hotCorner.realize == 0
      ensures old(active) && shell.settings.hotCornerEnabled && hotCorner.barriers ==>
        shell.hotCornerThreshold == hotCorner.threshold && shell.hotCornerAction == hotCorner.toggleOverview
      ensures !old(active) ==> unchanged(autohide) && unchanged(hotCorner) && unchanged(shell)
    {
      if active {
        autohide.Disable();
        hotCorner.Enable(cornerId);
        active := false;
      }
    }
  }

  /** As written, a re-check that finds the hidden panel idle hides it again,
      and the second hide completion registers a second barrier while
      dropping the only reference to the first. */
  method RehideRegistersSecondBarrier(a: Autohide)
    requires a.Valid() && a.active && a.hidden && !a.barrierTriggered && !a.shell.overviewVisible
    requires a.hoverStates == Some(AllFalse(HOVER_ZONES)) && a.visibleStates == Some(AllFalse(VISIBLE_ZONES))
    requires a.tween == None && a.pendingRechecks > 0
    requires a.barrier.Some? && a.pressureBarrier.value.barriers == [a.barrier.value]
    modifies a, a.shell`panelY
    ensures a.Valid() && a.active && a.hidden && !a.barrierTriggered && a.hoverStates == old(a.hoverStates)
    ensures a.barrier.Some? && a.barrier.value.id == old(a.nextBarrierId)
    ensures a.pressureBarrier.Some? && a.pressureBarrier.value.barriers == [old(a.barrier).value, a.barrier.value]
  {
    assert !AnyHovered(a.hoverStates.value, a.visibleStates.value);
    a.FireRecheck();
    assert a.tween == Some(a.HideTween());
    a.CompleteTween();
  }

  /** Revealing the panel after such a re-hide removes only the second
      barrier: the panel is shown while the first barrier still sits in the
      pressure barrier. */
  method StaleBarrierAfterRehide(a: Autohide)
    requires a.Valid() && a.active && a.hidden && !a.barrierTriggered && !a.shell.overviewVisible
    requires a.hoverStates == Some(AllFalse(HOVER_ZONES)) && a.visibleStates == Some(AllFalse(VISIBLE_ZONES))
    requires a.tween == None && a.pendingRechecks > 0
    requires a.barrier.Some? && a.pressureBarrier.value.barriers == [a.barrier.value]
    requires a.barrier.value.id < a.nextBarrierId
    modifies a, a.shell`panelY
    ensures !a.hidden && a.barrier == None
    ensures a.pressureBarrier.Some? && a.pressureBarrier.value.barriers == [old(a.barrier).value]
  {
    ghost var first := a.barrier.value;
    RehideRegistersSecondBarrier(a);
    ghost var second := a.barrier.value;
    assert second != first;
    a.OnBarrierTriggered();
    assert a.tween == Some(a.ShowTween());
    a.CompleteTween();
    assert [first, second][1..] == [second];
  }
}
