/** lib/mmod/overrides.js: the `AppIconOverride` app-icon class (the
    favorites box builds the host's stock app icon instead). A left press
    arms a timer that pops up the icon's menu, a right press pops it up at
    once, and a click minimizes or activates the app's windows. */
module Overrides {
  import opened Host

  /** `MENU_POPUP_TIMEOUT`, in milliseconds. */
  const MENU_POPUP_TIMEOUT: nat := 600

  /** The states of a shell app. */
  datatype AppState = Stopped | Starting | Running

  /** What a window of the app looks like to a click. */
  datatype Window = Window(minimized: bool, focused: bool, skipTaskbar: bool)

  /** Event-handler results of the toolkit. */
  datatype EventResult = Propagate | Stop

  /** Calls the icon makes into the shell, in the order it makes them. */
  datatype Effect =
    | Minimize(window: nat)
    | AnimateLaunch
    | OpenNewWindow
    | ActivateApp
    | HideOverview
    | PopupMenu

  /** `activate`'s choice to open a new window: the app can open one, Ctrl is
      held and the app is running, or the middle button was used. */
  function OpensNewWindow(canOpenNew: bool, ctrl: bool, state: AppState, button: int): bool {
    (canOpenNew && ctrl && state == Running) || button == 2
  }

  /** The calls `activate` makes. */
  function ActivateEffects(canOpenNew: bool, ctrl: bool, state: AppState, button: int): (r: seq<Effect>)
    ensures |r| >= 2 && r[|r| - 1] == HideOverview
    ensures AnimateLaunch in r <==> state == Stopped || OpensNewWindow(canOpenNew, ctrl, state, button)
    ensures OpenNewWindow in r <==> OpensNewWindow(canOpenNew, ctrl, state, button)
    ensures ActivateApp in r <==> !OpensNewWindow(canOpenNew, ctrl, state, button)
  {
    var openNew := OpensNewWindow(canOpenNew, ctrl, state, button);
    (if state == Stopped || openNew then [AnimateLaunch] else []) +
    (if openNew then [OpenNewWindow] else [ActivateApp]) +
    [HideOverview]
  }

  /** The calls a click makes for the windows from index `from` on: each
      window shown in the taskbar is minimized when it is unminimized and
      focused, and otherwise the app is activated once for it. */
  function ClickEffects(windows: seq<Window>, from: nat, canOpenNew: bool, ctrl: bool, state: AppState, button: int): seq<Effect>
    decreases |windows| - from
  {
    if from >= |windows| then []
    else
      WindowEffects(windows[from], from, canOpenNew, ctrl, state, button) +
      ClickEffects(windows, from + 1, canOpenNew, ctrl, state, button)
  }

  /** What a click does for the window at `index`: nothing when it is not in
      the taskbar, a minimize when it is unminimized and focused, otherwise
      the app's activation. */
  function WindowEffects(w: Window, index: nat, canOpenNew: bool, ctrl: bool, state: AppState, button: int): seq<Effect> {
    if w.skipTaskbar then []
    else if !w.minimized && w.focused then [Minimize(index)]
    else ActivateEffects(canOpenNew, ctrl, state, button)
  }

  /** Windows shown in the taskbar from index `from` on. */
  function TaskbarWindows(windows: seq<Window>, from: nat): nat
    decreases |windows| - from
  {
    if from >= |windows| then 0
    else (if windows[from].skipTaskbar then 0 else 1) + TaskbarWindows(windows, from + 1)
  }

  /** Minimizations and overview hides in a sequence of effects: one per
      window a click acts on. */
  function Acts(effects: seq<Effect>): nat {
    if effects == [] then 0
    else (if effects[0].Minimize? || effects[0] == HideOverview then 1 else 0) + Acts(effects[1..])
  }

  lemma {:induction false} ActsAppend(a: seq<Effect>, b: seq<Effect>)
    ensures Acts(a + b) == Acts(a) + Acts(b)
  {
    if a == [] {
      assert a + b == b;
    } else {
      assert (a + b)[1..] == a[1..] + b;
      ActsAppend(a[1..], b);
    }
  }

  /** One activation hides the overview once and minimizes nothing. */
  lemma ActivateActsOnce(canOpenNew: bool, ctrl: bool, state: AppState, button: int)
    ensures Acts(ActivateEffects(canOpenNew, ctrl, state, button)) == 1
  {
    var openNew := OpensNewWindow(canOpenNew, ctrl, state, button);
    var launch: seq<Effect> := if state == Stopped || openNew then [AnimateLaunch] else [];
    var open: seq<Effect> := if openNew then [OpenNewWindow] else [ActivateApp];
    ActsAppend(launch + open, [HideOverview]);
    ActsAppend(launch, open);
  }

  /** A click acts once per window shown in the taskbar: every such window
      is either minimized or activates the app, which hides the overview
      once; with no such window a click does nothing. */
  lemma {:induction false} ClickActsOncePerWindow(windows: seq<Window>, from: nat, canOpenNew: bool, ctrl: bool, state: AppState, button: int)
    ensures Acts(ClickEffects(windows, from, canOpenNew, ctrl, state, button)) == TaskbarWindows(windows, from)
    ensures TaskbarWindows(windows, from) == 0 <==> ClickEffects(windows, from, canOpenNew, ctrl, state, button) == []
    decreases |windows| - from
  {
    if from < |windows| {
      ClickActsOncePerWindow(windows, from + 1, canOpenNew, ctrl, state, button);
      var w := windows[from];
      var head := WindowEffects(w, from, canOpenNew, ctrl, state, button);
      var tail := ClickEffects(windows, from + 1, canOpenNew, ctrl, state, button);
      ActsAppend(head, tail);
      if !w.skipTaskbar && !(!w.minimized && w.focused) {
        ActivateActsOnce(canOpenNew, ctrl, state, button);
      }
    }
  }

  /** A window after a click: minimized when the click minimizes it. */
  function ClickWindow(w: Window): Window {
    if !w.skipTaskbar && !w.minimized && w.focused then w.(minimized := true) else w
  }

  /** The windows after a click. */
  function AfterClick(windows: seq<Window>): (r: seq<Window>)
    ensures |r| == |windows| && forall i :: 0 <= i < |windows| ==> r[i] == ClickWindow(windows[i])
  {
    seq(|windows|, i requires 0 <= i < |windows| => ClickWindow(windows[i]))
  }

  /** An `AppIconOverride`: its popup timer, its app-state subscription, its
      running dot and its menu. */
  class AppIcon {
    var state: AppState
    var canOpenNew: bool
    var windows: seq<Window>
    /** `_menuTimeoutId`, 0 when no popup timeout is pending. */
    var menuTimeoutId: nat
    /** Popup-timer sources pending in the main loop for this icon. */
    var pendingTimers: set<nat>
    /** `_stateChangedId`, and whether that subscription exists. */
    var stateChangedId: nat
    var stateConnected: bool
    var dotVisible: bool
    var hover: bool
    /** The menu, None until first popped up; its value is `isOpen`. */
    var menu: Option<bool>
    /** Calls made into the shell. */
    var effects: seq<Effect>

    /** At most one popup timer is pending, and it is the recorded one; the
        subscription exists exactly while its id is set. */
    ghost predicate Valid()
      reads this
    {
      pendingTimers == (if menuTimeoutId > 0 then {menuTimeoutId} else {}) &&
      (stateConnected <==> stateChangedId > 0)
    }

    /** `_init` (the parts the model keeps): no timeout, the app-state
        subscription `stateId`, and the dot updated. */
    constructor (state: AppState, canOpenNew: bool, windows: seq<Window>, stateId: nat)
      requires stateId > 0
      ensures Valid()
      ensures this.state == state && this.canOpenNew == canOpenNew && this.windows == windows
      ensures menuTimeoutId == 0 && stateChangedId == stateId && stateConnected
      ensures dotVisible == (state != Stopped) && !hover && menu == None && effects == []
    {
      this.state := state;
      this.canOpenNew := canOpenNew;
      this.windows := windows;
      menuTimeoutId := 0;
      pendingTimers := {};
      stateChangedId := stateId;
      stateConnected := true;
      dotVisible := state != Stopped;
      hover := false;
      menu := None;
      effects := [];
    }

    /** `_removeMenuTimeout`: cancels a pending timeout and clears its id;
        nothing when none is pending. */
    method RemoveMenuTimeout()
      requires Valid()
      modifies this`menuTimeoutId, this`pendingTimers
      ensures Valid() && menuTimeoutId == 0 && pendingTimers == {}
    {
      if menuTimeoutId > 0 {
        pendingTimers := pendingTimers - {menuTimeoutId};
        menuTimeoutId := 0;
      }
    }

    /** `_setPopupTimeout`: cancels any pending timeout, then arms a new one
        whose source id the main loop hands out. */
    method SetPopupTimeout(sourceId: nat)
      requires Valid() && sourceId > 0
      modifies this`menuTimeoutId, this`pendingTimers
      ensures Valid() && menuTimeoutId == sourceId && pendingTimers == {sourceId}
    {
      RemoveMenuTimeout();
      menuTimeoutId := sourceId;
      pendingTimers := pendingTimers + {sourceId};
    }

    /** The popup timeout fires: its id is cleared first, then the menu pops
        up. */
    method FirePopupTimeout(id: nat)
      requires Valid() && id in pendingTimers
      modifies this`menuTimeoutId, this`pendingTimers, this`menu, this`hover, this`effects
      ensures Valid() && menuTimeoutId == 0 && pendingTimers == {}
      ensures menu == Some(true) && hover && effects == old(effects) + [PopupMenu]
      ensures !ShouldShowTooltip()
    {
      pendingTimers := pendingTimers - {id};
      menuTimeoutId := 0;
      Popup();
    }

    /** `popupMenu`: cancels the timeout, creates the menu on first use,
        sets hover and opens the menu. */
    method Popup()
      requires Valid()
      modifies this`menuTimeoutId, this`pendingTimers, this`menu, this`hover, this`effects
      ensures Valid() && menuTimeoutId == 0 && pendingTimers == {}
      ensures menu == Some(true) && hover && effects == old(effects) + [PopupMenu]
      ensures !ShouldShowTooltip()
    {
      RemoveMenuTimeout();
      if menu.None? {
        menu := Some(false);
      }
      hover := true;
      menu := Some(true);
      effects := effects + [PopupMenu];
    }

    /** `_onMenuPoppedDown`: the menu is closed and hover is synced with the
        pointer. */
    method OnMenuPoppedDown(pointerOver: bool)
      requires menu.Some?
      modifies this`menu, this`hover
      ensures menu == Some(false) && hover == pointerOver
      ensures ShouldShowTooltip() == pointerOver
    {
      menu := Some(false);
      hover := pointerOver;
    }

    /** `_onButtonPress`: the left button arms the popup timeout and lets
        the event through; the right button pops up the menu and stops the
        event; any other button lets it through. */
    method OnButtonPress(button: int, sourceId: nat) returns (r: EventResult)
      requires Valid() && sourceId > 0
      modifies this`menuTimeoutId, this`pendingTimers, this`menu, this`hover, this`effects
      ensures Valid()
      ensures r == Stop <==> button == 3
      ensures button == 1 ==> menuTimeoutId == sourceId && unchanged(this`menu, this`hover, this`effects)
      ensures button == 3 ==> menuTimeoutId == 0 && menu == Some(true) && effects == old(effects) + [PopupMenu]
      ensures button != 1 && button != 3 ==> unchanged(this)
    {
      if button == 1 {
        SetPopupTimeout(sourceId);
      } else if button == 3 {
        Popup();
        return Stop;
      }
      return Propagate;
    }

    /** `_onTouchEvent`: a touch begin arms the popup timeout; the event is
        always let through. */
    method OnTouchEvent(touchBegin: bool, sourceId: nat) returns (r: EventResult)
      requires Valid() && sourceId > 0
      modifies this`menuTimeoutId, this`pendingTimers
      ensures Valid() && r == Propagate
      ensures touchBegin ==> menuTimeoutId == sourceId
      ensures !touchBegin ==> unchanged(this)
    {
      if touchBegin {
        SetPopupTimeout(sourceId);
      }
      return Propagate;
    }

    /** `_onLeaveEvent`: the pointer leaving cancels the popup timeout. */
    method OnLeaveEvent()
      requires Valid()
      modifies this`menuTimeoutId, this`pendingTimers
      ensures Valid() && menuTimeoutId == 0
    {
      RemoveMenuTimeout();
    }

    /** `_updateRunningStyle`: the dot shows exactly when the app is not
        stopped. */
    method UpdateRunningStyle()
      modifies this`dotVisible
      ensures dotVisible <==> state != Stopped
    {
      if state != Stopped {
        dotVisible := true;
      } else {
        dotVisible := false;
      }
    }

    /** The `notify::state` handler. */
    method OnStateChanged(newState: AppState)
      requires stateConnected
      modifies this`state, this`dotVisible
      ensures state == newState && (dotVisible <==> newState != Stopped)
    {
      state := newState;
      UpdateRunningStyle();
    }

    /** `activate`: Ctrl is the state of the current event (not held when
        there is none). */
    method Activate(button: int, ctrl: bool)
      modifies this`effects
      ensures effects == old(effects) + ActivateEffects(canOpenNew, ctrl, state, button)
    {
      var openNew := OpensNewWindow(canOpenNew, ctrl, state, button);
      var calls: seq<Effect> := [];
      if state == Stopped || openNew {
        calls := calls + [AnimateLaunch];
      }
      if openNew {
        calls := calls + [OpenNewWindow];
      } else {
        calls := calls + [ActivateApp];
      }
      calls := calls + [HideOverview];
      effects := effects + calls;
    }

    /** `_onClicked`: cancels the popup timeout, then for each window shown
        in the taskbar minimizes it when it is unminimized and focused, and
        otherwise activates the app. */
    method OnClicked(button: int, ctrl: bool)
      requires Valid()
      modifies this`menuTimeoutId, this`pendingTimers, this`effects, this`windows
      ensures Valid() && menuTimeoutId == 0
      ensures effects == old(effects) + ClickEffects(old(windows), 0, canOpenNew, ctrl, state, button)
      ensures windows == AfterClick(old(windows))
    {
      RemoveMenuTimeout();
      ActOnWindows(button, ctrl);
    }

    /** The window loop of `_onClicked`. */
    method ActOnWindows(button: int, ctrl: bool)
      modifies this`effects, this`windows
      ensures effects == old(effects) + ClickEffects(old(windows), 0, canOpenNew, ctrl, state, button)
      ensures windows == AfterClick(old(windows))
    {
      ghost var w0 := windows;
      ghost var e0 := effects;
      var i := 0;
      while i < |windows|
        invariant 0 <= i <= |windows| == |w0|
        invariant forall k :: 0 <= k < |w0| ==> windows[k] == if k < i then ClickWindow(w0[k]) else w0[k]
        invariant e0 + ClickEffects(w0, 0, canOpenNew, ctrl, state, button) ==
          effects + ClickEffects(w0, i, canOpenNew, ctrl, state, button)
      {
        ghost var before := effects;
        ghost var head := WindowEffects(w0[i], i, canOpenNew, ctrl, state, button);
        ghost var rest := ClickEffects(w0, i + 1, canOpenNew, ctrl, state, button);
        assert before + (head + rest) == (before + head) + rest;
        ClickOne(i, button, ctrl);
        i := i + 1;
      }
    }

    /** One pass of the window loop: the window at `i` is minimized or the
        app activated, and nothing else changes. */
    method ClickOne(i: nat, button: int, ctrl: bool)
      requires i < |windows|
      modifies this`effects, this`windows
      ensures windows == old(windows)[i := ClickWindow(old(windows)[i])]
      ensures effects == old(effects) + WindowEffects(old(windows)[i], i, canOpenNew, ctrl, state, button)
    {
      var w := windows[i];
      if !w.skipTaskbar {
        if !w.minimized && w.focused {
          windows := windows[i := w.(minimized := true)];
          effects := effects + [Minimize(i)];
        } else {
          Activate(button, ctrl);
        }
      }
    }

    /** `_onDestroy`: drops the app-state subscription when it has one,
        clears its id and cancels the popup timeout. */
    method OnDestroy()
      requires Valid()
      modifies this`stateChangedId, this`stateConnected, this`menuTimeoutId, this`pendingTimers
      ensures Valid() && !stateConnected && stateChangedId == 0 && menuTimeoutId == 0 && pendingTimers == {}
    {
      if stateChangedId > 0 {
        stateConnected := false;
      }
      stateChangedId := 0;
      RemoveMenuTimeout();
    }

    /** `shouldShowTooltip`: hovered, and the menu is absent or closed. */
    function ShouldShowTooltip(): (r: bool)
      reads this
    {
      hover && (menu.None? || !menu.value)
    }
  }

  /** An icon that is pressed with the left button and then clicked never
      pops up its menu afterwards: the click cancels the armed timeout. */
  method PressThenClickCancelsPopup(icon: AppIcon, sourceId: nat, ctrl: bool)
    requires icon.Valid() && sourceId > 0
    modifies icon
    ensures icon.Valid() && icon.menuTimeoutId == 0 && icon.pendingTimers == {}
  {
    var _ := icon.OnButtonPress(1, sourceId);
    icon.OnClicked(1, ctrl);
  }
}
