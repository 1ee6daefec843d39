/** The parts of the running desktop shell that the extension reads and
    patches: the panel box, the primary monitor, the overview, the hot corner,
    the status-area menus, the app system and the extension's settings store.
    Every worker of the extension receives the one `Shell` object explicitly
    instead of reaching for global lookups. */
module Host {

  datatype Option<T> = None | Some(value: T) {
    /** The value, or `default` when there is none. */
    function GetOr(default: T): T {
      if Some? then value else default
    }
  }

  /** The primary monitor's geometry. */
  datatype Monitor = Monitor(x: int, y: int, width: int, height: int)

  /** Panel edge values of the `panel-position` enum. */
  const EDGE_BOTTOM: int := 0
  const EDGE_TOP: int := 1

  /** The extension's settings store (one field per key the core reads or
      writes). Floating-point keys are held as integer milliseconds. */
  datatype Prefs = Prefs(
    mmodPanelEnabled: bool,
    comfortLevel: int,
    panelPosition: int,
    showInTrayMenu: bool,
    panelButtonEnabled: bool,
    panelButtonIcon: int,
    panelButtonIconPath: string,
    displayFavoritesEnabled: bool,
    showRunningApps: bool,
    favoritesBeforePreferences: bool,
    dateInSysTray: bool,
    autohidePanel: bool,
    autohidePressureThreshold: int,
    autohideDelay: int,
    autohideAnimationTime: int,
    autohideAnimationDelay: int,
    hotCornerEnabled: bool,
    firstRun: bool)

  /** An application of the app system; two apps are the same object exactly
      when they are equal values. */
  datatype App = App(id: string, windowBacked: bool)

  /** Children of panel containers that the extension moves around. */
  datatype Actor =
    | Label(name: string)
    | PanelButton(iconPath: string, style: string)
    | FavoritesBox
    | Widget(name: string)

  /** Which panel box holds the date menu. */
  datatype Box = CenterBox | RightBox

  /** Entries of a popup menu: the extension's own separator and submenu are
      told apart from the host's entries. */
  datatype MenuEntry = Separator | MmodSeparator | MmodSubmenu | Entry(name: string)

  /** An item of the system-tray (aggregate) menu; `submenu` is true when the
      item has an `addMenuItem` method, and `entries` are its menu's entries. */
  datatype MenuItem = MenuItem(submenu: bool, entries: seq<MenuEntry>)

  /** What the hot corner runs when triggered: the host's own overview toggle,
      or a plain number written over it. */
  datatype CornerAction = ToggleOverview | Number(n: int)

  /** `s` with `x` inserted before position `pos`, appended when `pos` is past
      the end (how the toolkit inserts a child or a menu item at an index). */
  function InsertAt<T>(s: seq<T>, x: T, pos: nat): (r: seq<T>)
    ensures |r| == |s| + 1
    ensures pos <= |s| ==> r[pos] == x && r[..pos] == s[..pos] && r[pos + 1..] == s[pos..]
    ensures pos > |s| ==> r == s + [x]
  {
    if pos <= |s| then
      assert s == s[..pos] + s[pos..];
      s[..pos] + [x] + s[pos..]
    else s + [x]
  }

  /** The index of the first occurrence of `x` in `s`. */
  function FirstIndex<T(==)>(s: seq<T>, x: T): (i: nat)
    requires x in s
    ensures i < |s| && s[i] == x && x !in s[..i]
  {
    if s[0] == x then 0
    else
      assert s == [s[0]] + s[1..];
      var j := FirstIndex(s[1..], x);
      assert s[..j + 1] == [s[0]] + s[1..][..j];
      j + 1
  }

  /** `s` without its first occurrence of `x` (unchanged when absent). */
  function RemoveFirst<T(==)>(s: seq<T>, x: T): (r: seq<T>)
    ensures x !in s ==> r == s
    ensures x in s ==> |r| == |s| - 1
  {
    if s == [] then []
    else if s[0] == x then s[1..]
    else
      assert s == [s[0]] + s[1..];
      [s[0]] + RemoveFirst(s[1..], x)
  }

  /** What `RemoveFirst` removes is exactly the first occurrence: the
      elements before and after it stay, in order. */
  lemma {:induction false} RemoveFirstAt<T>(s: seq<T>, x: T)
    requires x in s
    ensures RemoveFirst(s, x) == s[..FirstIndex(s, x)] + s[FirstIndex(s, x) + 1..]
  {
    if s[0] != x {
      assert s == [s[0]] + s[1..];
      var j := FirstIndex(s[1..], x);
      RemoveFirstAt(s[1..], x);
      assert s[..j + 1] == [s[0]] + s[1..][..j];
      assert s[j + 2..] == s[1..][j + 1..];
    }
  }

  /** Removing `x` passes over a head that is not `x`. */
  lemma RemoveFirstSkips<T>(h: T, t: seq<T>, x: T)
    requires h != x
    ensures RemoveFirst([h] + t, x) == [h] + RemoveFirst(t, x)
  {
    assert ([h] + t)[1..] == t;
  }

  /** Removing `x` from a sequence that starts with `x` drops the head. */
  lemma RemoveFirstHead<T>(x: T, t: seq<T>)
    ensures RemoveFirst([x] + t, x) == t
  {
    assert ([x] + t)[1..] == t;
  }

  class Shell {
    /** `main.layoutManager.primaryMonitor` */
    const monitor: Monitor
    /** `global.display.supports_extended_barriers()` */
    const barriersSupported: bool

    /** The extension's settings store. */
    var settings: Prefs

    /** y coordinate of the panel box. */
    var panelY: int
    /** Height of the panel box, as laid out by the host. */
    var panelHeight: int
    /** `main.panel.edge`, a property the extension adds and deletes. */
    var edge: Option<int>
    /** Style classes of the panel. */
    var styleClasses: set<string>
    /** `main.overview.visible` */
    var overviewVisible: bool

    /** Threshold and action of the primary hot corner. */
    var hotCornerThreshold: int
    var hotCornerAction: CornerAction

    /** Children of the activities button's actor. */
    var activitiesChildren: seq<Actor>
    /** Children of the panel's left box. */
    var leftBox: seq<Actor>
    /** The box that holds the date menu, and its `inTray` property
        (None when the property is absent or null). */
    var dateMenuBox: Box
    var dateMenuInTray: Option<bool>

    /** `main.panel.statusArea.aggregateMenu.menu._getMenuItems()`, None when
        the aggregate menu is undefined; a None element is a missing item. */
    var aggregateItems: Option<seq<Option<MenuItem>>>
    /** Entries of the user menu (the tray menu of older shells). */
    var userMenu: seq<MenuEntry>

    /** The app system's favorites (in favorite order) and running apps. */
    var favoriteApps: seq<App>
    var runningApps: seq<App>

    constructor (monitor: Monitor, barriersSupported: bool, settings: Prefs)
      ensures this.monitor == monitor && this.barriersSupported == barriersSupported
      ensures this.settings == settings
    {
      this.monitor := monitor;
      this.barriersSupported := barriersSupported;
      this.settings := settings;
    }
  }
}
