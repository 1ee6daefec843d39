/** extension.js: the extension's entry point. It remembers whether this is
    the first run, applies the modifications on enable, removes them on
    disable, and re-applies everything whenever one of its settings changes. */
module Extension {
  import opened Host
  import Settings
  import Favorites

  /** The settings keys whose change restarts the extension, in
      subscription order. */
  const WATCHED_KEYS: seq<string> := [
    "mmod-panel-enabled", "comfort-level", "panel-position", "show-in-tray-menu",
    "panel-button-enabled", "panel-button-icon", "panel-button-icon-path",
    "display-favorites-enabled", "show-running-apps", "favorites-before-preferences",
    "date-in-sys-tray", "autohide-panel", "autohide-pressure-threshold", "autohide-delay",
    "autohide-animation-time", "autohide-animation-delay", "hot-corner-enabled"]

  /** The extension object (`mmodge`). */
  class Mmodge {
    const shell: Shell
    const steward: Settings.Steward
    var firstRun: bool
    /** The settings subscriptions, one per watched key, when connected. */
    var connections: Option<seq<string>>
    /** How many times the preferences window has been launched. */
    var prefsLaunches: nat

    ghost predicate Valid()
      reads this, steward, steward.position, steward.activities, steward.favorites, steward.behavior,
            steward.behavior.autohide
    {
      steward.shell == shell && steward.Valid()
    }

    /** `init`: creates the steward and takes the first-run flag from the
        settings, clearing it there. */
    constructor (shell: Shell)
      modifies shell`settings
      ensures this.shell == shell && Valid() && fresh(steward)
      ensures fresh(steward.aggregate) && fresh(steward.position) && fresh(steward.activities) &&
              fresh(steward.favorites) && fresh(steward.date)
      ensures fresh(steward.behavior) && fresh(steward.behavior.autohide) && fresh(steward.behavior.hotCorner)
      ensures firstRun == old(shell.settings.firstRun)
      ensures shell.settings == old(shell.settings).(firstRun := false)
      ensures connections == None && prefsLaunches == 0
    {
      this.shell := shell;
      steward := new Settings.Steward(shell);
      connections := None;
      prefsLaunches := 0;
      firstRun := false;
      new;
      if shell.settings.firstRun {
        firstRun := true;
        shell.settings := shell.settings.(firstRun := false);
      }
    }

    /** `connect`: one subscription per watched key. */
    method Connect()
      modifies this`connections
      ensures connections == Some(WATCHED_KEYS)
    {
      connections := Some(WATCHED_KEYS);
    }

    /** `disconnect`: drops the subscriptions when there are any. */
    method Disconnect()
      modifies this`connections
      ensures connections == None
    {
      if connections.Some? {
        connections := None;
      }
    }

    /** `enable`: applies the modifications, subscribes, and launches the
        preferences window when this is the first run. The flag is never
        cleared, so every later `enable` launches it again. */
    method Enable(h: Settings.Handles)
      requires Valid() && h.Positive()
      requires |shell.activitiesChildren| > 0
      requires Favorites.DistinctIds(shell.favoriteApps) && Favorites.DistinctApps(shell.runningApps)
      modifies this`connections, this`prefsLaunches, steward`comfortLevel, steward`comfortSettings,
               steward.aggregate, steward.position, steward.activities, steward.favorites, steward.date,
               steward.behavior, steward.behavior.autohide, steward.behavior.hotCorner,
               shell`aggregateItems, shell`userMenu, shell`styleClasses, shell`panelY, shell`edge,
               shell`activitiesChildren, shell`leftBox, shell`dateMenuBox, shell`dateMenuInTray,
               shell`hotCornerThreshold, shell`hotCornerAction
      ensures Valid() && connections == Some(WATCHED_KEYS) && firstRun == old(firstRun)
      ensures |shell.activitiesChildren| > 0
      ensures prefsLaunches == old(prefsLaunches) + (if firstRun then 1 else 0)
      ensures shell.settings.mmodPanelEnabled ==> steward.behavior.active
    {
      steward.Modify(h);
      Connect();
      if firstRun {
        prefsLaunches := prefsLaunches + 1;
      }
    }

    /** `enable` as evidently intended: the preferences window opens on the
        first run only, so the flag is cleared once it has been used. */
    method EnableIntended(h: Settings.Handles)
      requires Valid() && h.Positive()
      requires |shell.activitiesChildren| > 0
      requires Favorites.DistinctIds(shell.favoriteApps) && Favorites.DistinctApps(shell.runningApps)
      modifies this`connections, this`prefsLaunches, this`firstRun, steward`comfortLevel, steward`comfortSettings,
               steward.aggregate, steward.position, steward.activities, steward.favorites, steward.date,
               steward.behavior, steward.behavior.autohide, steward.behavior.hotCorner,
               shell`aggregateItems, shell`userMenu, shell`styleClasses, shell`panelY, shell`edge,
               shell`activitiesChildren, shell`leftBox, shell`dateMenuBox, shell`dateMenuInTray,
               shell`hotCornerThreshold, shell`hotCornerAction
      ensures Valid() && connections == Some(WATCHED_KEYS) && !firstRun
      ensures |shell.activitiesChildren| > 0
      ensures prefsLaunches == old(prefsLaunches) + (if old(firstRun) then 1 else 0)
      ensures shell.settings.mmodPanelEnabled ==> steward.behavior.active
    {
      steward.Modify(h);
      Connect();
      if firstRun {
        prefsLaunches := prefsLaunches + 1;
        firstRun := false;
      }
    }

    /** `disable`: unsubscribes first, then removes every modification. */
    method Disable(cornerId: int)
      requires Valid() && cornerId > 0
      modifies this`connections, steward`comfortLevel, steward`comfortSettings,
               steward.aggregate, steward.position, steward.activities, steward.favorites, steward.date,
               steward.behavior, steward.behavior.autohide, steward.behavior.hotCorner,
               shell`aggregateItems, shell`userMenu, shell`styleClasses, shell`panelY, shell`edge,
               shell`activitiesChildren, shell`leftBox, shell`dateMenuBox, shell`dateMenuInTray,
               shell`hotCornerThreshold, shell`hotCornerAction
      ensures Valid() && connections == None
      ensures old(|shell.activitiesChildren|) > 0 ==> |shell.activitiesChildren| > 0
      ensures !steward.aggregate.active && !steward.position.active && !steward.activities.active &&
              !steward.favorites.active && !steward.date.active && !steward.behavior.active
      ensures steward.comfortSettings == None
    {
      Disconnect();
      steward.Unmodify(cornerId);
    }

    /** `onPreferenceChanged` with the intended `enable`. */
    method OnPreferenceChangedIntended(h: Settings.Handles)
      requires Valid() && h.Positive()
      requires |shell.activitiesChildren| > 0
      requires Favorites.DistinctIds(shell.favoriteApps) && Favorites.DistinctApps(shell.runningApps)
      modifies this`connections, this`prefsLaunches, this`firstRun, steward`comfortLevel, steward`comfortSettings,
               steward.aggregate, steward.position, steward.activities, steward.favorites, steward.date,
               steward.behavior, steward.behavior.autohide, steward.behavior.hotCorner,
               shell`aggregateItems, shell`userMenu, shell`styleClasses, shell`panelY, shell`edge,
               shell`activitiesChildren, shell`leftBox, shell`dateMenuBox, shell`dateMenuInTray,
               shell`hotCornerThreshold, shell`hotCornerAction
      ensures Valid() && connections == Some(WATCHED_KEYS) && !firstRun
      ensures prefsLaunches == old(prefsLaunches) + (if old(firstRun) then 1 else 0)
    {
      Disable(h.corner);
      EnableIntended(h);
    }

    /** `onPreferenceChanged`: exactly `disable` followed by `enable`. */
    method OnPreferenceChanged(h: Settings.Handles)
      requires Valid() && h.Positive()
      requires |shell.activitiesChildren| > 0
      requires Favorites.DistinctIds(shell.favoriteApps) && Favorites.DistinctApps(shell.runningApps)
      modifies this`connections, this`prefsLaunches, steward`comfortLevel, steward`comfortSettings,
               steward.aggregate, steward.position, steward.activities, steward.favorites, steward.date,
               steward.behavior, steward.behavior.autohide, steward.behavior.hotCorner,
               shell`aggregateItems, shell`userMenu, shell`styleClasses, shell`panelY, shell`edge,
               shell`activitiesChildren, shell`leftBox, shell`dateMenuBox, shell`dateMenuInTray,
               shell`hotCornerThreshold, shell`hotCornerAction
      ensures Valid() && connections == Some(WATCHED_KEYS)
      ensures prefsLaunches == old(prefsLaunches) + (if firstRun then 1 else 0)
    {
      Disable(h.corner);
      Enable(h);
    }
  }

  /** As written, in a first-run session every settings change opens the
      preferences window again: enabling and then changing one setting
      launches it twice. */
  method PrefsRelaunchedOnChange(shell: Shell, h: Settings.Handles) returns (launches: nat)
    requires shell.settings.firstRun && h.Positive() && |shell.activitiesChildren| > 0
    requires Favorites.DistinctIds(shell.favoriteApps) && Favorites.DistinctApps(shell.runningApps)
    modifies shell
    ensures launches == 2
  {
    var ext := new Mmodge(shell);
    ext.Enable(h);
    ext.OnPreferenceChanged(h);
    launches := ext.prefsLaunches;
  }

  /** With the flag cleared after use, a settings change after the first
      enable does not open the preferences window again. */
  method PrefsLaunchedOnceIntended(shell: Shell, h: Settings.Handles) returns (launches: nat)
    requires shell.settings.firstRun && h.Positive() && |shell.activitiesChildren| > 0
    requires Favorites.DistinctIds(shell.favoriteApps) && Favorites.DistinctApps(shell.runningApps)
    modifies shell
    ensures launches == 1
  {
    var ext := new Mmodge(shell);
    ext.EnableIntended(h);
    ext.OnPreferenceChangedIntended(h);
    launches := ext.prefsLaunches;
  }
}
