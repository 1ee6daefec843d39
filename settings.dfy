/** lib/mmod/settings.js: the rig (where the extension lives and its settings
    store) and the steward, which owns the six workers, loads the comfort
    preset and applies or removes every modification in a fixed order. */
module Settings {
  import opened Host
  import Comfort
  import Aggregate
  import Position
  import Activities
  import Favorites
  import Date
  import Behavior

  /** The extension's directory: older shells (minor version 2 or less)
      list it in the extension system's metadata, newer ones in the current
      extension object. A version without a minor number counts as newer. */
  function RigPath(version: seq<int>, legacyPath: string, currentPath: string): (r: string)
    ensures |version| > 1 && version[1] <= 2 ==> r == legacyPath
    ensures !(|version| > 1 && version[1] <= 2) ==> r == currentPath
  {
    if |version| > 1 && version[1] <= 2 then legacyPath else currentPath
  }

  /** Ids the host hands out while the modifications are applied: the
      realize subscriptions of four workers, the favorites' deferred-work
      handle and the hot corner's realize subscription. */
  datatype Handles = Handles(position: int, activities: int, favoritesWork: nat, date: int, autohide: int, corner: int)
  {
    predicate Positive() {
      position > 0 && activities > 0 && date > 0 && autohide > 0 && corner > 0
    }
  }

  class Steward {
    const shell: Shell
    var comfortLevel: Option<int>
    var comfortSettings: Option<Comfort.ComfortSettings>
    const aggregate: Aggregate.AggregateMod
    const position: Position.PositionMod
    const activities: Activities.ActivitiesMod
    const favorites: Favorites.FavoritesMod
    const date: Date.DateMod
    const behavior: Behavior.BehaviorMod

    /** Every worker acts on this steward's shell and keeps its own
        invariant. */
    ghost predicate Valid()
      reads this, position, activities, favorites, behavior, behavior.autohide
    {
      aggregate.shell == shell && position.shell == shell && activities.shell == shell &&
      favorites.shell == shell && date.shell == shell && behavior.shell == shell &&
      position.Valid() && activities.Valid() && favorites.Valid() && behavior.Valid()
    }

    /** `init`: no comfort preset yet, and the six workers, all inactive. */
    constructor (shell: Shell)
      ensures this.shell == shell && Valid()
      ensures fresh(aggregate) && fresh(position) && fresh(activities) && fresh(favorites) && fresh(date)
      ensures fresh(behavior) && fresh(behavior.autohide) && fresh(behavior.hotCorner)
      ensures comfortLevel == None && comfortSettings == None
      ensures !aggregate.active && !position.active && !activities.active && !favorites.active &&
              !date.active && !behavior.active
    {
      this.shell := shell;
      comfortLevel := None;
      comfortSettings := None;
      aggregate := new Aggregate.AggregateMod(shell);
      position := new Position.PositionMod(shell);
      activities := new Activities.ActivitiesMod(shell);
      favorites := new Favorites.FavoritesMod(shell);
      date := new Date.DateMod(shell);
      behavior := new Behavior.BehaviorMod(shell);
    }

    /** `loadComfortSettings`: reads the comfort level and hands the same
        preset to the steward and to the position, activities and favorites
        workers. */
    method LoadComfortSettings()
      requires Valid()
      modifies this`comfortLevel, this`comfortSettings,
               position`comfortSettings, activities`comfortSettings, favorites`comfortSettings
      ensures Valid()
      ensures comfortLevel == Some(shell.settings.comfortLevel)
      ensures comfortSettings == Some(Comfort.LoadComfortSettings(shell.settings.comfortLevel))
      ensures position.comfortSettings == comfortSettings && activities.comfortSettings == comfortSettings &&
              favorites.comfortSettings == comfortSettings
    {
      comfortLevel := Some(shell.settings.comfortLevel);
      var r := Comfort.LoadComfortSettings(comfortLevel.value);
      comfortSettings := Some(r);
      position.comfortSettings := Some(r);
      activities.comfortSettings := Some(r);
      favorites.comfortSettings := Some(r);
    }

    /** `modify`: with mmod-panel-enabled off nothing happens; otherwise
        the comfort preset is loaded, then the aggregate, position,
        activities, favorites, date and behavior workers are initialised in
        that order. */
    method Modify(h: Handles)
      requires Valid() && h.Positive()
      requires |shell.activitiesChildren| > 0
      requires Favorites.DistinctIds(shell.favoriteApps) && Favorites.DistinctApps(shell.runningApps)
      modifies this`comfortLevel, this`comfortSettings, aggregate, position, activities, favorites, date,
               behavior, behavior.autohide, behavior.hotCorner,
               shell`aggregateItems, shell`userMenu, shell`styleClasses, shell`panelY, shell`edge,
               shell`activitiesChildren, shell`leftBox, shell`dateMenuBox, shell`dateMenuInTray,
               shell`hotCornerThreshold, shell`hotCornerAction
      ensures Valid() && |shell.activitiesChildren| > 0
      ensures !shell.settings.mmodPanelEnabled ==>
        unchanged(this, aggregate, position, activities, favorites, date) &&
        unchanged(behavior, behavior.autohide, behavior.hotCorner, shell)
      ensures shell.settings.mmodPanelEnabled ==>
        comfortSettings == Some(Comfort.LoadComfortSettings(shell.settings.comfortLevel)) &&
        position.comfortSettings == comfortSettings && activities.comfortSettings == comfortSettings &&
        favorites.comfortSettings == comfortSettings &&
        (shell.settings.showInTrayMenu ==> aggregate.active) &&
        (old(position.realize) >= 0 ==> position.active && shell.edge == Some(shell.settings.panelPosition)) &&
        (shell.settings.panelButtonEnabled && old(activities.realize) >= 0 ==> activities.active) &&
        (shell.settings.displayFavoritesEnabled ==> favorites.active) &&
        (!shell.settings.dateInSysTray || old(date.realize) >= 0 ==> date.active) &&
        behavior.active
    {
      if shell.settings.mmodPanelEnabled {
        Apply(h);
      }
    }

    /** The enabled branch of `modify`. */
    method Apply(h: Handles)
      requires Valid() && h.Positive()
      requires |shell.activitiesChildren| > 0
      requires Favorites.DistinctIds(shell.favoriteApps) && Favorites.DistinctApps(shell.runningApps)
      modifies this`comfortLevel, this`comfortSettings, aggregate, position, activities, favorites, date,
               behavior, behavior.autohide, behavior.hotCorner,
               shell`aggregateItems, shell`userMenu, shell`styleClasses, shell`panelY, shell`edge,
               shell`activitiesChildren, shell`leftBox, shell`dateMenuBox, shell`dateMenuInTray,
               shell`hotCornerThreshold, shell`hotCornerAction
      ensures Valid() && |shell.activitiesChildren| > 0
      ensures comfortSettings == Some(Comfort.LoadComfortSettings(shell.settings.comfortLevel))
      ensures position.comfortSettings == comfortSettings && activities.comfortSettings == comfortSettings &&
              favorites.comfortSettings == comfortSettings
      ensures shell.settings.showInTrayMenu ==> aggregate.active
      ensures old(position.realize) >= 0 ==> position.active && shell.edge == Some(shell.settings.panelPosition)
      ensures shell.settings.panelButtonEnabled && old(activities.realize) >= 0 ==> activities.active
      ensures shell.settings.displayFavoritesEnabled ==> favorites.active
      ensures !shell.settings.dateInSysTray || old(date.realize) >= 0 ==> date.active
      ensures behavior.active
    {
      LoadComfortSettings();
      InitFirst(h);
      InitRest(h);
    }

    /** The first three inits of `modify`. */
    method InitFirst(h: Handles)
      requires Valid() && h.Positive() && |shell.activitiesChildren| > 0
      requires position.comfortSettings.Some? && activities.comfortSettings.Some?
      modifies aggregate, position`realize, position`active, activities`realize, activities`active,
               activities`button, activities`originalLabel,
               shell`aggregateItems, shell`userMenu, shell`styleClasses, shell`panelY, shell`edge,
               shell`activitiesChildren
      ensures Valid() && |shell.activitiesChildren| > 0
      ensures shell.settings.showInTrayMenu ==> aggregate.active
      ensures old(position.realize) >= 0 ==> position.active && shell.edge == Some(shell.settings.panelPosition)
      ensures shell.settings.panelButtonEnabled && old(activities.realize) >= 0 ==> activities.active
    {
      var _ := aggregate.Init();
      position.Init(h.position);
      activities.Init(h.activities);
    }

    /** The last three inits of `modify`. */
    method InitRest(h: Handles)
      requires Valid() && h.Positive()
      requires Favorites.DistinctIds(shell.favoriteApps) && Favorites.DistinctApps(shell.runningApps)
      modifies favorites`box, favorites`boxVisible, favorites`workId, favorites`active, favorites`loaded,
               favorites`connections, favorites`favorites, favorites`list, favorites`running, favorites`previous,
               favorites`displayed, favorites`nextIcon, date, behavior, behavior.autohide, behavior.hotCorner,
               shell`leftBox, shell`dateMenuBox, shell`dateMenuInTray, shell`hotCornerThreshold, shell`hotCornerAction
      ensures Valid()
      ensures shell.settings.displayFavoritesEnabled ==> favorites.active
      ensures !shell.settings.dateInSysTray || old(date.realize) >= 0 ==> date.active
      ensures behavior.active
    {
      favorites.Init(h.favoritesWork);
      date.Init(h.date);
      behavior.Init(h.autohide, h.corner);
    }

    /** `unmodify`: destroys the six workers in the same order, whatever the
        settings say, and forgets the comfort preset. */
    method Unmodify(cornerId: int)
      requires Valid() && cornerId > 0
      modifies this`comfortLevel, this`comfortSettings, aggregate, position, activities, favorites, date,
               behavior, behavior.autohide, behavior.hotCorner,
               shell`aggregateItems, shell`userMenu, shell`styleClasses, shell`panelY, shell`edge,
               shell`activitiesChildren, shell`leftBox, shell`dateMenuBox, shell`dateMenuInTray,
               shell`hotCornerThreshold, shell`hotCornerAction
      ensures Valid() && (old(|shell.activitiesChildren|) > 0 ==> |shell.activitiesChildren| > 0)
      ensures !aggregate.active && !position.active && !activities.active && !favorites.active &&
              !date.active && !behavior.active
      ensures comfortLevel == None && comfortSettings == None
    {
      DestroyFirst();
      DestroyRest(cornerId);
      comfortLevel := None;
      comfortSettings := None;
    }

    /** The first three destroys of `unmodify`. */
    method DestroyFirst()
      requires Valid()
      modifies aggregate, position`realize, position`active, activities`realize, activities`active,
               activities`button, activities`originalLabel,
               shell`aggregateItems, shell`userMenu, shell`styleClasses, shell`panelY, shell`edge,
               shell`activitiesChildren
      ensures Valid() && !aggregate.active && !position.active && !activities.active
      ensures old(|shell.activitiesChildren|) > 0 ==> |shell.activitiesChildren| > 0
    {
      aggregate.Destroy();
      position.Destroy();
      activities.Destroy();
    }

    /** The last three destroys of `unmodify`. */
    method DestroyRest(cornerId: int)
      requires Valid() && cornerId > 0
      modifies favorites`connections, favorites`previous, favorites`list, favorites`displayed, favorites`loaded,
               favorites`favorites, favorites`running, favorites`box, favorites`workId, favorites`active,
               date, behavior, behavior.autohide, behavior.hotCorner,
               shell`leftBox, shell`dateMenuBox, shell`dateMenuInTray, shell`hotCornerThreshold, shell`hotCornerAction
      ensures Valid() && !favorites.active && !date.active && !behavior.active
    {
      favorites.Destroy();
      date.Destroy();
      behavior.Destroy(cornerId);
    }
  }
}
