# mmod-panel core, modelled in Dafny

mmod-panel is a GNOME Shell extension. It rearranges the top panel:

- it moves the panel to the bottom or the top edge;
- it replaces the activities label with an icon button;
- it shows favourite and running apps as icons in the panel;
- it moves the date menu into the system tray;
- it adds an "MMOD-Panel" submenu to the tray menu;
- it can auto-hide the panel behind a pressure barrier, and can suppress the hot corner.

This project models the decision logic and the state machines of the extension, file by file:

- the extension object and its enable/disable cycle (`extension.dfy`);
- the steward that applies and removes the six modifications (`settings.dfy`), with its comfort presets (`comfort.dfy`);
- each of the six workers: position (`position.dfy`), activities button (`activities.dfy`), favourites box (`favorites.dfy`), date menu (`date.dfy`), tray submenu (`aggregate.dfy`), and auto-hide plus hot corner (`behavior.dfy`);
- the one-shot "wait until the panel is realized" protocol the workers share (`realize.dfy`);
- the `AppIconOverride` app-icon class that `lib/mmod/overrides.js` defines (`overrides.dfy`); the favourites box builds the host's stock app icon, not this class;
- the panel-button icon chooser of the preferences window (`prefs.dfy`).

The desktop shell itself is one `Host.Shell` object that every worker receives (`host.dfy`). Its fields are what the extension reads and changes:

- the panel's y, edge and style classes;
- the hot corner;
- the children of the activities button and of the left box;
- the box holding the date menu;
- the tray items;
- the favourite and running apps;
- the settings store.

Objects whose fields the source updates in place are Dafny classes with `modifies` clauses. Pure decisions are functions, and lemmas relate them.

Tweens, timers and signals are explicit pending state that the environment fires:

- the auto-hide worker keeps its single pending tween of the panel's y;
- it counts its pending delayed re-checks;
- `CompleteTween` and `FireRecheck` are the host running those callbacks.

Integers are unbounded. The source's numbers are small setting values and coordinates, and the source never relies on wrap-around.

## Model

| member | source | states |
|---|---|---|
| Realize.Check | lib/mmod/position.js:51-63 | the realize check proceeds exactly when `realize` is non-negative, and then leaves it at 0; otherwise it records the (positive) handler id and stops |
| Realize.DefersExactlyOnce | lib/mmod/position.js:51-63 | starting from -1, the first check defers and every later check proceeds with `realize` at 0 |
| Comfort.LoadComfortSettings | lib/mmod/settings.js:196-243 | level 0 gives the compact preset, level 2 the comfortable one, any other level the cozy one, with the source's sizes and style names |
| Comfort.PresetsOrdered | lib/mmod/settings.js:196-243 | each preset's favourite icon fits its container, and the container and icon sizes grow with the comfort level |
| Settings.RigPath | lib/mmod/settings.js:25-38 | the legacy extension path is used exactly when the shell's minor version is 2 or less |
| Settings.Steward.constructor | lib/mmod/settings.js:84-97 | the steward starts with no comfort preset and six fresh, inactive workers on its shell |
| Settings.Steward.LoadComfortSettings | lib/mmod/settings.js:196-243 | the stored level is read, and the one preset is handed to the position, activities and favourites workers |
| Settings.Steward.Modify | lib/mmod/settings.js:144-159 | with mmod-panel-enabled off nothing changes; otherwise the preset is shared, the workers are initialised in the source's order, and each ends active when its setting asks for it and its realize check proceeds: position on its configured edge, activities and date only past their realize checks, aggregate, favourites and behaviour at once |
| Settings.Steward.Apply | lib/mmod/settings.js:146-158 | the enabled branch: the preset is shared; aggregate and favourites are active as their settings say, position (on its edge), activities and an in-tray date once past their realize checks, a date left in place and behaviour at once |
| Settings.Steward.InitFirst | lib/mmod/settings.js:152-154 | aggregate, position and activities are initialised in that order: aggregate active with show-in-tray-menu on, position active on its configured edge and activities active with panel-button-enabled on, each of the last two only once its realize check proceeds |
| Settings.Steward.InitRest | lib/mmod/settings.js:155-157 | favourites, date and behaviour are initialised in that order: favourites active with its setting on, date active when left in place or once its realize check proceeds, behaviour active |
| Settings.Steward.Unmodify | lib/mmod/settings.js:171-184 | all six workers are destroyed whatever the settings, and the comfort level and preset are dropped |
| Settings.Steward.DestroyFirst | lib/mmod/settings.js:174-176 | aggregate, position and activities end inactive |
| Settings.Steward.DestroyRest | lib/mmod/settings.js:177-179 | favourites, date and behaviour end inactive |
| Extension.Mmodge.constructor | extension.js:27-50 | `firstRun` takes the stored first-run flag, and the stored flag is cleared |
| Extension.Mmodge.Connect | extension.js:87-109 | one subscription for each of the 17 watched keys, in order |
| Extension.Mmodge.Disconnect | extension.js:117-131 | every subscription is dropped; a second call does nothing |
| Extension.Mmodge.Enable | extension.js:58-67 | modify, then subscribe; the preferences window is launched once per call while `firstRun` holds, and `firstRun` is never cleared |
| Extension.Mmodge.EnableIntended | extension.js:58-67 | as `Enable`, but the flag is cleared after its one launch |
| Extension.Mmodge.Disable | extension.js:73-77 | unsubscribes first, then every worker ends inactive and the preset is dropped |
| Extension.Mmodge.OnPreferenceChanged | extension.js:140-144 | `disable` followed by `enable`: subscribed again, and launches once more in a first-run session |
| Extension.Mmodge.OnPreferenceChangedIntended | extension.js:140-144 | with the intended `enable`, a change after the first launch does not launch again |
| Extension.PrefsRelaunchedOnChange | extension.js:44-67 | as written, enabling in a first-run session and then changing one setting opens the preferences window twice |
| Extension.PrefsLaunchedOnceIntended | extension.js:44-67 | with the flag cleared after use, the same sequence opens it once |
| Position.PlacedY | lib/mmod/position.js:65-77 | the bottom edge puts the box flush with the monitor's bottom, the top edge at the monitor's y, any other edge value leaves y alone |
| Position.PositionMod.constructor | lib/mmod/position.js:21-42 | no preset, `realize` at -1, inactive |
| Position.PositionMod.Init | lib/mmod/position.js:45-81 | the style class is added on every call, before the realize check; past the check, y is placed for the configured edge, the edge is recorded and the worker is active |
| Position.PositionMod.Destroy | lib/mmod/position.js:84-100 | an active worker puts y back at the monitor's y, removes the style class and deletes the edge; every call leaves `realize` at 0 |
| Position.PlaceThenRestore | lib/mmod/position.js:45-100 | a deferred init, the realized init and a destroy leave the panel at the top with no edge and its style classes as before |
| Activities.Swapped | lib/mmod/activities.js:97-101 | init's children have the same length and end with the button |
| Activities.Restored | lib/mmod/activities.js:115-116 | destroy's children end with the saved label, with the same length when the button was present |
| Activities.SwapRoundTrip | lib/mmod/activities.js:54-138 | a swap and its undo move the label from the front to the end and keep the other children in order; a lone label comes back exactly |
| Activities.ActivitiesMod.constructor | lib/mmod/activities.js:23-46 | no button, no saved label, `realize` at -1, inactive |
| Activities.ActivitiesMod.Init | lib/mmod/activities.js:54-103 | with the panel button enabled and past the realize check, the first child is saved and swapped for a button with the configured icon and the preset's style |
| Activities.ActivitiesMod.Destroy | lib/mmod/activities.js:111-138 | an active worker swaps its button back for exactly the saved label and forgets both; every call leaves `realize` at 0 |
| Date.DateMod.constructor | lib/mmod/date.js:21-44 | `realize` at -1, inactive |
| Date.DateMod.Init | lib/mmod/date.js:56-84 | with date-in-tray off the menu stays, is marked not in the tray and the worker is active; with it on, the first call only defers, and a realized call moves the menu to the right box and marks it in the tray |
| Date.DateMod.Destroy | lib/mmod/date.js:96-116 | an active worker moves the menu back to the centre box only if it is in the tray, and removes the mark; every call leaves `realize` at 0 |
| Date.MoveAndRestore | lib/mmod/date.js:56-116 | a deferred init, the realized init and a destroy put the menu back in the centre box with no mark |
| Aggregate.HighestQualifying | lib/mmod/aggregate.js:89-105 | the insertion point is the highest index, 9 or below, whose item exists and can hold menu items; None when there is none |
| Aggregate.Unusable | lib/mmod/aggregate.js:91-104 | every index the scan logs lies between the bounds and is a present item that cannot hold menu items; `UnusableComplete` gives the converse |
| Aggregate.UnusableComplete | lib/mmod/aggregate.js:91-104 | every present item between the bounds that cannot hold menu items is logged |
| Aggregate.UnusableStep | lib/mmod/aggregate.js:89-105 | walking one index further down logs that index exactly when it is present and unusable |
| Aggregate.Scan | lib/mmod/aggregate.js:89-105 | the descending loop with early exit finds the highest qualifying index and logs the unusable items it passed, missing ones silently |
| Aggregate.AggregateMod.constructor | lib/mmod/aggregate.js:28-50 | no submenu, no subscriptions, inactive |
| Aggregate.AggregateMod.Connect | lib/mmod/aggregate.js:171-182 | one activate subscription per submenu entry: Preferences, then Feedback |
| Aggregate.AggregateMod.Disconnect | lib/mmod/aggregate.js:190-201 | every subscription is dropped; a second call does nothing |
| Aggregate.AggregateMod.Init | lib/mmod/aggregate.js:62-115 | with show-in-tray-menu on: the two-entry submenu is subscribed and goes, after a separator, into the highest qualifying tray item, or into the user menu at 5 on older shells; the worker is active even when no insertion point was found |
| Aggregate.AggregateMod.Destroy | lib/mmod/aggregate.js:127-163 | an active worker unsubscribes and removes the submenu from where it went; the separator stays |
| Aggregate.WithSubmenuShape | lib/mmod/aggregate.js:95-96 | the separator lands at position 1 and the submenu at 2, after the item's first entry |
| Aggregate.AfterDestroyShape | lib/mmod/aggregate.js:95-163 | after destroy, the item keeps its entries with the separator still after the first one |
| Aggregate.AfterDestroyNonEmpty | lib/mmod/aggregate.js:95-137 | the same shape for a non-empty item |
| Aggregate.AfterDestroyEmpty | lib/mmod/aggregate.js:95-137 | an empty item keeps only the separator |
| Aggregate.SeparatorLeaks | lib/mmod/aggregate.js:95-163 | as written, each enable/disable cycle leaves one more separator in the tray item |
| Aggregate.DestroyBothRestores | lib/mmod/aggregate.js:95-163 | when the separator is removed too, an enable/disable cycle restores the item's entries exactly |
| Behavior.Lookup | lib/mmod/behavior.js:521 | a numeric key on the named-key flag map is always undefined; a named key is defined exactly when present |
| Behavior.AllFalse | lib/mmod/behavior.js:237-255 | the flag map `init` builds has exactly the given keys, all false |
| Behavior.ComputeHovered | lib/mmod/behavior.js:521-536 | "hovered" is the OR of every hover flag except the hover box's, and of every popup-open flag |
| Behavior.IndexOfZone | lib/mmod/behavior.js:237-255 | each zone sits at its index in the key order of the two maps |
| Behavior.Decide | lib/mmod/behavior.js:538-584 | hoverChanged's branches as written: with `hoverStates[5]` and `this.hiden` both undefined, the early branch is dead and the final branch hides whenever nothing asks for the panel, hidden or not |
| Behavior.DecideIntended | lib/mmod/behavior.js:547-584 | intended: reveal a hidden panel or re-arm a shown one when asked; hide only a shown panel; leave an idle hidden panel alone |
| Behavior.HiddenPanelRehidden | lib/mmod/behavior.js:538-584 | as written, an idle hidden panel is hidden again where the intended rule is idle; on every other input the two agree |
| Behavior.HideTarget | lib/mmod/behavior.js:365-407 | the hide target exists for the bottom and top edges only; it is the show target plus the box height at the bottom, and minus it at the top |
| Behavior.ShowTarget | lib/mmod/behavior.js:419-480 | the show target is where the position worker puts the panel for the edge |
| Behavior.HoverBoxRestY | lib/mmod/behavior.js:204-231 | the hover box rests 5 pixels inside the panel's edge when it is shown |
| Behavior.BarrierY | lib/mmod/behavior.js:678-721 | the barrier lies on the monitor edge the panel hides behind |
| Behavior.Registered | lib/mmod/behavior.js:717-720 | adding a barrier appends it to the pressure barrier's list, when there is a pressure barrier |
| Behavior.Unregistered | lib/mmod/behavior.js:733-749 | removing a barrier takes it out of the list and clears `_isTriggered`; no barrier leaves the pressure barrier alone |
| Behavior.Subscriptions | lib/mmod/behavior.js:597-643 | ten subscriptions, and the favourites hover when the favourites box was found |
| Behavior.Autohide.constructor | lib/mmod/behavior.js:97-141 | no state, nothing pending, `realize` at -1, inactive |
| Behavior.Autohide.Init | lib/mmod/behavior.js:153-286 | with autohide-panel on and past the realize check, and only with barrier support: flags false, the hover box at rest, subscribed, the hide tween pending, active; otherwise nothing but the realize step |
| Behavior.Autohide.Setup | lib/mmod/behavior.js:172-284 | the barrier-supported part of init sets up every piece of state and starts the hide tween |
| Behavior.Autohide.Arm | lib/mmod/behavior.js:172-263 | the pressure barrier, the hover box and the flag maps are built from the settings |
| Behavior.Autohide.Disable | lib/mmod/behavior.js:298-353 | an active worker unsubscribes, removes its barrier and drops all state; every call leaves `realize` at 0 |
| Behavior.Autohide.Teardown | lib/mmod/behavior.js:300-346 | the active part of disable |
| Behavior.Autohide.ClearState | lib/mmod/behavior.js:307-343 | every piece of state is released |
| Behavior.Autohide.Hide | lib/mmod/behavior.js:365-407 | the pending tween becomes the hide tween, replacing any other |
| Behavior.Autohide.Show | lib/mmod/behavior.js:419-480 | the pending tween becomes the show tween, replacing any other |
| Behavior.Autohide.CompleteTween | lib/mmod/behavior.js:390-478 | the panel reaches the tween's y; a hide completion adds the barrier, marks hidden and hides the hover box; a show completion removes it, marks shown, re-arms the hover box and schedules one re-check |
| Behavior.Autohide.HideComplete | lib/mmod/behavior.js:394-403 | a fresh barrier at the edge is registered, the panel is hidden and the hover box is invisible |
| Behavior.Autohide.ShowComplete | lib/mmod/behavior.js:448-478 | the barrier is unregistered, the panel is shown, the hover box is untriggered and visible unless the overview is, and one re-check is pending |
| Behavior.Autohide.FireRecheck | lib/mmod/behavior.js:464-585 | a pending re-check runs `hoverChanged` |
| Behavior.Autohide.OnBarrierTriggered | lib/mmod/behavior.js:492-497 | the flag is set and `hoverChanged` runs, which shows a hidden panel and clears the flag |
| Behavior.Autohide.HoverChanged | lib/mmod/behavior.js:509-585 | without flag maps nothing changes; otherwise the decision of the branches as written is carried out |
| Behavior.Autohide.Carry | lib/mmod/behavior.js:538-584 | each decision's effect: show, re-arm the hover box with one more pending re-check, hide, or nothing; `barrierTriggered` is cleared when asked |
| Behavior.Autohide.Connect | lib/mmod/behavior.js:597-643 | the subscriptions are exactly `Subscriptions` of whether the favourites box exists |
| Behavior.Autohide.Disconnect | lib/mmod/behavior.js:655-666 | every subscription is dropped; a second call does nothing |
| Behavior.Autohide.AddBarrier | lib/mmod/behavior.js:678-721 | a fresh barrier across the monitor at the barrier y, registered with the pressure barrier |
| Behavior.Autohide.RemoveBarrier | lib/mmod/behavior.js:733-749 | the barrier, if any, is unregistered and forgotten |
| Behavior.Autohide.FlipHover | lib/mmod/behavior.js:788-976 | a hover handler flips exactly its own flag, leaves every other flag alone, does nothing without the map, and never runs `hoverChanged` |
| Behavior.Autohide.BoxHoverChanged | lib/mmod/behavior.js:761-776 | the hover box's flag flips and the box is marked triggered |
| Behavior.Autohide.FlipVisible | lib/mmod/behavior.js:838-951 | a popup handler flips exactly its own open flag and nothing else |
| Behavior.Autohide.OnAppStateChanged | lib/mmod/behavior.js:988-994 | with autohide-panel on the panel hides, whatever its state |
| Behavior.Autohide.OnToggleOverview | lib/mmod/behavior.js:1006-1051 | with autohide-panel on: while the overview is visible the panel shows and the hover box goes to the hide target; otherwise the panel hides and the hover box goes back to its resting place |
| Behavior.HotCorner.constructor | lib/mmod/behavior.js:1061-1085 | the corner's threshold and action are saved as they were |
| Behavior.HotCorner.Init | lib/mmod/behavior.js:1097-1124 | with hot-corner-enabled off, past the realize check and with barrier support, the threshold and action are overwritten with 54321 |
| Behavior.HotCorner.Enable | lib/mmod/behavior.js:1136-1155 | as written: init runs first, so with the setting off the corner is suppressed again; with it on, the saved values come back |
| Behavior.HotCorner.EnableIntended | lib/mmod/behavior.js:1136-1155 | intended: a suppressing worker puts back exactly the saved values and becomes inactive |
| Behavior.CornerStaysSuppressed | lib/mmod/behavior.js:1097-1155 | as written, with the setting off, enable after the realized init leaves the host corner at 54321 |
| Behavior.CornerRestoredIntended | lib/mmod/behavior.js:1097-1155 | with the intended enable, the same cycle gives the host its own corner back |
| Behavior.BehaviorMod.constructor | lib/mmod/behavior.js:34-52 | fresh, inactive auto-hide and hot-corner workers |
| Behavior.BehaviorMod.Init | lib/mmod/behavior.js:60-69 | auto-hide init, then hot-corner init, then active |
| Behavior.BehaviorMod.Destroy | lib/mmod/behavior.js:77-89 | an active worker disables auto-hide and runs the hot-corner `enable` |
| Behavior.RehideRegistersSecondBarrier | lib/mmod/behavior.js:394-720 | as written, a re-check on an idle hidden panel hides it again, and the hide completion registers a second barrier beside the first |
| Behavior.StaleBarrierAfterRehide | lib/mmod/behavior.js:394-749 | revealing the panel afterwards removes only the second barrier, so the first stays in the pressure barrier |
| Favorites.NotFavorite | lib/mmod/favorites.js:228-238 | the running apps kept are a subsequence no longer than the running list |
| Favorites.NotFavoriteMembers | lib/mmod/favorites.js:231-237 | an app is kept exactly when it is running and its id is not a favourite's |
| Favorites.NotFavoriteDistinct | lib/mmod/favorites.js:231-237 | no running app is kept twice |
| Favorites.DisplayListDistinct | lib/mmod/favorites.js:216-238 | with favourites keyed by id and no duplicate running app, the display list has no app twice |
| Favorites.BuildList | lib/mmod/favorites.js:219-238 | the list-building loops push every favourite in order, then, when show-running-apps is on, the non-favourite running apps |
| Favorites.PushRunning | lib/mmod/favorites.js:230-237 | the running loop pushes exactly the non-favourite running apps in order |
| Favorites.SearchPrevious | lib/mmod/favorites.js:290-301 | the search pushes the previous entry showing the app, renumbered, or nothing when there is none |
| Favorites.Reconcile | lib/mmod/favorites.js:267-388 | entry k shows list app k at position k; a previously shown app keeps its icon; every other app gets a fresh icon, distinct from the others |
| Favorites.ReuseOrCreate | lib/mmod/favorites.js:271-317 | one pass reuses the previous icon of the app, first at the same index and else by search, or creates the next one exactly when the app was not shown |
| Favorites.IndexOf | lib/mmod/favorites.js:667-668 | the first index of the app, or -1 exactly when it is absent |
| Favorites.DragOverPlan | lib/mmod/favorites.js:652-762 | refused, before anything is touched, when the feature is off, the app is missing or window-backed, or the target is not a favourite; only cleared when the dragged app's favourite index equals the target's; otherwise a placeholder after the target when dragging from before it, at it otherwise, as a move for a favourite and a copy for any other app |
| Favorites.AcceptDrop | lib/mmod/favorites.js:778-842 | accepted when the feature is off, or when a valid favourite target has no placeholder; with a placeholder, a move or an add at the target's index is scheduled and the drop reports false |
| Favorites.DropMatchesDragOver | lib/mmod/favorites.js:652-842 | a drop after a placing drag-over schedules a move exactly when the drag-over reported a move, and an add otherwise |
| Favorites.WithoutPlaceholders | lib/mmod/favorites.js:706-717 | the cleared children are the old ones without any placeholder |
| Favorites.PlaceholderOnce | lib/mmod/favorites.js:706-754 | clearing the placeholders and then placing one leaves exactly one |
| Favorites.IconDrop.constructor | lib/mmod/favorites.js:309-314 | an icon starts with no placeholder |
| Favorites.IconDrop.HandleDragOver | lib/mmod/favorites.js:652-762 | the result is the plan's; a refusal changes nothing, a clear removes the placeholders, a placement leaves one placeholder at the plan's position; there is never more than one |
| Favorites.FavoritesMod.constructor | lib/mmod/favorites.js:32-70 | nothing loaded, nothing displayed, inactive |
| Favorites.FavoritesMod.Init | lib/mmod/favorites.js:82-100 | with display-favorites-enabled on: a fresh empty box, a work handle only when none exists, active, and one update that fills the box with the new display's icons |
| Favorites.FavoritesMod.Update | lib/mmod/favorites.js:196-389 | the box is placed on first use, then the display is rebuilt from the favourites and running apps, reusing the previous entries; the box loses the previous icons and gets the new ones in list order |
| Favorites.FavoritesMod.Place | lib/mmod/favorites.js:199-213 | on first use the box goes into the left box at index 1, or 2 when favourites come after preferences, and is subscribed |
| Favorites.FavoritesMod.Rebuild | lib/mmod/favorites.js:216-388 | the list is the display list; the old entries become `previous`; entry k shows list app k at position k, keeping a previous icon for the same app; the box loses the previous entries' icons and ends with the new entries' icons in order |
| Favorites.FavoritesMod.QueueUpdate | lib/mmod/favorites.js:401-407 | a deferred update is queued exactly when there is a work handle |
| Favorites.FavoritesMod.Connect | lib/mmod/favorites.js:419-461 | the eight subscriptions |
| Favorites.FavoritesMod.Disconnect | lib/mmod/favorites.js:475-485 | every subscription is dropped; a second call does nothing |
| Favorites.FavoritesMod.Destroy | lib/mmod/favorites.js:112-184 | an active worker unsubscribes, drops the display, removes a loaded box from the left box and releases its sources, ending inactive |
| Favorites.FavoritesMod.Unload | lib/mmod/favorites.js:145-150 | a loaded box leaves the left box and the worker is no longer loaded |
| Favorites.FavoritesMod.DropDisplay | lib/mmod/favorites.js:119-143 | the previous entries, the list and the display are released |
| Favorites.FavoritesMod.DropSources | lib/mmod/favorites.js:152-180 | the favourites, the running apps, the box and the work handle are released |
| Favorites.FavoritesMod.OnToggleOverview | lib/mmod/favorites.js:497-510 | a loaded box is hidden exactly while the overview is visible |
| Favorites.FavoritesMod.OnDragBegin | lib/mmod/favorites.js:522-531 | the cancelled flag is cleared and the drag monitor registered |
| Favorites.FavoritesMod.OnDragCancelled | lib/mmod/favorites.js:543-547 | the cancelled flag is set and the drag ends |
| Favorites.FavoritesMod.OnDragEnd | lib/mmod/favorites.js:559-567 | the drag ends unless it was cancelled |
| Favorites.FavoritesMod.EndDrag | lib/mmod/favorites.js:580-614 | the placeholders are removed and the drag monitor unregistered |
| Favorites.IconsOf | lib/mmod/favorites.js:258-262 | the displayed entries' icons, in order |
| Favorites.WithoutIcons | lib/mmod/favorites.js:258-262 | the box without exactly the icons of the given entries |
| Favorites.CancelledDragEndsOnce | lib/mmod/favorites.js:522-567 | a cancelled drag ends once: the cancel ends it and the end that follows does not |
| Favorites.CompletedDragEndsOnce | lib/mmod/favorites.js:522-567 | a drag that completes ends once too |
| Overrides.ActivateEffects | lib/mmod/overrides.js:238-255 | a new window opens when the app can open one with Ctrl held while running, or on button 2; the launch animates when stopped or opening a new window; otherwise the app activates; the overview always hides, last |
| Overrides.ActivateActsOnce | lib/mmod/overrides.js:238-255 | one activation hides the overview once and minimises nothing |
| Overrides.ClickActsOncePerWindow | lib/mmod/overrides.js:167-180 | a click acts once per taskbar window, and does nothing exactly when there is none |
| Overrides.AfterClick | lib/mmod/overrides.js:169-179 | a click minimises exactly the focused, unminimised taskbar windows |
| Overrides.AppIcon.constructor | lib/mmod/overrides.js:31-106 | no popup timeout, the state subscription in place, the running dot shown exactly when the app is not stopped |
| Overrides.AppIcon.RemoveMenuTimeout | lib/mmod/overrides.js:119-124 | a pending timeout is cancelled and the id reset to 0 |
| Overrides.AppIcon.SetPopupTimeout | lib/mmod/overrides.js:133-142 | any pending timeout is cancelled before the new one is armed, so exactly one is pending |
| Overrides.AppIcon.FirePopupTimeout | lib/mmod/overrides.js:136-140 | the firing timeout clears its id before popping the menu up, and the tooltip is hidden |
| Overrides.AppIcon.Popup | lib/mmod/overrides.js:191-223 | the timeout is cancelled and the menu is open, with the icon hovered |
| Overrides.AppIcon.OnMenuPoppedDown | lib/mmod/overrides.js:233-236 | the menu closes and hover follows the pointer, so the tooltip shows exactly when the pointer is over the icon |
| Overrides.AppIcon.OnButtonPress | lib/mmod/overrides.js:149-158 | button 1 arms the timeout and propagates, button 3 pops the menu up and stops, other buttons only propagate |
| Overrides.AppIcon.OnTouchEvent | lib/mmod/overrides.js:160-165 | a touch begin arms the timeout; the event always propagates |
| Overrides.AppIcon.OnLeaveEvent | lib/mmod/overrides.js:144-147 | leaving cancels the timeout |
| Overrides.AppIcon.UpdateRunningStyle | lib/mmod/overrides.js:126-131 | the dot shows exactly when the app is not stopped |
| Overrides.AppIcon.OnStateChanged | lib/mmod/overrides.js:101-131 | the new state is taken and the dot follows it |
| Overrides.AppIcon.Activate | lib/mmod/overrides.js:238-255 | the calls made are exactly `ActivateEffects` |
| Overrides.AppIcon.OnClicked | lib/mmod/overrides.js:167-180 | the timeout is cancelled; the calls made are `ClickEffects` of the windows, which end as `AfterClick` |
| Overrides.AppIcon.ActOnWindows | lib/mmod/overrides.js:169-179 | the window loop makes the calls of `ClickEffects` and leaves the windows as `AfterClick` |
| Overrides.AppIcon.ClickOne | lib/mmod/overrides.js:173-178 | one window is minimised or activates the app, as `WindowEffects` says |
| Overrides.AppIcon.OnDestroy | lib/mmod/overrides.js:108-113 | the state subscription is dropped only when its id is positive, the id becomes 0, and the timeout is cancelled |
| Overrides.AppIcon.ShouldShowTooltip | lib/mmod/overrides.js:278-280 | the tooltip shows exactly when hovered with no menu, or with a closed one |
| Overrides.PressThenClickCancelsPopup | lib/mmod/overrides.js:149-180 | a left press followed by a click leaves no popup timeout pending |
| Preferences.IconSize | prefs.js:626-643 | comfort level 0 gives 24, 2 gives 48, anything else 32 |
| Preferences.StockIconFile | prefs.js:646-676 | a stock index from 0 to 3 has a file of its stem, size and `.png`; any other index has none |
| Preferences.DefaultIsLargestStar | prefs.js:649-744 | the first stock icon at the largest size is the default icon |
| Preferences.StockIconFilesDistinct | prefs.js:647-676 | different stock icons never share a file, at any size |
| Preferences.BuildEntries | prefs.js:215-225 | the four stock entries, then "Custom" exactly when the stored icon is the custom one |
| Preferences.RemoveAt | prefs.js:678-681 | the drop-down without the entry at the index; unchanged without one |
| Preferences.PrefsWindow.constructor | prefs.js:215-225 | the drop-down agrees with the stored icon and the preview shows the stored path |
| Preferences.PrefsWindow.LoadCustomPanelButtonIcon | prefs.js:789-800 | the preview shows `dipath`, or the default icon when it is empty |
| Preferences.PrefsWindow.ChangePanelButtonIcon | prefs.js:623-684 | the icon value is stored; a stock choice also stores, remembers and shows its path at the comfort level's size; "Custom" is removed exactly when leaving it |
| Preferences.PrefsWindow.SelectIcon | prefs.js:618-684 | picking an entry keeps the drop-down consistent with the stored icon |
| Preferences.PrefsWindow.ChangeCustomPanelButtonIcon | prefs.js:686-758 | as written: the picker's answer is applied, then "Custom" is appended and selected whatever the answer |
| Preferences.PrefsWindow.SelectCustom | prefs.js:754-757 | "Custom" is appended and becomes the stored and active icon |
| Preferences.PrefsWindow.ChangeCustomPanelButtonIconIntended | prefs.js:686-758 | intended: after any answer the drop-down holds "Custom" exactly once and stays consistent |
| Preferences.PrefsWindow.SelectCustomIntended | prefs.js:754-757 | the drop-down is the stock entries and one "Custom", with "Custom" selected and stored |
| Preferences.PrefsWindow.ApplyPickerResponse | prefs.js:689-749 | accepting stores and remembers the chosen file when it differs, resetting stores the default icon, any other answer keeps the path; the preview reloads only when the path was set |
| Preferences.PickedPath | prefs.js:729-749 | the stored path after the answer: the default icon on reset, the chosen file on accept, unchanged otherwise |
| Preferences.CustomEntryDuplicated | prefs.js:686-758 | as written, answering the picker while "Custom" is already selected lists "Custom" twice |
| Preferences.CustomEntryFromStock | prefs.js:686-758 | answering it from a stock icon lists "Custom" once |
| Preferences.StockPath | prefs.js:646-676 | a stock index gives its file at the level's size under the extension's directory; any other index keeps the current value |
| Preferences.PreviewFile | prefs.js:789-800 | a non-empty path is shown as is; an empty one shows the default icon |
| Host.InsertAt | lib/mmod/favorites.js:749-750 | the element lands at the position, or at the end when the position is past the end, and nothing else moves out of order |
| Host.RemoveFirst | lib/mmod/activities.js:97-98 | a present element makes the sequence one shorter; an absent element leaves it unchanged |
| Host.FirstIndex | lib/mmod/activities.js:97-98 | the index of the element's first occurrence: it is there, and not before |
| Host.RemoveFirstAt | lib/mmod/activities.js:97-98 | exactly the first occurrence is removed; the elements before and after it stay, in order |
| Host.RemoveFirstSkips | lib/mmod/aggregate.js:133-137 | removing an element passes over a different head and removes from the rest |
| Host.RemoveFirstHead | lib/mmod/aggregate.js:133-137 | removing an element from a sequence that starts with it drops the head |

## Left out

- Tween easing and the real timing of animations and main-loop timeouts are left out. A pending tween and a count of pending re-checks stand for them, and the environment fires them in any order.
- GTK widget construction, gettext, images and link buttons in the preferences window are left out. Only the icon drop-down, the file-picker answer and the preview are modelled.
- Spawning the preferences window and the feedback browser is an external command; the extension's launches are a counter.
- The signal machinery is reduced to a list of subscription names per object. Settings persistence is reduced to a record that the extension and the window update.
- Meta.Barrier directions and the pressure barrier's pressure accumulation are left out. A barrier is its id, x range and y; the pressure barrier is its threshold, timeout, triggered flag and list of barriers.
- Float settings (the pressure threshold, the delay times 1000, the animation times) are integers.
- Actor z-order, sizes, theme-node probing and style-class probing inside favourites `update` are left out. The drag monitor's `onDragMotion` always continues, so it has no member.
- Calling a method on a missing object throws in the source. The model takes the branch the source means (for example, `hoverBox.hide()` only when there is a hover box) and does not model the exception.
- Favorites.Reconcile: assumes no app is listed twice in the previous display. Otherwise the source's search loop pushes every match and the indices shift. Entries are values, so an icon reused twice is not an aliased object.
- Favorites.IconDrop.HandleDragOver: the source's removal loop destroys children while it walks their indices, so it skips the child after each one it destroys. The model removes every placeholder. The two agree while there is at most one placeholder, which the method keeps.
- Favorites.FavoritesMod.EndDrag: the source's loop tests a snapshot of the box's children but destroys the live child at the same index, which after a first removal is a different child. The model removes every placeholder. The two agree while the box holds at most one placeholder, which `HandleDragOver` keeps but `FavoritesMod.Valid` does not carry.
- Settings.Steward.Modify, Activities.ActivitiesMod.Init, Extension.Mmodge.Enable (and the members that call them): require the activities button to have at least one child, which a realized shell panel always has, even on the paths that never touch the children (panel-button-enabled off, or the deferring first call). The source would fail on an empty one.
- Overrides: the source defines `AppIconOverride` but no file of the extension installs it; the favourites box builds the host's stock app icon, whose behaviour is not part of this model.
- Extension.Mmodge.Enable, Behavior.HotCorner.Enable, Behavior.Autohide.HoverChanged, Aggregate.AggregateMod.Destroy and Preferences.PrefsWindow.ChangeCustomPanelButtonIcon keep the source's behaviour as written. The corrected variants beside them are the ones the findings below prove.
- The rig's `syncToRemote` and `syncFromRemote` are empty in the source and have no member.
- Re-entrant drop-down notifications (`set_active` calling the changed handler again) are collapsed into one `SelectIcon` step.
- A file picker that returns no file name is not modelled. The chosen file is always a string.

## Findings

| source | as written | input that shows it | evidently intended | confidence | as-written member | corrected member |
|---|---|---|---|---|---|---|
| lib/mmod/behavior.js:581-584 | the fallback branch tests `this.hiden`, a field that never exists, so it hides a panel that is already hidden | a delayed re-check on a hidden panel with no hover, no popup, no barrier push and no overview | test `this.hidden`, so an idle hidden panel is left alone; otherwise each re-hide registers a second barrier and the reveal removes only the newer one | not executed | Behavior.RehideRegistersSecondBarrier | Behavior.DecideIntended |
| lib/mmod/behavior.js:1136-1155 | `enable` first runs `init`, which re-suppresses the corner when hot-corner-enabled is off, and then restores only when the setting is on | hot-corner-enabled off with barrier support: enable the extension and then disable it | put back the saved threshold and handler whenever the worker suppressed them | not executed | Behavior.CornerStaysSuppressed | Behavior.CornerRestoredIntended |
| lib/mmod/aggregate.js:95-163 | `init` adds a separator to the tray item, and `destroy` never removes it | any enable/disable cycle with show-in-tray-menu on and a qualifying tray item | remove the separator together with the submenu | not executed | Aggregate.SeparatorLeaks | Aggregate.DestroyBothRestores |
| prefs.js:754-757 | every file-picker answer appends "Custom" to the drop-down, even when it is already listed | open the picker while the custom icon is selected, and answer it | offer "Custom" only when it is not already listed | not executed | Preferences.CustomEntryDuplicated | Preferences.PrefsWindow.ChangeCustomPanelButtonIconIntended |
| extension.js:44-67 | `firstRun` is never cleared, so every `enable` in a first-run session opens the preferences window again | first-run session: enable, then change any watched setting | open the preferences window once per first run | not executed | Extension.PrefsRelaunchedOnChange | Extension.PrefsLaunchedOnceIntended |
