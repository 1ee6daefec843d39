/** lib/mmod/favorites.js: a box in the panel's left box showing an icon for
    every favorite app and, optionally, every running app that is not a
    favorite; icons are reused across updates, and dropping an app on an icon
    moves or adds a favorite. */
module Favorites {
  import opened Host
  import Comfort

  // ---------------------------------------------------------------------
  // The display list

  /** Some app of `favorites` has this id (a key of the favorite map). */
  predicate HasId(favorites: seq<App>, id: string) {
    exists a :: a in favorites && a.id == id
  }

  predicate DistinctApps(s: seq<App>) {
    forall i, j :: 0 <= i < j < |s| ==> s[i] != s[j]
  }

  /** No two apps share an id (the favorite map is keyed by id). */
  predicate DistinctIds(s: seq<App>) {
    forall i, j :: 0 <= i < j < |s| ==> s[i].id != s[j].id
  }

  /** The running apps, in order, whose id is not a favorite's. */
  function NotFavorite(running: seq<App>, favorites: seq<App>): (r: seq<App>)
    ensures |r| <= |running|
  {
    if running == [] then []
    else
      var init, last := running[..|running| - 1], running[|running| - 1];
      NotFavorite(init, favorites) + (if !HasId(favorites, last.id) then [last] else [])
  }

  /** An app is kept exactly when it is running and its id is not a
      favorite's. */
  lemma {:induction false} NotFavoriteMembers(running: seq<App>, favorites: seq<App>)
    ensures forall a :: a in NotFavorite(running, favorites) <==> a in running && !HasId(favorites, a.id)
  {
    if running != [] {
      var init, last := running[..|running| - 1], running[|running| - 1];
      assert running == init + [last];
      NotFavoriteMembers(init, favorites);
    }
  }

  /** No running app listed twice, none kept twice. */
  lemma {:induction false} NotFavoriteDistinct(running: seq<App>, favorites: seq<App>)
    requires DistinctApps(running)
    ensures DistinctApps(NotFavorite(running, favorites))
  {
    if running != [] {
      var init, last := running[..|running| - 1], running[|running| - 1];
      assert running == init + [last];
      assert last !in init;
      NotFavoriteDistinct(init, favorites);
      NotFavoriteMembers(init, favorites);
    }
  }

  /** The apps to display: every favorite in favorite order, then, when
      running apps are shown, the running apps that are not favorites. */
  function DisplayList(favorites: seq<App>, running: seq<App>, showRunning: bool): seq<App> {
    favorites + (if showRunning then NotFavorite(running, favorites) else [])
  }

  /** With favorites keyed by id and no running app listed twice, no app is
      displayed twice: a running app shown after the favorites is never one
      of them. */
  lemma {:induction false} DisplayListDistinct(favorites: seq<App>, running: seq<App>, showRunning: bool)
    requires DistinctIds(favorites) && DistinctApps(running)
    ensures DistinctApps(DisplayList(favorites, running, showRunning))
  {
    var l := DisplayList(favorites, running, showRunning);
    var tail := if showRunning then NotFavorite(running, favorites) else [];
    NotFavoriteMembers(running, favorites);
    NotFavoriteDistinct(running, favorites);
    forall i, j | 0 <= i < j < |l|
      ensures l[i] != l[j]
    {
      if j < |favorites| {
        assert l[i] == favorites[i] && l[j] == favorites[j];
      } else if i >= |favorites| {
        assert l[i] == tail[i - |favorites|] && l[j] == tail[j - |favorites|];
      } else {
        assert l[i] == favorites[i];
        assert l[j] in tail;
        assert !HasId(favorites, l[j].id);
      }
    }
  }

  /** The two list-building loops of `update`: push every favorite, then,
      when running apps are shown, every running app whose id is not a
      favorite key. */
  method BuildList(favorites: seq<App>, running: seq<App>, showRunning: bool) returns (list: seq<App>)
    ensures list == DisplayList(favorites, running, showRunning)
  {
    list := [];
    var i := 0;
    while i < |favorites|
      invariant 0 <= i <= |favorites|
      invariant list == favorites[..i]
    {
      list := list + [favorites[i]];
      i := i + 1;
    }
    assert favorites[..i] == favorites;
    if showRunning {
      var extra := PushRunning(favorites, running);
      list := list + extra;
    }
  }

  /** The second loop of `update`: every running app whose id is not a
      favorite key, in running order. */
  method PushRunning(favorites: seq<App>, running: seq<App>) returns (extra: seq<App>)
    ensures extra == NotFavorite(running, favorites)
  {
    extra := [];
    var i := 0;
    while i < |running|
      invariant 0 <= i <= |running|
      invariant extra == NotFavorite(running[..i], favorites)
    {
      assert running[..i + 1][..i] == running[..i];
      if !HasId(favorites, running[i].id) {
        extra := extra + [running[i]];
      }
      i := i + 1;
    }
    assert running[..i] == running;
  }

  // ---------------------------------------------------------------------
  // Reusing displayed icons

  /** An entry of `displayed`: the app, its icon (by identity) and its
      position. */
  datatype Item = Item(app: App, icon: nat, pos: int)

  predicate DistinctItemApps(s: seq<Item>) {
    forall i, j :: 0 <= i < j < |s| ==> s[i].app != s[j].app
  }

  /** An entry of the previous display shows `app`. */
  predicate Shown(previous: Option<seq<Item>>, app: App) {
    previous.Some? && exists e :: e in previous.value && e.app == app
  }

  /** The search loop of `update`: every previous entry showing `app` is
      pushed, the first one renumbered to `pos`. With previous entries
      showing distinct apps that is at most one. */
  method SearchPrevious(previous: seq<Item>, app: App, pos: int) returns (pushed: seq<Item>)
    requires DistinctItemApps(previous)
    ensures |pushed| <= 1
    ensures |pushed| == 1 <==> exists e :: e in previous && e.app == app
    ensures forall j :: 0 <= j < |previous| && previous[j].app == app ==> pushed == [previous[j].(pos := pos)]
  {
    pushed := [];
    var i := 0;
    while i < |previous|
      invariant 0 <= i <= |previous|
      invariant |pushed| <= 1
      invariant |pushed| == 1 <==> exists j :: 0 <= j < i && previous[j].app == app
      invariant forall j :: 0 <= j < i && previous[j].app == app ==> pushed == [previous[j].(pos := pos)]
    {
      if previous[i].app == app {
        pushed := pushed + [previous[i]];
        pushed := pushed[0 := pushed[0].(pos := pos)];
      }
      i := i + 1;
    }
  }

  /** The reuse loop of `update`: for each app of the list, the previous
      entry at the same index when it shows the same app, else the previous
      entry found by search, else a new entry with a fresh icon; whichever it
      is gets the list index as its position. Fresh icons are numbered from
      `next`. */
  method Reconcile(list: seq<App>, previous: Option<seq<Item>>, next: nat) returns (displayed: seq<Item>, next': nat)
    requires DistinctApps(list)
    requires previous.Some? ==> DistinctItemApps(previous.value)
    ensures |displayed| == |list| && next <= next'
    ensures forall k :: 0 <= k < |list| ==> displayed[k].app == list[k] && displayed[k].pos == k
    ensures forall k, j :: 0 <= k < |list| && previous.Some? && 0 <= j < |previous.value| && previous.value[j].app == list[k] ==>
      displayed[k].icon == previous.value[j].icon
    ensures forall k :: 0 <= k < |list| && !Shown(previous, list[k]) ==> next <= displayed[k].icon < next'
    ensures forall k1, k2 :: 0 <= k1 < k2 < |list| && !Shown(previous, list[k1]) && !Shown(previous, list[k2]) ==>
      displayed[k1].icon < displayed[k2].icon
  {
    displayed := [];
    next' := next;
    var realIndex := 0;
    while realIndex < |list|
      invariant 0 <= realIndex <= |list| && |displayed| == realIndex && next <= next'
      invariant forall k :: 0 <= k < realIndex ==> displayed[k].app == list[k] && displayed[k].pos == k
      invariant forall k, j :: 0 <= k < realIndex && previous.Some? && 0 <= j < |previous.value| && previous.value[j].app == list[k] ==>
        displayed[k].icon == previous.value[j].icon
      invariant forall k :: 0 <= k < realIndex && !Shown(previous, list[k]) ==> next <= displayed[k].icon < next'
      invariant forall k1, k2 :: 0 <= k1 < k2 < realIndex && !Shown(previous, list[k1]) && !Shown(previous, list[k2]) ==>
        displayed[k1].icon < displayed[k2].icon
    {
      var item, created := ReuseOrCreate(list[realIndex], previous, realIndex, next');
      displayed := displayed + [item];
      if created {
        next' := next' + 1;
      }
      realIndex := realIndex + 1;
    }
  }

  /** One pass of the reuse loop for `app` at list index `realIndex`: the
      previous entry at that index when it shows `app`, else the one the
      search finds, else a new entry with icon `next`. */
  method ReuseOrCreate(app: App, previous: Option<seq<Item>>, realIndex: nat, next: nat) returns (item: Item, created: bool)
    requires previous.Some? ==> DistinctItemApps(previous.value)
    ensures item.app == app && item.pos == realIndex
    ensures forall j :: previous.Some? && 0 <= j < |previous.value| && previous.value[j].app == app ==>
      item.icon == previous.value[j].icon
    ensures created <==> !Shown(previous, app)
    ensures created ==> item.icon == next
  {
    if previous.Some? {
      var prev := previous.value;
      if realIndex < |prev| && app == prev[realIndex].app {
        assert prev[realIndex] in prev;
        return prev[realIndex].(pos := realIndex), false;
      }
      var pushed := SearchPrevious(prev, app, realIndex);
      if |pushed| > 0 {
        return pushed[0], false;
      }
    }
    return Item(app, next, realIndex), true;
  }

  // ---------------------------------------------------------------------
  // Drag and drop over an icon

  /** `favorites.indexOf(x)`: the first index of `x`, or -1. */
  function IndexOf(s: seq<App>, x: App): (r: int)
    ensures -1 <= r < |s|
    ensures r == -1 <==> x !in s
    ensures r >= 0 ==> s[r] == x && x !in s[..r]
  {
    if s == [] then -1
    else if s[0] == x then 0
    else
      var r := IndexOf(s[1..], x);
      assert s[1..][..if r < 0 then 0 else r] == s[1..1 + if r < 0 then 0 else r];
      if r == -1 then -1 else r + 1
  }

  /** Drag results of the toolkit's drag-and-drop protocol. */
  datatype DragResult = NoDrop | CopyDrop | MoveDrop

  /** What a drag over an icon decides: refuse before touching the box,
      refuse after clearing the old placeholder, or place a placeholder. */
  datatype DragPlan =
    | Refuse
    | ClearOnly
    | Place(pos: int, move: bool)

  /** The decision of `handleDragOver` for `dragged` over the icon of
      `target`, with `favorites` the favorites in order. */
  function DragOverPlan(enabled: bool, dragged: Option<App>, favorites: seq<App>, target: App): (p: DragPlan)
    ensures p == Refuse <==>
      !enabled || dragged.None? || dragged.value.windowBacked || target !in favorites
    ensures p == ClearOnly <==>
      enabled && dragged.Some? && !dragged.value.windowBacked && target in favorites &&
      IndexOf(favorites, dragged.value) == IndexOf(favorites, target)
    ensures p.Place? ==>
      var ca, ct := IndexOf(favorites, dragged.value), IndexOf(favorites, target);
      (p.pos == if ca < ct then ct + 1 else ct) && (p.move <==> dragged.value in favorites)
  {
    if !enabled then Refuse
    else if dragged.None? || dragged.value.windowBacked then Refuse
    else
      var ca := IndexOf(favorites, dragged.value);
      var ct := IndexOf(favorites, target);
      if ct == -1 then Refuse
      else if ca < ct then Place(ct + 1, ca > -1)
      else if ca > ct then Place(ct, ca > -1)
      else ClearOnly
  }

  /** The result a plan reports to the toolkit. */
  function PlanResult(p: DragPlan): DragResult {
    match p
    case Refuse => NoDrop
    case ClearOnly => NoDrop
    case Place(_, move) => if move then MoveDrop else CopyDrop
  }

  /** An edit of the favorites that a drop schedules before the next redraw. */
  datatype FavoriteEdit = MoveTo(id: string, pos: int) | AddAt(id: string, pos: int)

  /** What `acceptDrop` returns, and the edit it schedules. */
  datatype DropOutcome = DropOutcome(accepted: bool, edit: Option<FavoriteEdit>)

  /** `acceptDrop` for `dragged` dropped on the icon of `target`, which has a
      placeholder or not. */
  function AcceptDrop(enabled: bool, dragged: Option<App>, favorites: seq<App>, target: App, placeholder: bool): (r: DropOutcome)
    ensures r.edit.Some? ==> !r.accepted
    ensures r.accepted <==> !enabled || (dragged.Some? && !dragged.value.windowBacked && target in favorites && !placeholder)
    ensures r.edit.Some? <==> enabled && dragged.Some? && !dragged.value.windowBacked && target in favorites && placeholder
    ensures r.edit.Some? ==>
      r.edit == if dragged.value in favorites
        then Some(MoveTo(dragged.value.id, IndexOf(favorites, target)))
        else Some(AddAt(dragged.value.id, IndexOf(favorites, target)))
  {
    if !enabled then DropOutcome(true, None)
    else if dragged.None? || dragged.value.windowBacked then DropOutcome(false, None)
    else
      var ca := IndexOf(favorites, dragged.value);
      var ct := IndexOf(favorites, target);
      if ct == -1 then DropOutcome(false, None)
      else if !placeholder then DropOutcome(true, None)
      else
        var id := dragged.value.id;
        DropOutcome(false, Some(if ca > -1 then MoveTo(id, ct) else AddAt(id, ct)))
  }

  /** A drop that follows a drag-over which placed a placeholder schedules
      a move exactly when the drag-over reported MOVE_DROP and an add exactly
      when it reported COPY_DROP, at the target's favorite index. */
  lemma {:induction false} DropMatchesDragOver(enabled: bool, dragged: Option<App>, favorites: seq<App>, target: App)
    requires DragOverPlan(enabled, dragged, favorites, target).Place?
    ensures var r := AcceptDrop(enabled, dragged, favorites, target, true);
      !r.accepted && r.edit.Some? &&
      (r.edit.value.MoveTo? <==> PlanResult(DragOverPlan(enabled, dragged, favorites, target)) == MoveDrop) &&
      (r.edit.value.AddAt? <==> PlanResult(DragOverPlan(enabled, dragged, favorites, target)) == CopyDrop) &&
      r.edit.value.pos == IndexOf(favorites, target)
  {
    var p := DragOverPlan(enabled, dragged, favorites, target);
    assert enabled && dragged.Some? && !dragged.value.windowBacked && target in favorites;
    assert p.move <==> dragged.value in favorites;
  }

  /** Children of the favorites box: app icons and drag placeholders. */
  datatype BoxChild = Icon(id: nat) | Placeholder

  /** The box children with every placeholder removed. */
  function WithoutPlaceholders(children: seq<BoxChild>): (r: seq<BoxChild>)
    ensures Placeholder !in r && Placeholders(r) == 0
    ensures forall c :: c in r <==> c in children && c != Placeholder
  {
    if children == [] then []
    else (if children[0] == Placeholder then [] else [children[0]]) + WithoutPlaceholders(children[1..])
  }

  /** The number of placeholders among the children. */
  function Placeholders(children: seq<BoxChild>): nat {
    multiset(children)[Placeholder]
  }

  /** Clearing the placeholders and then placing one leaves exactly one,
      wherever it goes. */
  lemma PlaceholderOnce(children: seq<BoxChild>, pos: nat)
    ensures Placeholders(InsertAt(WithoutPlaceholders(children), Placeholder, pos)) == 1
  {
    var c := WithoutPlaceholders(children);
    if pos <= |c| {
      var a, b := c[..pos], c[pos..];
      assert c == a + b;
      assert Placeholder !in a && Placeholder !in b;
      assert InsertAt(c, Placeholder, pos) == a + [Placeholder] + b;
      assert multiset(a + [Placeholder] + b) == multiset(a) + multiset{Placeholder} + multiset(b);
    } else {
      assert multiset(c + [Placeholder]) == multiset(c) + multiset{Placeholder};
    }
  }

  /** The drag-and-drop state that `handleDragOver` and `acceptDrop` keep on
      each app icon. */
  class IconDrop {
    /** The icon's app. */
    const app: App
    var placeholder: bool
    var placeholderPos: Option<int>

    constructor (app: App)
      ensures this.app == app && !placeholder && placeholderPos == None
    {
      this.app := app;
      placeholder := false;
      placeholderPos := None;
    }

    /** `handleDragOver`: refuses a disabled feature, a missing or
        window-backed app, or a target that is not a favorite, touching
        nothing; otherwise clears every placeholder from the favorites box
        and this icon's placeholder, refuses a drag onto its own favorite
        index, and else puts one placeholder at the position the plan gives
        and reports MOVE_DROP for a favorite and COPY_DROP for another app. */
    method HandleDragOver(enabled: bool, dragged: Option<App>, favorites: seq<App>, box: seq<BoxChild>)
      returns (result: DragResult, box': seq<BoxChild>)
      modifies this
      ensures result == PlanResult(DragOverPlan(enabled, dragged, favorites, app))
      ensures DragOverPlan(enabled, dragged, favorites, app) == Refuse ==> unchanged(this) && box' == box
      ensures DragOverPlan(enabled, dragged, favorites, app) == ClearOnly ==>
        !placeholder && placeholderPos == None && box' == WithoutPlaceholders(box)
      ensures DragOverPlan(enabled, dragged, favorites, app).Place? ==>
        placeholder && placeholderPos == Some(DragOverPlan(enabled, dragged, favorites, app).pos) &&
        box' == InsertAt(WithoutPlaceholders(box), Placeholder, ClampIndex(placeholderPos.value))
      ensures Placeholders(box) <= 1 ==> Placeholders(box') <= 1
      ensures DragOverPlan(enabled, dragged, favorites, app) != Refuse ==> Placeholders(box') <= 1
    {
      box' := box;
      var p := DragOverPlan(enabled, dragged, favorites, app);
      if p == Refuse {
        return NoDrop, box';
      }
      box' := WithoutPlaceholders(box');
      placeholder := false;
      placeholderPos := None;
      if p == ClearOnly {
        return NoDrop, box';
      }
      placeholderPos := Some(p.pos);
      placeholder := true;
      PlaceholderOnce(box, ClampIndex(p.pos));
      box' := InsertAt(box', Placeholder, ClampIndex(p.pos));
      result := if p.move then MoveDrop else CopyDrop;
    }
  }

  /** A child index as the toolkit takes it: a negative index appends. */
  function ClampIndex(i: int): nat {
    if i < 0 then 0x7fff_ffff else i
  }

  // ---------------------------------------------------------------------
  // The favorites worker

  /** The subscriptions `connect` makes, in order. */
  datatype Signal =
    | InstalledChanged | FavoritesChanged | AppStateChanged
    | ItemDragBegin | ItemDragEnd | ItemDragCancelled | OverviewShowing | OverviewHidden

  const SUBSCRIPTIONS: seq<Signal> :=
    [InstalledChanged, FavoritesChanged, AppStateChanged, ItemDragBegin, ItemDragEnd, ItemDragCancelled,
     OverviewShowing, OverviewHidden]

  /** The left-box index of the favorites box. */
  function BoxIndex(favoritesBeforePreferences: bool): nat {
    if favoritesBeforePreferences then 1 else 2
  }

  class FavoritesMod {
    const shell: Shell
    var comfortSettings: Option<Comfort.ComfortSettings>
    /** The favorites box's children, when the box exists. */
    var box: Option<seq<BoxChild>>
    var boxVisible: bool
    /** The deferred-work handle. */
    var workId: Option<nat>
    /** A deferred update has been queued. */
    var updateQueued: bool
    var loaded: bool
    var connections: Option<seq<Signal>>
    var list: Option<seq<App>>
    var previous: Option<seq<Item>>
    var favorites: Option<seq<App>>
    var running: Option<seq<App>>
    var displayed: Option<seq<Item>>
    var dragCancelled: bool
    /** The drag monitor is registered. */
    var dragMonitor: bool
    /** Source of fresh icon identities. */
    var nextIcon: nat
    var active: bool
    /** How many times `endDrag` has run. */
    ghost var endDragRuns: nat

    /** Displayed entries show distinct apps, and a loaded worker has a box. */
    ghost predicate Valid()
      reads this
    {
      (displayed.Some? ==> DistinctItemApps(displayed.value)) &&
      (loaded ==> box.Some?)
    }

    constructor (shell: Shell)
      ensures this.shell == shell && Valid()
      ensures comfortSettings == None && box == None && workId == None && !loaded && connections == None
      ensures list == None && previous == None && favorites == None && running == None && displayed == None
      ensures !dragCancelled && !dragMonitor && !active && !updateQueued
    {
      this.shell := shell;
      comfortSettings := None;
      box := None;
      boxVisible := true;
      workId := None;
      updateQueued := false;
      loaded := false;
      connections := None;
      list := None;
      previous := None;
      favorites := None;
      running := None;
      displayed := None;
      dragCancelled := false;
      dragMonitor := false;
      nextIcon := 0;
      active := false;
      endDragRuns := 0;
    }

    /** `init`: with display-favorites-enabled on, creates a fresh empty box,
        asks for a deferred-work handle only when it has none (`work` is the
        one the host hands out), becomes active and updates at once. */
    method Init(work: nat)
      requires Valid()
      requires DistinctIds(shell.favoriteApps) && DistinctApps(shell.runningApps)
      modifies this`box, this`boxVisible, this`workId, this`active, this`loaded, this`connections,
               this`favorites, this`list, this`running, this`previous, this`displayed, this`nextIcon, shell`leftBox
      ensures Valid()
      ensures !shell.settings.displayFavoritesEnabled ==> unchanged(this) && unchanged(shell)
      ensures shell.settings.displayFavoritesEnabled ==>
        active && workId == (if old(workId).None? then Some(work) else old(workId)) &&
        Updated(old(loaded), old(shell.leftBox), old(displayed), old(nextIcon), [])
    {
      if shell.settings.displayFavoritesEnabled {
        box := Some([]);
        boxVisible := true;
        if workId.None? {
          workId := Some(work);
        }
        active := true;
        Update();
      }
    }

    /** What `update` leaves, given whether the box was loaded, the left box,
        the displayed entries, the icon counter and the box's children before
        it. */
    ghost predicate Updated(wasLoaded: bool, leftBox0: seq<Actor>, displayed0: Option<seq<Item>>, next0: nat,
                            box0: seq<BoxChild>)
      reads this, shell
    {
      Placed(wasLoaded, leftBox0) && Rebuilt(displayed0, next0, box0)
    }

    /** The box is in the left box: inserted at its index, with the
        subscriptions made, unless it already was. */
    ghost predicate Placed(wasLoaded: bool, leftBox0: seq<Actor>)
      reads this, shell
    {
      loaded &&
      shell.leftBox == (if wasLoaded then leftBox0
                        else InsertAt(leftBox0, FavoritesBox, BoxIndex(shell.settings.favoritesBeforePreferences))) &&
      (!wasLoaded ==> connections == Some(SUBSCRIPTIONS))
    }

    /** The list is rebuilt from the favorites and running apps and the
        displayed entries follow it, each reusing the icon a previous entry
        for the same app had, and the others getting new icons. The box loses
        the previous entries' icons and gets the new ones, in list order. */
    ghost predicate Rebuilt(displayed0: Option<seq<Item>>, next0: nat, box0: seq<BoxChild>)
      reads this, shell
    {
      var l := DisplayList(shell.favoriteApps, shell.runningApps, shell.settings.showRunningApps);
      displayed.Some? &&
      box == Some((if displayed0.None? then box0 else WithoutIcons(box0, displayed0.value)) + IconsOf(displayed.value)) &&
      favorites == Some(shell.favoriteApps) && list == Some(l) &&
      (shell.settings.showRunningApps ==> running == Some(shell.runningApps)) &&
      previous == displayed0 && displayed.Some? && next0 <= nextIcon &&
      var d := displayed.value;
      |d| == |l| &&
      (forall k :: 0 <= k < |l| ==> d[k].app == l[k] && d[k].pos == k) &&
      (forall k, j :: 0 <= k < |l| && displayed0.Some? && 0 <= j < |displayed0.value| && displayed0.value[j].app == l[k] ==>
        d[k].icon == displayed0.value[j].icon) &&
      (forall k :: 0 <= k < |l| && !Shown(displayed0, l[k]) ==> next0 <= d[k].icon < nextIcon)
    }

    /** `update`: on first use puts the box into the left box at index 1 (2
        when favorites go after the preferences button) and subscribes; then
        rebuilds the list from the favorites and running apps, takes the
        displayed entries as the previous ones (none the first time), and
        reconciles them with the list, reusing icons. */
    method Update()
      requires Valid() && box.Some?
      requires DistinctIds(shell.favoriteApps) && DistinctApps(shell.runningApps)
      modifies this`loaded, this`connections, this`favorites, this`list, this`running, this`previous,
               this`displayed, this`box, this`nextIcon, shell`leftBox
      ensures Valid()
      ensures Updated(old(loaded), old(shell.leftBox), old(displayed), old(nextIcon), old(box).value)
    {
      Place();
      Rebuild();
    }

    /** The first-use part of `update`. */
    method Place()
      modifies this`loaded, this`connections, shell`leftBox
      ensures Placed(old(loaded), old(shell.leftBox))
    {
      if !loaded {
        var index := BoxIndex(shell.settings.favoritesBeforePreferences);
        shell.leftBox := InsertAt(shell.leftBox, FavoritesBox, index);
        Connect();
        loaded := true;
      }
    }

    /** The rebuilding part of `update`. */
    method Rebuild()
      requires Valid() && box.Some?
      requires DistinctIds(shell.favoriteApps) && DistinctApps(shell.runningApps)
      modifies this`favorites, this`list, this`running, this`previous, this`displayed, this`box, this`nextIcon
      ensures Valid()
      ensures Rebuilt(old(displayed), old(nextIcon), old(box).value)
    {
      favorites := Some(shell.favoriteApps);
      var l := BuildList(shell.favoriteApps, shell.runningApps, shell.settings.showRunningApps);
      if shell.settings.showRunningApps {
        running := Some(shell.runningApps);
      }
      list := Some(l);
      DisplayListDistinct(shell.favoriteApps, shell.runningApps, shell.settings.showRunningApps);

      var children := box.value;
      if displayed.None? {
        previous := None;
      } else {
        previous := displayed;
        children := WithoutIcons(children, displayed.value);
      }
      var d, next := Reconcile(l, previous, nextIcon);
      displayed := Some(d);
      nextIcon := next;
      box := Some(children + IconsOf(d));
    }

    /** `queueUpdate`: queues a deferred update when there is a handle. */
    method QueueUpdate()
      modifies this`updateQueued
      ensures updateQueued == (old(updateQueued) || workId.Some?)
    {
      if workId.Some? {
        updateQueued := true;
      }
    }

    /** `connect`: the eight subscriptions. */
    method Connect()
      modifies this`connections
      ensures connections == Some(SUBSCRIPTIONS)
    {
      connections := Some(SUBSCRIPTIONS);
    }

    /** `disconnect`: drops every subscription; a second call does nothing. */
    method Disconnect()
      modifies this`connections
      ensures connections == None
    {
      if connections.Some? {
        connections := None;
      }
    }

    /** `destroy`: an active worker unsubscribes, drops the list, the previous
        and displayed entries, the favorites and running apps, takes the box
        out of the left box when it was loaded, drops the box and the work
        handle, and becomes inactive. */
    method Destroy()
      requires Valid()
      modifies this`connections, this`previous, this`list, this`displayed, this`loaded, this`favorites,
               this`running, this`box, this`workId, this`active, shell`leftBox
      ensures Valid() && !active
      ensures old(active) ==>
        connections == None && list == None && previous == None && displayed == None &&
        favorites == None && running == None && box == None && workId == None && !loaded &&
        shell.leftBox == (if old(loaded) then RemoveFirst(old(shell.leftBox), FavoritesBox) else old(shell.leftBox))
      ensures !old(active) ==> unchanged(this) && shell.leftBox == old(shell.leftBox)
    {
      if active {
        Disconnect();
        DropDisplay();
        Unload();
        DropSources();
        active := false;
      }
    }

    /** The removal of `destroy`: a loaded box leaves the left box. */
    method Unload()
      modifies this`loaded, shell`leftBox
      ensures !loaded
      ensures shell.leftBox == (if old(loaded) then RemoveFirst(old(shell.leftBox), FavoritesBox) else old(shell.leftBox))
    {
      if loaded {
        shell.leftBox := RemoveFirst(shell.leftBox, FavoritesBox);
        loaded := false;
      }
    }

    /** The first releases of `destroy`: the previous entries, the list and
        the displayed entries. */
    method DropDisplay()
      modifies this`previous, this`list, this`displayed
      ensures previous == None && list == None && displayed == None
    {
      previous := None;
      list := None;
      displayed := None;
    }

    /** The last releases of `destroy`: the favorites, the running apps, the
        box and the work handle. */
    method DropSources()
      modifies this`favorites, this`running, this`box, this`workId
      ensures favorites == None && running == None && box == None && workId == None
    {
      favorites := None;
      running := None;
      box := None;
      workId := None;
    }

    /** `onToggleOverview`: a loaded box is hidden while the overview is
        visible and shown otherwise. */
    method OnToggleOverview()
      modifies this`boxVisible
      ensures loaded ==> boxVisible == !shell.overviewVisible
      ensures !loaded ==> boxVisible == old(boxVisible)
    {
      if loaded {
        boxVisible := !shell.overviewVisible;
      }
    }

    /** `onDragBegin`: clears the cancelled flag and registers the drag
        monitor. */
    method OnDragBegin()
      modifies this`dragCancelled, this`dragMonitor
      ensures !dragCancelled && dragMonitor
    {
      dragCancelled := false;
      dragMonitor := true;
    }

    /** `onDragCancelled`: sets the cancelled flag and ends the drag. */
    method OnDragCancelled()
      requires box.Some?
      modifies this`dragCancelled, this`dragMonitor, this`box, this`endDragRuns
      ensures dragCancelled && !dragMonitor && box == Some(WithoutPlaceholders(old(box).value))
      ensures endDragRuns == old(endDragRuns) + 1
    {
      dragCancelled := true;
      EndDrag();
    }

    /** `onDragEnd`: ends the drag unless it was cancelled, which already
        ended it. */
    method OnDragEnd()
      requires box.Some?
      modifies this`dragMonitor, this`box, this`endDragRuns
      ensures dragCancelled ==> unchanged(this)
      ensures !dragCancelled ==>
        !dragMonitor && box == Some(WithoutPlaceholders(old(box).value)) && endDragRuns == old(endDragRuns) + 1
    {
      if dragCancelled {
        return;
      }
      EndDrag();
    }

    /** `endDrag`: removes the placeholders from the box and unregisters the
        drag monitor. (Its loop over `displayed` reads properties of index
        strings and never finds a placeholder.) */
    method EndDrag()
      requires box.Some?
      modifies this`dragMonitor, this`box, this`endDragRuns
      ensures !dragMonitor && box == Some(WithoutPlaceholders(old(box).value))
      ensures endDragRuns == old(endDragRuns) + 1
    {
      box := Some(WithoutPlaceholders(box.value));
      dragMonitor := false;
      endDragRuns := endDragRuns + 1;
    }
  }

  /** The icons of the displayed entries, in order. */
  function IconsOf(d: seq<Item>): (r: seq<BoxChild>)
    ensures |r| == |d| && forall k :: 0 <= k < |d| ==> r[k] == Icon(d[k].icon)
  {
    if d == [] then [] else [Icon(d[0].icon)] + IconsOf(d[1..])
  }

  /** The box children without the icons of the given entries. */
  function WithoutIcons(children: seq<BoxChild>, d: seq<Item>): (r: seq<BoxChild>)
    ensures forall c :: c in r <==> c in children && c !in IconsOf(d)
  {
    if children == [] then []
    else (if children[0] in IconsOf(d) then [] else [children[0]]) + WithoutIcons(children[1..], d)
  }

  /** A drag that is cancelled ends once: the cancel ends it, the end that
      follows does nothing. */
  method CancelledDragEndsOnce(f: FavoritesMod)
    requires f.box.Some?
    modifies f
    ensures f.endDragRuns == old(f.endDragRuns) + 1 && !f.dragMonitor
  {
    f.OnDragBegin();
    f.OnDragCancelled();
    f.OnDragEnd();
  }

  /** A drag that completes normally ends once too. */
  method CompletedDragEndsOnce(f: FavoritesMod)
    requires f.box.Some?
    modifies f
    ensures f.endDragRuns == old(f.endDragRuns) + 1 && !f.dragMonitor
  {
    f.OnDragBegin();
    f.OnDragEnd();
  }
}
