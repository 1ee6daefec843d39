/** lib/mmod/aggregate.js: adds an "MMOD-Panel" submenu (Preferences,
    Feedback) to the system-tray menu, at the highest-numbered tray item among
    the first ten that can hold menu items, or to the user menu of older
    shells. */
module Aggregate {
  import opened Host

  /** The scan starts at this item index and walks down to 0. */
  const SCAN_TOP: int := 9
  /** Position of the submenu inside the user menu of older shells. */
  const USER_MENU_POSITION: nat := 5

  /** The two entries of the submenu, in order. */
  const SUBMENU_ITEMS: seq<string> := ["Preferences", "Feedback"]

  /** Where the submenu was put. */
  datatype Parent = TrayItem(index: nat) | UserMenu

  /** The item at `i` exists. */
  predicate Present(items: seq<Option<MenuItem>>, i: int) {
    0 <= i < |items| && items[i].Some?
  }

  /** The item at `i` exists and can hold menu items (has `addMenuItem`). */
  predicate Qualifies(items: seq<Option<MenuItem>>, i: int) {
    Present(items, i) && items[i].value.submenu
  }

  /** The insertion point the scan looks for: the highest qualifying index in
      0..top, or None when no index there qualifies. */
  function HighestQualifying(items: seq<Option<MenuItem>>, top: int): (r: Option<nat>)
    ensures r.Some? ==> r.value <= top && Qualifies(items, r.value)
    ensures r.Some? ==> forall j :: r.value < j <= top ==> !Qualifies(items, j)
    ensures r.None? ==> forall j :: 0 <= j <= top ==> !Qualifies(items, j)
    decreases top + 1
  {
    if top < 0 then None
    else if Qualifies(items, top) then Some(top)
    else HighestQualifying(items, top - 1)
  }

  /** The indices the scan logs as unusable while walking from `hi` down to
      `lo + 1`: present items that cannot hold menu items, highest first. */
  function Unusable(items: seq<Option<MenuItem>>, hi: int, lo: int): (r: seq<nat>)
    ensures forall k :: 0 <= k < |r| ==> lo < r[k] <= hi && Present(items, r[k]) && !Qualifies(items, r[k])
    decreases hi - lo
  {
    if hi <= lo then []
    else (if Present(items, hi) && !Qualifies(items, hi) then [hi as nat] else []) + Unusable(items, hi - 1, lo)
  }

  /** Every present, unusable index between the bounds is logged: with the
      ensures of `Unusable`, the log is exactly those indices. */
  lemma {:induction false} UnusableComplete(items: seq<Option<MenuItem>>, hi: int, lo: int)
    ensures forall j :: lo < j <= hi && Present(items, j) && !Qualifies(items, j) ==> j in Unusable(items, hi, lo)
    decreases hi - lo
  {
    if hi > lo {
      UnusableComplete(items, hi - 1, lo);
    }
  }

  /** A tray item's entries after the separator went in at position 1 and the
      submenu at position 2. */
  function WithSubmenu(entries: seq<MenuEntry>): seq<MenuEntry> {
    InsertAt(InsertAt(entries, MmodSeparator, 1), MmodSubmenu, 2)
  }

  /** Walking one index further down logs that index when it is present and
      unusable. */
  lemma {:induction false} UnusableStep(items: seq<Option<MenuItem>>, hi: int, lo: int)
    requires lo <= hi
    ensures Unusable(items, hi, lo - 1) ==
      Unusable(items, hi, lo) + (if Present(items, lo) && !Qualifies(items, lo) then [lo as nat] else [])
    decreases hi - lo
  {
    if lo < hi {
      UnusableStep(items, hi - 1, lo);
    }
  }

  /** The scan of `init` over the tray items, from 9 down to 0: it stops at
      the first item that can hold menu items and logs every present item it
      passes over before that. */
  method Scan(items: seq<Option<MenuItem>>) returns (found: Option<nat>, logged: seq<nat>)
    ensures found == HighestQualifying(items, SCAN_TOP)
    ensures found.Some? ==> logged == Unusable(items, SCAN_TOP, found.value)
    ensures found.None? ==> logged == Unusable(items, SCAN_TOP, -1)
  {
    found := None;
    logged := [];
    var i := SCAN_TOP;
    while i >= 0
      invariant -2 <= i <= SCAN_TOP
      invariant found.None? ==> -1 <= i && HighestQualifying(items, SCAN_TOP) == HighestQualifying(items, i)
      invariant found.None? ==> logged == Unusable(items, SCAN_TOP, i)
      invariant found.Some? ==> i == -2 && found == HighestQualifying(items, SCAN_TOP)
      invariant found.Some? ==> logged == Unusable(items, SCAN_TOP, found.value)
      decreases i + 2
    {
      if Present(items, i) {
        if Qualifies(items, i) {
          found := Some(i);
          i := -1;
        } else {
          UnusableStep(items, SCAN_TOP, i);
          logged := logged + [i];
        }
      } else {
        UnusableStep(items, SCAN_TOP, i);
      }
      i := i - 1;
    }
  }

  class AggregateMod {
    const shell: Shell
    /** The submenu's entries (None when there is no submenu) and where it went. */
    var menu: Option<seq<string>>
    var parent: Option<Parent>
    /** The activate subscriptions of the submenu entries. */
    var connections: Option<seq<string>>
    var active: bool

    constructor (shell: Shell)
      ensures this.shell == shell && menu == None && parent == None && connections == None && !active
    {
      this.shell := shell;
      menu := None;
      parent := None;
      connections := None;
      active := false;
    }

    /** `connect`: one activate subscription per submenu entry. */
    method Connect()
      modifies this`connections
      ensures connections == Some(SUBMENU_ITEMS)
    {
      connections := Some(SUBMENU_ITEMS);
    }

    /** `disconnect`: drops the subscriptions; a second call does nothing. */
    method Disconnect()
      modifies this`connections
      ensures connections == None
    {
      if connections.Some? {
        connections := None;
      }
    }

    /** `init`: with show-in-tray-menu on, builds the submenu, subscribes its
        entries and scans the tray items from 9 down to 0; the first item that
        can hold menu items gets a separator at 1 and the submenu at 2, and the
        scan stops there. Present items passed over are returned as log lines;
        missing ones are skipped silently. Without an aggregate menu the
        submenu goes into the user menu at position 5. The worker becomes
        active even when no insertion point was found. */
    method Init() returns (logged: seq<nat>)
      modifies this, shell`aggregateItems, shell`userMenu
      ensures !shell.settings.showInTrayMenu ==> unchanged(this) && unchanged(shell) && logged == []
      ensures shell.settings.showInTrayMenu ==>
        active && menu == Some(SUBMENU_ITEMS) && connections == Some(SUBMENU_ITEMS)
      ensures shell.settings.showInTrayMenu && old(shell.aggregateItems).None? ==>
        shell.userMenu == InsertAt(old(shell.userMenu), MmodSubmenu, USER_MENU_POSITION) &&
        parent == Some(UserMenu) && logged == [] && shell.aggregateItems == None
      ensures shell.settings.showInTrayMenu && old(shell.aggregateItems).Some? ==>
        var items := old(shell.aggregateItems).value;
        shell.userMenu == old(shell.userMenu) &&
        match HighestQualifying(items, SCAN_TOP)
        case Some(k) =>
          shell.aggregateItems == Some(items[k := Some(MenuItem(true, WithSubmenu(items[k].value.entries)))]) &&
          parent == Some(TrayItem(k)) && logged == Unusable(items, SCAN_TOP, k)
        case None =>
          shell.aggregateItems == Some(items) && parent == None && logged == Unusable(items, SCAN_TOP, -1)
    {
      logged := [];
      if !shell.settings.showInTrayMenu {
        return;
      }
      menu := Some(SUBMENU_ITEMS);
      parent := None;
      Connect();

      if shell.aggregateItems.Some? {
        var items := shell.aggregateItems.value;
        var found;
        found, logged := Scan(items);
        if found.Some? {
          var k := found.value;
          var entries := items[k].value.entries;
          entries := InsertAt(entries, MmodSeparator, 1);
          entries := InsertAt(entries, MmodSubmenu, 2);
          shell.aggregateItems := Some(items[k := Some(MenuItem(true, entries))]);
          parent := Some(TrayItem(k));
        }
      } else {
        shell.userMenu := InsertAt(shell.userMenu, MmodSubmenu, USER_MENU_POSITION);
        parent := Some(UserMenu);
      }
      active := true;
    }

    /** `destroy`: an active worker drops its subscriptions and destroys the
        submenu, which takes it out of the menu it was added to; the separator
        added with it is not removed. */
    method Destroy()
      modifies this, shell`aggregateItems, shell`userMenu
      ensures !active
      ensures old(active) ==>
        connections == None && menu == None && parent == None &&
        shell.aggregateItems == RemovedFrom(old(shell.aggregateItems), old(parent)) &&
        shell.userMenu == (if old(parent) == Some(UserMenu) then RemoveFirst(old(shell.userMenu), MmodSubmenu) else old(shell.userMenu))
      ensures !old(active) ==> unchanged(this) && unchanged(shell)
    {
      if active {
        Disconnect();
        if parent == Some(UserMenu) {
          shell.userMenu := RemoveFirst(shell.userMenu, MmodSubmenu);
        }
        shell.aggregateItems := RemovedFrom(shell.aggregateItems, parent);
        parent := None;
        menu := None;
        active := false;
      }
    }
  }

  /** The tray items once the submenu under `parent` has been destroyed. */
  function RemovedFrom(items: Option<seq<Option<MenuItem>>>, parent: Option<Parent>): Option<seq<Option<MenuItem>>> {
    match parent
    case Some(TrayItem(k)) =>
      if items.Some? && k < |items.value| && items.value[k].Some? then
        var it := items.value[k].value;
        Some(items.value[k := Some(it.(entries := RemoveFirst(it.entries, MmodSubmenu)))])
      else items
    case _ => items
  }

  /** The entries of the tray item once `destroy` has run after `init`: the
      submenu is gone, the separator stays. */
  function AfterDestroy(entries: seq<MenuEntry>): seq<MenuEntry> {
    RemoveFirst(WithSubmenu(entries), MmodSubmenu)
  }

  /** Where the separator and the submenu land: right after the item's first
      entry, or alone in an empty item. */
  lemma {:induction false} WithSubmenuShape(entries: seq<MenuEntry>)
    ensures |entries| == 0 ==> WithSubmenu(entries) == [MmodSeparator, MmodSubmenu]
    ensures |entries| > 0 ==> WithSubmenu(entries) == [entries[0], MmodSeparator, MmodSubmenu] + entries[1..]
  {
    if |entries| > 0 {
      var w1 := InsertAt(entries, MmodSeparator, 1);
      assert w1 == [entries[0], MmodSeparator] + entries[1..];
      assert w1[..2] == [entries[0], MmodSeparator] && w1[2..] == entries[1..];
    }
  }

  /** What `destroy` leaves: the item with the separator still after its
      first entry. */
  lemma {:induction false} AfterDestroyShape(entries: seq<MenuEntry>)
    requires MmodSubmenu !in entries
    ensures |entries| == 0 ==> AfterDestroy(entries) == [MmodSeparator]
    ensures |entries| > 0 ==> AfterDestroy(entries) == [entries[0]] + ([MmodSeparator] + entries[1..])
  {
    if |entries| > 0 {
      assert entries[0] in entries;
      AfterDestroyNonEmpty(entries);
    } else {
      AfterDestroyEmpty(entries);
    }
  }

  lemma AfterDestroyNonEmpty(entries: seq<MenuEntry>)
    requires |entries| > 0 && entries[0] != MmodSubmenu
    ensures AfterDestroy(entries) == [entries[0]] + ([MmodSeparator] + entries[1..])
  {
    var h, rest := entries[0], entries[1..];
    var t2 := [MmodSubmenu] + rest;
    var t1 := [MmodSeparator] + t2;
    assert WithSubmenu(entries) == [h] + t1 by { WithSubmenuShape(entries); }
    RemoveFirstSkips(h, t1, MmodSubmenu);
    RemoveFirstSkips(MmodSeparator, t2, MmodSubmenu);
    RemoveFirstHead(MmodSubmenu, rest);
  }

  lemma AfterDestroyEmpty(entries: seq<MenuEntry>)
    requires |entries| == 0
    ensures AfterDestroy(entries) == [MmodSeparator]
  {
    assert WithSubmenu(entries) == [MmodSeparator] + [MmodSubmenu] by { WithSubmenuShape(entries); }
    RemoveFirstSkips(MmodSeparator, [MmodSubmenu], MmodSubmenu);
    RemoveFirstHead(MmodSubmenu, []);
  }

  /** Each enable/disable cycle of the worker leaves one more of its
      separators behind in the tray item, so the item never returns to what
      it was. */
  lemma {:induction false} SeparatorLeaks(entries: seq<MenuEntry>)
    requires MmodSubmenu !in entries
    ensures multiset(AfterDestroy(entries))[MmodSeparator] == multiset(entries)[MmodSeparator] + 1
    ensures MmodSubmenu !in AfterDestroy(entries)
    ensures |AfterDestroy(entries)| == |entries| + 1
  {
    AfterDestroyShape(entries);
    if |entries| > 0 {
      assert entries == [entries[0]] + entries[1..];
      assert multiset(AfterDestroy(entries)) == multiset(entries) + multiset{MmodSeparator};
    }
  }

  /** The intended `destroy` for a tray item: removes the separator it added
      as well as the submenu. */
  function AfterDestroyBoth(entries: seq<MenuEntry>): seq<MenuEntry> {
    RemoveFirst(AfterDestroy(entries), MmodSeparator)
  }

  /** With the separator removed too, an enable/disable cycle restores the
      tray item's entries exactly. */
  lemma {:induction false} DestroyBothRestores(entries: seq<MenuEntry>)
    requires MmodSubmenu !in entries && MmodSeparator !in entries
    ensures AfterDestroyBoth(entries) == entries
  {
    AfterDestroyShape(entries);
    if |entries| > 0 {
      var h, rest := entries[0], entries[1..];
      calc {
        AfterDestroyBoth(entries);
        RemoveFirst([h] + ([MmodSeparator] + rest), MmodSeparator);
        { RemoveFirstSkips(h, [MmodSeparator] + rest, MmodSeparator); }
        [h] + RemoveFirst([MmodSeparator] + rest, MmodSeparator);
        { RemoveFirstHead(MmodSeparator, rest); }
        [h] + rest;
        entries;
      }
    } else {
      RemoveFirstHead(MmodSeparator, []);
    }
  }
}
