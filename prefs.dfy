/** prefs.js: the preferences window's panel-button icon chooser. Picking a
    stock icon writes its path for the current comfort level; the file picker
    sets a custom path; a "Custom" entry is offered in the drop-down while the
    custom icon is selected. */
module Preferences {
  import opened Host

  /** Entries of the icon drop-down. */
  datatype Choice = M4Iken | Apps | Debian | Fedora | Custom

  /** The stock icons, in drop-down order. */
  const STOCK_ICONS: seq<Choice> := [M4Iken, Apps, Debian, Fedora]
  const CUSTOM: Choice := Custom
  /** The `panel-button-icon` value of the custom icon. */
  const CUSTOM_INDEX: int := 4

  /** File-chooser responses the window tells apart. */
  const RESPONSE_ACCEPT: int := -3
  const RESPONSE_NONE: int := -1

  /** The default icon, relative to the extension's directory. */
  const DEFAULT_ICON: string := STAR_ICON + "48" + ".png"

  /** The stem of the first stock icon's files. */
  const STAR_ICON: string := "/res/img/mico/mstar/mmod-logo-fin-"

  /** The icon size for a comfort level: 24 for compact, 48 for the largest
      level, 32 otherwise. */
  function IconSize(comfortLevel: int): (r: nat)
    ensures r == 24 <==> comfortLevel == 0
    ensures r == 48 <==> comfortLevel == 2
    ensures r == 24 || r == 32 || r == 48
  {
    if comfortLevel == 0 then 24 else if comfortLevel == 2 then 48 else 32
  }

  /** An icon size as it appears in a file name; only the sizes `IconSize`
      gives have stock files. */
  predicate StockSize(size: nat) {
    size == 24 || size == 32 || size == 48
  }

  /** An icon size as it appears in a file name. */
  function SizeText(size: nat): string
    requires StockSize(size)
  {
    if size == 24 then "24" else if size == 48 then "48" else "32"
  }

  /** The file of stock icon `index` at `size`, relative to the extension's
      directory; None for any other index. */
  function StockIconFile(index: int, size: nat): (r: Option<string>)
    requires StockSize(size)
    ensures r.Some? <==> 0 <= index < |STOCK_ICONS|
  {
    if index == 0 then Some(STAR_ICON + SizeText(size) + ".png")
    else if index == 1 then Some("/res/img/mico/mapp/mapp-" + SizeText(size) + ".png")
    else if index == 2 then Some("/res/img/debico/drnd/debico_" + SizeText(size) + ".png")
    else if index == 3 then Some("/res/img/fedico/fgrey/fedora-" + SizeText(size) + ".png")
    else None
  }

  /** The stock icon of the largest size at index 0 is the default icon. */
  lemma DefaultIsLargestStar()
    ensures StockIconFile(0, IconSize(2)) == Some(DEFAULT_ICON)
  {
    assert IconSize(2) == 48;
    assert SizeText(48) == "48";
  }

  /** Different stock icons have different files at every size: the
      directory under `res/img` already tells them apart. */
  lemma {:induction false} StockIconFilesDistinct(i: int, j: int, size: nat, size': nat)
    requires 0 <= i < j < |STOCK_ICONS| && StockSize(size) && StockSize(size')
    ensures StockIconFile(i, size) != StockIconFile(j, size')
  {
    var a, b := StockIconFile(i, size).value, StockIconFile(j, size').value;
    assert a[9] == if i == 2 then 'd' else if i == 3 then 'f' else 'm';
    assert b[9] == if j == 2 then 'd' else if j == 3 then 'f' else 'm';
    if i == 0 && j == 1 {
      assert a[15] == 's' && b[15] == 'a';
    }
  }

  /** The drop-down entries built for a stored icon value: the stock icons,
      and "Custom" when the custom icon is stored. */
  function BuildEntries(icon: int): (r: seq<Choice>)
    ensures |r| >= |STOCK_ICONS| && r[..|STOCK_ICONS|] == STOCK_ICONS
    ensures CUSTOM in r <==> icon == CUSTOM_INDEX
  {
    STOCK_ICONS + (if icon == CUSTOM_INDEX then [CUSTOM] else [])
  }

  /** The drop-down without the entry at `i` (unchanged when there is none). */
  function RemoveAt(s: seq<Choice>, i: int): (r: seq<Choice>)
    ensures 0 <= i < |s| ==> |r| == |s| - 1 && r[..i] == s[..i] && r[i..] == s[i + 1..]
    ensures !(0 <= i < |s|) ==> r == s
  {
    if 0 <= i < |s| then s[..i] + s[i + 1..] else s
  }

  /** The drop-down after the icon changes from `previous` to `inew`: the
      entry at the custom index goes when the custom icon is left. */
  function DropCustom(entries: seq<Choice>, previous: int, inew: int): seq<Choice> {
    if previous == CUSTOM_INDEX && inew != CUSTOM_INDEX then RemoveAt(entries, CUSTOM_INDEX) else entries
  }

  /** Occurrences of "Custom" in the drop-down. */
  function CustomCount(entries: seq<Choice>): nat {
    multiset(entries)[CUSTOM]
  }

  /** The preferences window's icon controls. */
  class PrefsWindow {
    /** The extension's directory. */
    const extPath: string
    /** The settings store, as the window sees it. */
    var settings: Prefs
    /** The drop-down's entries and its active index (-1: none). */
    var entries: seq<Choice>
    var active: int
    /** `dipath`: the path the window believes is displayed. */
    var dipath: string
    /** The file the icon preview shows. */
    var shownIcon: string

    /** The drop-down agrees with the stored icon: the stock icons, and one
        "Custom" entry exactly when the custom icon is stored; the active
        entry is the stored icon. */
    ghost predicate Consistent()
      reads this
    {
      entries == BuildEntries(settings.panelButtonIcon) && active == settings.panelButtonIcon
    }

    /** `buildPrefsWidget` (the icon part): the drop-down built for the
        stored icon and set to it, `dipath` taken from the stored path, and
        the preview loaded. */
    constructor (extPath: string, settings: Prefs)
      ensures this.extPath == extPath && this.settings == settings && Consistent()
      ensures active == settings.panelButtonIcon && dipath == settings.panelButtonIconPath
      ensures shownIcon == PreviewFile(extPath, settings.panelButtonIconPath)
    {
      this.extPath := extPath;
      this.settings := settings;
      entries := BuildEntries(settings.panelButtonIcon);
      active := settings.panelButtonIcon;
      dipath := settings.panelButtonIconPath;
      new;
      LoadCustomPanelButtonIcon();
    }

    /** `loadCustomPanelButtonIcon`: shows `dipath`, or the default icon
        when it is empty. */
    method LoadCustomPanelButtonIcon()
      modifies this`shownIcon
      ensures shownIcon == PreviewFile(extPath, dipath)
    {
      if dipath != "" {
        shownIcon := dipath;
      } else {
        shownIcon := extPath + DEFAULT_ICON;
      }
    }

    /** `changePanelButtonIcon`, run when the drop-down's active entry
        changes to `active`: a stock icon writes its file at the comfort
        level's size as the icon path (and shows it); any other index writes
        no path. Leaving the custom icon drops the "Custom" entry; the stored
        icon becomes the new index. */
    method ChangePanelButtonIcon()
      modifies this`settings, this`entries, this`dipath, this`shownIcon
      ensures settings == old(settings).(
        panelButtonIconPath := StockPath(extPath, active, old(settings).comfortLevel, old(settings).panelButtonIconPath),
        panelButtonIcon := active)
      ensures dipath == StockPath(extPath, active, old(settings).comfortLevel, old(dipath))
      ensures shownIcon == StockPath(extPath, active, old(settings).comfortLevel, old(shownIcon))
      ensures entries == DropCustom(old(entries), old(settings).panelButtonIcon, active)
    {
      var size := IconSize(settings.comfortLevel);
      var previous := settings.panelButtonIcon;
      var inew := active;
      var file := StockIconFile(inew, size);
      if file.Some? {
        shownIcon := extPath + file.value;
        dipath := extPath + file.value;
        settings := settings.(panelButtonIconPath := dipath);
      }
      entries := DropCustom(entries, previous, inew);
      settings := settings.(panelButtonIcon := inew);
    }

    /** The user picks entry `i` of the drop-down; the handler runs only
        when the active entry changes. Picking any entry keeps the drop-down
        consistent with the stored icon. */
    method SelectIcon(i: int)
      requires Consistent() && 0 <= i < |entries|
      modifies this`active, this`settings, this`entries, this`dipath, this`shownIcon
      ensures Consistent() && active == i && settings.panelButtonIcon == i
    {
      if active != i {
        active := i;
        ChangePanelButtonIcon();
      }
    }

    /** `changeCustomPanelButtonIcon` once the file picker answers
        `response` with `chosen` selected: first `dipath` is synced with the
        stored path; accepting a different file stores and shows it, the
        reset button stores and shows the default icon, any other answer
        stores nothing. Then, whatever the answer, "Custom" is appended to
        the drop-down, made active (running the change handler when the
        active entry changes) and stored as the icon. */
    method ChangeCustomPanelButtonIcon(response: int, chosen: string)
      modifies this`settings, this`entries, this`active, this`dipath, this`shownIcon
      ensures dipath == settings.panelButtonIconPath ==
        PickedPath(extPath, old(settings).panelButtonIconPath, response, chosen)
      ensures settings == old(settings).(panelButtonIconPath := settings.panelButtonIconPath,
                                         panelButtonIcon := CUSTOM_INDEX)
      ensures active == CUSTOM_INDEX && entries == old(entries) + [CUSTOM]
      ensures Reloaded(old(settings).panelButtonIconPath, response, chosen) ==> shownIcon == PreviewFile(extPath, dipath)
      ensures !Reloaded(old(settings).panelButtonIconPath, response, chosen) ==> shownIcon == old(shownIcon)
    {
      ApplyPickerResponse(response, chosen);
      SelectCustom();
    }

    /** The drop-down part of the picker as written: append "Custom", make
        it active and store it. */
    method SelectCustom()
      modifies this`settings, this`entries, this`active, this`dipath, this`shownIcon
      ensures active == CUSTOM_INDEX && entries == old(entries) + [CUSTOM]
      ensures settings == old(settings).(panelButtonIcon := CUSTOM_INDEX)
      ensures dipath == old(dipath) && shownIcon == old(shownIcon)
    {
      entries := entries + [CUSTOM];
      if active != CUSTOM_INDEX {
        active := CUSTOM_INDEX;
        ChangePanelButtonIcon();
      }
      settings := settings.(panelButtonIcon := CUSTOM_INDEX);
    }

    /** `changeCustomPanelButtonIcon` as evidently intended: "Custom" is
        appended only when the drop-down does not offer it yet. */
    method ChangeCustomPanelButtonIconIntended(response: int, chosen: string)
      requires Consistent()
      modifies this`settings, this`entries, this`active, this`dipath, this`shownIcon
      ensures Consistent() && CustomCount(entries) == 1
      ensures dipath == settings.panelButtonIconPath ==
        PickedPath(extPath, old(settings).panelButtonIconPath, response, chosen)
      ensures settings == old(settings).(panelButtonIconPath := settings.panelButtonIconPath,
                                         panelButtonIcon := CUSTOM_INDEX)
      ensures active == CUSTOM_INDEX
    {
      ApplyPickerResponse(response, chosen);
      SelectCustomIntended();
      assert multiset(entries) == multiset(STOCK_ICONS) + multiset{CUSTOM};
    }

    /** The drop-down part of the intended picker: offer "Custom" once,
        make it active and store it. */
    method SelectCustomIntended()
      requires Consistent()
      modifies this`settings, this`entries, this`active, this`dipath, this`shownIcon
      ensures entries == STOCK_ICONS + [CUSTOM] && active == CUSTOM_INDEX
      ensures settings == old(settings).(panelButtonIcon := CUSTOM_INDEX)
      ensures dipath == old(dipath) && shownIcon == old(shownIcon)
    {
      if settings.panelButtonIcon != CUSTOM_INDEX {
        entries := entries + [CUSTOM];
      }
      if active != CUSTOM_INDEX {
        active := CUSTOM_INDEX;
        ChangePanelButtonIcon();
      }
      settings := settings.(panelButtonIcon := CUSTOM_INDEX);
    }

    /** The response handling of the file picker. */
    method ApplyPickerResponse(response: int, chosen: string)
      modifies this`settings, this`dipath, this`shownIcon
      ensures dipath == settings.panelButtonIconPath ==
        PickedPath(extPath, old(settings).panelButtonIconPath, response, chosen)
      ensures settings == old(settings).(panelButtonIconPath := settings.panelButtonIconPath)
      ensures Reloaded(old(settings).panelButtonIconPath, response, chosen) ==> shownIcon == PreviewFile(extPath, dipath)
      ensures !Reloaded(old(settings).panelButtonIconPath, response, chosen) ==> shownIcon == old(shownIcon)
    {
      var ipath := settings.panelButtonIconPath;
      if ipath != dipath {
        dipath := ipath;
      }
      if response == RESPONSE_ACCEPT {
        if chosen != dipath {
          dipath := chosen;
          settings := settings.(panelButtonIconPath := dipath);
          LoadCustomPanelButtonIcon();
        }
      } else if response == RESPONSE_NONE {
        dipath := extPath + DEFAULT_ICON;
        settings := settings.(panelButtonIconPath := dipath);
        LoadCustomPanelButtonIcon();
      }
    }
  }

  /** The icon path after the file picker answers: the chosen file when it
      was accepted, the default icon on reset, else the stored path. */
  function PickedPath(extPath: string, stored: string, response: int, chosen: string): (r: string)
    ensures response == RESPONSE_NONE ==> r == extPath + DEFAULT_ICON
    ensures response == RESPONSE_ACCEPT ==> r == chosen
    ensures response != RESPONSE_NONE && response != RESPONSE_ACCEPT ==> r == stored
  {
    if response == RESPONSE_ACCEPT then chosen
    else if response == RESPONSE_NONE then extPath + DEFAULT_ICON
    else stored
  }

  /** The picker's answer reloads the shown icon: a reset, or accepting a
      file other than the stored one. */
  predicate Reloaded(stored: string, response: int, chosen: string) {
    response == RESPONSE_NONE || (response == RESPONSE_ACCEPT && chosen != stored)
  }

  /** As written, answering the file picker while the custom icon is
      already selected offers "Custom" twice in the drop-down. */
  method CustomEntryDuplicated(w: PrefsWindow, response: int, chosen: string)
    requires w.Consistent() && w.settings.panelButtonIcon == CUSTOM_INDEX
    modifies w
    ensures CustomCount(w.entries) == 2 && !w.Consistent()
  {
    w.ChangeCustomPanelButtonIcon(response, chosen);
    assert w.entries == STOCK_ICONS + [CUSTOM, CUSTOM];
    assert multiset(w.entries) == multiset(STOCK_ICONS) + multiset{CUSTOM, CUSTOM};
  }

  /** As written, answering the picker from a stock icon is consistent. */
  method CustomEntryFromStock(w: PrefsWindow, response: int, chosen: string)
    requires w.Consistent() && w.settings.panelButtonIcon != CUSTOM_INDEX
    modifies w
    ensures w.Consistent() && CustomCount(w.entries) == 1
  {
    w.ChangeCustomPanelButtonIcon(response, chosen);
    assert w.entries == STOCK_ICONS + [CUSTOM];
    assert multiset(w.entries) == multiset(STOCK_ICONS) + multiset{CUSTOM};
  }

  /** The path of stock icon `index` at the comfort level's size under the
      extension's directory, or `otherwise` for any other index. */
  function StockPath(extPath: string, index: int, comfortLevel: int, otherwise: string): (r: string)
    ensures !(0 <= index < |STOCK_ICONS|) ==> r == otherwise
    ensures 0 <= index < |STOCK_ICONS| ==> r == extPath + StockIconFile(index, IconSize(comfortLevel)).value
  {
    match StockIconFile(index, IconSize(comfortLevel))
    case Some(file) => extPath + file
    case None => otherwise
  }

  /** The preview a window shows for `dipath`. */
  function PreviewFile(extPath: string, dipath: string): (r: string)
    ensures dipath != "" ==> r == dipath
    ensures dipath == "" ==> r == extPath + DEFAULT_ICON
  {
    if dipath != "" then dipath else extPath + DEFAULT_ICON
  }
}
