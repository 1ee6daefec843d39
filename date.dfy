/** lib/mmod/date.js: moves the date menu from the panel's center box into its
    right box (next to the system tray) and back. */
module Date {
  import opened Host
  import Realize

  class DateMod {
    const shell: Shell
    var realize: int
    var active: bool

    constructor (shell: Shell)
      ensures this.shell == shell && realize == -1 && !active
    {
      this.shell := shell;
      realize := -1;
      active := false;
    }

    /** `init`: with date-in-tray off the menu stays where it is, is marked
        not in the tray and the worker is active at once; with it on, the
        first call only subscribes to realize, and a later call moves the menu
        into the right box and marks it in the tray. */
    method Init(handlerId: int)
      requires handlerId > 0
      modifies this`realize, this`active, shell`dateMenuBox, shell`dateMenuInTray
      ensures !shell.settings.dateInSysTray ==>
        shell.dateMenuInTray == Some(false) && active && realize == old(realize) &&
        shell.dateMenuBox == old(shell.dateMenuBox)
      ensures shell.settings.dateInSysTray ==>
        Realize.Check(old(realize), handlerId) == Realize.Step(realize, old(realize) >= 0)
      ensures shell.settings.dateInSysTray && old(realize) < 0 ==>
        unchanged(shell) && active == old(active)
      ensures shell.settings.dateInSysTray && old(realize) >= 0 ==>
        shell.dateMenuBox == RightBox && shell.dateMenuInTray == Some(true) && active
    {
      if shell.settings.dateInSysTray {
        if realize < 0 {
          realize := handlerId;
          return;
        }
        if realize > 0 {
          realize := 0;
        }
        shell.dateMenuBox := RightBox;
        shell.dateMenuInTray := Some(true);
      } else {
        shell.dateMenuInTray := Some(false);
      }
      active := true;
    }

    /** `destroy`: an active worker moves the menu back to the center box only
        when it is in the tray, and removes the `inTray` property; every call
        leaves `realize` at 0, so a second call changes nothing. */
    method Destroy()
      modifies this`realize, this`active, shell`dateMenuBox, shell`dateMenuInTray
      ensures !active && realize == 0
      ensures old(active) ==>
        shell.dateMenuInTray == None &&
        shell.dateMenuBox == (if old(shell.dateMenuInTray) == Some(true) then CenterBox else old(shell.dateMenuBox))
      ensures !old(active) ==> unchanged(shell)
    {
      if active {
        if shell.dateMenuInTray == Some(true) {
          shell.dateMenuBox := CenterBox;
          shell.dateMenuInTray := None;
        }
        shell.dateMenuInTray := None;
        active := false;
      }
      realize := 0;
    }
  }

  /** Enabling the move and then disabling it (the disable-then-enable cycle
      of a preference change, seen from the menu) returns the date menu to the
      box it started in, with its `inTray` property gone. */
  method MoveAndRestore(shell: Shell, handlerId: int)
    requires handlerId > 0
    requires shell.settings.dateInSysTray && shell.dateMenuBox == CenterBox
    modifies shell`dateMenuBox, shell`dateMenuInTray
    ensures shell.dateMenuBox == CenterBox && shell.dateMenuInTray == None
  {
    var d := new DateMod(shell);
    d.Init(handlerId);
    assert d.realize == handlerId && !d.active;
    d.Init(handlerId + 1);
    assert shell.dateMenuBox == RightBox && d.active;
    d.Destroy();
  }
}
