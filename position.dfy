/** lib/mmod/position.js: moves the panel box to the bottom or the top edge of
    the primary monitor and applies the comfort style class. */
module Position {
  import opened Host
  import Comfort
  import Realize

  /** Where `init` puts the panel box for an edge value: flush with the
      monitor's bottom for the bottom edge, at the monitor's top for the top
      edge, and nowhere (the box keeps its y) for any other value. */
  function PlacedY(edge: int, monitor: Monitor, boxHeight: int): (r: Option<int>)
    ensures edge == EDGE_BOTTOM <==> r.Some? && r.value + boxHeight == monitor.height && edge != EDGE_TOP
    ensures edge == EDGE_TOP ==> r == Some(monitor.y)
    ensures r.None? <==> edge != EDGE_BOTTOM && edge != EDGE_TOP
  {
    if edge == EDGE_BOTTOM then Some(monitor.height - boxHeight)
    else if edge == EDGE_TOP then Some(monitor.y)
    else None
  }

  class PositionMod {
    const shell: Shell
    var comfortSettings: Option<Comfort.ComfortSettings>
    var realize: int
    var active: bool

    ghost predicate Valid()
      reads this
    {
      active ==> comfortSettings.Some?
    }

    constructor (shell: Shell)
      ensures this.shell == shell && Valid()
      ensures comfortSettings == None && realize == -1 && !active
    {
      this.shell := shell;
      comfortSettings := None;
      realize := -1;
      active := false;
    }

    /** `init`: the style class is added on every call, before the realize
        check; only a call that gets past the check places the box, records
        the edge on the panel and becomes active. `handlerId` is the id the
        host returns for the realize subscription. */
    method Init(handlerId: int)
      requires handlerId > 0 && Valid()
      requires comfortSettings.Some?
      modifies this`realize, this`active, shell`styleClasses, shell`panelY, shell`edge
      ensures Valid()
      ensures shell.styleClasses == old(shell.styleClasses) + {comfortSettings.value.containerStyle}
      ensures Realize.Check(old(realize), handlerId) == Realize.Step(realize, old(realize) >= 0)
      ensures old(realize) < 0 ==>
        active == old(active) && shell.panelY == old(shell.panelY) && shell.edge == old(shell.edge)
      ensures old(realize) >= 0 ==> active && shell.edge == Some(shell.settings.panelPosition)
      ensures old(realize) >= 0 ==>
        shell.panelY == PlacedY(shell.settings.panelPosition, shell.monitor, old(shell.panelHeight)).GetOr(old(shell.panelY))
    {
      shell.styleClasses := shell.styleClasses + {comfortSettings.value.containerStyle};

      if realize < 0 {
        realize := handlerId;
        return;
      }
      if realize > 0 {
        realize := 0;
      }

      var e := shell.settings.panelPosition;
      if e == EDGE_BOTTOM {
        shell.panelY := shell.monitor.height - shell.panelHeight;
      } else if e == EDGE_TOP {
        shell.panelY := shell.monitor.y;
      }
      shell.edge := Some(e);
      active := true;
    }

    /** `destroy`: an active worker puts the box back at the monitor's top,
        removes the style class and deletes the panel's edge property; every
        call leaves `realize` at 0. */
    method Destroy()
      requires Valid()
      modifies this`realize, this`active, shell`styleClasses, shell`panelY, shell`edge
      ensures Valid() && !active && realize == 0
      ensures old(active) ==>
        shell.panelY == shell.monitor.y && shell.edge == None &&
        shell.styleClasses == old(shell.styleClasses) - {comfortSettings.value.containerStyle}
      ensures !old(active) ==> unchanged(shell)
    {
      if active {
        shell.panelY := shell.monitor.y;
        shell.styleClasses := shell.styleClasses - {comfortSettings.value.containerStyle};
        shell.edge := None;
        active := false;
      }
      realize := 0;
    }
  }

  /** Enabling and then disabling the move, starting from a fresh worker
      whose first `init` only waits for realize: the box ends at the
      monitor's top, the panel has no edge property and its style classes
      are what they were, when the comfort class was not already there. */
  method PlaceThenRestore(shell: Shell, level: int, handlerId: int)
    requires handlerId > 0
    requires Comfort.LoadComfortSettings(level).containerStyle !in shell.styleClasses
    modifies shell`styleClasses, shell`panelY, shell`edge
    ensures shell.panelY == shell.monitor.y && shell.edge == None
    ensures shell.styleClasses == old(shell.styleClasses)
  {
    var p := new PositionMod(shell);
    p.comfortSettings := Some(Comfort.LoadComfortSettings(level));
    p.Init(handlerId);
    assert p.realize == handlerId && !p.active;
    p.Init(handlerId + 1);
    assert p.active;
    p.Destroy();
  }
}
