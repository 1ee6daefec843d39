/** lib/mmod/activities.js: replaces the label of the panel's activities
    button with an icon button, and puts the label back. */
module Activities {
  import opened Host
  import Comfort
  import Realize

  /** The children after `init`: the first child removed, the button appended. */
  function Swapped(children: seq<Actor>, button: Actor): (r: seq<Actor>)
    requires |children| > 0
    ensures |r| == |children| && r[|r| - 1] == button
  {
    RemoveFirst(children, children[0]) + [button]
  }

  /** The children after `destroy`: the button removed, the label appended. */
  function Restored(children: seq<Actor>, button: Actor, saved: Actor): (r: seq<Actor>)
    ensures button in children ==> |r| == |children|
    ensures |r| > 0 && r[|r| - 1] == saved
  {
    RemoveFirst(children, button) + [saved]
  }

  /** Removing an element that follows a sequence it does not occur in. */
  lemma {:induction false} RemoveAppended(s: seq<Actor>, x: Actor)
    requires x !in s
    ensures RemoveFirst(s + [x], x) == s
  {
    if s != [] {
      assert (s + [x])[1..] == s[1..] + [x];
      RemoveAppended(s[1..], x);
    }
  }

  /** Swapping the label for a button and back moves the original label from
      the front of the children to the end and keeps every other child in
      order; when the label is the only child (the shell's own layout), the
      children are exactly restored. */
  lemma {:induction false} SwapRoundTrip(children: seq<Actor>, button: Actor)
    requires |children| > 0 && button !in children[1..]
    ensures Restored(Swapped(children, button), button, children[0]) == children[1..] + [children[0]]
    ensures |children| == 1 ==> Restored(Swapped(children, button), button, children[0]) == children
  {
    assert RemoveFirst(children, children[0]) == children[1..];
    RemoveAppended(children[1..], button);
  }

  class ActivitiesMod {
    const shell: Shell
    var comfortSettings: Option<Comfort.ComfortSettings>
    var button: Option<Actor>
    var originalLabel: Option<Actor>
    var realize: int
    var active: bool

    ghost predicate Valid()
      reads this
    {
      active ==> button.Some? && originalLabel.Some?
    }

    constructor (shell: Shell)
      ensures this.shell == shell && Valid()
      ensures comfortSettings == None && button == None && originalLabel == None
      ensures realize == -1 && !active
    {
      this.shell := shell;
      comfortSettings := None;
      button := None;
      originalLabel := None;
      realize := -1;
      active := false;
    }

    /** `init`: with the panel button enabled, after the realize check lets
        it through, saves the actor's first child as the original label,
        removes it, appends a button showing the configured icon in the comfort
        button style, and becomes active. */
    method Init(handlerId: int)
      requires handlerId > 0 && Valid()
      requires comfortSettings.Some? && |shell.activitiesChildren| > 0
      modifies this`realize, this`active, this`button, this`originalLabel, shell`activitiesChildren
      ensures Valid()
      ensures !shell.settings.panelButtonEnabled ==> unchanged(this) && unchanged(shell)
      ensures shell.settings.panelButtonEnabled ==>
        Realize.Check(old(realize), handlerId) == Realize.Step(realize, old(realize) >= 0)
      ensures shell.settings.panelButtonEnabled && old(realize) < 0 ==>
        unchanged(shell) && active == old(active) && button == old(button) && originalLabel == old(originalLabel)
      ensures shell.settings.panelButtonEnabled && old(realize) >= 0 ==>
        active &&
        button == Some(PanelButton(shell.settings.panelButtonIconPath, comfortSettings.value.buttonStyle)) &&
        originalLabel == Some(old(shell.activitiesChildren)[0]) &&
        shell.activitiesChildren == Swapped(old(shell.activitiesChildren), button.value)
    {
      if shell.settings.panelButtonEnabled {
        if realize < 0 {
          realize := handlerId;
          return;
        }
        if realize > 0 {
          realize := 0;
        }
        var b := PanelButton(shell.settings.panelButtonIconPath, comfortSettings.value.buttonStyle);
        button := Some(b);
        var first := shell.activitiesChildren[0];
        originalLabel := Some(first);
        shell.activitiesChildren := RemoveFirst(shell.activitiesChildren, first);
        shell.activitiesChildren := shell.activitiesChildren + [b];
        active := true;
      }
    }

    /** `destroy`: an active worker removes its button, re-appends exactly the
        label it saved and forgets both; every call leaves `realize` at 0. */
    method Destroy()
      requires Valid()
      modifies this`realize, this`active, this`button, this`originalLabel, shell`activitiesChildren
      ensures Valid() && !active && realize == 0
      ensures old(active) ==>
        shell.activitiesChildren ==
          Restored(old(shell.activitiesChildren), old(button).value, old(originalLabel).value) &&
        button == None && originalLabel == None
      ensures !old(active) ==> unchanged(shell) && button == old(button) && originalLabel == old(originalLabel)
    {
      if active {
        shell.activitiesChildren := RemoveFirst(shell.activitiesChildren, button.value);
        shell.activitiesChildren := shell.activitiesChildren + [originalLabel.value];
        button := None;
        originalLabel := None;
        active := false;
      }
      realize := 0;
    }
  }
}
