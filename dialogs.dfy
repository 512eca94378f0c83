/**
  The dialog section shared by globals.js and app.js: a click on a trigger toggles the
  `open` class of the dialog its `data-trigger-for` names, and any click on the document
  closes every open dialog that neither contains the click target nor was clicked
  through a trigger.

  DOM containment is abstract here: the caller says which dialogs contain the target
  (`dialog.contains(e.target)`) and whether the target is inside a trigger
  (`e.target.closest("[data-trigger-for]")` is not `null`).
 */
module Dialogs {
  import opened JsValues

  /** The position of the first dialog whose `data-dialog` is `name` (what
      `document.querySelector('[data-dialog="name"]')` finds), or `|names|` when none is. */
  function Find(names: seq<string>, name: string): (i: nat)
    ensures i <= |names|
    ensures i < |names| ==> names[i] == name
    ensures forall j :: 0 <= j < i ==> names[j] != name
    ensures i == |names| <==> name !in names
  {
    if names == [] then 0
    else if names[0] == name then 0
    else 1 + Find(names[1..], name)
  }

  /** Which dialogs are still open after a document click: an open dialog stays open only
      when it contains the target or the target is inside a trigger. */
  function ClosedOutside(open: seq<bool>, containsTarget: seq<bool>, targetInTrigger: bool): (after: seq<bool>)
    requires |containsTarget| == |open|
    ensures |after| == |open|
    ensures forall i :: 0 <= i < |open| && !open[i] ==> !after[i]
    ensures forall i :: 0 <= i < |open| && open[i] && containsTarget[i] ==> after[i]
    ensures forall i :: 0 <= i < |open| && open[i] && !containsTarget[i] ==> (after[i] <==> targetInTrigger)
  {
    seq(|open|, i requires 0 <= i < |open| => open[i] && (containsTarget[i] || targetInTrigger))
  }

  /** A second click on the same target closes nothing more. */
  lemma ClosedOutsideIdempotent(open: seq<bool>, containsTarget: seq<bool>, targetInTrigger: bool)
    requires |containsTarget| == |open|
    ensures ClosedOutside(ClosedOutside(open, containsTarget, targetInTrigger), containsTarget, targetInTrigger)
            == ClosedOutside(open, containsTarget, targetInTrigger)
  {
  }

  /** A click inside a trigger closes nothing. */
  lemma TriggerClickClosesNothing(open: seq<bool>, containsTarget: seq<bool>)
    requires |containsTarget| == |open|
    ensures ClosedOutside(open, containsTarget, true) == open
  {
  }

  class DialogSet {
    /** The `data-dialog` value of each dialog, in document order. */
    const names: seq<string>
    /** Whether each dialog carries the `open` class. */
    var open: seq<bool>

    ghost predicate Valid()
      reads this
    {
      |open| == |names|
    }

    constructor (names: seq<string>, open: seq<bool>)
      requires |open| == |names|
      ensures Valid() && this.names == names && this.open == open
    {
      this.names := names;
      this.open := open;
    }

    /** A trigger's click handler for `data-trigger-for` = `name`: toggle the first dialog
        with that name; when none has it, `querySelector` gives `null` and reading its
        `classList` throws. */
    method ToggleFor(name: string) returns (r: Result<()>)
      requires Valid()
      modifies this
      ensures Valid()
      ensures r.Throw? <==> name !in names
      ensures r.Throw? ==> r.error == TypeError && open == old(open)
      ensures r.Ok? ==> var i := Find(names, name);
                        open == old(open)[i := !old(open)[i]]
    {
      var i := Find(names, name);
      if i == |names| {
        return Throw(TypeError);
      }
      open := open[i := !open[i]];
      r := Ok(());
    }

    /** The document's click handler: close each open dialog the target is outside of,
        unless the target is inside a trigger; closed dialogs are not touched. */
    method CloseOutside(containsTarget: seq<bool>, targetInTrigger: bool)
      requires Valid() && |containsTarget| == |names|
      modifies this
      ensures Valid()
      ensures open == ClosedOutside(old(open), containsTarget, targetInTrigger)
    {
      for i := 0 to |names|
        invariant |open| == |names|
        invariant forall j :: 0 <= j < i ==>
                    open[j] == (old(open)[j] && (containsTarget[j] || targetInTrigger))
        invariant forall j :: i <= j < |names| ==> open[j] == old(open)[j]
      {
        if open[i] {
          if !containsTarget[i] && !targetInTrigger {
            open := open[i := false];
          }
        }
      }
    }

    /** A click on a trigger: its own handler toggles the dialog, then the click bubbles to
        the document, whose handler finds the target inside a trigger and closes nothing.
        A throwing trigger handler does not stop the document handler. */
    method ClickTrigger(name: string, containsTarget: seq<bool>) returns (r: Result<()>)
      requires Valid() && |containsTarget| == |names|
      modifies this
      ensures Valid()
      ensures r.Throw? <==> name !in names
      ensures r.Throw? ==> open == old(open)
      ensures r.Ok? ==> var i := Find(names, name);
                        open == old(open)[i := !old(open)[i]]
    {
      r := ToggleFor(name);
      TriggerClickClosesNothing(open, containsTarget);
      CloseOutside(containsTarget, true);
    }
  }

  /** Two clicks on the same trigger leave every dialog as it was. */
  method ToggleTwice(names: seq<string>, open: seq<bool>, name: string) returns (after: seq<bool>)
    requires |open| == |names|
    ensures after == open
  {
    var dialogs := new DialogSet(names, open);
    var r1 := dialogs.ToggleFor(name);
    var r2 := dialogs.ToggleFor(name);
    after := dialogs.open;
  }
}
