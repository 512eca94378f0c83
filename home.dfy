/**
  The home page (pages/home/script.js): clicking a difficulty card selects it alone and
  remembers its `difficulty` attribute; the start button navigates to the play page
  with that difficulty, or alerts when none is selected.
 */
module Home {
  import opened JsValues

  const PLAY_PAGE := "../play/index.html"
  const NO_DIFFICULTY_MESSAGE := "Select a difficulty before starting the game"

  /** What pressing the start button does. */
  datatype StartAction = Alert(message: string) | Navigate(href: string)

  /** The start button's click handler, given the remembered selection: a falsy one
      (`null`, or a card whose `difficulty` attribute is empty) only alerts. */
  function StartButtonAction(selectedDifficulty: JsValue): (a: StartAction)
    ensures a.Navigate? <==> Truthy(selectedDifficulty)
    ensures a.Alert? ==> a.message == NO_DIFFICULTY_MESSAGE
    ensures a.Navigate? ==>
              a.href == PLAY_PAGE + "?difficulty=" + selectedDifficulty.s &&
              a.href[|PLAY_PAGE + "?difficulty="|..] == selectedDifficulty.s
  {
    if !Truthy(selectedDifficulty) then Alert(NO_DIFFICULTY_MESSAGE)
    else Navigate(PLAY_PAGE + "?difficulty=" + ToStr(selectedDifficulty))
  }

  /** The selection flags after a click on card `i`: that card and no other. */
  function OnlySelected(count: nat, i: nat): (flags: seq<bool>)
    ensures |flags| == count
    ensures forall j :: 0 <= j < count ==> (flags[j] <==> j == i)
  {
    seq(count, j => j == i)
  }

  class HomePage {
    /** The `difficulty` attribute of each card found on the page (`null` when absent). */
    const difficulties: seq<JsValue>
    /** Whether each card carries the `selected` class. */
    var selected: seq<bool>
    var selectedDifficulty: JsValue

    ghost predicate Valid()
      reads this
    {
      |selected| == |difficulties| &&
      forall j :: 0 <= j < |difficulties| ==> difficulties[j].Str? || difficulties[j].Null?
    }

    /** The page's cards as the markup has them; nothing is selected in the script yet. */
    constructor (difficulties: seq<JsValue>, initiallySelected: seq<bool>)
      requires |initiallySelected| == |difficulties|
      requires forall j :: 0 <= j < |difficulties| ==> difficulties[j].Str? || difficulties[j].Null?
      ensures Valid()
      ensures this.difficulties == difficulties && selected == initiallySelected
      ensures selectedDifficulty == Null
    {
      this.difficulties := difficulties;
      selected := initiallySelected;
      selectedDifficulty := Null;
    }

    /** A click on card `i`. Every card first loses `selected`, so the branch that would
        deselect an already selected card can never run: the clicked card always ends up
        the only selected one, even when it was selected before. */
    method ClickCard(i: nat)
      requires Valid() && i < |difficulties|
      modifies this
      ensures Valid()
      ensures selected == OnlySelected(|difficulties|, i)
      ensures selectedDifficulty == difficulties[i]
    {
      for j := 0 to |selected|
        invariant |selected| == |difficulties|
        invariant forall k :: 0 <= k < j ==> !selected[k]
      {
        selected := selected[j := false];
      }
      if selected[i] {
        // deselect branch: unreachable, the loop has just cleared every card
        assert false;
      } else {
        selected := selected[i := true];
        selectedDifficulty := difficulties[i];
      }
    }

    /** A click on the start button. */
    method ClickStart() returns (a: StartAction)
      requires Valid()
      ensures a.Navigate? <==> Truthy(selectedDifficulty)
      ensures a == StartButtonAction(selectedDifficulty)
    {
      if !Truthy(selectedDifficulty) {
        return Alert(NO_DIFFICULTY_MESSAGE);
      }
      a := Navigate(PLAY_PAGE + "?difficulty=" + selectedDifficulty.s);
    }
  }

  /** Clicking the same card twice leaves it selected and the start button then navigates
      exactly when that card has a non-empty `difficulty` attribute. */
  method ClickTwiceThenStart(difficulties: seq<JsValue>, i: nat)
    returns (selected: seq<bool>, a: StartAction)
    requires i < |difficulties|
    requires forall j :: 0 <= j < |difficulties| ==> difficulties[j].Str? || difficulties[j].Null?
    ensures selected == OnlySelected(|difficulties|, i)
    ensures a.Navigate? <==> Truthy(difficulties[i])
    ensures a.Navigate? ==> a.href == PLAY_PAGE + "?difficulty=" + difficulties[i].s
  {
    var page := new HomePage(difficulties, seq(|difficulties|, _ => false));
    page.ClickCard(i);
    page.ClickCard(i);
    selected := page.selected;
    a := page.ClickStart();
  }
}
