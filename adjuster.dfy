/** The adjuster's state and its event handlers: the `ingredients` list and
    the `activeTab` mode, changed by the add button, the remove click, the
    Calculate button and the tab clicks. The DOM inputs are parameters:
    `qty`, `orig` and `targ` are what `parseFloat` made of the fields. */
module Adjuster {
  import opened Wrappers
  import opened Ledger
  import opened Tabs
  import opened Scaling

  class RecipeAdjuster {
    var ingredients: seq<Ingredient>
    var activeTab: Tab

    /** Every entry has a non-empty trimmed name and a positive quantity. */
    ghost predicate Valid()
      reads this
    {
      AllWellFormed(ingredients)
    }

    /** The state at start-up: no ingredients, the scaled view selected. */
    constructor ()
      ensures Valid()
      ensures ingredients == [] && activeTab == Scaled
    {
      ingredients := [];
      activeTab := Scaled;
    }

    /** `setActiveTab`: records the mode and renders the output panel. */
    method SetActiveTab(tab: Tab, orig: Option<real>, targ: Option<real>) returns (v: View)
      requires Valid()
      modifies this
      ensures Valid()
      ensures activeTab == tab && ingredients == old(ingredients)
      ensures v == Render(tab, orig, targ, ingredients)
    {
      activeTab := tab;
      v := RenderOutput(orig, targ);
    }

    /** A click on the tab with the given label. */
    method ClickTab(caption: string, orig: Option<real>, targ: Option<real>) returns (v: View)
      requires Valid()
      modifies this
      ensures Valid()
      ensures activeTab == TabForLabel(caption) && ingredients == old(ingredients)
      ensures v == Render(activeTab, orig, targ, ingredients)
    {
      v := SetActiveTab(TabForLabel(caption), orig, targ);
    }

    /** The Calculate button: checks the original count, then the target;
      a refusal changes nothing, success selects the scaled view and
      renders it. */
    method Calculate(orig: Option<real>, targ: Option<real>) returns (r: Result<View, ServingError>)
      requires Valid()
      modifies this
      ensures Valid() && ingredients == old(ingredients)
      ensures ValidateServings(orig, targ).Err? ==>
        r == Err(ValidateServings(orig, targ).error) && activeTab == old(activeTab)
      ensures ValidateServings(orig, targ).Ok? ==>
        activeTab == Scaled && r == Ok(Render(Scaled, orig, targ, ingredients))
    {
      var check := ValidateServings(orig, targ);
      if check.Err? {
        return Err(check.error);
      }
      var v := SetActiveTab(Scaled, orig, targ);
      r := Ok(v);
    }

    /** The add button: a refused entry leaves the list as it was and
      reports why; an accepted one is appended at the end. */
    method AddIngredient(rawName: string, qty: Option<real>, unit: string) returns (err: Option<AddError>)
      requires Valid()
      modifies this
      ensures Valid() && activeTab == old(activeTab)
      ensures CheckAdd(rawName, qty, unit).Err? ==>
        err == Some(CheckAdd(rawName, qty, unit).error) && ingredients == old(ingredients)
      ensures CheckAdd(rawName, qty, unit).Ok? ==>
        err == None && ingredients == old(ingredients) + [CheckAdd(rawName, qty, unit).value]
    {
      var check := CheckAdd(rawName, qty, unit);
      AddPreservesWellFormed(ingredients, rawName, qty, unit);
      if check.Err? {
        return Some(check.error);
      }
      ingredients := ingredients + [check.value];
      err := None;
    }

    /** A click on the entry at `idx`: unless the user confirms, nothing
      changes; otherwise the list is spliced at `idx`. */
    method RemoveIngredient(idx: int, confirmed: bool)
      requires Valid()
      modifies this
      ensures Valid() && activeTab == old(activeTab)
      ensures ingredients == if confirmed then RemoveOne(old(ingredients), idx) else old(ingredients)
    {
      if !confirmed {
        return;
      }
      RemovePreservesWellFormed(ingredients, idx);
      ingredients := RemoveOne(ingredients, idx);
    }

    /** `renderOutput` for the current mode; the scaled list is built entry
      by entry, as the `forEach` over the ingredients does. */
    method RenderOutput(orig: Option<real>, targ: Option<real>) returns (v: View)
      ensures v == Render(activeTab, orig, targ, ingredients)
    {
      if orig.None? || targ.None? || orig.value <= 0.0 {
        return NeedServings;
      }
      var scale := targ.value / orig.value;
      if activeTab == Summary {
        return SummaryView(orig.value, targ.value, scale, |ingredients|);
      }
      var lines: seq<ScaledItem> := [];
      var i := 0;
      while i < |ingredients|
        invariant 0 <= i <= |ingredients|
        invariant lines == ScaleAll(ingredients[..i], scale)
      {
        ScaleAllAppend(ingredients[..i], ingredients[i], scale);
        assert ingredients[..i + 1] == ingredients[..i] + [ingredients[i]];
        lines := lines + [ScaleOne(ingredients[i], scale)];
        i := i + 1;
      }
      assert ingredients[..i] == ingredients;
      v := ScaledList(orig.value, targ.value, scale, lines);
    }
  }

  /** Switching to the summary and back gives the same scaled view as
      staying on it: the mode does not touch the ledger. */
  method SummaryRoundTrip(a: RecipeAdjuster, orig: Option<real>, targ: Option<real>)
    returns (before: View, after: View)
    requires a.Valid()
    modifies a
    ensures a.Valid() && a.activeTab == Scaled && a.ingredients == old(a.ingredients)
    ensures before == Render(Scaled, orig, targ, old(a.ingredients))
    ensures before == after
  {
    before := a.SetActiveTab(Scaled, orig, targ);
    var _ := a.SetActiveTab(Summary, orig, targ);
    after := a.SetActiveTab(Scaled, orig, targ);
  }
}
