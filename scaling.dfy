/** What the adjuster computes from the ledger and the two serving counts:
    the checks of the Calculate button, the scale factor, the scaled list
    and the summary that the output panel shows. */
module Scaling {
  import opened Wrappers
  import opened Ledger
  import opened Tabs

  /** Why Calculate is refused: the original or the target serving count is
      `NaN` or not greater than zero. */
  datatype ServingError = InvalidOriginal | InvalidTarget

  /** A parsed serving count that is a number greater than zero. */
  predicate Positive(x: Option<real>)
  {
    x.Some? && x.value > 0.0
  }

  /** The checks of the Calculate handler, in its order: the original count
      first, then the target. On success both counts are returned. */
  function ValidateServings(orig: Option<real>, targ: Option<real>): (r: Result<(real, real), ServingError>)
    ensures r == Err(InvalidOriginal) <==> !Positive(orig)
    ensures r == Err(InvalidTarget) <==> Positive(orig) && !Positive(targ)
    ensures r.Ok? ==> Positive(orig) && Positive(targ) && r.value == (orig.value, targ.value)
  {
    if orig.None? || orig.value <= 0.0 then Err(InvalidOriginal)
    else if targ.None? || targ.value <= 0.0 then Err(InvalidTarget)
    else Ok((orig.value, targ.value))
  }

  /** The guard of the output renderer: both counts are numbers and the
      original is greater than zero. Nothing is asked of the target. */
  predicate CanRender(orig: Option<real>, targ: Option<real>)
  {
    orig.Some? && targ.Some? && orig.value > 0.0
  }

  /** One line of the scaled list: the new quantity and the one it was. */
  datatype ScaledItem = ScaledItem(name: string, unit: string, was: real, qty: real)

  function ScaleOne(ing: Ingredient, factor: real): ScaledItem
  {
    ScaledItem(ing.name, ing.unit, ing.qty, ing.qty * factor)
  }

  /** The scaled list: one line per entry, in ledger order, each quantity
      multiplied by the factor. */
  function ScaleAll(items: seq<Ingredient>, factor: real): (r: seq<ScaledItem>)
    ensures |r| == |items|
    ensures forall i :: 0 <= i < |items| ==>
      r[i].name == items[i].name && r[i].unit == items[i].unit
      && r[i].was == items[i].qty && r[i].qty == items[i].qty * factor
  {
    if items == [] then [] else [ScaleOne(items[0], factor)] + ScaleAll(items[1..], factor)
  }

  /** What the output panel shows. `NeedServings` is the prompt for valid
      serving counts; `ScaledList` is the factor header with the scaled
      lines (an empty list shows the "no ingredients" note); `SummaryView`
      holds the four summary figures. */
  datatype View =
    | NeedServings
    | ScaledList(orig: real, targ: real, factor: real, items: seq<ScaledItem>)
    | SummaryView(orig: real, targ: real, factor: real, count: nat)

  /** `renderOutput` for the given mode, parsed inputs and ledger. The
      ledger is only read. */
  function Render(tab: Tab, orig: Option<real>, targ: Option<real>, items: seq<Ingredient>): (v: View)
    ensures v == NeedServings <==> !CanRender(orig, targ)
    ensures v.ScaledList? <==> CanRender(orig, targ) && tab == Scaled
    ensures v.SummaryView? <==> CanRender(orig, targ) && tab == Summary
    ensures !v.NeedServings? ==>
      v.orig == orig.value && v.targ == targ.value && v.factor * v.orig == v.targ
    ensures v.ScaledList? ==> v.items == ScaleAll(items, v.factor)
    ensures v.SummaryView? ==> v.count == |items|
  {
    if orig.None? || targ.None? || orig.value <= 0.0 then NeedServings
    else
      var factor := targ.value / orig.value;
      match tab
      case Scaled => ScaledList(orig.value, targ.value, factor, ScaleAll(items, factor))
      case Summary => SummaryView(orig.value, targ.value, factor, |items|)
  }

  /** Scaling a longer ledger extends the scaled list by the new entry's line. */
  lemma {:induction false} ScaleAllAppend(items: seq<Ingredient>, ing: Ingredient, factor: real)
    ensures ScaleAll(items + [ing], factor) == ScaleAll(items, factor) + [ScaleOne(ing, factor)]
  {
    var l := ScaleAll(items + [ing], factor);
    var r := ScaleAll(items, factor) + [ScaleOne(ing, factor)];
    assert |l| == |r|;
    forall i | 0 <= i < |l| ensures l[i] == r[i] {
      if i < |items| {
        assert (items + [ing])[i] == items[i];
      }
    }
  }

  /** Whatever Calculate accepts, the renderer accepts too, and the factor
      it shows is positive. */
  lemma CalculateGuardImpliesRenderGuard(tab: Tab, orig: Option<real>, targ: Option<real>, items: seq<Ingredient>)
    requires ValidateServings(orig, targ).Ok?
    ensures CanRender(orig, targ)
    ensures Render(tab, orig, targ, items).factor > 0.0
  {
  }

  /** The converse fails. With a valid original count and a target that is
      zero or negative, Calculate refuses with `InvalidTarget`, yet a tab
      click still renders, with a factor of zero or less; on a well-formed
      ledger every scaled quantity is then zero or negative. */
  lemma RenderGuardWeaker(tab: Tab, o: real, t: real, items: seq<Ingredient>)
    requires o > 0.0 && t <= 0.0
    requires AllWellFormed(items)
    ensures ValidateServings(Some(o), Some(t)) == Err(InvalidTarget)
    ensures CanRender(Some(o), Some(t))
    ensures Render(tab, Some(o), Some(t), items).factor <= 0.0
    ensures tab == Scaled ==> forall i :: 0 <= i < |items| ==>
      Render(tab, Some(o), Some(t), items).items[i].qty <= 0.0
  {
    var v := Render(tab, Some(o), Some(t), items);
    if tab == Scaled {
      forall i | 0 <= i < |items| ensures v.items[i].qty <= 0.0 {
        assert WellFormed(items[i]);
      }
    }
  }

  /** The direction of the change: on a well-formed ledger, a target above
      the original makes every quantity larger, a target below it makes
      every quantity smaller, and equal counts leave every quantity as it
      was. */
  lemma ScaleDirection(o: real, t: real, items: seq<Ingredient>, i: nat)
    requires o > 0.0 && t > 0.0
    requires AllWellFormed(items) && i < |items|
    ensures var line := Render(Scaled, Some(o), Some(t), items).items[i];
      && (t > o ==> line.qty > line.was)
      && (t < o ==> line.qty < line.was)
      && (t == o ==> line.qty == line.was)
  {
    var v := Render(Scaled, Some(o), Some(t), items);
    assert WellFormed(items[i]);
    FactorAgainstOne(o, t, v.factor);
    ProductAgainstOne(items[i].qty, v.factor);
  }

  /** The factor is above, below or at one as the target is above, below
      or at the original. */
  lemma FactorAgainstOne(o: real, t: real, f: real)
    requires o > 0.0 && f * o == t
    ensures t > o ==> f > 1.0
    ensures t < o ==> f < 1.0
    ensures t == o ==> f == 1.0
  {
    assert (f - 1.0) * o == t - o;
  }

  /** A positive quantity grows, shrinks or stays as the factor is above,
      below or at one. */
  lemma ProductAgainstOne(q: real, f: real)
    requires q > 0.0
    ensures f > 1.0 ==> q * f > q
    ensures f < 1.0 ==> q * f < q
    ensures f == 1.0 ==> q * f == q
  {
    assert q * f - q == q * (f - 1.0);
  }

  /** The worked example: two entries, four servings scaled to eight. */
  lemma DoublingExample()
    ensures Render(Scaled, Some(4.0), Some(8.0),
                   [Ingredient("Flour", 2.0, "cups"), Ingredient("Sugar", 1.0, "cup")])
         == ScaledList(4.0, 8.0, 2.0, [ScaledItem("Flour", "cups", 2.0, 4.0), ScaledItem("Sugar", "cup", 1.0, 2.0)])
  {
  }

  /** Three servings scaled to one: nine becomes three. */
  lemma ThirdingExample()
    ensures Render(Scaled, Some(3.0), Some(1.0), [Ingredient("Eggs", 9.0, "pcs")]).items
         == [ScaledItem("Eggs", "pcs", 9.0, 3.0)]
  {
  }
}
