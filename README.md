# Recipe serving adjuster — a Dafny model of its core

The recipe serving adjuster is a single-page form. The user keeps a list of
ingredients, each with a name, a quantity and a unit. The user enters an
original and a target serving count. The page then shows either every
quantity scaled by `target / original`, or a summary of the two counts, the
factor and the number of ingredients.

This project models the logic inside `recipe-serving-adjuster.js`:

- `wrappers.dfy` (module `Wrappers`): `Option` and `Result`. A parsed number
  is an `Option<real>`, and `None` stands for `NaN`.
- `text.dfy` (module `Text`): the JavaScript `trim` with its full whitespace
  set, `toLowerCase` and `startsWith`. It proves that trimming returns a
  trimmed infix of its input, that the result is empty exactly for
  all-whitespace input, that trimming is idempotent, and that it commutes
  with lower-casing.
- `ledger.dfy` (module `Ledger`): the entry record and the checks of the
  add handler. It also models `splice(idx, 1)` with JavaScript's handling of
  negative and too-large positions, with lemmas for every case.
- `tabs.dfy` (module `Tabs`): the two display modes and the mapping from a
  tab's label to a mode.
- `scaling.dfy` (module `Scaling`): the checks of the Calculate button, the
  guard of the output renderer, the scaled list and the summary. It proves
  that the renderer's guard is strictly weaker than Calculate's.
- `adjuster.dfy` (module `Adjuster`): class `RecipeAdjuster`. It holds the
  page's two mutable variables, `ingredients` and `activeTab`. Its methods
  are the event handlers and `setActiveTab`/`renderOutput`. Each handler
  states its whole new state and keeps the invariant that every entry has a
  non-empty trimmed name and a positive quantity.

Inputs that come from the page are parameters:
- the parsed quantity and serving counts;
- the raw name and the unit selector's value;
- the text of the clicked tab;
- the answer to the removal confirmation, as a boolean.

Alerts become returned error values. Rendered output becomes a returned
`View` value.

The model follows the code in these points:
- Removal at an invalid position is not an error. The source calls
  `splice(idx, 1)`, which removes nothing for a position at or past the end
  and counts a negative position from the end (`Ledger.RemoveOne`).
- The unit is any string the selector holds; the code does not check it.
- The renderer only requires the original count to be positive. A tab click
  with a target of zero or less still renders, with a factor of zero or less
  (`Scaling.RenderGuardWeaker`).
- Adding or removing an ingredient re-renders the ingredient list but not
  the output panel. Only `setActiveTab` renders the output.

## Model

| member | source | states |
|---|---|---|
| Text.Trim | recipe-serving-adjuster.js:142 | the trimmed name has no whitespace at either end, and it is empty exactly when the raw name is all whitespace |
| Text.TrimIsInfix | recipe-serving-adjuster.js:142 | trimming removes only whitespace, and only from the two ends: the result is a contiguous part of the input |
| Text.TrimIdempotent | recipe-serving-adjuster.js:142 | trimming twice gives the same result as trimming once |
| Text.TrimLower | recipe-serving-adjuster.js:45 | trimming and lower-casing a label commute |
| Text.Lower | recipe-serving-adjuster.js:45 | `toLowerCase`: the result has the input's length and each character is that character lower-cased (ASCII letters, see Left out) |
| Text.StartsWith | recipe-serving-adjuster.js:175 | `startsWith`: the prefix is no longer than the string and equals its first characters; no contract of its own, used by TabForLabel |
| Ledger.CheckAdd | recipe-serving-adjuster.js:142-147 | a blank name is refused with EmptyName whatever the quantity; otherwise a NaN or non-positive quantity is refused with InvalidQuantity; an accepted entry carries the trimmed name, the quantity and the unit, and is well formed |
| Ledger.AddPreservesWellFormed | recipe-serving-adjuster.js:146-149 | appending what the add checks accept keeps every entry well formed |
| Ledger.SpliceStart | recipe-serving-adjuster.js:80 | the start position `splice` uses never lies past the end; a negative start counts from the end and stops at 0, a start past the end is the end |
| Ledger.RemoveOne | recipe-serving-adjuster.js:80 | `splice(idx, 1)`: the list loses one element when the start position lies inside it and none otherwise, and never gains one; RemoveAtPosition, RemovePastEnd and RemoveNegative state the rest of its specification |
| Ledger.RemoveAtPosition | recipe-serving-adjuster.js:80 | removing at a valid position leaves one element fewer: the ones before it stay in place, the ones after it move down by one, and exactly that element is gone from the multiset |
| Ledger.RemovePastEnd | recipe-serving-adjuster.js:80 | a position at or past the end of the list removes nothing |
| Ledger.RemoveNegative | recipe-serving-adjuster.js:80 | a negative position counts from the end, and every position at or below minus the length means the first element |
| Ledger.RemoveKeepsElements | recipe-serving-adjuster.js:80 | removal never adds an element |
| Ledger.RemovePreservesWellFormed | recipe-serving-adjuster.js:80 | removal at any position keeps every entry well formed |
| Tabs.TabForLabel | recipe-serving-adjuster.js:175 | the ternary that maps a tab's label to a mode (also at line 45); it has no contract of its own, and TabForLabelScaled, TabForLabelIgnoresSpace and TabForLabelIgnoresCase state its specification |
| Tabs.TabForLabelScaled | recipe-serving-adjuster.js:175 | a tab selects the scaled view exactly when its trimmed label has at least six characters and they read "scaled" in any case; any other tab selects the summary |
| Tabs.TabForLabelIgnoresSpace | recipe-serving-adjuster.js:175 | whitespace around a label does not change the mode it selects |
| Tabs.TabForLabelIgnoresCase | recipe-serving-adjuster.js:45 | letter case does not change the mode a label selects |
| Scaling.ValidateServings | recipe-serving-adjuster.js:163-166 | a NaN or non-positive original is refused with InvalidOriginal whatever the target; otherwise a NaN or non-positive target is refused with InvalidTarget; on success both counts are positive and returned |
| Scaling.CanRender | recipe-serving-adjuster.js:94 | the renderer's guard: both counts are numbers and the original is positive, with nothing asked of the target; Render and RenderGuardWeaker state its consequences |
| Scaling.ScaleOne | recipe-serving-adjuster.js:121-122 | one scaled line: the entry's name and unit, its old quantity and the old quantity times the factor; ScaleAll states it for the whole list |
| Scaling.ScaleAll | recipe-serving-adjuster.js:119-124 | one line per entry, in ledger order, with the same name and unit, the old quantity and the old quantity times the factor |
| Scaling.Render | recipe-serving-adjuster.js:89-136 | the prompt is shown exactly when a count is NaN or the original is not positive; otherwise the active mode decides between the scaled list and the summary; the factor times the original is the target; the scaled list is the scaling of the whole ledger; the summary's count is the number of entries |
| Scaling.ScaleAllAppend | recipe-serving-adjuster.js:119-124 | scaling a list with one more entry at the end gives the old scaled list plus that entry's line |
| Scaling.CalculateGuardImpliesRenderGuard | recipe-serving-adjuster.js:163-166 | whatever Calculate accepts the renderer accepts too, with a positive factor |
| Scaling.RenderGuardWeaker | recipe-serving-adjuster.js:94-102 | with a positive original and a target of zero or less, Calculate refuses with InvalidTarget, but the renderer still renders, with a factor of zero or less and, on a well-formed ledger, every scaled quantity zero or less |
| Scaling.ScaleDirection | recipe-serving-adjuster.js:102-121 | on a well-formed ledger a target above the original makes every quantity larger, a target below it makes every quantity smaller, and equal counts leave every quantity unchanged |
| Scaling.DoublingExample | recipe-serving-adjuster.js:102-124 | flour 2 cups and sugar 1 cup, scaled from 4 to 8 servings, give factor 2, flour 4 cups and sugar 2 cups |
| Scaling.ThirdingExample | recipe-serving-adjuster.js:102-121 | 9 of an ingredient scaled from 3 to 1 serving gives 3 |
| Adjuster.RecipeAdjuster.constructor | recipe-serving-adjuster.js:32-33 | the list starts empty and the scaled view starts selected |
| Adjuster.RecipeAdjuster.SetActiveTab | recipe-serving-adjuster.js:42-49 | the mode becomes the given one, the list is unchanged, and the returned view is the rendering of the new mode |
| Adjuster.RecipeAdjuster.ClickTab | recipe-serving-adjuster.js:173-177 | the mode becomes the one the clicked tab's label selects, and the view is rendered for it |
| Adjuster.RecipeAdjuster.Calculate | recipe-serving-adjuster.js:160-170 | a refusal returns the first failing check's error and leaves the mode and the list unchanged; success selects the scaled view and returns its rendering |
| Adjuster.RecipeAdjuster.AddIngredient | recipe-serving-adjuster.js:140-157 | a refusal returns the error and leaves the list unchanged; success appends exactly the checked entry at the end, so everything before it is unchanged; the mode never changes |
| Adjuster.RecipeAdjuster.RemoveIngredient | recipe-serving-adjuster.js:78-82 | a declined confirmation changes nothing; a confirmed one splices the list at the clicked position; the mode never changes |
| Adjuster.RecipeAdjuster.RenderOutput | recipe-serving-adjuster.js:89-137 | the view built entry by entry equals the rendering of the current mode, inputs and list, and nothing is modified |
| Adjuster.SummaryRoundTrip | recipe-serving-adjuster.js:42-48 | switching to the summary and back to the scaled view gives the same scaled view as before |

## Left out

- `formatNumber` is not modelled. It rounds to two decimals, collapses near-integers and converts numbers to strings; that depends on IEEE-754 doubles and JavaScript's number printing, which `real` cannot represent faithfully. Views carry exact numbers instead of strings.
- Quantities, counts and the factor are exact `real`s. The source computes `targ / orig` and `qty * scale` in double precision, so its results can differ by rounding.
- `parseFloat` of the input fields is not modelled. The model receives its result, with `None` for `NaN`.
- `Infinity` is not modelled. `parseFloat("Infinity")` passes the `> 0` checks in the source, but `real` has no infinite value.
- The DOM is not modelled: building elements, `innerHTML`, clearing and focusing inputs, highlighting the active tab through `classList`, and `renderIngredientList` with its item labels. These only display the state that the model returns.
- `alert` and `confirm` are not modelled. Alerts become returned errors; the confirmation's answer is a parameter of `RemoveIngredient`.
- Event listener registration and the enclosing function are not modelled. The initial `setActiveTab('scaled')` at start-up is a call to `SetActiveTab(Scaled, …)` after the constructor.
- The remove handler's position is the one captured when the list was last rendered. The list is re-rendered after every add and removal, so that position is always current; the model takes it as a parameter.
- Text.Lower: lower-cases only the ASCII letters A–Z, where JavaScript's `toLowerCase` covers all of Unicode. For the "scaled" prefix test this does not change the selected tab unless a non-ASCII character lower-cases to one of the letters of "scaled".
- Strings are sequences of Unicode scalar values, not UTF-16 code units.
