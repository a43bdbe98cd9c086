/** The display mode and the mapping from a tab's label to the mode it
    selects. */
module Tabs {
  import opened Text

  /** The value of `activeTab`: `'scaled'` or `'summary'`. */
  datatype Tab = Scaled | Summary

  /** The tab a label selects: the scaled list when the trimmed, lower-cased
      label starts with "scaled", the summary otherwise. The same mapping
      decides which tab is highlighted. */
  function TabForLabel(caption: string): (t: Tab)
  {
    if StartsWith(Lower(Trim(caption)), "scaled") then Scaled else Summary
  }

  /** A label selects the scaled list exactly when its first six characters
      after trimming read "scaled" in any mix of case. */
  lemma TabForLabelScaled(caption: string)
    ensures TabForLabel(caption) == Scaled <==>
      |Trim(caption)| >= 6 && forall k :: 0 <= k < 6 ==> LowerChar(Trim(caption)[k]) == "scaled"[k]
  {
  }

  /** Surrounding whitespace does not change the tab a label selects. */
  lemma TabForLabelIgnoresSpace(caption: string)
    ensures TabForLabel(Trim(caption)) == TabForLabel(caption)
  {
    var t := Trim(caption);
    TrimIdempotent(caption);
    assert Trim(t) == t;
  }

  /** Letter case does not change the tab a label selects. */
  lemma TabForLabelIgnoresCase(caption: string)
    ensures TabForLabel(Lower(caption)) == TabForLabel(caption)
  {
    TrimLower(caption);
    LowerIdempotent(Trim(caption));
  }
}
