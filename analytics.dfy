/**
 * The analytics page's highlighted category: the share of revenue that
 * leads the category breakdown, picked by a seedless left-to-right reduce
 * that only replaces its accumulator on a strictly larger percentage.
 */
module Analytics {

  /** One row of the category breakdown; `name` is the source's `label` (the floating-point trend delta is not modelled). */
  datatype CategoryMetric = CategoryMetric(name: string, percentage: int, revenue: string)

  /** `CATEGORY_BREAKDOWN`. */
  const CategoryBreakdown: seq<CategoryMetric> := [
    CategoryMetric("Chef tasting", 32, "$48.2k"),
    CategoryMetric("\U{00C0} la carte", 28, "$41.9k"),
    CategoryMetric("Desserts", 16, "$21.7k"),
    CategoryMetric("Zero proof", 12, "$12.1k"),
    CategoryMetric("Cocktails", 8, "$9.6k"),
    CategoryMetric("Retail add-ons", 4, "$4.8k")
  ]

  /**
   * `reduce((prev, current) => current.percentage > prev.percentage ? current : prev)`
   * with no seed: the first element starts the fold, so the breakdown must
   * not be empty. The recursion peels the last element, which is the
   * element a left fold looks at last.
   */
  function Highlight(s: seq<CategoryMetric>): (r: CategoryMetric)
    requires |s| > 0
    ensures r in s
    ensures forall k :: 0 <= k < |s| ==> s[k].percentage <= r.percentage
  {
    if |s| == 1 then s[0]
    else
      var prev := Highlight(s[..|s| - 1]);
      var current := s[|s| - 1];
      assert forall k :: 0 <= k < |s| - 1 ==> s[k] == s[..|s| - 1][k];
      if current.percentage > prev.percentage then current else prev
  }

  /** Position `k` holds a maximal percentage and every earlier position a strictly smaller one. */
  predicate FirstMaximumAt(s: seq<CategoryMetric>, k: int)
  {
    && 0 <= k < |s|
    && (forall j :: 0 <= j < |s| ==> s[j].percentage <= s[k].percentage)
    && (forall j :: 0 <= j < k ==> s[j].percentage < s[k].percentage)
  }

  /** Ties go to the earliest maximal category, because the comparison is strict. */
  lemma {:induction false} HighlightIsFirstMaximum(s: seq<CategoryMetric>)
    requires |s| > 0
    ensures exists k :: FirstMaximumAt(s, k) && s[k] == Highlight(s)
  {
    if |s| == 1 {
      assert FirstMaximumAt(s, 0);
    } else {
      var init := s[..|s| - 1];
      HighlightIsFirstMaximum(init);
      var k :| FirstMaximumAt(init, k) && init[k] == Highlight(init);
      assert forall j :: 0 <= j < |s| - 1 ==> s[j] == init[j];
      var last := s[|s| - 1];
      assert Highlight(s) == if last.percentage > init[k].percentage then last else init[k];
      if last.percentage > init[k].percentage {
        assert FirstMaximumAt(s, |s| - 1);
      } else {
        assert FirstMaximumAt(s, k);
      }
    }
  }

  /** At most one position can be the first maximum, so the highlight's position is determined. */
  lemma FirstMaximumUnique(s: seq<CategoryMetric>, k1: int, k2: int)
    requires FirstMaximumAt(s, k1) && FirstMaximumAt(s, k2)
    ensures k1 == k2
  {
    assert s[k1].percentage == s[k2].percentage;
  }

  /** With the seeded breakdown the highlight is "Chef tasting" at 32 percent. */
  lemma SeededHighlight()
    ensures Highlight(CategoryBreakdown) == CategoryBreakdown[0]
    ensures Highlight(CategoryBreakdown).name == "Chef tasting"
    ensures Highlight(CategoryBreakdown).percentage == 32
  {
    HighlightIsFirstMaximum(CategoryBreakdown);
    var k :| FirstMaximumAt(CategoryBreakdown, k) && CategoryBreakdown[k] == Highlight(CategoryBreakdown);
    assert FirstMaximumAt(CategoryBreakdown, 0);
    FirstMaximumUnique(CategoryBreakdown, k, 0);
  }
}
