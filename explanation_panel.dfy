/**
  Impact scores shown next to a mistake: the lower-cased category is tested,
  in order, for "perf", "security" and "a11y"; anything else gets a default.
 */
module ExplanationPanel {
  import opened Text
  import Catalog

  datatype Level = Low | Medium | High | Critical

  datatype Impact = Impact(performance: Level, security: Level, a11y: Level)

  predicate MentionsPerf(category: string) { Contains(Lower(category), "perf") }
  predicate MentionsSecurity(category: string) { Contains(Lower(category), "security") }
  predicate MentionsA11y(category: string) { Contains(Lower(category), "a11y") }

  /** `getImpactScores`: the first keyword that matches decides the scores. */
  function ImpactScores(category: string): (r: Impact)
    ensures MentionsPerf(category) ==> r == Impact(High, Low, Medium)
    ensures r.security == Critical <==> !MentionsPerf(category) && MentionsSecurity(category)
    ensures r.a11y == Critical <==> !MentionsPerf(category) && !MentionsSecurity(category) && MentionsA11y(category)
    ensures r.performance == Medium <==>
              !MentionsPerf(category) && !MentionsSecurity(category) && !MentionsA11y(category)
  {
    if MentionsPerf(category) then Impact(High, Low, Medium)
    else if MentionsSecurity(category) then Impact(Low, Critical, Low)
    else if MentionsA11y(category) then Impact(Low, Low, Critical)
    else Impact(Medium, Low, Low)
  }

  /** The default row applies exactly when no keyword occurs. */
  lemma DefaultScores(category: string)
    requires !MentionsPerf(category) && !MentionsSecurity(category) && !MentionsA11y(category)
    ensures ImpactScores(category) == Impact(Medium, Low, Low)
  {
  }

  /** The catalog's combined "Security & A11y" category is rated security Critical,
      so its a11y entry never reaches the a11y-Critical branch. */
  lemma SecurityCategoryIsCritical()
    ensures ImpactScores(Catalog.SECURITY).security == Critical
    ensures ImpactScores(Catalog.SECURITY).a11y == Low
  {
    var low := Lower(Catalog.SECURITY);
    assert low[0..8] == "security";
    ContainsAt(low, "security", 0);
    assert 'p' !in low by {
      forall i | 0 <= i < |low| ensures low[i] != 'p' { }
    }
    NotContainsByChar(low, "perf", 'p');
  }

  /** The performance category is rated performance High. */
  lemma PerformanceCategoryIsHigh()
    ensures ImpactScores(Catalog.PERF) == Impact(High, Low, Medium)
  {
    var low := Lower(Catalog.PERF);
    assert low[0..4] == "perf";
    ContainsAt(low, "perf", 0);
  }

  /** No category of the catalog ever gets a11y Critical. */
  lemma CatalogNeverA11yCritical(category: string)
    requires category in Catalog.CATEGORIES
    ensures ImpactScores(category).a11y != Critical
  {
    if category == Catalog.PERF {
      PerformanceCategoryIsHigh();
    } else if category == Catalog.SECURITY {
      SecurityCategoryIsCritical();
    } else {
      var low := Lower(category);
      assert '1' !in low by {
        forall i | 0 <= i < |low| ensures low[i] != '1' { }
      }
      NotContainsByChar(low, "a11y", '1');
    }
  }
}
