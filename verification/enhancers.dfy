/**
 The clinical risk enhancers of the dashboard variant: four checkboxes whose
 fixed condition names are gathered, in a fixed order, into the list the
 insights and the report quote.
 */
module Enhancers {
  import opened Lists

  /** The four condition names, in the order the form asks for them. */
  const EnhancerNames: seq<string> := [
    "Family History of Heart Disease",
    "Chronic Kidney Disease",
    "Metabolic Syndrome",
    "Chronic Inflammatory Conditions"
  ]

  /** The position of a name among the four; any other text ranks after them. */
  function EnhancerRank(name: string): int {
    if name == EnhancerNames[0] then 0
    else if name == EnhancerNames[1] then 1
    else if name == EnhancerNames[2] then 2
    else if name == EnhancerNames[3] then 3
    else 4
  }

  /** The four names are distinct and already in rank order. */
  lemma NamesRanked()
    ensures StrictlyRanked(EnhancerNames, EnhancerRank)
    ensures forall i :: 0 <= i < |EnhancerNames| ==> EnhancerRank(EnhancerNames[i]) == i
  {
  }

  /**
   The collector: starting from the empty list, appends the name of each
   ticked checkbox in form order. The result keeps exactly the ticked names.
   */
  method CollectRiskEnhancers(familyHistory: bool, kidneyDisease: bool,
                              metabolicSyndrome: bool, inflammatoryConditions: bool)
    returns (riskEnhancers: seq<string>)
    ensures riskEnhancers == Select(EnhancerNames,
                                    [familyHistory, kidneyDisease, metabolicSyndrome, inflammatoryConditions])
  {
    riskEnhancers := [];
    riskEnhancers := riskEnhancers + When(familyHistory, "Family History of Heart Disease");
    riskEnhancers := riskEnhancers + When(kidneyDisease, "Chronic Kidney Disease");
    riskEnhancers := riskEnhancers + When(metabolicSyndrome, "Metabolic Syndrome");
    riskEnhancers := riskEnhancers + When(inflammatoryConditions, "Chronic Inflammatory Conditions");
    SelectFour(EnhancerNames, [familyHistory, kidneyDisease, metabolicSyndrome, inflammatoryConditions]);
  }

  /** Selecting from a four-entry list, spelled out entry by entry. */
  lemma SelectFour<T>(xs: seq<T>, flags: seq<bool>)
    requires |xs| == 4 && |flags| == 4
    ensures Select(xs, flags) == [] + When(flags[0], xs[0]) + When(flags[1], xs[1])
                                    + When(flags[2], xs[2]) + When(flags[3], xs[3])
  {
    assert xs[3..][1..] == [] && flags[3..][1..] == [];
    assert Select(xs[3..], flags[3..]) == When(flags[3], xs[3]);
    assert xs[2..][1..] == xs[3..] && flags[2..][1..] == flags[3..];
    assert Select(xs[2..], flags[2..]) == When(flags[2], xs[2]) + Select(xs[3..], flags[3..]);
    assert xs[1..][1..] == xs[2..] && flags[1..][1..] == flags[2..];
    assert Select(xs[1..], flags[1..]) == When(flags[1], xs[1]) + Select(xs[2..], flags[2..]);
    assert Select(xs, flags) == When(flags[0], xs[0]) + Select(xs[1..], flags[1..]);
  }

  /**
   Whatever the checkboxes, the list holds at most four names, one per ticked
   box; it repeats none, keeps the form's order, and holds the i-th name
   exactly when the i-th box is ticked.
   */
  lemma EnhancerListShape(flags: seq<bool>)
    requires |flags| == 4
    ensures var e := Select(EnhancerNames, flags);
      && |e| == Count(flags) <= 4
      && StrictlyRanked(e, EnhancerRank)
      && (forall i, j :: 0 <= i < j < |e| ==> e[i] != e[j])
      && (forall i :: 0 <= i < 4 ==> (EnhancerNames[i] in e <==> flags[i]))
      && (forall x :: x in e ==> x in EnhancerNames)
  {
    var e := Select(EnhancerNames, flags);
    NamesRanked();
    SelectRanked(EnhancerNames, flags, EnhancerRank);
    RankedDistinct(e, EnhancerRank);
    forall i | 0 <= i < 4 ensures EnhancerNames[i] in e <==> flags[i] {
      SelectMembers(EnhancerNames, flags, EnhancerNames[i]);
      if EnhancerNames[i] in e {
        var j :| 0 <= j < 4 && EnhancerNames[j] == EnhancerNames[i] && flags[j];
        assert EnhancerRank(EnhancerNames[j]) == EnhancerRank(EnhancerNames[i]);
      }
    }
  }

  /** No box ticked gives the empty list, which the report and the insights treat as "none". */
  lemma NoEnhancers()
    ensures Select(EnhancerNames, [false, false, false, false]) == []
  {
    SelectFour(EnhancerNames, [false, false, false, false]);
  }
}
