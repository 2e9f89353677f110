/** The side-by-side comparison of selected candidates: the best match,
    the grid width, the truncated missing-skill list and the recommendation row. */
module CandidateComparisonView {
  import opened Wrappers
  import opened Numbers
  import opened Lists
  import opened Text
  import opened AppTypes

  /** `reduce((best, c) => c.matchPercentage > best.matchPercentage ? c : best, cs[0])`,
      as the position of the value it returns. The seed `cs[0]` makes an
      empty list a crash (`undefined.candidateId`), hence the precondition. */
  function BestIndex(cs: seq<CandidateMatch>): (b: nat)
    requires |cs| >= 1
    ensures b < |cs|
    ensures forall j :: 0 <= j < |cs| ==> cs[j].matchPercentage <= cs[b].matchPercentage
    ensures forall j :: 0 <= j < b ==> cs[j].matchPercentage < cs[b].matchPercentage
  {
    if |cs| == 1 then 0
    else
      var b := BestIndex(cs[..|cs| - 1]);
      assert forall j :: 0 <= j < |cs| - 1 ==> cs[..|cs| - 1][j] == cs[j];
      if cs[|cs| - 1].matchPercentage > cs[b].matchPercentage then |cs| - 1 else b
  }

  /** The best position is the only one whose score is maximal with every
      earlier score strictly smaller: ties go to the earliest candidate. */
  lemma BestIndexIsFirstMaximum(cs: seq<CandidateMatch>, i: nat)
    requires i < |cs|
    requires forall j :: 0 <= j < |cs| ==> cs[j].matchPercentage <= cs[i].matchPercentage
    requires forall j :: 0 <= j < i ==> cs[j].matchPercentage < cs[i].matchPercentage
    ensures BestIndex(cs) == i
  {
    var b := BestIndex(cs);
    assert cs[b].matchPercentage <= cs[i].matchPercentage && cs[i].matchPercentage <= cs[b].matchPercentage;
  }

  /** `bestCandidateId`. */
  function BestCandidateId(cs: seq<CandidateMatch>): (id: string)
    requires |cs| >= 1
    ensures exists i :: 0 <= i < |cs| && cs[i].candidateId == id
              && forall j :: 0 <= j < |cs| ==> cs[j].matchPercentage <= cs[i].matchPercentage
  {
    cs[BestIndex(cs)].candidateId
  }

  /** Whether a card gets the green border, the trophy and the "Best Match" badge. */
  predicate IsBest(cs: seq<CandidateMatch>, c: CandidateMatch)
    requires |cs| >= 1
  {
    c.candidateId == BestCandidateId(cs)
  }

  predicate DistinctIds(cs: seq<CandidateMatch>) {
    forall i, j :: 0 <= i < j < |cs| ==> cs[i].candidateId != cs[j].candidateId
  }

  /** With distinct ids, exactly the best position is highlighted. */
  lemma OnlyBestHighlighted(cs: seq<CandidateMatch>, k: nat)
    requires |cs| >= 1 && k < |cs| && DistinctIds(cs)
    ensures IsBest(cs, cs[k]) <==> k == BestIndex(cs)
  {
    var b := BestIndex(cs);
    assert k < b || b < k || k == b;
  }

  /** `Math.min(candidates.length, 3)` grid columns. */
  function ColumnCount(cs: seq<CandidateMatch>): (n: nat)
    ensures n <= 3 && n <= |cs|
    ensures n == 3 || n == |cs|
  {
    Min(|cs|, 3)
  }

  /** The missing-skill badges of a card: at most three skills and, for a
      longer list, a "+k more" badge. */
  datatype MissingDisplay = MissingDisplay(shown: seq<string>, more: Option<string>)

  function MoreLabel(k: nat): (s: string)
    ensures |s| >= 7 && s[0] == '+' && s[|s| - 5..] == " more"
    ensures ParseIntOrZero(s[1..|s| - 5]) == k
  {
    var badge := "+" + DecimalString(k) + " more";
    ParseDecimal(k);
    assert badge[1..|badge| - 5] == DecimalString(k);
    badge
  }

  function MissingSkillsDisplay(skills: seq<string>): (d: MissingDisplay)
    ensures |d.shown| == Min(3, |skills|)
    ensures forall i :: 0 <= i < |d.shown| ==> d.shown[i] == skills[i]
    ensures d.more.Some? <==> |skills| > 3
    ensures d.more.Some? ==> d.more.value == MoreLabel(|skills| - |d.shown|)
  {
    MissingDisplay(Take(skills, 3), if |skills| > 3 then Some(MoreLabel(|skills| - 3)) else None)
  }

  /** The number in the "+k more" badge reads back as the number of hidden skills. */
  lemma MoreLabelCountsHidden(skills: seq<string>)
    requires |skills| > 3
    ensures MissingSkillsDisplay(skills).more.Some?
    ensures var shown := MissingSkillsDisplay(skills).shown;
            var badge := MissingSkillsDisplay(skills).more.value;
            |badge| >= 6 && |shown| + ParseIntOrZero(badge[1..|badge| - 5]) == |skills|
  {
  }

  /** The recommendation row: 85 and above, 70 and above, the rest. */
  function Recommendation(readinessScore: int): (r: string)
    ensures r == "Highly Recommended" <==> readinessScore >= 85
    ensures r == "Good Candidate" <==> 70 <= readinessScore < 85
    ensures r == "Needs Development" <==> readinessScore < 70
  {
    if readinessScore >= 85 then "Highly Recommended"
    else if readinessScore >= 70 then "Good Candidate"
    else "Needs Development"
  }

  function RecommendationRank(text: string): nat {
    if text == "Highly Recommended" then 2 else if text == "Good Candidate" then 1 else 0
  }

  /** A higher readiness never gets a lower recommendation, and the tiers
      are inclusive at 85 and at 70. */
  lemma RecommendationMonotone(a: int, b: int)
    requires a <= b
    ensures RecommendationRank(Recommendation(a)) <= RecommendationRank(Recommendation(b))
    ensures Recommendation(85) == "Highly Recommended" && Recommendation(84) == "Good Candidate"
    ensures Recommendation(70) == "Good Candidate" && Recommendation(69) == "Needs Development"
  {
  }
}
