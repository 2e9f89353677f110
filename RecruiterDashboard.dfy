/** The recruiter dashboard: the key metrics over the candidate list, the
    per-posting skill counts, the candidate selection list and the gating of
    the compare tab. */
module RecruiterDashboard {
  import opened Numbers
  import opened Lists
  import opened AppTypes
  import opened Ui
  import opened CandidateComparisonView
  import JobSeekerDashboard

  /** `candidates.filter(c => c.matchPercentage >= 80)`. */
  function HighMatches(cs: seq<CandidateMatch>): (r: seq<CandidateMatch>)
    ensures |r| <= |cs|
    ensures forall c :: c in r <==> c in cs && c.matchPercentage >= 80
  {
    if cs == [] then []
    else (if cs[0].matchPercentage >= 80 then [cs[0]] else []) + HighMatches(cs[1..])
  }

  /** The filter works piece by piece: a single candidate is kept exactly when
      it matches at least 80, and the kept candidates of a concatenation are
      those of its parts, in list order. */
  lemma {:induction false} HighMatchesInOrder(a: seq<CandidateMatch>, b: seq<CandidateMatch>)
    ensures HighMatches(a + b) == HighMatches(a) + HighMatches(b)
  {
    if a == [] {
      assert a + b == b;
    } else {
      var head := if a[0].matchPercentage >= 80 then [a[0]] else [];
      calc {
        HighMatches(a + b);
      == { assert (a + b)[0] == a[0]; assert (a + b)[1..] == a[1..] + b; }
        head + HighMatches(a[1..] + b);
      == { HighMatchesInOrder(a[1..], b); }
        head + (HighMatches(a[1..]) + HighMatches(b));
      ==
        (head + HighMatches(a[1..])) + HighMatches(b);
      ==
        HighMatches(a) + HighMatches(b);
      }
    }
  }

  lemma HighMatchesSingle(c: CandidateMatch)
    ensures HighMatches([c]) == if c.matchPercentage >= 80 then [c] else []
  {
    assert [c][1..] == [];
  }

  /** The positions of the candidates that match at least 80. */
  function HighPositions(cs: seq<CandidateMatch>): set<int> {
    set i | 0 <= i < |cs| && cs[i].matchPercentage >= 80
  }

  /** Adding a candidate at the end adds its position exactly when it matches at least 80. */
  lemma HighPositionsSnoc(init: seq<CandidateMatch>, last: CandidateMatch)
    ensures |init| !in HighPositions(init)
    ensures HighPositions(init + [last]) ==
            HighPositions(init) + (if last.matchPercentage >= 80 then {|init|} else {})
  {
    var cs := init + [last];
    var extra: set<int> := if last.matchPercentage >= 80 then {|init|} else {};
    forall i ensures i in HighPositions(cs) <==> i in HighPositions(init) + extra {
      if 0 <= i < |init| {
        assert cs[i] == init[i];
        assert i in HighPositions(cs) <==> init[i].matchPercentage >= 80;
        assert i in HighPositions(init) <==> init[i].matchPercentage >= 80;
      } else if i == |init| {
        assert i in HighPositions(cs) <==> last.matchPercentage >= 80;
      } else {
        assert i !in HighPositions(cs) && i !in extra;
      }
    }
  }

  /** The filter keeps one entry per high-matching position. */
  lemma {:induction false} HighMatchesCount(cs: seq<CandidateMatch>)
    ensures |HighMatches(cs)| == |HighPositions(cs)|
  {
    if cs != [] {
      var init, last := cs[..|cs| - 1], cs[|cs| - 1];
      assert cs == init + [last];
      HighMatchesInOrder(init, [last]);
      HighMatchesSingle(last);
      HighMatchesCount(init);
      HighPositionsSnoc(init, last);
    }
  }

  /** The "High Match (80%+)" metric: the number of candidates matching at least 80. */
  function HighMatchCount(cs: seq<CandidateMatch>): (n: nat)
    ensures n == |set i | 0 <= i < |cs| && cs[i].matchPercentage >= 80|
    ensures n <= |cs|
    ensures n == 0 <==> forall i :: 0 <= i < |cs| ==> cs[i].matchPercentage < 80
  {
    var h := HighMatches(cs);
    HighMatchesCount(cs);
    assert h != [] ==> h[0] in h;
    assert forall i :: 0 <= i < |cs| && cs[i].matchPercentage >= 80 ==> cs[i] in h;
    |h|
  }

  /** The `reduce` sum of the match percentages. */
  function SumMatch(cs: seq<CandidateMatch>): int {
    if cs == [] then 0 else cs[0].matchPercentage + SumMatch(cs[1..])
  }

  /** `Math.round(sum / total)`. An empty list would divide by zero (NaN). */
  function AverageMatch(cs: seq<CandidateMatch>): (avg: int)
    requires |cs| >= 1
    ensures 2 * |cs| * avg - |cs| <= 2 * SumMatch(cs) < 2 * |cs| * avg + |cs|
  {
    RoundedQuotient(SumMatch(cs), |cs|)
  }

  /** The sum of n scores, each between lo and hi, lies between n*lo and n*hi. */
  lemma {:induction false} SumMatchBounds(cs: seq<CandidateMatch>, lo: int, hi: int)
    requires forall i :: 0 <= i < |cs| ==> lo <= cs[i].matchPercentage <= hi
    ensures |cs| * lo <= SumMatch(cs) <= |cs| * hi
  {
    if cs != [] {
      var rest := cs[1..];
      assert forall i :: 0 <= i < |rest| ==> rest[i] == cs[i + 1];
      SumMatchBounds(rest, lo, hi);
      assert |cs| * lo == lo + |rest| * lo;
      assert |cs| * hi == hi + |rest| * hi;
    }
  }

  /** The lowest score; among equal scores, the earliest. */
  function LowestIndex(cs: seq<CandidateMatch>): (k: nat)
    requires |cs| >= 1
    ensures k < |cs|
    ensures forall j :: 0 <= j < |cs| ==> cs[k].matchPercentage <= cs[j].matchPercentage
  {
    if |cs| == 1 then 0
    else
      var k := LowestIndex(cs[..|cs| - 1]);
      assert forall j :: 0 <= j < |cs| - 1 ==> cs[..|cs| - 1][j] == cs[j];
      if cs[|cs| - 1].matchPercentage < cs[k].matchPercentage then |cs| - 1 else k
  }

  /** The rounded average lies between the lowest and the highest match. */
  lemma AverageBetweenMinAndMax(cs: seq<CandidateMatch>)
    requires |cs| >= 1
    ensures cs[LowestIndex(cs)].matchPercentage <= AverageMatch(cs) <= cs[BestIndex(cs)].matchPercentage
  {
    var lo, hi := cs[LowestIndex(cs)].matchPercentage, cs[BestIndex(cs)].matchPercentage;
    SumMatchBounds(cs, lo, hi);
    RoundedWithin(SumMatch(cs), |cs|, lo, hi);
  }

  /** The mock candidates (88, 78, 72 and 65) give an average of 76 and one high match. */
  lemma DemoStats(cs: seq<CandidateMatch>)
    requires |cs| == 4
    requires cs[0].matchPercentage == 88 && cs[1].matchPercentage == 78
    requires cs[2].matchPercentage == 72 && cs[3].matchPercentage == 65
    ensures AverageMatch(cs) == 76
    ensures HighMatchCount(cs) == 1
  {
    assert cs[1..][1..][1..][1..] == [];
    assert SumMatch(cs[1..][1..][1..]) == 65;
    assert SumMatch(cs[1..][1..]) == 137;
    assert SumMatch(cs[1..]) == 215;
    assert SumMatch(cs) == 303;
    assert HighMatches(cs[1..][1..][1..]) == [];
    assert HighMatches(cs[1..]) == [];
    assert HighMatches(cs) == [cs[0]];
  }

  /** `requiredSkills.filter(s => s.priority === p)`. */
  function WithPriority(skills: seq<JobSkill>, p: SkillPriority): (r: seq<JobSkill>)
    ensures |r| <= |skills|
    ensures forall s :: s in r <==> s in skills && s.priority == p
  {
    if skills == [] then []
    else (if skills[0].priority == p then [skills[0]] else []) + WithPriority(skills[1..], p)
  }

  /** A single skill is kept exactly when it has the priority, and the kept
      skills of a concatenation are those of its parts, in order. */
  lemma {:induction false} WithPriorityInOrder(a: seq<JobSkill>, b: seq<JobSkill>, p: SkillPriority)
    ensures WithPriority(a + b, p) == WithPriority(a, p) + WithPriority(b, p)
  {
    if a == [] {
      assert a + b == b;
    } else {
      var head := if a[0].priority == p then [a[0]] else [];
      calc {
        WithPriority(a + b, p);
      == { assert (a + b)[0] == a[0]; assert (a + b)[1..] == a[1..] + b; }
        head + WithPriority(a[1..] + b, p);
      == { WithPriorityInOrder(a[1..], b, p); }
        head + (WithPriority(a[1..], p) + WithPriority(b, p));
      ==
        (head + WithPriority(a[1..], p)) + WithPriority(b, p);
      ==
        WithPriority(a, p) + WithPriority(b, p);
      }
    }
  }

  lemma WithPrioritySingle(c: JobSkill, p: SkillPriority)
    ensures WithPriority([c], p) == if c.priority == p then [c] else []
  {
    assert [c][1..] == [];
  }

  /** The positions of the skills with priority `p`. */
  function PriorityPositions(skills: seq<JobSkill>, p: SkillPriority): set<int> {
    set i | 0 <= i < |skills| && skills[i].priority == p
  }

  /** Adding a skill at the end adds its position exactly when it has the priority. */
  lemma PriorityPositionsSnoc(init: seq<JobSkill>, last: JobSkill, p: SkillPriority)
    ensures |init| !in PriorityPositions(init, p)
    ensures PriorityPositions(init + [last], p) ==
            PriorityPositions(init, p) + (if last.priority == p then {|init|} else {})
  {
    var skills := init + [last];
    var extra: set<int> := if last.priority == p then {|init|} else {};
    forall i ensures i in PriorityPositions(skills, p) <==> i in PriorityPositions(init, p) + extra {
      if 0 <= i < |init| {
        assert skills[i] == init[i];
        assert i in PriorityPositions(skills, p) <==> init[i].priority == p;
        assert i in PriorityPositions(init, p) <==> init[i].priority == p;
      } else if i == |init| {
        assert i in PriorityPositions(skills, p) <==> last.priority == p;
      } else {
        assert i !in PriorityPositions(skills, p) && i !in extra;
      }
    }
  }

  /** The filter keeps one entry per position with the priority. */
  lemma {:induction false} WithPriorityCount(skills: seq<JobSkill>, p: SkillPriority)
    ensures |WithPriority(skills, p)| == |PriorityPositions(skills, p)|
  {
    if skills != [] {
      var init, last := skills[..|skills| - 1], skills[|skills| - 1];
      assert skills == init + [last];
      WithPriorityInOrder(init, [last], p);
      WithPrioritySingle(last, p);
      WithPriorityCount(init, p);
      PriorityPositionsSnoc(init, last, p);
    }
  }

  /** `requiredSkills.filter(s => s.priority === p).length`: the number of
      required skills with that priority. */
  function CountPriority(skills: seq<JobSkill>, p: SkillPriority): (n: nat)
    ensures n == |set i | 0 <= i < |skills| && skills[i].priority == p|
    ensures n <= |skills|
  {
    WithPriorityCount(skills, p);
    |WithPriority(skills, p)|
  }

  /** The two priority badges of a posting together count every required skill. */
  lemma PriorityCountsCoverSkills(skills: seq<JobSkill>)
    ensures CountPriority(skills, MustHave) + CountPriority(skills, GoodToHave) == |skills|
  {
    PrioritiesPartition(skills);
  }

  lemma {:induction false} PrioritiesPartition(skills: seq<JobSkill>)
    ensures |WithPriority(skills, MustHave)| + |WithPriority(skills, GoodToHave)| == |skills|
  {
    if skills != [] {
      PrioritiesPartition(skills[1..]);
    }
  }

  /** The "Top Matching Candidates" panel: the first three, in list order. */
  function TopCandidates(cs: seq<CandidateMatch>): (t: seq<CandidateMatch>)
    ensures |t| == Min(3, |cs|)
    ensures forall i :: 0 <= i < |t| ==> t[i] == cs[i]
  {
    Take(cs, 3)
  }

  function CandidateBadge(matchPercentage: int): (b: BadgeVariant)
    ensures b == Default <==> matchPercentage >= 80
    ensures b != Default ==> b == Secondary
  {
    if matchPercentage >= 80 then Default else Secondary
  }

  /** The top-candidate badge follows the same 80% rule as the job seeker's match badge. */
  lemma CandidateBadgeAgrees(matchPercentage: int)
    ensures CandidateBadge(matchPercentage) == JobSeekerDashboard.MatchBadge(matchPercentage)
    ensures CandidateBadge(matchPercentage) == Default <==> matchPercentage >= 80
  {
  }

  /** `prev.includes(id) ? prev.filter(cid => cid !== id) : [...prev, id]`. */
  function Toggled(sel: seq<string>, id: string): (r: seq<string>)
    ensures id in r <==> id !in sel
    ensures forall x :: x != id ==> (x in r <==> x in sel)
    ensures id !in sel ==> r == sel + [id]
    ensures id in sel ==> |r| < |sel|
    ensures id in sel ==> r == RemoveAll(sel, id)
  {
    if id in sel then RemoveAll(sel, id) else sel + [id]
  }

  lemma ToggleKeepsNoDuplicates(sel: seq<string>, id: string)
    requires NoDuplicates(sel)
    ensures NoDuplicates(Toggled(sel, id))
  {
    if id in sel {
      RemoveAllKeepsNoDuplicates(sel, id);
    } else {
      var r := sel + [id];
      assert forall i :: 0 <= i < |sel| ==> r[i] == sel[i];
    }
  }

  /** Selecting an unselected candidate and unselecting it again restores the list. */
  lemma ToggleTwiceRestores(sel: seq<string>, id: string)
    requires id !in sel
    ensures Toggled(Toggled(sel, id), id) == sel
  {
    RemoveAllAppended(sel, id);
  }

  function Ids(cs: seq<CandidateMatch>): (ids: seq<string>)
    ensures |ids| == |cs|
    ensures forall i :: 0 <= i < |cs| ==> ids[i] == cs[i].candidateId
  {
    if cs == [] then [] else [cs[0].candidateId] + Ids(cs[1..])
  }

  /** `mockCandidateMatches.filter(c => selectedCandidates.includes(c.candidateId))`. */
  function FilterSelected(cs: seq<CandidateMatch>, sel: seq<string>): (r: seq<CandidateMatch>)
    ensures |r| <= |cs|
    ensures forall c :: c in r <==> c in cs && c.candidateId in sel
  {
    if cs == [] then []
    else (if cs[0].candidateId in sel then [cs[0]] else []) + FilterSelected(cs[1..], sel)
  }

  /** The comparison keeps candidate-list order: a single candidate is kept
      exactly when its id is selected, and the kept candidates of a
      concatenation are those of its parts, in order. */
  lemma {:induction false} FilterSelectedInOrder(a: seq<CandidateMatch>, b: seq<CandidateMatch>, sel: seq<string>)
    ensures FilterSelected(a + b, sel) == FilterSelected(a, sel) + FilterSelected(b, sel)
  {
    if a == [] {
      assert a + b == b;
    } else {
      var head := if a[0].candidateId in sel then [a[0]] else [];
      calc {
        FilterSelected(a + b, sel);
      == { assert (a + b)[0] == a[0]; assert (a + b)[1..] == a[1..] + b; }
        head + FilterSelected(a[1..] + b, sel);
      == { FilterSelectedInOrder(a[1..], b, sel); }
        head + (FilterSelected(a[1..], sel) + FilterSelected(b, sel));
      ==
        (head + FilterSelected(a[1..], sel)) + FilterSelected(b, sel);
      ==
        FilterSelected(a, sel) + FilterSelected(b, sel);
      }
    }
  }

  lemma FilterSelectedSingle(c: CandidateMatch, sel: seq<string>)
    ensures FilterSelected([c], sel) == if c.candidateId in sel then [c] else []
  {
    assert [c][1..] == [];
  }

  /** The comparison follows the candidate list, not the order of selection. */
  lemma {:induction false} FilterIgnoresSelectionOrder(cs: seq<CandidateMatch>, s1: seq<string>, s2: seq<string>)
    requires forall x :: x in s1 <==> x in s2
    ensures FilterSelected(cs, s1) == FilterSelected(cs, s2)
  {
    if cs != [] {
      FilterIgnoresSelectionOrder(cs[1..], s1, s2);
    }
  }

  /** Every selected id naming a listed candidate is the id of a filtered candidate. */
  lemma FilterCoversSelection(cs: seq<CandidateMatch>, sel: seq<string>)
    ensures forall x :: x in sel && x in Ids(cs) ==> x in Ids(FilterSelected(cs, sel))
  {
    var r := FilterSelected(cs, sel);
    forall x | x in sel && x in Ids(cs) ensures x in Ids(r) {
      var i :| 0 <= i < |cs| && Ids(cs)[i] == x;
      assert cs[i] in r;
      var k :| 0 <= k < |r| && r[k] == cs[i];
      assert Ids(r)[k] == x;
    }
  }

  /** Two selected ids, duplicate-free and naming listed candidates, give the
      comparison view at least two candidates, which its `reduce` requires. */
  lemma CompareGetsTwo(cs: seq<CandidateMatch>, sel: seq<string>)
    requires NoDuplicates(sel) && |sel| >= 2
    requires forall x :: x in sel ==> x in Ids(cs)
    ensures |FilterSelected(cs, sel)| >= 2
  {
    var r := FilterSelected(cs, sel);
    FilterCoversSelection(cs, sel);
    NoDuplicatesCard(sel);
    CardAtMostLength(Ids(r));
    var chosen, listed := set x | x in sel, set x | x in Ids(r);
    assert chosen <= listed;
    assert listed == chosen + (listed - chosen);
    assert |chosen| <= |listed|;
  }

  /** What the compare tab shows. */
  datatype CompareContent = NoneSelected | SelectMore | Compare(shown: seq<CandidateMatch>)

  function CompareTab(cs: seq<CandidateMatch>, sel: seq<string>): (c: CompareContent)
    ensures c == NoneSelected <==> |sel| == 0
    ensures c == SelectMore <==> |sel| == 1
    ensures c.Compare? <==> |sel| >= 2
    ensures c.Compare? ==> c.shown == FilterSelected(cs, sel)
  {
    if |sel| == 0 then NoneSelected
    else if |sel| == 1 then SelectMore
    else Compare(FilterSelected(cs, sel))
  }

  class RecruiterDashboard {
    const profile: RecruiterProfile
    /** `mockCandidateMatches`. */
    const candidates: seq<CandidateMatch>
    var selectedCandidates: seq<string>

    /** Selected ids are distinct and each names a listed candidate. */
    predicate Valid()
      reads this
    {
      NoDuplicates(selectedCandidates) && forall x :: x in selectedCandidates ==> x in Ids(candidates)
    }

    constructor (profile: RecruiterProfile, candidates: seq<CandidateMatch>)
      ensures this.profile == profile && this.candidates == candidates
      ensures selectedCandidates == []
      ensures Valid()
    {
      this.profile := profile;
      this.candidates := candidates;
      selectedCandidates := [];
    }

    /** `isSelected` of a candidate card. */
    predicate IsSelected(id: string)
      reads this
    {
      id in selectedCandidates
    }

    /** `toggleCandidateSelection`, used by the cards and by the comparison's remove button. */
    method ToggleCandidateSelection(id: string)
      modifies this
      ensures selectedCandidates == Toggled(old(selectedCandidates), id)
      ensures IsSelected(id) <==> !old(IsSelected(id))
      ensures old(Valid()) && id in Ids(candidates) ==> Valid()
    {
      if NoDuplicates(selectedCandidates) {
        ToggleKeepsNoDuplicates(selectedCandidates, id);
      }
      selectedCandidates := Toggled(selectedCandidates, id);
    }

    function Compare(): (c: CompareContent)
      reads this
      ensures c == CompareTab(candidates, selectedCandidates)
      ensures Valid() && c.Compare? ==> |c.shown| >= 2
    {
      if Valid() && |selectedCandidates| >= 2 then
        CompareGetsTwo(candidates, selectedCandidates);
        CompareTab(candidates, selectedCandidates)
      else
        CompareTab(candidates, selectedCandidates)
    }
  }
}
