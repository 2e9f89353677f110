/** The job seeker dashboard's derived figures: the overall readiness score,
    the de-duplicated critical skill gaps, the skill-level progress bars and
    the top-match badges. The match list is a parameter. */
module JobSeekerDashboard {
  import opened Wrappers
  import opened Numbers
  import opened Lists
  import opened AppTypes
  import opened Ui

  // ---------------------------------------------------------------------
  // Overall readiness

  /** `reduce((sum, m) => sum + m.readinessScore, 0)`. */
  function SumReadiness(ms: seq<SkillMatch>): int {
    if ms == [] then 0 else ms[0].readinessScore + SumReadiness(ms[1..])
  }

  lemma {:induction false} SumReadinessAtLeast(ms: seq<SkillMatch>, lo: int)
    requires forall k :: 0 <= k < |ms| ==> lo <= ms[k].readinessScore
    ensures lo * |ms| <= SumReadiness(ms)
  {
    if ms != [] {
      SumReadinessAtLeast(ms[1..], lo);
    }
  }

  lemma {:induction false} SumReadinessAtMost(ms: seq<SkillMatch>, hi: int)
    requires forall k :: 0 <= k < |ms| ==> ms[k].readinessScore <= hi
    ensures SumReadiness(ms) <= hi * |ms|
  {
    if ms != [] {
      SumReadinessAtMost(ms[1..], hi);
    }
  }

  /** `Math.round(sum of the first three readiness scores / 3)`: the first
      three matches in list order, always divided by three. */
  function OverallReadinessScore(ms: seq<SkillMatch>): (r: int)
    ensures 6 * r - 3 <= 2 * SumReadiness(Take(ms, 3)) < 6 * r + 3
  {
    RoundedQuotient(SumReadiness(Take(ms, 3)), 3)
  }

  /** For non-negative scores the rounding is `(s + 1) div 3`. */
  lemma ReadinessIsRoundedThird(ms: seq<SkillMatch>)
    requires forall k :: 0 <= k < |ms| ==> ms[k].readinessScore >= 0
    ensures OverallReadinessScore(ms) == (SumReadiness(Take(ms, 3)) + 1) / 3
  {
    SumReadinessAtLeast(Take(ms, 3), 0);
    RoundThirds(SumReadiness(Take(ms, 3)));
  }

  /** Scores in 0..100 give an overall score in 0..100. */
  lemma ReadinessInRange(ms: seq<SkillMatch>)
    requires forall k :: 0 <= k < |ms| ==> 0 <= ms[k].readinessScore <= 100
    ensures 0 <= OverallReadinessScore(ms) <= 100
  {
    var top := Take(ms, 3);
    SumReadinessAtMost(top, 100);
    assert SumReadiness(top) <= 300 by {
      assert |top| <= 3;
    }
    SumReadinessAtLeast(top, 0);
    ReadinessIsRoundedThird(ms);
    DivBounds(SumReadiness(top) + 1, 3);
  }

  /** Matches after the third never change the score. */
  lemma ReadinessIgnoresLaterMatches(ms: seq<SkillMatch>, more: seq<SkillMatch>)
    requires |ms| >= 3
    ensures OverallReadinessScore(ms + more) == OverallReadinessScore(ms)
  {
    assert Take(ms + more, 3) == Take(ms, 3);
  }

  /** A single match is still divided by three: 90 alone gives 30. */
  lemma SingleMatchDividedByThree(m: SkillMatch)
    requires m.readinessScore == 90
    ensures OverallReadinessScore([m]) == 30
  {
    assert Take([m], 3) == [m];
    assert [m][1..] == [];
    assert SumReadiness([m]) == 90;
    RoundThirds(90);
  }

  /** The demo matches have readiness 75, 62, 90 and 48: the score is 76. */
  lemma DemoReadiness(ms: seq<SkillMatch>)
    requires |ms| == 4
    requires ms[0].readinessScore == 75 && ms[1].readinessScore == 62
    requires ms[2].readinessScore == 90 && ms[3].readinessScore == 48
    ensures OverallReadinessScore(ms) == 76
  {
    var top := Take(ms, 3);
    assert top == [ms[0], ms[1], ms[2]];
    assert top[1..][1..][1..] == [];
    assert SumReadiness(top[1..][1..]) == 90;
    assert SumReadiness(top[1..]) == 152;
    assert SumReadiness(top) == 227;
    RoundThirds(227);
  }

  // ---------------------------------------------------------------------
  // Critical skill gaps

  /** `flatMap(m => m.missingSkills)`: weak skills never enter. */
  function AllSkillGaps(ms: seq<SkillMatch>): (gs: seq<SkillGap>)
    ensures forall g :: g in gs <==> exists k :: 0 <= k < |ms| && g in ms[k].missingSkills
  {
    if ms == [] then []
    else
      var rest := AllSkillGaps(ms[1..]);
      assert forall k :: 1 <= k < |ms| ==> ms[k] == ms[1..][k - 1];
      ms[0].missingSkills + rest
  }
  /** The gaps follow the match order: those of a concatenation are those of
      its parts, concatenated, and a single match contributes exactly its
      missing skills, in their order. */
  lemma {:induction false} AllSkillGapsInOrder(a: seq<SkillMatch>, b: seq<SkillMatch>)
    ensures |a| == 1 ==> AllSkillGaps(a) == a[0].missingSkills
    ensures AllSkillGaps(a + b) == AllSkillGaps(a) + AllSkillGaps(b)
  {
    if a == [] {
      assert a + b == b;
    } else {
      assert AllSkillGaps(a + b) == a[0].missingSkills + AllSkillGaps(a[1..] + b) by {
        assert (a + b)[0] == a[0];
        assert (a + b)[1..] == a[1..] + b;
      }
      AllSkillGapsInOrder(a[1..], b);
      assert AllSkillGaps(a) == a[0].missingSkills + AllSkillGaps(a[1..]);
      if |a| == 1 {
        assert a[1..] == [];
      }
    }
  }

  /** Two match lists with the same missing skills, match by match, have
      the same gaps, whatever their weak skills. */
  lemma {:induction false} GapsIgnoreWeakSkills(ms: seq<SkillMatch>, ns: seq<SkillMatch>)
    requires |ms| == |ns|
    requires forall k :: 0 <= k < |ms| ==> ms[k].missingSkills == ns[k].missingSkills
    ensures AllSkillGaps(ms) == AllSkillGaps(ns)
  {
    if ms != [] {
      GapsIgnoreWeakSkills(ms[1..], ns[1..]);
    }
  }

  /** `filter(g => g.priority === 'critical')`. */
  function CriticalGaps(gs: seq<SkillGap>): (cs: seq<SkillGap>)
    ensures forall g :: g in cs <==> g in gs && g.priority == Critical
    ensures |cs| <= |gs|
  {
    if gs == [] then []
    else (if gs[0].priority == Critical then [gs[0]] else []) + CriticalGaps(gs[1..])
  }
  /** The critical gaps keep their order: those of a concatenation are those of its parts, concatenated. */
  lemma {:induction false} CriticalGapsInOrder(a: seq<SkillGap>, b: seq<SkillGap>)
    ensures CriticalGaps(a + b) == CriticalGaps(a) + CriticalGaps(b)
  {
    if a == [] {
      assert a + b == b;
    } else {
      var head := if a[0].priority == Critical then [a[0]] else [];
      calc {
        CriticalGaps(a + b);
      == { assert (a + b)[0] == a[0]; assert (a + b)[1..] == a[1..] + b; }
        head + CriticalGaps(a[1..] + b);
      == { CriticalGapsInOrder(a[1..], b); }
        head + (CriticalGaps(a[1..]) + CriticalGaps(b));
      ==
        (head + CriticalGaps(a[1..])) + CriticalGaps(b);
      ==
        CriticalGaps(a) + CriticalGaps(b);
      }
    }
  }

  lemma CriticalGapsSingle(g: SkillGap)
    ensures CriticalGaps([g]) == if g.priority == Critical then [g] else []
  {
    assert [g][1..] == [];
  }

  /** `map(g => g.skillName)`. */
  function Names(gs: seq<SkillGap>): (ns: seq<string>)
    ensures |ns| == |gs|
    ensures forall k :: 0 <= k < |gs| ==> ns[k] == gs[k].skillName
  {
    seq(|gs|, k requires 0 <= k < |gs| => gs[k].skillName)
  }

  /** `find(g => g.skillName === name)`: the first gap with that name. */
  function FindByName(gs: seq<SkillGap>, name: string): (r: Option<SkillGap>)
    ensures r.Some? <==> name in Names(gs)
    ensures r.Some? ==> r.value == gs[FirstIdx(Names(gs), name)]
  {
    if gs == [] then None
    else if gs[0].skillName == name then
      assert Names(gs)[0] == name;
      Some(gs[0])
    else
      var r := FindByName(gs[1..], name);
      assert Names(gs) == [gs[0].skillName] + Names(gs[1..]);
      r
  }

  /** `names.map(name => gs.find(g => g.skillName === name)!)`. */
  function Representatives(gs: seq<SkillGap>, names: seq<string>): (u: seq<SkillGap>)
    requires forall i :: 0 <= i < |names| ==> names[i] in Names(gs)
    ensures |u| == |names|
    ensures forall i :: 0 <= i < |u| ==> u[i].skillName == names[i] && u[i] == gs[FirstIdx(Names(gs), names[i])]
  {
    seq(|names|, i requires 0 <= i < |names| => FindByName(gs, names[i]).value)
  }

  /** The critical gaps of all matches, one per skill name: the names in the
      order they first occur, each represented by its first critical gap. */
  function UniqueCriticalGaps(ms: seq<SkillMatch>): (u: seq<SkillGap>)
    ensures |u| <= |CriticalGaps(AllSkillGaps(ms))|
  {
    var cg := CriticalGaps(AllSkillGaps(ms));
    var names := Distinct(Names(cg));
    DistinctCard(Names(cg));
    CardAtMostLength(Names(cg));
    Representatives(cg, names)
  }

  lemma NameOfMember(gs: seq<SkillGap>, g: SkillGap)
    requires g in gs
    ensures g.skillName in Names(gs)
  {
    var k :| 0 <= k < |gs| && gs[k] == g;
    assert Names(gs)[k] == g.skillName;
  }

  /** No two entries share a skill name. */
  lemma UniqueGapsHaveDistinctNames(ms: seq<SkillMatch>)
    ensures var u := UniqueCriticalGaps(ms);
            forall i, j :: 0 <= i < j < |u| ==> u[i].skillName != u[j].skillName
  {
  }

  /** Every critical missing skill's name has an entry. */
  lemma UniqueGapsCoverEveryName(ms: seq<SkillMatch>)
    ensures var u := UniqueCriticalGaps(ms);
            forall g :: g in CriticalGaps(AllSkillGaps(ms)) ==> exists i :: 0 <= i < |u| && u[i].skillName == g.skillName
  {
    var cg := CriticalGaps(AllSkillGaps(ms));
    var names := Distinct(Names(cg));
    var u := UniqueCriticalGaps(ms);
    forall g | g in cg
      ensures exists i :: 0 <= i < |u| && u[i].skillName == g.skillName
    {
      NameOfMember(cg, g);
      var i :| 0 <= i < |names| && names[i] == g.skillName;
      assert u[i].skillName == g.skillName;
    }
  }

  /** Each entry is the first critical gap with its name, and the entries
      follow the order in which the names first occur. */
  lemma UniqueGapsAreFirstOccurrences(ms: seq<SkillMatch>)
    ensures var cg := CriticalGaps(AllSkillGaps(ms));
            var u := UniqueCriticalGaps(ms);
            && (forall i :: 0 <= i < |u| ==> u[i].skillName in Names(cg) && u[i] == cg[FirstIdx(Names(cg), u[i].skillName)])
            && (forall i, j :: 0 <= i < j < |u| ==>
                  FirstIdx(Names(cg), u[i].skillName) < FirstIdx(Names(cg), u[j].skillName))
  {
  }

  /** Every entry is a critical gap of some match. */
  lemma UniqueGapsAreCritical(ms: seq<SkillMatch>)
    ensures forall g :: g in UniqueCriticalGaps(ms) ==>
              g.priority == Critical && exists k :: 0 <= k < |ms| && g in ms[k].missingSkills
  {
    var cg := CriticalGaps(AllSkillGaps(ms));
    var u := UniqueCriticalGaps(ms);
    forall g | g in u
      ensures g in cg
    {
      var i :| 0 <= i < |u| && u[i] == g;
      assert g == cg[FirstIdx(Names(cg), Distinct(Names(cg))[i])];
    }
  }

  /** The "Skills to Improve" figure is the number of distinct critical names. */
  lemma SkillsToImproveCount(ms: seq<SkillMatch>)
    ensures var cg := CriticalGaps(AllSkillGaps(ms));
            |UniqueCriticalGaps(ms)| == |set g | g in cg :: g.skillName|
  {
    var cg := CriticalGaps(AllSkillGaps(ms));
    DistinctCard(Names(cg));
    NamesAsSet(cg);
  }

  /** The names of a gap list, as a set, are the set of its gaps' names. */
  lemma NamesAsSet(cg: seq<SkillGap>)
    ensures (set x | x in Names(cg)) == (set g | g in cg :: g.skillName)
  {
    var names := Names(cg);
    forall x | x in names ensures x in (set g | g in cg :: g.skillName) {
      var k :| 0 <= k < |names| && names[k] == x;
      assert cg[k] in cg;
    }
    forall g | g in cg ensures g.skillName in names {
      var k :| 0 <= k < |cg| && cg[k] == g;
      assert names[k] == g.skillName;
    }
  }

  /** The gap panel: the first six unique critical gaps. */
  function GapPanel(ms: seq<SkillMatch>): (p: seq<SkillGap>)
    ensures |p| == Min(6, |UniqueCriticalGaps(ms)|)
    ensures forall i :: 0 <= i < |p| ==> p[i] == UniqueCriticalGaps(ms)[i]
  {
    Take(UniqueCriticalGaps(ms), 6)
  }

  // ---------------------------------------------------------------------
  // Skill breakdown and top matches

  /** The ordering of skill levels. */
  function LevelRank(l: SkillLevel): nat {
    match l
    case Beginner => 0
    case Intermediate => 1
    case Advanced => 2
    case Expert => 3
  }

  /** The progress bar of a skill: expert 100, advanced 75, intermediate 50,
      anything else 25. */
  function LevelProgress(l: SkillLevel): (p: int)
    ensures p == 25 * (LevelRank(l) + 1)
  {
    if l == Expert then 100 else if l == Advanced then 75 else if l == Intermediate then 50 else 25
  }

  /** A higher level never shows a shorter bar; every bar is within 25..100. */
  lemma LevelProgressMonotone(a: SkillLevel, b: SkillLevel)
    ensures 25 <= LevelProgress(a) <= 100
    ensures LevelRank(a) <= LevelRank(b) <==> LevelProgress(a) <= LevelProgress(b)
    ensures LevelProgress(a) == 25 * (LevelRank(a) + 1)
  {
  }

  /** The top-matches panel: the first three matches in list order. */
  function TopMatches(ms: seq<SkillMatch>): (t: seq<SkillMatch>)
    ensures |t| == Min(3, |ms|)
    ensures forall i :: 0 <= i < |t| ==> t[i] == ms[i]
  {
    Take(ms, 3)
  }

  /** The match badge of the top-matches panel. */
  function MatchBadge(matchPercentage: int): (v: BadgeVariant)
    ensures v == Default || v == Secondary
    ensures v == Default <==> matchPercentage >= 80
  {
    if matchPercentage >= 80 then Default else Secondary
  }
}
