/** The job seeker's four-step onboarding wizard: skills, education and
    experience, career goals, and job preferences. */
module JobSeekerProfileSetup {
  import opened Text
  import opened AppTypes

  /** The skill being typed: name, level and years (kept as typed). */
  datatype SkillInput = SkillInput(name: string, level: SkillLevel, years: string)

  const EmptySkillInput := SkillInput("", Intermediate, "")

  /** The preferences being typed: the two comma-separated lists, already
      split, and the two salary inputs as text. */
  datatype PreferenceInput = PreferenceInput(preferredRoles: seq<string>, locations: seq<string>,
                                             minSalary: string, maxSalary: string)

  const WorkTypes: seq<string> := ["Full-time", "Remote", "Hybrid"]

  /** `skills.filter(s => s.id !== id)`. */
  function WithoutSkill(skills: seq<Skill>, id: string): (r: seq<Skill>)
    ensures |r| <= |skills|
  {
    if skills == [] then []
    else (if skills[0].id == id then [] else [skills[0]]) + WithoutSkill(skills[1..], id)
  }

  /** What remains is exactly the skills whose id differs. */
  lemma {:induction false} WithoutSkillMembers(skills: seq<Skill>, id: string)
    ensures forall s :: s in WithoutSkill(skills, id) <==> s in skills && s.id != id
  {
    if skills != [] {
      WithoutSkillMembers(skills[1..], id);
      assert skills == [skills[0]] + skills[1..];
    }
  }

  /** An id no skill carries removes nothing. */
  lemma {:induction false} WithoutAbsentSkill(skills: seq<Skill>, id: string)
    requires forall k :: 0 <= k < |skills| ==> skills[k].id != id
    ensures WithoutSkill(skills, id) == skills
  {
    if skills != [] {
      WithoutAbsentSkill(skills[1..], id);
      assert skills == [skills[0]] + skills[1..];
    }
  }
  /** Removal keeps the other skills in order: the result for a concatenation is the results for its parts, concatenated. */
  lemma {:induction false} WithoutSkillInOrder(a: seq<Skill>, b: seq<Skill>, id: string)
    ensures WithoutSkill(a + b, id) == WithoutSkill(a, id) + WithoutSkill(b, id)
  {
    if a == [] {
      assert a + b == b;
    } else {
      var head := if a[0].id == id then [] else [a[0]];
      calc {
        WithoutSkill(a + b, id);
      == { assert a + b == [a[0]] + (a[1..] + b); WithoutSkillCons(a[0], a[1..] + b, id); }
        head + WithoutSkill(a[1..] + b, id);
      == { WithoutSkillInOrder(a[1..], b, id); }
        head + (WithoutSkill(a[1..], id) + WithoutSkill(b, id));
      ==
        (head + WithoutSkill(a[1..], id)) + WithoutSkill(b, id);
      == { assert a == [a[0]] + a[1..]; WithoutSkillCons(a[0], a[1..], id); }
        WithoutSkill(a, id) + WithoutSkill(b, id);
      }
    }
  }

  /** One unfolding step of the filter. */
  lemma WithoutSkillCons(s: Skill, rest: seq<Skill>, id: string)
    ensures WithoutSkill([s] + rest, id) == (if s.id == id then [] else [s]) + WithoutSkill(rest, id)
  {
    assert ([s] + rest)[1..] == rest;
  }

  lemma WithoutSkillSingle(s: Skill, id: string)
    ensures WithoutSkill([s], id) == if s.id == id then [] else [s]
  {
    assert [s][1..] == [];
  }


  /** Removing a skill just added removes it and nothing else. */
  lemma {:induction false} RemoveAdded(skills: seq<Skill>, s: Skill)
    requires forall k :: 0 <= k < |skills| ==> skills[k].id != s.id
    ensures WithoutSkill(skills + [s], s.id) == skills
  {
    if skills == [] {
      assert WithoutSkill([s], s.id) == [] + WithoutSkill([s][1..], s.id);
    } else {
      assert (skills + [s])[1..] == skills[1..] + [s];
      RemoveAdded(skills[1..], s);
    }
  }

  /** The three education inputs and the two experience inputs. */
  datatype EducationField = Degree | Institution | Year
  datatype ExperienceField = Title | Company

  function EducationValue(e: Education, f: EducationField): string {
    match f
    case Degree => e.degree
    case Institution => e.institution
    case Year => e.year
  }

  function ExperienceValue(e: Experience, f: ExperienceField): string {
    match f
    case Title => e.title
    case Company => e.company
  }

  /** An education input's `onChange`: the list becomes one record; the first
      edit starts from id '1', empty fields and field 'Computer Science'. */
  function EditEducation(edu: seq<Education>, f: EducationField, v: string): (r: seq<Education>)
    ensures |r| == 1 && EducationValue(r[0], f) == v
    ensures |edu| > 0 ==> r[0].id == edu[0].id && r[0].field == edu[0].field
    ensures |edu| > 0 ==> forall g :: g != f ==> EducationValue(r[0], g) == EducationValue(edu[0], g)
    ensures |edu| == 0 ==> r[0].id == "1" && r[0].field == "Computer Science"
    ensures |edu| == 0 ==> forall g :: g != f ==> EducationValue(r[0], g) == ""
  {
    var base := if |edu| == 0 then Education("1", "", "", "", "Computer Science") else edu[0];
    match f
    case Degree => [base.(degree := v)]
    case Institution => [base.(institution := v)]
    case Year => [base.(year := v)]
  }

  /** An experience input's `onChange`: one record, starting from id '1',
      empty text and no skills. */
  function EditExperience(exp: seq<Experience>, f: ExperienceField, v: string): (r: seq<Experience>)
    ensures |r| == 1 && ExperienceValue(r[0], f) == v
    ensures |exp| > 0 ==> r[0].id == exp[0].id && r[0].duration == exp[0].duration
                          && r[0].description == exp[0].description && r[0].skills == exp[0].skills
    ensures |exp| > 0 ==> forall g :: g != f ==> ExperienceValue(r[0], g) == ExperienceValue(exp[0], g)
    ensures |exp| == 0 ==> r[0] == (if f == Title then Experience("1", v, "", "", "", [])
                                    else Experience("1", "", v, "", "", []))
  {
    var base := if |exp| == 0 then Experience("1", "", "", "", "", []) else exp[0];
    match f
    case Title => [base.(title := v)]
    case Company => [base.(company := v)]
  }

  /** Filling the education inputs one after another keeps every earlier
      answer: the last value typed into each input is the one kept. */
  lemma EducationEditsAccumulate(edu: seq<Education>, f: EducationField, g: EducationField, v: string, w: string)
    requires f != g
    ensures var r := EditEducation(EditEducation(edu, f, v), g, w);
            EducationValue(r[0], f) == v && EducationValue(r[0], g) == w
  {
  }

  lemma ExperienceEditsAccumulate(exp: seq<Experience>, f: ExperienceField, g: ExperienceField, v: string, w: string)
    requires f != g
    ensures var r := EditExperience(EditExperience(exp, f, v), g, w);
            ExperienceValue(r[0], f) == v && ExperienceValue(r[0], g) == w
  {
  }

  function TrimAll(parts: seq<string>): (r: seq<string>)
    ensures |r| == |parts|
    ensures forall k :: 0 <= k < |parts| ==> r[k] == Trim(parts[k])
  {
    if parts == [] then [] else [Trim(parts[0])] + TrimAll(parts[1..])
  }

  /** `value.split(',').map(x => x.trim())`: one entry per comma-separated
      piece, each of them trimmed. */
  function SplitTrimmed(s: string): (r: seq<string>)
    ensures |r| == |Split(s, ',')| && |r| >= 1
    ensures forall k :: 0 <= k < |r| ==> r[k] == Trim(Split(s, ',')[k])
  {
    TrimAll(Split(s, ','))
  }

  /** Every entry is free of commas and of surrounding whitespace. */
  lemma SplitTrimmedPieces(s: string)
    ensures forall k :: 0 <= k < |SplitTrimmed(s)| ==> ',' !in SplitTrimmed(s)[k] && Trim(SplitTrimmed(s)[k]) == SplitTrimmed(s)[k]
  {
    var parts := Split(s, ',');
    var r := SplitTrimmed(s);
    forall k | 0 <= k < |r| ensures ',' !in r[k] && Trim(r[k]) == r[k] {
      TrimmedPiece(parts[k]);
    }
  }

  lemma TrimmedPiece(p: string)
    requires ',' !in p
    ensures ',' !in Trim(p) && Trim(Trim(p)) == Trim(p)
  {
    TrimOfTrimmed(Trim(p));
    TrimIsSlice(p);
  }

  /** A trimmed string is a piece of the original, so it holds no new characters. */
  lemma TrimIsSlice(s: string)
    ensures forall c :: c in Trim(s) ==> c in s
  {
    var t := TrimStart(s);
    assert forall c :: c in TrimEnd(t) ==> c in t by {
      assert forall k :: 0 <= k < |TrimEnd(t)| ==> TrimEnd(t)[k] == t[k];
    }
    assert forall k :: 0 <= k < |t| ==> t[k] == s[|s| - |t| + k];
  }

  /** Typing back a list of trimmed, comma-free entries joined by commas
      gives the same entries. */
  lemma SplitTrimmedOfJoin(entries: seq<string>)
    requires |entries| >= 1
    requires forall k :: 0 <= k < |entries| ==> ',' !in entries[k] && Trim(entries[k]) == entries[k]
    ensures SplitTrimmed(Join(entries, ',')) == entries
  {
    SplitJoin(entries, ',');
  }

  /** The salary a typed decimal numeral yields in the finished profile. */
  lemma SalaryReadsBack(n: nat)
    ensures SalaryRange(ParseIntOrZero(DecimalString(n)), ParseIntOrZero("")) == SalaryRange(n, 0)
  {
    ParseDecimal(n);
  }

  /** The wizard's whole state, as one value. */
  datatype SetupState = SetupState(step: int, skills: seq<Skill>, currentSkill: SkillInput,
                                   education: seq<Education>, experience: seq<Experience>,
                                   preferences: PreferenceInput, careerGoals: CareerGoals)

  class JobSeekerProfileSetup {
    var step: int
    var skills: seq<Skill>
    var currentSkill: SkillInput
    var education: seq<Education>
    var experience: seq<Experience>
    var preferences: PreferenceInput
    var careerGoals: CareerGoals

    function State(): SetupState
      reads this
    {
      SetupState(step, skills, currentSkill, education, experience, preferences, careerGoals)
    }

    /** The step is one of 1..4, and education and experience hold at most one record each. */
    predicate Valid()
      reads this
    {
      1 <= step <= 4 && |education| <= 1 && |experience| <= 1
    }

    constructor ()
      ensures State() == SetupState(1, [], EmptySkillInput, [], [],
                                    PreferenceInput([], [], "", ""), CareerGoals("", ""))
      ensures Valid()
    {
      step := 1;
      skills := [];
      currentSkill := EmptySkillInput;
      education := [];
      experience := [];
      preferences := PreferenceInput([], [], "", "");
      careerGoals := CareerGoals("", "");
    }

    method SetCurrentSkill(input: SkillInput)
      modifies this
      ensures State() == old(State()).(currentSkill := input)
    {
      currentSkill := input;
    }

    /** `addSkill`: with a name and a number of years typed, one skill is
        appended under the given id (`Date.now().toString()`) and the inputs
        are cleared; otherwise nothing changes. Its button is shown only on
        step 1; the model does not check the step. */
    method AddSkill(id: string)
      modifies this
      ensures currentSkill.name == [] || currentSkill.years == []
      ensures old(currentSkill.name) != [] && old(currentSkill.years) != [] ==>
                State() == old(State()).(skills := old(skills) + [Skill(id, old(currentSkill.name), old(currentSkill.level), old(currentSkill.years), "General")],
                                         currentSkill := EmptySkillInput)
      ensures old(currentSkill.name) == [] || old(currentSkill.years) == [] ==> State() == old(State())
      ensures old(Valid()) ==> Valid()
    {
      if currentSkill.name != [] && currentSkill.years != [] {
        skills := skills + [Skill(id, currentSkill.name, currentSkill.level, currentSkill.years, "General")];
        currentSkill := EmptySkillInput;
      }
    }

    method RemoveSkill(id: string)
      modifies this
      ensures State() == old(State()).(skills := WithoutSkill(old(skills), id))
      ensures forall k :: 0 <= k < |skills| ==> skills[k].id != id
      ensures old(Valid()) ==> Valid()
    {
      WithoutSkillMembers(skills, id);
      skills := WithoutSkill(skills, id);
      assert forall k :: 0 <= k < |skills| ==> skills[k] in skills;
    }

    /** The Continue button of step 1 is disabled while no skill was added. */
    predicate ContinueDisabled()
      reads this
    {
      step == 1 && |skills| == 0
    }

    /** Continue on steps 1 to 3; step 4 has Complete Setup instead. */
    method Continue()
      modifies this
      ensures 1 <= old(step) <= 3 && !old(ContinueDisabled()) ==> State() == old(State()).(step := old(step) + 1)
      ensures !(1 <= old(step) <= 3) || old(ContinueDisabled()) ==> State() == old(State())
      ensures old(Valid()) ==> Valid()
    {
      if 1 <= step <= 3 && !ContinueDisabled() {
        step := step + 1;
      }
    }

    /** Back on steps 2 to 4. */
    method Back()
      modifies this
      ensures 2 <= old(step) <= 4 ==> State() == old(State()).(step := old(step) - 1)
      ensures !(2 <= old(step) <= 4) ==> State() == old(State())
      ensures old(Valid()) ==> Valid()
    {
      if 2 <= step <= 4 {
        step := step - 1;
      }
    }

    method SetEducation(f: EducationField, v: string)
      modifies this
      ensures State() == old(State()).(education := EditEducation(old(education), f, v))
      ensures old(Valid()) ==> Valid()
    {
      education := EditEducation(education, f, v);
    }

    method SetExperience(f: ExperienceField, v: string)
      modifies this
      ensures State() == old(State()).(experience := EditExperience(old(experience), f, v))
      ensures old(Valid()) ==> Valid()
    {
      experience := EditExperience(experience, f, v);
    }

    method SetCareerGoals(goals: CareerGoals)
      modifies this
      ensures State() == old(State()).(careerGoals := goals)
    {
      careerGoals := goals;
    }

    method SetPreferredRoles(input: string)
      modifies this
      ensures State() == old(State()).(preferences := old(preferences).(preferredRoles := SplitTrimmed(input)))
    {
      preferences := preferences.(preferredRoles := SplitTrimmed(input));
    }

    method SetLocations(input: string)
      modifies this
      ensures State() == old(State()).(preferences := old(preferences).(locations := SplitTrimmed(input)))
    {
      preferences := preferences.(locations := SplitTrimmed(input));
    }

    method SetSalaries(minSalary: string, maxSalary: string)
      modifies this
      ensures State() == old(State()).(preferences := old(preferences).(minSalary := minSalary, maxSalary := maxSalary))
    {
      preferences := preferences.(minSalary := minSalary, maxSalary := maxSalary);
    }

    /** `handleComplete`: the profile handed to `onComplete`. */
    method HandleComplete() returns (profile: JobSeekerProfile)
      ensures profile.userId == "1"
      ensures profile.education == education && profile.skills == skills && profile.experience == experience
      ensures profile.careerGoals == careerGoals
      ensures profile.preferences.preferredRoles == preferences.preferredRoles
      ensures profile.preferences.locations == preferences.locations
      ensures profile.preferences.salaryRange
              == SalaryRange(ParseIntOrZero(preferences.minSalary), ParseIntOrZero(preferences.maxSalary))
      ensures profile.preferences.workType == WorkTypes
      ensures profile.learningProgress == []
    {
      var salary := SalaryRange(ParseIntOrZero(preferences.minSalary), ParseIntOrZero(preferences.maxSalary));
      profile := JobSeekerProfile("1", education, skills, experience, careerGoals,
                                  JobPreferences(preferences.preferredRoles, preferences.locations, salary, WorkTypes),
                                  []);
    }
  }
}
