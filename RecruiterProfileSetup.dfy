/** The recruiter's three-step onboarding wizard: company, job details and
    required skills, ending in a profile with one job posting. */
module RecruiterProfileSetup {
  import opened Wrappers
  import opened Text
  import opened AppTypes
  import opened Ui

  datatype CompanyInput = CompanyInput(name: string, description: string, industry: string)

  datatype PostingInput = PostingInput(title: string, description: string, experienceLevel: string,
                                       location: string, minSalary: string, maxSalary: string, jobType: string)

  /** The required skill being typed; the experience is kept as typed. */
  datatype JobSkillInput = JobSkillInput(name: string, priority: SkillPriority, experience: string)

  const EmptyCompany := CompanyInput("", "", "")
  const EmptyPosting := PostingInput("", "", "", "", "", "", "Full-time")
  const EmptySkillInput := JobSkillInput("", MustHave, "")

  /** `requiredSkills.filter((_, i) => i !== index)`: position `index` removed,
      the others kept in order; an index outside the list removes nothing. */
  function WithoutIndex(skills: seq<JobSkill>, index: int): (r: seq<JobSkill>)
    ensures 0 <= index < |skills| ==> |r| == |skills| - 1
    ensures 0 <= index < |skills| ==> forall k :: 0 <= k < |r| ==> r[k] == (if k < index then skills[k] else skills[k + 1])
    ensures !(0 <= index < |skills|) ==> r == skills
  {
    if 0 <= index < |skills| then skills[..index] + skills[index + 1..] else skills
  }

  /** Removing the last position after an append gives the list back. */
  lemma RemoveLastAdded(skills: seq<JobSkill>, s: JobSkill)
    ensures WithoutIndex(skills + [s], |skills|) == skills
  {
    assert (skills + [s])[..|skills|] == skills;
  }

  /** The priority badge of a required skill. */
  function SkillBadge(s: JobSkill): (v: BadgeVariant)
    ensures v == Default <==> s.priority == MustHave
    ensures v == Default || v == Secondary
  {
    if s.priority == MustHave then Default else Secondary
  }

  /** The profile built from the inputs: one posting with id '1', posted on
      `today` (the date part of `new Date().toISOString()`). */
  function BuildProfile(company: CompanyInput, posting: PostingInput, skills: seq<JobSkill>, today: string): (p: RecruiterProfile)
    ensures p.userId == "2"
    ensures p.company == company.name && p.companyDescription == company.description && p.industry == company.industry
    ensures |p.jobPostings| == 1 && p.jobPostings[0].id == "1"
    ensures p.jobPostings[0].requiredSkills == skills
    ensures p.jobPostings[0].title == posting.title && p.jobPostings[0].description == posting.description
    ensures p.jobPostings[0].experienceLevel == posting.experienceLevel && p.jobPostings[0].location == posting.location
    ensures p.jobPostings[0].jobType == posting.jobType && p.jobPostings[0].posted == today
    ensures p.jobPostings[0].salaryRange == SalaryRange(ParseIntOrZero(posting.minSalary), ParseIntOrZero(posting.maxSalary))
  {
    var salary := SalaryRange(ParseIntOrZero(posting.minSalary), ParseIntOrZero(posting.maxSalary));
    RecruiterProfile("2", company.name, company.description, company.industry,
                     [JobPosting("1", posting.title, posting.description, skills, posting.experienceLevel,
                                 posting.location, salary, posting.jobType, today)])
  }

  /** Salaries typed as decimal numerals read back exactly; an empty input gives 0. */
  lemma PostingSalaryReadsBack(company: CompanyInput, posting: PostingInput, skills: seq<JobSkill>, today: string, lo: nat)
    requires posting.minSalary == DecimalString(lo) && posting.maxSalary == ""
    ensures BuildProfile(company, posting, skills, today).jobPostings[0].salaryRange == SalaryRange(lo, 0)
  {
    ParseDecimal(lo);
  }

  datatype SetupState = SetupState(step: int, company: CompanyInput, jobPosting: PostingInput,
                                   requiredSkills: seq<JobSkill>, currentSkill: JobSkillInput)

  class RecruiterProfileSetup {
    var step: int
    var company: CompanyInput
    var jobPosting: PostingInput
    var requiredSkills: seq<JobSkill>
    var currentSkill: JobSkillInput

    function State(): SetupState
      reads this
    {
      SetupState(step, company, jobPosting, requiredSkills, currentSkill)
    }

    predicate Valid()
      reads this
    {
      1 <= step <= 3
    }

    constructor ()
      ensures State() == SetupState(1, EmptyCompany, EmptyPosting, [], EmptySkillInput)
      ensures Valid()
    {
      step := 1;
      company := EmptyCompany;
      jobPosting := EmptyPosting;
      requiredSkills := [];
      currentSkill := EmptySkillInput;
    }

    method SetCompany(c: CompanyInput)
      modifies this
      ensures State() == old(State()).(company := c)
    {
      company := c;
    }

    method SetJobPosting(p: PostingInput)
      modifies this
      ensures State() == old(State()).(jobPosting := p)
    {
      jobPosting := p;
    }

    method SetCurrentSkill(s: JobSkillInput)
      modifies this
      ensures State() == old(State()).(currentSkill := s)
    {
      currentSkill := s;
    }

    /** `addSkill`: with a name and an experience typed, the skill is appended
        and the inputs go back to an empty name, 'must-have' and no experience;
        otherwise nothing changes. Its button is shown only on step 3; the
        model does not check the step. */
    method AddSkill()
      modifies this
      ensures old(currentSkill.name) != [] && old(currentSkill.experience) != [] ==>
                State() == old(State()).(requiredSkills := old(requiredSkills) + [JobSkill(old(currentSkill.name), old(currentSkill.priority), old(currentSkill.experience))],
                                         currentSkill := EmptySkillInput)
      ensures old(currentSkill.name) == [] || old(currentSkill.experience) == [] ==> State() == old(State())
    {
      if currentSkill.name != [] && currentSkill.experience != [] {
        requiredSkills := requiredSkills + [JobSkill(currentSkill.name, currentSkill.priority, currentSkill.experience)];
        currentSkill := EmptySkillInput;
      }
    }

    method RemoveSkill(index: int)
      modifies this
      ensures State() == old(State()).(requiredSkills := WithoutIndex(old(requiredSkills), index))
    {
      requiredSkills := WithoutIndex(requiredSkills, index);
    }

    /** Continue is disabled on step 1 without a company name and on step 2
        without a job title. */
    predicate ContinueDisabled()
      reads this
    {
      (step == 1 && company.name == []) || (step == 2 && jobPosting.title == [])
    }

    /** Complete Setup is disabled while no skill is required. */
    predicate CompleteDisabled()
      reads this
    {
      |requiredSkills| == 0
    }

    method Continue()
      modifies this
      ensures 1 <= old(step) <= 2 && !old(ContinueDisabled()) ==> State() == old(State()).(step := old(step) + 1)
      ensures !(1 <= old(step) <= 2) || old(ContinueDisabled()) ==> State() == old(State())
      ensures old(Valid()) ==> Valid()
    {
      if 1 <= step <= 2 && !ContinueDisabled() {
        step := step + 1;
      }
    }

    method Back()
      modifies this
      ensures 2 <= old(step) <= 3 ==> State() == old(State()).(step := old(step) - 1)
      ensures !(2 <= old(step) <= 3) ==> State() == old(State())
      ensures old(Valid()) ==> Valid()
    {
      if 2 <= step <= 3 {
        step := step - 1;
      }
    }

    /** Pressing Complete Setup: nothing while it is disabled, otherwise the
        profile of `handleComplete`. Its button is shown only on step 3; the
        model does not check the step. */
    method Complete(today: string) returns (profile: Option<RecruiterProfile>)
      ensures profile.None? <==> CompleteDisabled()
      ensures profile.Some? ==> profile.value == BuildProfile(company, jobPosting, requiredSkills, today)
      ensures profile.Some? ==> |profile.value.jobPostings[0].requiredSkills| >= 1
    {
      if CompleteDisabled() {
        profile := None;
      } else {
        profile := Some(BuildProfile(company, jobPosting, requiredSkills, today));
      }
    }
  }
}
