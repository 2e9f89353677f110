/** The application's domain records: profiles, job postings and the match
    records the dashboards present. Numbers the source parses with
    `parseFloat` (years of experience) are kept as the text the user typed. */
module AppTypes {
  import opened Wrappers

  datatype SkillLevel = Beginner | Intermediate | Advanced | Expert

  datatype Skill = Skill(id: string, name: string, level: SkillLevel, yearsOfExperience: string, category: string)

  datatype Education = Education(id: string, degree: string, institution: string, year: string, field: string)

  datatype Experience = Experience(id: string, title: string, company: string, duration: string,
                                   description: string, skills: seq<string>)

  datatype CareerGoals = CareerGoals(shortTerm: string, longTerm: string)

  datatype SalaryRange = SalaryRange(min: int, max: int)

  datatype JobPreferences = JobPreferences(preferredRoles: seq<string>, locations: seq<string>,
                                           salaryRange: SalaryRange, workType: seq<string>)

  datatype CourseStatus = NotStarted | InProgress | Completed

  datatype CourseProgress = CourseProgress(courseId: string, courseTitle: string, platform: string,
                                           status: CourseStatus, progress: int,
                                           startedDate: Option<string>, completedDate: Option<string>,
                                           skillsImproved: seq<string>)

  datatype JobSeekerProfile = JobSeekerProfile(userId: string, education: seq<Education>, skills: seq<Skill>,
                                               experience: seq<Experience>, careerGoals: CareerGoals,
                                               preferences: JobPreferences, learningProgress: seq<CourseProgress>)

  datatype SkillPriority = MustHave | GoodToHave

  datatype JobSkill = JobSkill(name: string, priority: SkillPriority, minimumExperience: string)

  datatype JobPosting = JobPosting(id: string, title: string, description: string, requiredSkills: seq<JobSkill>,
                                   experienceLevel: string, location: string, salaryRange: SalaryRange,
                                   jobType: string, posted: string)

  datatype RecruiterProfile = RecruiterProfile(userId: string, company: string, companyDescription: string,
                                               industry: string, jobPostings: seq<JobPosting>)

  datatype GapPriority = Critical | Optional

  datatype SkillGap = SkillGap(skillName: string, priority: GapPriority, currentLevel: Option<string>,
                               requiredLevel: string, estimatedLearningTime: string)

  /** How one job matches the job seeker (a job seeker's view). */
  datatype SkillMatch = SkillMatch(jobId: string, jobTitle: string, company: string, matchPercentage: int,
                                   strengthAreas: seq<string>, missingSkills: seq<SkillGap>,
                                   weakSkills: seq<SkillGap>, readinessScore: int)

  /** How one candidate matches a posting (a recruiter's view). */
  datatype CandidateMatch = CandidateMatch(candidateId: string, candidateName: string, jobId: string,
                                           jobTitle: string, matchPercentage: int, readinessScore: int,
                                           strengthAreas: seq<string>, missingSkills: seq<string>)

  datatype CareerStep = CareerStep(role: string, readiness: int, skillsNeeded: seq<string>, recommendedAction: string)

  datatype CareerPath = CareerPath(currentRole: string, targetRole: string, readiness: int,
                                   intermediateSteps: seq<CareerStep>, estimatedTimeline: string)
}
