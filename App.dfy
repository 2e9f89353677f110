/** The application shell: the state the top-level component keeps, its
    transition handlers, and the choice of the screen to render. */
module App {
  import opened Wrappers
  import opened AuthTypes
  import opened AppTypes
  import opened Storage
  import opened AuthService

  /** The authentication screen: none (landing), or a login or sign-up form for a role. */
  datatype AuthScreen = Landing | Login(role: Role) | Signup(role: Role)

  /** What the shell renders. */
  datatype View =
    | LoginView(role: Role)
    | SignupView(role: Role)
    | LandingView
    | JobSeekerSetupView
    | RecruiterSetupView
    | JobSeekerDashboardView(seeker: JobSeekerProfile)
    | RecruiterDashboardView(recruiter: RecruiterProfile)
    | LoadingView

  /** The render function's cascade: auth forms first, then the landing page
      without a user type, then setup without a profile, then the dashboard
      whose profile is loaded, and "Loading..." otherwise. */
  function SelectView(screen: AuthScreen, userType: Option<Role>, hasProfile: bool,
                      seeker: Option<JobSeekerProfile>, recruiter: Option<RecruiterProfile>): (v: View)
    ensures screen.Login? ==> v == LoginView(screen.role)
    ensures screen.Signup? ==> v == SignupView(screen.role)
    ensures v == LandingView <==> screen == Landing && userType.None?
    ensures v == JobSeekerSetupView <==> screen == Landing && userType == Some(JobSeeker) && !hasProfile
    ensures v == RecruiterSetupView <==> screen == Landing && userType == Some(Recruiter) && !hasProfile
    ensures v.JobSeekerDashboardView? <==>
              screen == Landing && userType == Some(JobSeeker) && hasProfile && seeker.Some?
    ensures v.JobSeekerDashboardView? ==> Some(v.seeker) == seeker
    ensures v.RecruiterDashboardView? <==>
              screen == Landing && userType == Some(Recruiter) && hasProfile && recruiter.Some?
    ensures v.RecruiterDashboardView? ==> Some(v.recruiter) == recruiter
  {
    match screen
    case Login(r) => LoginView(r)
    case Signup(r) => SignupView(r)
    case Landing =>
      match userType
      case None => LandingView
      case Some(JobSeeker) =>
        if !hasProfile then JobSeekerSetupView
        else if seeker.Some? then JobSeekerDashboardView(seeker.value)
        else LoadingView
      case Some(Recruiter) =>
        if !hasProfile then RecruiterSetupView
        else if recruiter.Some? then RecruiterDashboardView(recruiter.value)
        else LoadingView
  }

  /** A dashboard is only ever shown to a user type that has a profile, and
      it shows that type's own profile. */
  lemma DashboardNeedsProfile(screen: AuthScreen, userType: Option<Role>, hasProfile: bool,
                              seeker: Option<JobSeekerProfile>, recruiter: Option<RecruiterProfile>)
    ensures var v := SelectView(screen, userType, hasProfile, seeker, recruiter);
            (v.JobSeekerDashboardView? || v.RecruiterDashboardView?) ==>
              userType.Some? && hasProfile && screen == Landing
              && (v.JobSeekerDashboardView? <==> userType.value == JobSeeker)
  {
  }

  class App {
    const mockJobSeekerProfile: JobSeekerProfile
    const mockRecruiterProfile: RecruiterProfile
    var userType: Option<Role>
    var hasProfile: bool
    var jobSeekerProfile: Option<JobSeekerProfile>
    var recruiterProfile: Option<RecruiterProfile>
    var session: Option<AuthSession>
    var screen: AuthScreen

    /** The initial state: the persisted session (if any) and the landing screen. */
    constructor (st: WebStorage, mockSeeker: JobSeekerProfile, mockRecruiter: RecruiterProfile)
      ensures mockJobSeekerProfile == mockSeeker && mockRecruiterProfile == mockRecruiter
      ensures session == GetCurrentSession(st) && screen == Landing
      ensures userType == None && !hasProfile && jobSeekerProfile == None && recruiterProfile == None
    {
      mockJobSeekerProfile := mockSeeker;
      mockRecruiterProfile := mockRecruiter;
      session := LoadSession(st.local, st.tab);
      screen := Landing;
      userType := None;
      hasProfile := false;
      jobSeekerProfile := None;
      recruiterProfile := None;
    }

    function View(): View
      reads this
    {
      SelectView(screen, userType, hasProfile, jobSeekerProfile, recruiterProfile)
    }

    /** `handleAuthSuccess`: keep the session, go to the landing screen, take
        the user type from the session and the profile flag from the ledger.
        A returning user gets the role's demo profile and its dashboard; a
        first login clears both profiles and shows the role's setup. */
    method HandleAuthSuccess(st: WebStorage, s: AuthSession)
      modifies this
      ensures var completed := GetProfileCompleted(st.local, s.user.role, s.user.email);
              && session == Some(s) && screen == Landing && userType == Some(s.user.role)
              && hasProfile == completed
              && (completed && s.user.role == JobSeeker ==>
                    jobSeekerProfile == Some(mockJobSeekerProfile) && recruiterProfile == old(recruiterProfile)
                    && View() == JobSeekerDashboardView(mockJobSeekerProfile))
              && (completed && s.user.role == Recruiter ==>
                    recruiterProfile == Some(mockRecruiterProfile) && jobSeekerProfile == old(jobSeekerProfile)
                    && View() == RecruiterDashboardView(mockRecruiterProfile))
              && (!completed ==>
                    jobSeekerProfile == None && recruiterProfile == None
                    && View() == (if s.user.role == JobSeeker then JobSeekerSetupView else RecruiterSetupView))
    {
      session := Some(s);
      screen := Landing;
      userType := Some(s.user.role);
      var completed := GetProfileCompleted(st.local, s.user.role, s.user.email);
      hasProfile := completed;
      if completed {
        if s.user.role == JobSeeker {
          jobSeekerProfile := Some(mockJobSeekerProfile);
          assert View() == JobSeekerDashboardView(mockJobSeekerProfile);
        } else {
          recruiterProfile := Some(mockRecruiterProfile);
          assert View() == RecruiterDashboardView(mockRecruiterProfile);
        }
      } else {
        jobSeekerProfile := None;
        recruiterProfile := None;
        assert View() == (if s.user.role == JobSeeker then JobSeekerSetupView else RecruiterSetupView);
      }
    }

    /** `handleSignupSuccess`: from the sign-up form of a role to the login
        form of the same role; any other screen stays. */
    method HandleSignupSuccess()
      modifies this
      ensures old(screen).Signup? ==> screen == Login(old(screen).role)
      ensures !old(screen).Signup? ==> screen == old(screen)
      ensures session == old(session) && userType == old(userType) && hasProfile == old(hasProfile)
      ensures jobSeekerProfile == old(jobSeekerProfile) && recruiterProfile == old(recruiterProfile)
    {
      if screen.Signup? {
        screen := Login(screen.role);
      }
    }

    /** The landing page's and the forms' navigation callbacks. */
    method ShowLogin(role: Role)
      modifies this
      ensures screen == Login(role) && View() == LoginView(role)
      ensures session == old(session) && userType == old(userType) && hasProfile == old(hasProfile)
      ensures jobSeekerProfile == old(jobSeekerProfile) && recruiterProfile == old(recruiterProfile)
    {
      screen := Login(role);
    }

    method ShowSignup(role: Role)
      modifies this
      ensures screen == Signup(role) && View() == SignupView(role)
      ensures session == old(session) && userType == old(userType) && hasProfile == old(hasProfile)
      ensures jobSeekerProfile == old(jobSeekerProfile) && recruiterProfile == old(recruiterProfile)
    {
      screen := Signup(role);
    }

    /** `handleUserTypeSelect`. */
    method HandleUserTypeSelect(t: Role)
      modifies this
      ensures userType == Some(t)
      ensures session == old(session) && screen == old(screen) && hasProfile == old(hasProfile)
      ensures jobSeekerProfile == old(jobSeekerProfile) && recruiterProfile == old(recruiterProfile)
    {
      userType := Some(t);
    }

    /** `handleDemoMode`: the role's demo profile, no session; from the
        landing screen it opens the role's dashboard. */
    method HandleDemoMode(t: Role)
      modifies this
      ensures userType == Some(t) && hasProfile
      ensures t == JobSeeker ==> jobSeekerProfile == Some(mockJobSeekerProfile) && recruiterProfile == old(recruiterProfile)
      ensures t == Recruiter ==> recruiterProfile == Some(mockRecruiterProfile) && jobSeekerProfile == old(jobSeekerProfile)
      ensures session == old(session) && screen == old(screen)
      ensures screen == Landing ==>
                View() == (if t == JobSeeker then JobSeekerDashboardView(mockJobSeekerProfile)
                           else RecruiterDashboardView(mockRecruiterProfile))
    {
      userType := Some(t);
      if t == JobSeeker {
        jobSeekerProfile := Some(mockJobSeekerProfile);
      } else {
        recruiterProfile := Some(mockRecruiterProfile);
      }
      hasProfile := true;
    }

    /** `handleJobSeekerProfileComplete`: the ledger is written only when a
        session exists. */
    method HandleJobSeekerProfileComplete(st: WebStorage, profile: JobSeekerProfile)
      modifies this, st
      ensures jobSeekerProfile == Some(profile) && hasProfile
      ensures session == old(session) && screen == old(screen) && userType == old(userType)
      ensures recruiterProfile == old(recruiterProfile)
      ensures old(session).Some? ==>
                st.local == WithProfileCompleted(old(st.local), JobSeeker, old(session).value.user.email, true)
                && GetProfileCompleted(st.local, JobSeeker, old(session).value.user.email)
      ensures old(session).None? ==> st.local == old(st.local)
      ensures st.tab == old(st.tab)
    {
      jobSeekerProfile := Some(profile);
      if session.Some? {
        st.SetProfileCompleted(JobSeeker, session.value.user.email, true);
      }
      hasProfile := true;
    }

    /** `handleRecruiterProfileComplete`, the same for the recruiter role. */
    method HandleRecruiterProfileComplete(st: WebStorage, profile: RecruiterProfile)
      modifies this, st
      ensures recruiterProfile == Some(profile) && hasProfile
      ensures session == old(session) && screen == old(screen) && userType == old(userType)
      ensures jobSeekerProfile == old(jobSeekerProfile)
      ensures old(session).Some? ==>
                st.local == WithProfileCompleted(old(st.local), Recruiter, old(session).value.user.email, true)
                && GetProfileCompleted(st.local, Recruiter, old(session).value.user.email)
      ensures old(session).None? ==> st.local == old(st.local)
      ensures st.tab == old(st.tab)
    {
      recruiterProfile := Some(profile);
      if session.Some? {
        st.SetProfileCompleted(Recruiter, session.value.user.email, true);
      }
      hasProfile := true;
    }

    /** `handleLogout`: clear the persisted session and return to the
        initial state. */
    method HandleLogout(st: WebStorage)
      modifies this, st
      ensures GetCurrentSession(st) == None
      ensures st.local == old(st.local) - {SessionKey} && st.tab == old(st.tab) - {SessionKey}
      ensures session == None && screen == Landing && userType == None && !hasProfile
      ensures jobSeekerProfile == None && recruiterProfile == None
      ensures View() == LandingView
    {
      Logout(st);
      session := None;
      screen := Landing;
      userType := None;
      hasProfile := false;
      jobSeekerProfile := None;
      recruiterProfile := None;
    }

    /** The render-time restore: with no user type but a session, take the
        user type from the session and the profile flag from the ledger,
        loading the demo profile when it is set. Profiles already held are
        kept when the flag is not set. */
    method RestoreSession(st: WebStorage)
      modifies this
      ensures old(userType).None? && old(session).Some? ==>
                userType == Some(old(session).value.user.role)
                && hasProfile == GetProfileCompleted(st.local, old(session).value.user.role, old(session).value.user.email)
      ensures old(userType).None? && old(session).Some? && hasProfile && userType == Some(JobSeeker) ==>
                jobSeekerProfile == Some(mockJobSeekerProfile) && recruiterProfile == old(recruiterProfile)
      ensures old(userType).None? && old(session).Some? && hasProfile && userType == Some(Recruiter) ==>
                recruiterProfile == Some(mockRecruiterProfile) && jobSeekerProfile == old(jobSeekerProfile)
      ensures !hasProfile ==> jobSeekerProfile == old(jobSeekerProfile) && recruiterProfile == old(recruiterProfile)
      ensures !(old(userType).None? && old(session).Some?) ==>
                userType == old(userType) && hasProfile == old(hasProfile)
                && jobSeekerProfile == old(jobSeekerProfile) && recruiterProfile == old(recruiterProfile)
      ensures session == old(session) && screen == old(screen)
    {
      if userType.Some? || session.None? {
        return;
      }
      var u := session.value.user;
      var completed := GetProfileCompleted(st.local, u.role, u.email);
      var seeker, recruiter := jobSeekerProfile, recruiterProfile;
      if completed && u.role == JobSeeker {
        seeker := Some(mockJobSeekerProfile);
      }
      if completed && u.role == Recruiter {
        recruiter := Some(mockRecruiterProfile);
      }
      userType, hasProfile, jobSeekerProfile, recruiterProfile := Some(u.role), completed, seeker, recruiter;
    }
  }

  /** Start-up with a persisted session whose profile is complete opens the
      role's dashboard; with an incomplete profile, the role's setup. */
  method StartUp(st: WebStorage, mockSeeker: JobSeekerProfile, mockRecruiter: RecruiterProfile) returns (app: App)
    ensures fresh(app)
    ensures GetCurrentSession(st).None? ==> app.View() == LandingView
    ensures GetCurrentSession(st).Some? ==>
              var u := GetCurrentSession(st).value.user;
              app.View() == (if !GetProfileCompleted(st.local, u.role, u.email) then
                               (if u.role == JobSeeker then JobSeekerSetupView else RecruiterSetupView)
                             else if u.role == JobSeeker then JobSeekerDashboardView(mockSeeker)
                             else RecruiterDashboardView(mockRecruiter))
  {
    app := new App(st, mockSeeker, mockRecruiter);
    app.RestoreSession(st);
  }
}
