# Skill-matching portal: verified model of the client-side core

This is a Dafny model of the logic in a job-matching web application. The
application has two kinds of users:

- **Job seekers** upload a resume, see how well they match job postings, see
  their critical skill gaps, and follow a career path and a learning tracker.
- **Recruiters** set up a company and a job posting, see the candidates ranked
  by match, and compare selected candidates side by side.

Modelled:

- **Local account store.** Users, the session and a profile-completion ledger
  are kept in the browser's durable store and its tab store. Passwords are
  kept as hex digests.
- **Sign-up and login.** Login remembers the session in one store or the other
  ("remember me"). The login form offers a demo password reset.
- **The shell's view state machine** and the pure choice of the screen to show.
- **The presentation rules of the dashboards and cards:**
  - rounded averages and high-match counts;
  - de-duplication of critical gaps by first occurrence;
  - the best candidate as the earliest maximum;
  - threshold tiers;
  - "+k more" truncation;
  - a toggle-membership selection list.
- **The two onboarding wizards and the resume upload dialog.**

Where the source keeps mutable state (browser storage, React component state),
the model is a `class` whose methods state their whole new state. Pure helpers
are functions, and lemmas relate them.

One module corresponds to each source file. Shared helpers:

| Module | Contents |
|---|---|
| `Wrappers` | `Option`, `Result` |
| `Numbers` | `Math.round` of a quotient, `Math.min` |
| `Lists` | slicing, first index, removal, de-duplication |
| `Text` | ASCII trim and lower case, split and join, `parseInt(…) \|\| 0`, decimal numerals |
| `AuthTypes`, `AppTypes`, `Ui` | the record and enumeration shapes of the type declarations |

## Where the model follows the code rather than its comment

**Overall readiness.** The comment at
`src/app/components/JobSeekerDashboard.tsx:42` calls the overall readiness
score the "average of top 3 job matches". The code at lines 43-45 does
something different:

- it takes the first three matches in list order, with no sorting;
- it always divides by three, so fewer than three matches lower the score.

The model follows the code. `JobSeekerDashboard.SingleMatchDividedByThree`
shows that one match of 90 scores 30.

## Model

| member | source | states |
|---|---|---|
| Storage.KeysDistinct | frontend/src/app/auth/storage.ts:3-5 | the users, session and session-mode keys, and the profile ledger key of line 63, are four different storage slots |
| Storage.GetItem | frontend/src/app/auth/storage.ts:9-16 | a read finds a value exactly when the key is present, and returns what was stored there |
| Storage.SafeJsonParse | frontend/src/app/auth/storage.ts:9-16 | an absent value or text that does not parse gives the fallback; text that parses gives its parsed value |
| Storage.LoadUsers | frontend/src/app/auth/storage.ts:18-20 | nothing stored or corrupt text gives the empty list; a stored user list is returned as stored |
| Storage.GetSessionStorage | frontend/src/app/auth/storage.ts:36-38 | the mode is 'local' when the flag was never set or its text does not parse, and otherwise the stored mode |
| Storage.LoadSession | frontend/src/app/auth/storage.ts:26-32 | the session is read from the tab store in 'session' mode and from the durable store otherwise; an absent key or text that does not parse gives none |
| Storage.ToPublicUser | frontend/src/app/auth/storage.ts:58-61 | id, role, name and email are kept; the password hash is dropped |
| Storage.ProfileKeyInjective | frontend/src/app/auth/storage.ts:67-69 | two ledger keys are equal exactly when the roles and the normalized emails are equal |
| Storage.ProfileStatus | frontend/src/app/auth/storage.ts:71-74 | a stored ledger reads back as stored; with no ledger, or text that does not parse, the ledger is empty |
| Storage.GetProfileCompleted | frontend/src/app/auth/storage.ts:71-74 | a key that was never set reads as not completed |
| Storage.SetThenGetProfileCompleted | frontend/src/app/auth/storage.ts:67-80 | after setting (role, email) to b, every email with the same normalization reads b |
| Storage.SetProfileCompletedKeepsOthers | frontend/src/app/auth/storage.ts:67-80 | setting one ledger key leaves every other (role, normalized email) unchanged |
| Storage.SessionReadFromModeStore | frontend/src/app/auth/storage.ts:26-51 | a session written to the store the mode selects reads back; in local mode a write to the tab store is not seen |
| Storage.RestartKeepsOnlyDurableSession | frontend/src/app/auth/storage.ts:26-32 | losing the tab store keeps a 'local' session and loses a 'session' one |
| Storage.WebStorage.constructor | frontend/src/app/auth/storage.ts:3-5 | the two stores start with the given contents |
| Storage.WebStorage.SaveUsers | frontend/src/app/auth/storage.ts:22-24 | only the users key changes, and loading the users afterwards gives the saved list |
| Storage.WebStorage.SetSessionStorage | frontend/src/app/auth/storage.ts:40-42 | only the mode key changes, and reading the mode afterwards gives the mode just set |
| Storage.WebStorage.SaveSession | frontend/src/app/auth/storage.ts:44-51 | only the store the mode chooses is written; the other store is left as it was; loading the session afterwards gives it back |
| Storage.WebStorage.ClearSession | frontend/src/app/auth/storage.ts:53-56 | the session key leaves both stores; loading then gives none whatever the mode; clearing twice equals clearing once; users, mode and ledger are untouched |
| Storage.WebStorage.SetProfileCompleted | frontend/src/app/auth/storage.ts:76-80 | the ledger entry is set; users, mode and session are untouched |
| Text.Trim | src/app/auth/authService.ts:8-10 | the result has no ASCII white space at either end and is no longer than the input |
| Text.TrimStart | src/app/auth/authService.ts:8-10 | only leading white space is dropped: the result is a suffix of the input, what was dropped is all white space, and the result does not start with white space |
| Text.TrimEnd | src/app/auth/authService.ts:8-10 | only trailing white space is dropped: the result is a prefix of the input, what was dropped is all white space, and the result does not end with white space |
| Text.TrimIgnoresPadding | src/app/auth/authService.ts:8-10 | white space added at either end does not change the trimmed string |
| Text.NormalizeEmail | src/app/auth/authService.ts:8-10 | the normalized email is no longer than the input and neither starts nor ends with white space |
| Text.ToLower | src/app/auth/authService.ts:8-10 | the length is kept and every ASCII capital is mapped to its small letter |
| Text.NormalizeIgnoresCase | src/app/auth/authService.ts:8-10 | emails that differ only in letter case normalize equal |
| Text.NormalizeIgnoresPadding | src/app/auth/authService.ts:8-10 | emails that differ only in surrounding white space normalize equal |
| Text.NormalizeIdempotent | src/app/auth/authService.ts:8-10 | normalizing a normalized email changes nothing |
| Text.TrimOfTrimmed | src/app/auth/authService.ts:8-10 | trimming is idempotent |
| Text.TrimEmptyIffAllSpace | src/app/auth/authService.ts:33 | a string trims to empty exactly when it is all white space |
| AuthService.HexDigit | src/app/auth/authService.ts:18-19 | a nibble becomes one lowercase hex character |
| AuthService.HexValue | src/app/auth/authService.ts:18-19 | reading a lowercase hex character gives the nibble it encodes |
| AuthService.ByteHex | src/app/auth/authService.ts:18-19 | a byte becomes two lowercase hex characters whose value is the byte (`padStart(2, '0')`) |
| AuthService.HexEncode | src/app/auth/authService.ts:18-19 | the output is two lowercase hex characters per byte |
| AuthService.HexRoundTrip | src/app/auth/authService.ts:18-19 | decoding the hex text gives back the bytes |
| AuthService.HexEncodeInjective | src/app/auth/authService.ts:18-19 | two digests have the same hex text exactly when they are equal |
| AuthService.Sha256Hex | src/app/auth/authService.ts:12-20 | lowercase hex, two characters per digest byte; it decodes to the digest |
| AuthService.FindUser | src/app/auth/authService.ts:67 | the index of the first user with that normalized email and role, or none when no user has them |
| AuthService.FindUserIgnoresOtherFields | src/app/auth/authService.ts:67 | the lookup depends only on the users' emails and roles |
| AuthService.AppendKeepsPairUnique | src/app/auth/authService.ts:36-48 | appending a user whose (email, role) pair is new keeps every pair unique |
| AuthService.PairUnique | src/app/auth/authService.ts:36 | holds exactly when no two positions of the user list carry the same (email, role) pair |
| AuthService.NewUser | src/app/auth/authService.ts:40-47 | the public part of the new user is the given id, the role, the trimmed name and the normalized email; the stored hash decodes to the digest of the password |
| AuthService.GetCurrentSession | src/app/auth/authService.ts:22-24 | nothing stored in either store gives no session; a session found was stored under the session key of the store the session mode selects |
| AuthService.SignUpError | src/app/auth/authService.ts:33-38 | the errors are checked in order: a blank name, an empty normalized email, an empty password, then an existing pair; there is no error exactly when all four checks pass |
| AuthService.OtherRoleStillFree | src/app/auth/authService.ts:36-38 | an email registered only under the other role can still sign up |
| AuthService.Authenticate | src/app/auth/authService.ts:67-70 | a failure always carries the one message 'Invalid email or password.'; a success is a user with that email, role and hash; an unknown pair fails |
| AuthService.AuthenticateIff | src/app/auth/authService.ts:67-70 | with unique pairs, login succeeds exactly when the pair exists and its stored hash equals the given one |
| AuthService.LoginOutcome | src/app/auth/authService.ts:63-79 | login succeeds exactly when the normalized email, the role and the password's hash authenticate; the session then holds `toPublicUser` of the matching user, stamped with the given time; a failure has the single message |
| AuthService.SignUp | src/app/auth/authService.ts:30-52 | on an error nothing is written; on success exactly one user is appended with the trimmed name, the normalized email, the role and the hash; earlier users are unchanged; the ledger entry is false; the result is the public user; pair uniqueness is preserved; the session is untouched |
| AuthService.LoginWithOptions | src/app/auth/authService.ts:58-80 | on failure no key is written; on success the mode is 'local' exactly when rememberMe is set, the session holds the public user, and the current session is then that session |
| AuthService.Login | src/app/auth/authService.ts:54-56 | it is `loginWithOptions` with rememberMe set: on success the durable store gains the 'local' flag and the session, the tab store, the users and the ledger are unchanged; on failure nothing is written |
| AuthService.Logout | src/app/auth/authService.ts:26-28 | the session key leaves both stores, so there is no current session whatever the mode; users are untouched |
| LoginForm.ResetPassword | src/app/components/auth/LoginForm.tsx:65-71 | only the chosen user's hash changes; its other fields, the other users and the length of the list are kept |
| LoginForm.ResetThenLogin | src/app/components/auth/LoginForm.tsx:59-71 | after a reset, logging in with the demo password for that email and role succeeds |
| LoginForm.ResetRejectsOtherPassword | src/app/components/auth/LoginForm.tsx:65-71 | after a reset, any password whose digest differs from the demo password's fails, the old one included |
| LoginForm.ResetKeepsPairUnique | src/app/components/auth/LoginForm.tsx:58-71 | a reset keeps every (email, role) pair unique |
| LoginForm.LoginForm.constructor | src/app/components/auth/LoginForm.tsx:22 | empty inputs, rememberMe ticked, no messages, not loading |
| LoginForm.LoginForm.SetEmail | src/app/components/auth/LoginForm.tsx:22 | only the email input changes |
| LoginForm.LoginForm.SetPassword | src/app/components/auth/LoginForm.tsx:22 | only the password input changes |
| LoginForm.LoginForm.SetRememberMe | src/app/components/auth/LoginForm.tsx:22 | only the checkbox changes |
| LoginForm.LoginForm.OnSubmit | src/app/components/auth/LoginForm.tsx:32-45 | the login uses the form's rememberMe; on success the session is returned and the stores are exactly those `loginWithOptions` leaves (the flag, the session in the chosen store, the users and ledger unchanged); otherwise nothing is written and the error shows the login's message; the info is cleared and loading ends |
| LoginForm.LoginForm.OnForgotPassword | src/app/components/auth/LoginForm.tsx:48-71 | a blank email gives an error and writes nothing; an unknown pair gives 'No account found for this email and role.' and writes nothing; otherwise the first matching user's hash becomes the demo password's; session and mode untouched; pair uniqueness preserved |
| App.SelectView | src/app/App.tsx:111-180 | the login or sign-up form wins whatever the rest is; with no auth screen the choice is landing, then setup, then dashboard; each case holds exactly under its condition |
| App.DashboardNeedsProfile | src/app/App.tsx:159-174 | a dashboard is only shown to a user type that has a profile |
| App.App.constructor | src/app/App.tsx:27-33 | the persisted session, the landing screen, no user type, no profile |
| App.App.HandleAuthSuccess | src/app/App.tsx:35-52 | landing screen; the user type is the session's role; hasProfile comes from the ledger; a completed role gets its demo profile, otherwise both profiles are cleared; the view is then the role's dashboard or its setup |
| App.App.HandleSignupSuccess | src/app/App.tsx:54-60 | the sign-up screen for a role becomes the login screen for that role; any other screen is unchanged |
| App.App.ShowLogin | src/app/App.tsx:152 | the login form for the role is shown; nothing else changes |
| App.App.ShowSignup | src/app/App.tsx:153 | the sign-up form for the role is shown; nothing else changes |
| App.App.HandleUserTypeSelect | src/app/App.tsx:62-64 | only the user type changes |
| App.App.HandleDemoMode | src/app/App.tsx:66-74 | the role and its demo profile are set, with hasProfile true; no session is created |
| App.App.HandleJobSeekerProfileComplete | src/app/App.tsx:76-80 | the profile is set and hasProfile becomes true; the ledger is written for the session email only when a session exists |
| App.App.HandleRecruiterProfileComplete | src/app/App.tsx:82-86 | as above, for the recruiter role |
| App.App.HandleLogout | src/app/App.tsx:88-95 | the persisted session is cleared; the state returns to landing with no session, no user type, no profile |
| App.App.RestoreSession | src/app/App.tsx:97-109 | with no user type and a session, the role and hasProfile come from the session and the ledger, and demo profiles are loaded only when completed; otherwise nothing changes |
| App.StartUp | src/app/App.tsx:97-109 | with no persisted session the landing page shows; with one, the view is the role's dashboard or setup according to the ledger |
| Numbers.RoundedQuotient | frontend/src/app/components/RecruiterDashboard.tsx:34-36 | the result is the nearest integer to a/b, with halves rounded up as `Math.round` does |
| Numbers.RoundedWithin | frontend/src/app/components/RecruiterDashboard.tsx:34-36 | the rounded mean of values between lo and hi lies between lo and hi |
| Numbers.RoundThirds | src/app/components/JobSeekerDashboard.tsx:43-45 | for a non-negative sum, rounding a third is (s + 1) div 3 |
| JobSeekerDashboard.SumReadinessAtLeast | src/app/components/JobSeekerDashboard.tsx:43-45 | a sum of scores each at least lo is at least lo times the count |
| JobSeekerDashboard.SumReadinessAtMost | src/app/components/JobSeekerDashboard.tsx:43-45 | a sum of scores each at most hi is at most hi times the count |
| JobSeekerDashboard.ReadinessIsRoundedThird | src/app/components/JobSeekerDashboard.tsx:43-45 | for non-negative scores, the overall score is (sum of the first three + 1) div 3 |
| JobSeekerDashboard.OverallReadinessScore | src/app/components/JobSeekerDashboard.tsx:43-45 | the score is the sum of the first three readiness scores divided by three, rounded to the nearest whole number |
| JobSeekerDashboard.ReadinessInRange | src/app/components/JobSeekerDashboard.tsx:43-45 | scores within 0..100 give an overall score within 0..100 |
| JobSeekerDashboard.ReadinessIgnoresLaterMatches | src/app/components/JobSeekerDashboard.tsx:43-45 | matches after the third never change the overall score |
| JobSeekerDashboard.SingleMatchDividedByThree | src/app/components/JobSeekerDashboard.tsx:43-45 | the divisor is always three: one match of 90 scores 30 |
| JobSeekerDashboard.DemoReadiness | src/app/components/JobSeekerDashboard.tsx:43-45 | the demo readiness scores 75, 62, 90, 48 give 76 |
| JobSeekerDashboard.AllSkillGaps | src/app/components/JobSeekerDashboard.tsx:48 | a gap is in the list exactly when it is a missing skill of some match |
| JobSeekerDashboard.AllSkillGapsInOrder | src/app/components/JobSeekerDashboard.tsx:48 | the gaps of a concatenation of match lists are the gaps of the parts concatenated, and one match contributes exactly its missing skills, in order |
| JobSeekerDashboard.GapsIgnoreWeakSkills | src/app/components/JobSeekerDashboard.tsx:48 | weak skills never affect the gaps |
| JobSeekerDashboard.CriticalGaps | src/app/components/JobSeekerDashboard.tsx:49 | exactly the critical gaps are kept |
| JobSeekerDashboard.CriticalGapsInOrder | src/app/components/JobSeekerDashboard.tsx:49 | the critical gaps of a concatenation are those of the parts, concatenated: the filter keeps list order |
| JobSeekerDashboard.CriticalGapsSingle | src/app/components/JobSeekerDashboard.tsx:49 | a single gap is kept exactly when it is critical |
| JobSeekerDashboard.Names | src/app/components/JobSeekerDashboard.tsx:50 | the skill names, position by position |
| JobSeekerDashboard.FindByName | src/app/components/JobSeekerDashboard.tsx:51 | a gap is found exactly when the name occurs, and it is the first gap with that name |
| JobSeekerDashboard.Representatives | src/app/components/JobSeekerDashboard.tsx:50-52 | each name is mapped to the first gap carrying it |
| Lists.Distinct | src/app/components/JobSeekerDashboard.tsx:50-52 | the distinct values of a list, without duplicates, each value of the list present, in the order of their first occurrences |
| JobSeekerDashboard.UniqueCriticalGaps | src/app/components/JobSeekerDashboard.tsx:50-52 | there are no more unique gaps than critical gaps |
| JobSeekerDashboard.NameOfMember | src/app/components/JobSeekerDashboard.tsx:50 | the name of every gap in the list occurs among the names |
| JobSeekerDashboard.UniqueGapsHaveDistinctNames | src/app/components/JobSeekerDashboard.tsx:50-52 | no two unique gaps share a skill name |
| JobSeekerDashboard.UniqueGapsCoverEveryName | src/app/components/JobSeekerDashboard.tsx:50-52 | every critical missing skill's name has an entry |
| JobSeekerDashboard.UniqueGapsAreFirstOccurrences | src/app/components/JobSeekerDashboard.tsx:50-52 | each entry is the first critical gap with its name, and the entries come in first-occurrence order |
| JobSeekerDashboard.UniqueGapsAreCritical | src/app/components/JobSeekerDashboard.tsx:50-52 | every entry is a critical missing skill of some match |
| JobSeekerDashboard.SkillsToImproveCount | src/app/components/JobSeekerDashboard.tsx:116 | the "Skills to Improve" figure is the number of distinct critical names |
| JobSeekerDashboard.GapPanel | src/app/components/JobSeekerDashboard.tsx:213 | the panel shows the first six unique gaps, or all when there are fewer |
| JobSeekerDashboard.LevelProgressMonotone | src/app/components/JobSeekerDashboard.tsx:281 | expert 100, advanced 75, intermediate 50, beginner 25; a higher level never shows a shorter bar |
| JobSeekerDashboard.LevelProgress | src/app/components/JobSeekerDashboard.tsx:281 | the bar width is 25 percent per level rank, from 25 for a beginner to 100 for an expert |
| JobSeekerDashboard.TopMatches | src/app/components/JobSeekerDashboard.tsx:179 | the first three matches in list order |
| JobSeekerDashboard.MatchBadge | src/app/components/JobSeekerDashboard.tsx:186 | the badge is 'default' exactly when the match is at least 80, and 'secondary' otherwise |
| Lists.RemoveAll | frontend/src/app/components/RecruiterDashboard.tsx:40 | the id is gone; every other id stays in or out as before; a list without the id is unchanged |
| Lists.RemoveAllInOrder | frontend/src/app/components/RecruiterDashboard.tsx:40 | removing an id from a concatenation removes it from each part, keeping the other ids in order |
| Lists.RemoveAllSingle | frontend/src/app/components/RecruiterDashboard.tsx:40 | a single id is dropped exactly when it is the removed one |
| RecruiterDashboard.HighMatches | frontend/src/app/components/RecruiterDashboard.tsx:33 | a candidate is kept exactly when its match is at least 80 |
| RecruiterDashboard.HighMatchesInOrder | frontend/src/app/components/RecruiterDashboard.tsx:33 | the filter of a concatenation is the filters of the parts, concatenated: the kept candidates stay in list order |
| RecruiterDashboard.HighMatchesSingle | frontend/src/app/components/RecruiterDashboard.tsx:33 | a single candidate is kept exactly when its match is at least 80 |
| RecruiterDashboard.HighPositionsSnoc | frontend/src/app/components/RecruiterDashboard.tsx:33 | appending a candidate adds its position to the high-match positions exactly when its match is at least 80 |
| RecruiterDashboard.HighMatchesCount | frontend/src/app/components/RecruiterDashboard.tsx:33 | the number of kept candidates is the number of positions whose match is at least 80 |
| RecruiterDashboard.HighMatchCount | frontend/src/app/components/RecruiterDashboard.tsx:32-33 | the count is the number of positions whose match is at least 80; it is at most the total, and zero exactly when every match is below 80 |
| RecruiterDashboard.AverageMatch | frontend/src/app/components/RecruiterDashboard.tsx:34-36 | the average is the sum over the total, rounded as `Math.round` does |
| RecruiterDashboard.SumMatchBounds | frontend/src/app/components/RecruiterDashboard.tsx:34-36 | the sum lies between the count times the lowest match and the count times the highest |
| RecruiterDashboard.LowestIndex | frontend/src/app/components/RecruiterDashboard.tsx:34-36 | the position of a match no larger than any other |
| RecruiterDashboard.AverageBetweenMinAndMax | frontend/src/app/components/RecruiterDashboard.tsx:34-36 | the average lies between the lowest and the highest match |
| RecruiterDashboard.DemoStats | frontend/src/app/data/mockData.ts:321-351 | the demo matches 88, 78, 72 and 65 give an average of 76 and one high match |
| RecruiterDashboard.CountPriority | frontend/src/app/components/RecruiterDashboard.tsx:161-164 | the count is the number of positions of the required skills with the given priority, and at most the number of skills |
| RecruiterDashboard.WithPriority | frontend/src/app/components/RecruiterDashboard.tsx:161-164 | a skill is kept exactly when it is required with the given priority, and the result is no longer than the list |
| RecruiterDashboard.WithPriorityInOrder | frontend/src/app/components/RecruiterDashboard.tsx:161-164 | the filter of a concatenation is the filters of the parts, concatenated |
| RecruiterDashboard.WithPrioritySingle | frontend/src/app/components/RecruiterDashboard.tsx:161-164 | a single skill is kept exactly when it has the given priority |
| RecruiterDashboard.PriorityPositionsSnoc | frontend/src/app/components/RecruiterDashboard.tsx:161-164 | appending a skill adds its position to the positions with the priority exactly when it has that priority |
| RecruiterDashboard.WithPriorityCount | frontend/src/app/components/RecruiterDashboard.tsx:161-164 | the number of kept skills is the number of positions with the given priority |
| RecruiterDashboard.PrioritiesPartition | frontend/src/app/components/RecruiterDashboard.tsx:161-164 | every skill is either must-have or good-to-have, so the two filtered lists together are as long as the list |
| RecruiterDashboard.PriorityCountsCoverSkills | frontend/src/app/components/RecruiterDashboard.tsx:161-164 | the must-have and good-to-have counts add up to the number of required skills |
| RecruiterDashboard.TopCandidates | frontend/src/app/components/RecruiterDashboard.tsx:181 | the first three candidates in list order |
| RecruiterDashboard.CandidateBadgeAgrees | frontend/src/app/components/RecruiterDashboard.tsx:190 | the candidate badge follows the same 80 rule as the job seeker's match badge |
| RecruiterDashboard.CandidateBadge | frontend/src/app/components/RecruiterDashboard.tsx:190 | the default badge exactly at 80 and above, the secondary badge otherwise |
| RecruiterDashboard.Toggled | frontend/src/app/components/RecruiterDashboard.tsx:38-42 | membership of the toggled id flips; an absent id is appended at the end; a present id is removed everywhere, so the list shrinks and is `RemoveAll` of it (which keeps the order); every other id is unaffected |
| RecruiterDashboard.ToggleKeepsNoDuplicates | frontend/src/app/components/RecruiterDashboard.tsx:38-42 | toggling keeps the selection free of duplicates |
| RecruiterDashboard.ToggleTwiceRestores | frontend/src/app/components/RecruiterDashboard.tsx:38-42 | toggling an absent id twice restores the selection |
| RecruiterDashboard.Ids | frontend/src/app/components/RecruiterDashboard.tsx:240-273 | the candidate ids, position by position |
| RecruiterDashboard.FilterSelected | frontend/src/app/components/RecruiterDashboard.tsx:240-273 | a candidate is kept exactly when it is listed and its id is selected; the two lemmas below state that the candidate list's order is kept |
| RecruiterDashboard.FilterSelectedInOrder | frontend/src/app/components/RecruiterDashboard.tsx:268-270 | the compared candidates of a concatenation are those of the parts, concatenated: they keep the candidate list's order |
| RecruiterDashboard.FilterSelectedSingle | frontend/src/app/components/RecruiterDashboard.tsx:268-270 | a single candidate is compared exactly when its id is selected |
| RecruiterDashboard.FilterIgnoresSelectionOrder | frontend/src/app/components/RecruiterDashboard.tsx:240-273 | the compared candidates depend only on which ids are selected, not on the order they were selected in |
| RecruiterDashboard.FilterCoversSelection | frontend/src/app/components/RecruiterDashboard.tsx:240-273 | every selected id that names a candidate appears among the compared ones |
| RecruiterDashboard.CompareGetsTwo | frontend/src/app/components/RecruiterDashboard.tsx:240-273 | two distinct selected candidates give at least two cards to compare |
| RecruiterDashboard.CompareTab | frontend/src/app/components/RecruiterDashboard.tsx:240-273 | no selection gives the "none selected" note, exactly one id the "select more" note, two or more the comparison of the filtered candidates |
| RecruiterDashboard.RecruiterDashboard.constructor | frontend/src/app/components/RecruiterDashboard.tsx:27-29 | the selection starts empty |
| RecruiterDashboard.RecruiterDashboard.ToggleCandidateSelection | frontend/src/app/components/RecruiterDashboard.tsx:38-42 | the selection becomes the toggled list; whether the id is selected flips; toggling a listed id keeps the selection valid |
| RecruiterDashboard.RecruiterDashboard.Compare | frontend/src/app/components/RecruiterDashboard.tsx:240-273 | the tab's content for the current selection; a valid selection that shows a comparison shows at least two cards |
| CandidateComparisonView.BestIndex | src/app/components/CandidateComparisonView.tsx:15-17 | a position whose match is at least every other, with every earlier match strictly lower |
| CandidateComparisonView.BestIndexIsFirstMaximum | src/app/components/CandidateComparisonView.tsx:16 | ties go to the earliest candidate: the first maximum is the one chosen |
| CandidateComparisonView.BestCandidateId | src/app/components/CandidateComparisonView.tsx:15-17 | the id of a candidate whose match is at least every other |
| CandidateComparisonView.OnlyBestHighlighted | src/app/components/CandidateComparisonView.tsx:32-53 | with distinct ids, a card is highlighted exactly when it is at the best position |
| CandidateComparisonView.ColumnCount | src/app/components/CandidateComparisonView.tsx:30 | the smaller of three and the number of candidates |
| CandidateComparisonView.MissingSkillsDisplay | src/app/components/CandidateComparisonView.tsx:96-105 | the first min(3, n) skills are shown; a "+k more" badge appears exactly when n > 3, with k the number hidden |
| CandidateComparisonView.MoreLabelCountsHidden | src/app/components/CandidateComparisonView.tsx:101-105 | the number in the badge plus the number shown is the number of missing skills |
| CandidateComparisonView.MoreLabel | src/app/components/CandidateComparisonView.tsx:101-105 | the badge reads "+", a decimal numeral, then " more", and the numeral parses back to the number of hidden skills |
| CandidateComparisonView.RecommendationMonotone | src/app/components/CandidateComparisonView.tsx:174-180 | a higher readiness never gets a lower recommendation; the tiers include 85 and 70 |
| CandidateComparisonView.Recommendation | src/app/components/CandidateComparisonView.tsx:174-180 | "Highly Recommended" exactly at 85 and above, "Good Candidate" exactly within 70..84, "Needs Development" exactly below 70 |
| JobMatchCard.MatchColor | src/app/components/JobMatchCard.tsx:13-17 | green exactly at 80 and above, blue exactly within 60..79, orange exactly below 60 |
| JobMatchCard.ReadinessMessageBands | src/app/components/JobMatchCard.tsx:19-24 | four bands at 85, 70 and 50, each message exactly within its band; a higher score never gets a worse message |
| JobMatchCard.ReadinessMessage | src/app/components/JobMatchCard.tsx:19-24 | the ready-to-apply message exactly at 85 and above, almost-ready exactly within 70..84, build-skills exactly within 50..69, focus-on-fundamentals exactly below 50 |
| JobMatchCard.GapBadge | src/app/components/JobMatchCard.tsx:89 | destructive exactly for a critical gap, outline otherwise |
| JobMatchCard.GapBadges | src/app/components/JobMatchCard.tsx:89 | one badge per gap, each one following the rule above |
| JobMatchCard.Section | src/app/components/JobMatchCard.tsx:74-99 | a section exists exactly when its list is non-empty, and its count is the length of the list |
| JobMatchCard.Render | src/app/components/JobMatchCard.tsx:62-103 | the match badge and readiness message follow their bands; the strengths are listed with their count; the missing and weak sections exist exactly when their lists are non-empty and list exactly those gaps, with their counts; each gap badge is destructive exactly when the gap is critical |
| CandidateMatchCard.MatchColorAgrees | src/app/components/CandidateMatchCard.tsx:16-20 | the candidate card's colour is the job card's colour for every percentage |
| CandidateMatchCard.MatchColor | src/app/components/CandidateMatchCard.tsx:16-20 | green exactly at 80 and above, blue exactly within 60..79, orange exactly below 60 |
| CandidateMatchCard.RecommendationBackground | src/app/components/CandidateMatchCard.tsx:66-69 | a green background exactly at 85 and above, blue exactly within 70..84, orange exactly below 70 |
| CandidateMatchCard.RecommendationMessage | src/app/components/CandidateMatchCard.tsx:70-74 | the highly-recommended message exactly at 85 and above, good-candidate exactly within 70..84, needs-development exactly below 70 |
| CandidateMatchCard.RecommendationAgrees | src/app/components/CandidateMatchCard.tsx:66-74 | the background and the message always fall in the same band, and the bands are those of the comparison view |
| CandidateMatchCard.Render | src/app/components/CandidateMatchCard.tsx:23-97 | the selected border appears exactly when selected; the checkbox appears exactly when a toggle is given; the match colour follows its bands; the recommendation box has the background and message of the readiness band; the matching count is the strength list's length; the missing section exists exactly when the list is non-empty and lists those skills |
| CandidateMatchCard.SelectedBorderIffSelected | src/app/components/CandidateMatchCard.tsx:23 | the card class carries the blue border exactly when the card is selected |
| CareerPathView.ReadyIsAlmostReady | frontend/src/app/components/CareerPathView.tsx:45-46 | a step that is ready is also almost ready |
| CareerPathView.Badge | frontend/src/app/components/CareerPathView.tsx:76-86 | "Ready to Apply" exactly when ready, "Almost Ready" exactly when almost but not ready, "Build More Skills" otherwise |
| CareerPathView.RenderStep | frontend/src/app/components/CareerPathView.tsx:49-89 | the number is index + 1; the green border and the check icon appear exactly when ready; the status badge is the one of the readiness band (ready, almost ready, build more skills); the skills section exists exactly when skills are needed |
| CareerPathView.RenderSteps | frontend/src/app/components/CareerPathView.tsx:55 | the cards are numbered consecutively from the given start |
| CareerPathView.Render | frontend/src/app/components/CareerPathView.tsx:55 | one card per step, in order: the i-th card is the rendered i-th step, numbered i + 1 |
| LearningProgressTracker.Badge | frontend/src/app/components/LearningProgressTracker.tsx:32-48 | the badge is 'default' and green exactly when completed; its icon and label follow the status |
| LearningProgressTracker.BadgeIdentifiesStatus | frontend/src/app/components/LearningProgressTracker.tsx:35-48 | different statuses never share an icon or a label |
| LearningProgressTracker.Dates | frontend/src/app/components/LearningProgressTracker.tsx:74-79 | the dates line appears exactly when a start date is present; the completed date only when both dates are present |
| LearningProgressTracker.CompletedOnlyWithStarted | frontend/src/app/components/LearningProgressTracker.tsx:74-79 | a completed date is never shown without a start date |
| LearningProgressTracker.RenderRows | frontend/src/app/components/LearningProgressTracker.tsx:32-79 | one row per course, in order, each with its course's badge |
| LearningProgressTracker.Render | frontend/src/app/components/LearningProgressTracker.tsx:13-85 | an empty list gives only the empty-state message and hint; otherwise one row per course, in order, with its title, platform, status badge, progress, skills and dates line |
| Text.ParseIntOrZero | src/app/components/JobSeekerProfileSetup.tsx:59-60 | after leading white space, a run of digits reads as its decimal value |
| Text.ParseIntOrZeroCases | src/app/components/JobSeekerProfileSetup.tsx:59-60 | a blank or non-numeric input reads 0 (the `\|\| 0` fallback); a minus sign never gives a positive value |
| Text.ParseDigits | src/app/components/JobSeekerProfileSetup.tsx:59-60 | a plain digit run reads as its decimal value |
| Text.ParseMinus | src/app/components/JobSeekerProfileSetup.tsx:59-60 | text starting with a minus sign reads as the negated digit run after it, or 0 |
| Text.ParsePlus | src/app/components/JobSeekerProfileSetup.tsx:59-60 | text starting with a plus sign reads as the digit run after it, or 0 |
| Text.ParseNegatedDigits | src/app/components/JobSeekerProfileSetup.tsx:59-60 | a minus sign before a digit run negates its value |
| Text.ParseDecimal | src/app/components/JobSeekerProfileSetup.tsx:59-60 | a decimal numeral, bare or behind a minus or plus sign, reads back as its signed value |
| Text.Split | src/app/components/JobSeekerProfileSetup.tsx:327 | at least one piece, none holding the separator, and joining the pieces gives the input back |
| Text.SplitJoin | src/app/components/JobSeekerProfileSetup.tsx:327 | splitting a join of separator-free pieces gives the pieces back |
| JobSeekerProfileSetup.WithoutSkill | src/app/components/JobSeekerProfileSetup.tsx:44-46 | the list after removal is no longer than before; what remains and its order are stated by the four lemmas below |
| JobSeekerProfileSetup.WithoutSkillMembers | src/app/components/JobSeekerProfileSetup.tsx:44-46 | a skill remains exactly when it was in the list and its id differs from the removed one |
| JobSeekerProfileSetup.WithoutAbsentSkill | src/app/components/JobSeekerProfileSetup.tsx:44-46 | an id no skill carries removes nothing |
| JobSeekerProfileSetup.WithoutSkillInOrder | src/app/components/JobSeekerProfileSetup.tsx:44-46 | removal from a concatenation is removal from each part, concatenated: the remaining skills keep their order |
| JobSeekerProfileSetup.WithoutSkillSingle | src/app/components/JobSeekerProfileSetup.tsx:44-46 | a single skill is dropped exactly when it has the removed id |
| JobSeekerProfileSetup.RemoveAdded | src/app/components/JobSeekerProfileSetup.tsx:30-46 | removing a newly added skill by its fresh id restores the list |
| JobSeekerProfileSetup.EditEducation | src/app/components/JobSeekerProfileSetup.tsx:167-220 | one record remains; the edited field takes the value; the record's other fields are kept, with the defaults on the first edit |
| JobSeekerProfileSetup.EditExperience | src/app/components/JobSeekerProfileSetup.tsx:227-262 | the same for the experience record |
| JobSeekerProfileSetup.EducationEditsAccumulate | src/app/components/JobSeekerProfileSetup.tsx:167-220 | edits of different fields accumulate in the one record |
| JobSeekerProfileSetup.ExperienceEditsAccumulate | src/app/components/JobSeekerProfileSetup.tsx:227-262 | the same for experience |
| JobSeekerProfileSetup.TrimAll | src/app/components/JobSeekerProfileSetup.tsx:327 | each piece is trimmed, position by position |
| JobSeekerProfileSetup.SplitTrimmed | src/app/components/JobSeekerProfileSetup.tsx:327 | one trimmed entry per comma-separated piece, and at least one |
| JobSeekerProfileSetup.SplitTrimmedPieces | src/app/components/JobSeekerProfileSetup.tsx:327 | no entry holds a comma or surrounding white space |
| JobSeekerProfileSetup.TrimIsSlice | src/app/components/JobSeekerProfileSetup.tsx:327 | every character of a trimmed string occurs in the input |
| JobSeekerProfileSetup.SplitTrimmedOfJoin | src/app/components/JobSeekerProfileSetup.tsx:327 | trimmed comma-free entries joined with commas read back as the same entries |
| JobSeekerProfileSetup.SalaryReadsBack | src/app/components/JobSeekerProfileSetup.tsx:59-60 | a salary typed as a numeral reads back as its value; an empty input gives 0 |
| JobSeekerProfileSetup.JobSeekerProfileSetup.constructor | src/app/components/JobSeekerProfileSetup.tsx:17-28 | step 1; empty lists; empty inputs with level 'intermediate' |
| JobSeekerProfileSetup.JobSeekerProfileSetup.SetCurrentSkill | src/app/components/JobSeekerProfileSetup.tsx:17-28 | only the skill input changes |
| JobSeekerProfileSetup.JobSeekerProfileSetup.AddSkill | src/app/components/JobSeekerProfileSetup.tsx:30-42 | with a name and years typed, one skill is appended and the input resets to an empty name, 'intermediate' and no years; otherwise nothing changes |
| JobSeekerProfileSetup.JobSeekerProfileSetup.RemoveSkill | src/app/components/JobSeekerProfileSetup.tsx:44-46 | only the skills change, to the list without that id |
| JobSeekerProfileSetup.JobSeekerProfileSetup.Continue | src/app/components/JobSeekerProfileSetup.tsx:149-307 | steps 1–3 move on by one unless step 1 has no skills; the step stays within 1..4 |
| JobSeekerProfileSetup.JobSeekerProfileSetup.Back | src/app/components/JobSeekerProfileSetup.tsx:365-368 | steps 2–4 move back by one; the step stays within 1..4 |
| JobSeekerProfileSetup.JobSeekerProfileSetup.SetEducation | src/app/components/JobSeekerProfileSetup.tsx:167-220 | the education becomes the edited single record; nothing else changes |
| JobSeekerProfileSetup.JobSeekerProfileSetup.SetExperience | src/app/components/JobSeekerProfileSetup.tsx:227-262 | the experience becomes the edited single record; nothing else changes |
| JobSeekerProfileSetup.JobSeekerProfileSetup.SetCareerGoals | src/app/components/JobSeekerProfileSetup.tsx:289-298 | only the career goals change |
| JobSeekerProfileSetup.JobSeekerProfileSetup.SetPreferredRoles | src/app/components/JobSeekerProfileSetup.tsx:327 | the roles become the comma pieces of the input, trimmed |
| JobSeekerProfileSetup.JobSeekerProfileSetup.SetLocations | src/app/components/JobSeekerProfileSetup.tsx:338 | the locations become the comma pieces of the input, trimmed |
| JobSeekerProfileSetup.JobSeekerProfileSetup.SetSalaries | src/app/components/JobSeekerProfileSetup.tsx:349-359 | only the salary inputs change |
| JobSeekerProfileSetup.JobSeekerProfileSetup.HandleComplete | src/app/components/JobSeekerProfileSetup.tsx:48-67 | user '1'; the wizard's skills, education, experience and goals copied; salaries read with `parseInt(…) \|\| 0`; the three fixed work types; no learning progress |
| RecruiterProfileSetup.WithoutIndex | src/app/components/RecruiterProfileSetup.tsx:47-49 | exactly that position is removed and the others kept in order; an index outside the list removes nothing |
| RecruiterProfileSetup.RemoveLastAdded | src/app/components/RecruiterProfileSetup.tsx:35-49 | removing the last position after an add restores the list |
| RecruiterProfileSetup.SkillBadge | src/app/components/RecruiterProfileSetup.tsx:304 | 'default' exactly for a must-have skill, 'secondary' otherwise |
| RecruiterProfileSetup.BuildProfile | src/app/components/RecruiterProfileSetup.tsx:51-73 | user '2'; company fields copied; exactly one posting with id '1' holding the required skills and the posting fields; salaries read with `parseInt(…) \|\| 0`; posted today |
| RecruiterProfileSetup.PostingSalaryReadsBack | src/app/components/RecruiterProfileSetup.tsx:65-66 | a salary typed as a numeral reads back as its value; an empty input gives 0 |
| RecruiterProfileSetup.RecruiterProfileSetup.constructor | src/app/components/RecruiterProfileSetup.tsx:17-33 | step 1; empty inputs with job type 'Full-time' and priority 'must-have'; no skills |
| RecruiterProfileSetup.RecruiterProfileSetup.SetCompany | src/app/components/RecruiterProfileSetup.tsx:17-33 | only the company input changes |
| RecruiterProfileSetup.RecruiterProfileSetup.SetJobPosting | src/app/components/RecruiterProfileSetup.tsx:17-33 | only the posting input changes |
| RecruiterProfileSetup.RecruiterProfileSetup.SetCurrentSkill | src/app/components/RecruiterProfileSetup.tsx:17-33 | only the skill input changes |
| RecruiterProfileSetup.RecruiterProfileSetup.AddSkill | src/app/components/RecruiterProfileSetup.tsx:35-45 | with a name and an experience typed, the skill is appended and the inputs reset with priority 'must-have'; otherwise nothing changes |
| RecruiterProfileSetup.RecruiterProfileSetup.RemoveSkill | src/app/components/RecruiterProfileSetup.tsx:47-49 | only the skills change, losing that position |
| RecruiterProfileSetup.RecruiterProfileSetup.Continue | src/app/components/RecruiterProfileSetup.tsx:140-245 | moves on by one from steps 1–2 unless the company name (step 1) or the job title (step 2) is empty; the step stays within 1..3 |
| RecruiterProfileSetup.RecruiterProfileSetup.Back | src/app/components/RecruiterProfileSetup.tsx:316-319 | moves back by one from steps 2–3; the step stays within 1..3 |
| RecruiterProfileSetup.RecruiterProfileSetup.Complete | src/app/components/RecruiterProfileSetup.tsx:51-73 | no profile exactly while no skill is required; otherwise the built profile, whose posting has at least one skill |
| ResumeUpload.MockExtraction | src/app/components/ResumeUpload.tsx:61-78 | ten skills and two entries each of experience, education and certifications |
| ResumeUpload.AfterDrop | src/app/components/ResumeUpload.tsx:36-43 | the first dropped file is taken exactly when it is a PDF or a Word file; otherwise the held file stays |
| ResumeUpload.AfterSelect | src/app/components/ResumeUpload.tsx:45-50 | the first selected file is taken with no type check |
| ResumeUpload.SelectSkipsTypeCheck | src/app/components/ResumeUpload.tsx:36-50 | a plain-text file is refused by a drop but taken by the file browser |
| ResumeUpload.WordFilesAccepted | src/app/components/ResumeUpload.tsx:40 | a '.doc' or '.docx' name is accepted whatever MIME type is reported |
| ResumeUpload.ResumeUpload.constructor | src/app/components/ResumeUpload.tsx:16-25 | not dragging, no file, not processing, no results |
| ResumeUpload.ResumeUpload.HandleDragOver | src/app/components/ResumeUpload.tsx:27-30 | dragging becomes true; nothing else changes |
| ResumeUpload.ResumeUpload.HandleDragLeave | src/app/components/ResumeUpload.tsx:32-34 | dragging becomes false; nothing else changes |
| ResumeUpload.ResumeUpload.HandleDrop | src/app/components/ResumeUpload.tsx:36-43 | dragging becomes false and the file follows the drop rule |
| ResumeUpload.ResumeUpload.HandleFileSelect | src/app/components/ResumeUpload.tsx:45-50 | the file follows the selection rule; nothing else changes |
| ResumeUpload.ResumeUpload.ProcessResume | src/app/components/ResumeUpload.tsx:52-87 | with no file nothing changes; otherwise processing ends with the results view showing the fixed extraction (so the upload buttons are gone), and the ten skills go to the callback when one is given |
| ResumeUpload.ResumeUpload.HandleReset | src/app/components/ResumeUpload.tsx:89-94 | no file, not processing, no results: the upload view with the browse prompt and no action buttons |
| ResumeUpload.ResumeUpload.Render | src/app/components/ResumeUpload.tsx:103-290 | the upload view exactly until an analysis finishes; in it the prompt shows exactly when no file is held, the clear button is disabled exactly while processing, the progress panel shows exactly while processing, and Analyze/Remove show exactly with a file and no processing; the results view shows the extracted data; with the invariant, those results are the fixed extraction |

## Left out

- The SHA-256 digest is a parameter, `digest: string -> seq<byte>`. The same goes for the text encoding before it. Both calls are foreign; only the hex encoding of the digest is modelled.
- JSON is not modelled. A stored value is either a well-typed value or `Unparseable`, which stands for text that `JSON.parse` rejects; such text gives the fallback.
- `Storage.SafeJsonParse`: the source returns text that parses but has the wrong shape as it is, and the model has no such values. The source then throws where the model does not. A stored `null` ledger makes `getProfileCompleted` throw a `TypeError` when it indexes the map (frontend/src/app/auth/storage.ts:71-74, indexed at line 73). A stored `{}` user list makes `users.some` throw in `signUp` (src/app/auth/authService.ts:36).
- Match percentages, readiness scores, the demo data's numbers and salaries are whole numbers (`int`), as in the mock data. The type declarations say `number`. Fractional scores would change the sums, the averages and what `Math.round` gives.
- Trimming and lower-casing handle ASCII white space and ASCII letters only. JavaScript's versions act on all of Unicode.
- `crypto.randomUUID`, `Date.now` and `new Date().toISOString()` are nondeterministic, so they are taken as parameters: the new user's id, the time, today's date.
- `parseFloat` values (years of experience, minimum experience) are kept as the typed text. File-size formatting and `toLocaleDateString` are presentation only.
- `Text.ParseIntOrZero`: reads optional white space, a sign and decimal digits, and gives 0 when no digit follows. It does not model other radixes or the `0x` prefix.
- `ResumeUpload.ResumeUpload.ProcessResume`: the two-second timer is one atomic step, so the in-between state with `isProcessing` true is not observable. Overlapping asynchronous sign-ups and logins are not modelled either.
- `LoginForm.LoginForm.OnSubmit`: the 'Login failed.' fallback for a thrown value that is not an `Error` cannot arise in the model, which only ever fails with a message.
- The HTTP variant of the auth client, the login form that calls it, the route table, and the Python backend (Firestore, bcrypt, JWT) are not part of this model.
- The pages with no logic beyond layout are not part of this model: landing page, auth layout, sign-up form, course recommendation card, skill radar chart, dialogs. The sign-up form's `minLength={6}` is an HTML attribute only; sign-up does not enforce it.
- The dashboards' `activeTab` state only switches tabs, so it is left out. So are the option lists of the select inputs.
- `CandidateComparisonView.BestIndex`: requires a non-empty list. The source seeds its reduce with the first candidate and fails on an empty list.
- `RecruiterDashboard.AverageMatch`: requires a non-empty list. The source divides by zero there and shows `NaN`.
- `RecruiterProfileSetup.RecruiterProfileSetup.SetCompany`: this setter, and those for the posting, the skill inputs and the career goals, take a whole input record. In the source, each keystroke spreads one field into the record, so the record after a keystroke is the one passed here.
- `JobSeekerProfileSetup.JobSeekerProfileSetup.SetCurrentSkill`: skill levels and priorities come from closed enumerations. The select inputs cannot produce other values.
