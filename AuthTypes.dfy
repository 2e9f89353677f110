/** The records of the local credential store: roles, users, sessions and the
    payloads the forms hand to the service. */
module AuthTypes {

  datatype Role = JobSeeker | Recruiter

  /** The role as the stored records and the profile keys spell it. */
  function RoleName(r: Role): string {
    match r
    case JobSeeker => "jobseeker"
    case Recruiter => "recruiter"
  }

  /** A user as the rest of the application sees it, without the password hash. */
  datatype AuthUser = AuthUser(id: string, role: Role, name: string, email: string)

  /** A user as the credential list stores it. */
  datatype StoredUser = StoredUser(id: string, role: Role, name: string, email: string, passwordHash: string)

  /** The signed-in user and the time (milliseconds) the session was created. */
  datatype AuthSession = AuthSession(user: AuthUser, createdAt: int)

  datatype Credentials = Credentials(email: string, password: string)

  datatype SignUpPayload = SignUpPayload(name: string, email: string, password: string, role: Role)
}
