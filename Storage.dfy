/** The browser's two key-value stores as the credential store uses them:
    `local` (durable, localStorage) and `tab` (tab lifetime, sessionStorage).
    Values are stored as typed records instead of JSON text; `Unparseable`
    stands for text that `JSON.parse` rejects. */
module Storage {
  import opened Wrappers
  import opened AuthTypes
  import opened Text

  const UsersKey: string := "jsp.auth.users.v1"
  const SessionKey: string := "jsp.auth.session.v1"
  const SessionStorageKey: string := "jsp.auth.session-storage.v1"
  const ProfileStatusKey: string := "jsp.auth.profile-status.v1"

  /** The four keys are different (they even differ in length). */
  lemma KeysDistinct()
    ensures UsersKey != SessionKey && UsersKey != SessionStorageKey && UsersKey != ProfileStatusKey
    ensures SessionKey != SessionStorageKey && SessionKey != ProfileStatusKey
    ensures SessionStorageKey != ProfileStatusKey
  {
    assert |UsersKey| == 17 && |SessionKey| == 19;
    assert |SessionStorageKey| == 27 && |ProfileStatusKey| == 26;
  }

  /** 'local' keeps the session in the durable store, 'session' in the tab store. */
  datatype SessionStorageMode = LocalMode | SessionMode

  /** What a key holds: one of the records the application writes, or text
      that does not parse. */
  datatype Stored =
    | UsersJson(users: seq<StoredUser>)
    | SessionJson(session: AuthSession)
    | ModeJson(mode: SessionStorageMode)
    | StatusJson(status: map<string, bool>)
    | Unparseable

  type Store = map<string, Stored>

  /** `getItem`: the value under a key, or null. */
  function GetItem(store: Store, key: string): (r: Option<Stored>)
    ensures r.Some? <==> key in store
    ensures r.Some? ==> r.value == store[key]
  {
    if key in store then Some(store[key]) else None
  }

  /** `safeJsonParse`: absent or unparseable text yields the fallback; otherwise
      the parsed value. */
  function SafeJsonParse<T>(raw: Option<Stored>, parse: Stored -> Option<T>, fallback: T): (r: T)
    ensures raw.None? ==> r == fallback
    ensures raw.Some? && parse(raw.value).None? ==> r == fallback
    ensures raw.Some? && parse(raw.value).Some? ==> r == parse(raw.value).value
    ensures r == fallback || (raw.Some? && parse(raw.value) == Some(r))
  {
    match raw
    case None => fallback
    case Some(text) =>
      match parse(text)
      case None => fallback
      case Some(v) => v
  }

  function AsUsers(v: Stored): Option<seq<StoredUser>> {
    if v.UsersJson? then Some(v.users) else None
  }

  function AsSession(v: Stored): Option<Option<AuthSession>> {
    if v.SessionJson? then Some(Some(v.session)) else None
  }

  function AsMode(v: Stored): Option<SessionStorageMode> {
    if v.ModeJson? then Some(v.mode) else None
  }

  function AsStatus(v: Stored): Option<map<string, bool>> {
    if v.StatusJson? then Some(v.status) else None
  }

  /** `loadUsers`: the stored user list, empty when nothing (readable) is stored. */
  function LoadUsers(local: Store): (users: seq<StoredUser>)
    ensures UsersKey !in local ==> users == []
    ensures UsersKey in local && local[UsersKey] == Unparseable ==> users == []
    ensures UsersKey in local && local[UsersKey].UsersJson? ==> users == local[UsersKey].users
  {
    SafeJsonParse(GetItem(local, UsersKey), AsUsers, [])
  }

  /** `getSessionStorage`: the mode flag, 'local' when it was never set. */
  function GetSessionStorage(local: Store): (mode: SessionStorageMode)
    ensures SessionStorageKey !in local ==> mode == LocalMode
    ensures SessionStorageKey in local && local[SessionStorageKey].ModeJson? ==> mode == local[SessionStorageKey].mode
    ensures SessionStorageKey in local && local[SessionStorageKey] == Unparseable ==> mode == LocalMode
  {
    SafeJsonParse(GetItem(local, SessionStorageKey), AsMode, LocalMode)
  }

  /** `loadSession`: the session in the store the mode flag names, and only there. */
  function LoadSession(local: Store, tab: Store): (s: Option<AuthSession>)
    ensures GetSessionStorage(local) == SessionMode && SessionKey !in tab ==> s == None
    ensures GetSessionStorage(local) == LocalMode && SessionKey !in local ==> s == None
    ensures s.Some? ==> (if GetSessionStorage(local) == SessionMode then tab else local)[SessionKey] == SessionJson(s.value)
    ensures var store := if GetSessionStorage(local) == SessionMode then tab else local;
            SessionKey in store && store[SessionKey] == Unparseable ==> s == None
  {
    if GetSessionStorage(local) == SessionMode then
      SafeJsonParse(GetItem(tab, SessionKey), AsSession, None)
    else
      SafeJsonParse(GetItem(local, SessionKey), AsSession, None)
  }

  /** `toPublicUser`: the stored user without its password hash. */
  function ToPublicUser(u: StoredUser): (p: AuthUser)
    ensures p.id == u.id && p.role == u.role && p.name == u.name && p.email == u.email
  {
    AuthUser(u.id, u.role, u.name, u.email)
  }

  /** `profileKey`: `role:email` with the email trimmed and lower-cased. */
  function ProfileKey(role: Role, email: string): string {
    RoleName(role) + ":" + NormalizeEmail(email)
  }

  /** Two profile keys coincide exactly when the roles are equal and the
      emails normalize equal. */
  lemma ProfileKeyInjective(r1: Role, e1: string, r2: Role, e2: string)
    ensures ProfileKey(r1, e1) == ProfileKey(r2, e2) <==> r1 == r2 && NormalizeEmail(e1) == NormalizeEmail(e2)
  {
    var k1, k2 := ProfileKey(r1, e1), ProfileKey(r2, e2);
    if r1 == r2 {
      var n := |RoleName(r1)| + 1;
      assert k1[n..] == NormalizeEmail(e1);
      assert k2[n..] == NormalizeEmail(e2);
    } else {
      assert k1[0] != k2[0];
    }
  }

  /** The completion map, empty when nothing (readable) is stored. */
  function ProfileStatus(local: Store): (status: map<string, bool>)
    ensures ProfileStatusKey !in local ==> status == map[]
    ensures ProfileStatusKey in local && local[ProfileStatusKey] == Unparseable ==> status == map[]
    ensures ProfileStatusKey in local && local[ProfileStatusKey].StatusJson? ==> status == local[ProfileStatusKey].status
  {
    SafeJsonParse(GetItem(local, ProfileStatusKey), AsStatus, map[])
  }

  /** `getProfileCompleted`: the flag for `role:email`; a missing key reads false. */
  function GetProfileCompleted(local: Store, role: Role, email: string): (completed: bool)
    ensures ProfileKey(role, email) !in ProfileStatus(local) ==> !completed
    ensures ProfileStatusKey !in local ==> !completed
  {
    var status := ProfileStatus(local);
    var key := ProfileKey(role, email);
    key in status && status[key]
  }

  /** The durable store after `setProfileCompleted(role, email, completed)`:
      the completion map read back, updated at one key and written again. */
  function WithProfileCompleted(local: Store, role: Role, email: string, completed: bool): Store {
    local[ProfileStatusKey := StatusJson(ProfileStatus(local)[ProfileKey(role, email) := completed])]
  }

  /** After `setProfileCompleted(r, e, b)`, every email that normalizes like `e`
      reads `b` for role `r`. */
  lemma SetThenGetProfileCompleted(local: Store, role: Role, email: string, completed: bool, email': string)
    requires NormalizeEmail(email') == NormalizeEmail(email)
    ensures GetProfileCompleted(WithProfileCompleted(local, role, email, completed), role, email') == completed
  {
    ProfileKeyInjective(role, email, role, email');
  }

  /** ... and every other (role, email) pair reads what it read before. */
  lemma SetProfileCompletedKeepsOthers(local: Store, role: Role, email: string, completed: bool, role': Role, email': string)
    requires role' != role || NormalizeEmail(email') != NormalizeEmail(email)
    ensures GetProfileCompleted(WithProfileCompleted(local, role, email, completed), role', email')
         == GetProfileCompleted(local, role', email')
  {
    ProfileKeyInjective(role, email, role', email');
  }

  /** With the mode flag readable, a session written to the store it names is
      the session read back; a session in the other store is never read. */
  lemma SessionReadFromModeStore(local: Store, tab: Store, s: AuthSession)
    ensures GetSessionStorage(local) == SessionMode ==> LoadSession(local, tab[SessionKey := SessionJson(s)]) == Some(s)
    ensures GetSessionStorage(local) == LocalMode ==> LoadSession(local[SessionKey := SessionJson(s)], tab) == Some(s)
    ensures GetSessionStorage(local) == LocalMode ==> LoadSession(local, tab[SessionKey := SessionJson(s)]) == LoadSession(local, tab)
  {
    assert GetSessionStorage(local[SessionKey := SessionJson(s)]) == GetSessionStorage(local);
  }

  /** Closing the browser empties the tab store: a session kept with the mode
      'local' survives, one kept with the mode 'session' is gone. */
  lemma RestartKeepsOnlyDurableSession(local: Store, tab: Store)
    ensures GetSessionStorage(local) == LocalMode ==> LoadSession(local, map[]) == LoadSession(local, tab)
    ensures GetSessionStorage(local) == SessionMode ==> LoadSession(local, map[]) == None
  {
  }

  /** Both stores of the browser origin. `local` survives restarts, `tab`
      lasts as long as the tab. */
  class WebStorage {
    var local: Store
    var tab: Store

    constructor (local: Store, tab: Store)
      ensures this.local == local && this.tab == tab
    {
      this.local := local;
      this.tab := tab;
    }

    /** `saveUsers`. */
    method SaveUsers(users: seq<StoredUser>)
      modifies this
      ensures local == old(local)[UsersKey := UsersJson(users)] && tab == old(tab)
      ensures LoadUsers(local) == users
      ensures GetSessionStorage(local) == GetSessionStorage(old(local))
      ensures LoadSession(local, tab) == LoadSession(old(local), old(tab))
      ensures ProfileStatus(local) == ProfileStatus(old(local))
    {
      local := local[UsersKey := UsersJson(users)];
    }

    /** `setSessionStorage`. */
    method SetSessionStorage(mode: SessionStorageMode)
      modifies this
      ensures local == old(local)[SessionStorageKey := ModeJson(mode)] && tab == old(tab)
      ensures GetSessionStorage(local) == mode
      ensures LoadUsers(local) == LoadUsers(old(local))
      ensures ProfileStatus(local) == ProfileStatus(old(local))
    {
      local := local[SessionStorageKey := ModeJson(mode)];
    }

    /** `saveSession`: writes only the store the current mode names; the
        other store keeps what it held. */
    method SaveSession(session: AuthSession)
      modifies this
      ensures GetSessionStorage(old(local)) == SessionMode ==>
                tab == old(tab)[SessionKey := SessionJson(session)] && local == old(local)
      ensures GetSessionStorage(old(local)) == LocalMode ==>
                local == old(local)[SessionKey := SessionJson(session)] && tab == old(tab)
      ensures LoadSession(local, tab) == Some(session)
      ensures GetSessionStorage(local) == GetSessionStorage(old(local))
      ensures LoadUsers(local) == LoadUsers(old(local))
      ensures ProfileStatus(local) == ProfileStatus(old(local))
    {
      var storage := GetSessionStorage(local);
      if storage == SessionMode {
        tab := tab[SessionKey := SessionJson(session)];
        return;
      }
      local := local[SessionKey := SessionJson(session)];
      SessionReadFromModeStore(old(local), tab, session);
    }

    /** `clearSession`: the session key is removed from both stores; nothing
        else changes, and clearing twice is clearing once. */
    method ClearSession()
      modifies this
      ensures local == old(local) - {SessionKey} && tab == old(tab) - {SessionKey}
      ensures LoadSession(local, tab) == None
      ensures SessionKey !in old(local) && SessionKey !in old(tab) ==> local == old(local) && tab == old(tab)
      ensures GetSessionStorage(local) == GetSessionStorage(old(local))
      ensures LoadUsers(local) == LoadUsers(old(local))
      ensures ProfileStatus(local) == ProfileStatus(old(local))
    {
      local := local - {SessionKey};
      tab := tab - {SessionKey};
    }

    /** `setProfileCompleted`: read the completion map, set one key, write it back. */
    method SetProfileCompleted(role: Role, email: string, completed: bool)
      modifies this
      ensures local == WithProfileCompleted(old(local), role, email, completed) && tab == old(tab)
      ensures GetProfileCompleted(local, role, email) == completed
      ensures LoadUsers(local) == LoadUsers(old(local))
      ensures GetSessionStorage(local) == GetSessionStorage(old(local))
      ensures LoadSession(local, tab) == LoadSession(old(local), old(tab))
    {
      var status := ProfileStatus(local);
      status := status[ProfileKey(role, email) := completed];
      local := local[ProfileStatusKey := StatusJson(status)];
      KeysDistinct();
      assert local - {ProfileStatusKey} == old(local) - {ProfileStatusKey};
      SetThenGetProfileCompleted(old(local), role, email, completed, email);
    }
  }
}
