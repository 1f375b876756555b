/** The session store of components/auth-provider.tsx: a nullable signed-in user, the
    persisted `{email, hasProfile}` record and the profile cache keyed by email, both kept in
    browser storage. Every read and write is a no-op when there is no window. */
module Session {
  import opened Wrappers
  import opened Profiles

  /** A storage slot: nothing stored, text that does not parse, or a parsed value. */
  datatype Slot<T> = Empty | Corrupt | Holds(value: T)

  /** The persisted auth record. A parsed value without a non-empty `email` string is
      represented with an empty email. */
  datatype StoredAuth = StoredAuth(email: string, hasProfile: Option<bool>)

  /** The parsed profile cache: an object from email to profile, or some other JSON value. */
  datatype ProfileJson = ProfileMap(profiles: map<string, UserProfile>) | NotAnObject

  /** The signed-in user. */
  datatype AuthUser = AuthUser(email: string, hasProfile: bool, profile: Option<UserProfile>)

  /** Everything the session layer holds: the user and the two storage slots it owns. */
  datatype SessionState = SessionState(
    user: Option<AuthUser>,
    authSlot: Slot<StoredAuth>,
    profileSlot: Slot<ProfileJson>)

  /** A read's value and the slot as the read leaves it. */
  datatype Read<T, S> = Read(value: T, slot: Slot<S>)

  const LOGIN_ERROR: string := "Email and password are required"

  /** `readStoredAuth`: the record when it carries an email; corrupt text is removed. */
  function ReadStoredAuth(hasWindow: bool, slot: Slot<StoredAuth>): (r: Read<Option<StoredAuth>, StoredAuth>)
    ensures r.value.Some? <==> hasWindow && slot.Holds? && slot.value.email != ""
    ensures r.value.Some? ==> r.value.value == slot.value
    ensures r.slot == (if hasWindow && slot.Corrupt? then Empty else slot)
  {
    if !hasWindow then Read(None, slot)
    else match slot {
      case Empty => Read(None, slot)
      case Corrupt => Read(None, Empty)
      case Holds(a) => Read(if a.email != "" then Some(a) else None, slot)
    }
  }

  /** `readProfiles`: the cached profiles, `{}` for anything else; corrupt text is removed. */
  function ReadProfiles(hasWindow: bool, slot: Slot<ProfileJson>): (r: Read<map<string, UserProfile>, ProfileJson>)
    ensures hasWindow && slot.Holds? && slot.value.ProfileMap? ==> r.value == slot.value.profiles
    ensures !(hasWindow && slot.Holds? && slot.value.ProfileMap?) ==> r.value == map[]
    ensures r.slot == (if hasWindow && slot.Corrupt? then Empty else slot)
  {
    if !hasWindow then Read(map[], slot)
    else match slot {
      case Empty => Read(map[], slot)
      case Corrupt => Read(map[], Empty)
      case Holds(ProfileMap(m)) => Read(m, slot)
      case Holds(NotAnObject) => Read(map[], slot)
    }
  }

  /** `profiles[email] ?? null`. */
  function Cached(profiles: map<string, UserProfile>, email: string): Option<UserProfile> {
    if email in profiles then Some(profiles[email]) else None
  }

  /** The state the provider starts in: no user without a stored record carrying an email;
      otherwise that email, its cached profile, and the stored flag when it is defined, else
      whether a profile is cached. */
  function InitialState(hasWindow: bool, authSlot: Slot<StoredAuth>, profileSlot: Slot<ProfileJson>): (s: SessionState)
    ensures s.user.Some? <==> hasWindow && authSlot.Holds? && authSlot.value.email != ""
    ensures s.user.Some? ==>
      var m := ReadProfiles(hasWindow, profileSlot).value;
      && s.user.value.email == authSlot.value.email
      && s.user.value.profile == Cached(m, authSlot.value.email)
      && s.user.value.hasProfile == (if authSlot.value.hasProfile.Some? then authSlot.value.hasProfile.value
                                     else authSlot.value.email in m)
    ensures s.authSlot == (if hasWindow && authSlot.Corrupt? then Empty else authSlot)
  {
    if !hasWindow then SessionState(None, authSlot, profileSlot)
    else
      var stored := ReadStoredAuth(hasWindow, authSlot);
      match stored.value {
        case None => SessionState(None, stored.slot, profileSlot)
        case Some(a) =>
          var profiles := ReadProfiles(hasWindow, profileSlot);
          var profile := Cached(profiles.value, a.email);
          SessionState(
            Some(AuthUser(a.email, a.hasProfile.GetOr(profile.Some?), profile)),
            stored.slot, profiles.slot)
      }
  }

  /** `writeStoredAuth`. */
  function WriteAuth(hasWindow: bool, slot: Slot<StoredAuth>, payload: StoredAuth): Slot<StoredAuth> {
    if hasWindow then Holds(payload) else slot
  }

  /** `login`: an empty email or password is refused with nothing changed; otherwise the user
      signs in with the cached profile unless a profile setup is required, and `{email,
      hasProfile}` is persisted. */
  function LoginState(s: SessionState, hasWindow: bool, email: string, password: string, requireProfileSetup: bool)
    : (r: Result<SessionState, string>)
    ensures r.Err? <==> email == "" || password == ""
    ensures r.Err? ==> r.error == LOGIN_ERROR
    ensures r.Ok? ==>
      var m := ReadProfiles(hasWindow, s.profileSlot).value;
      var u := r.value.user;
      && u.Some? && u.value.email == email
      && (u.value.hasProfile <==> !requireProfileSetup && email in m)
      && (u.value.hasProfile <==> u.value.profile.Some?)
      && (u.value.hasProfile ==> u.value.profile == Some(m[email]))
      && r.value.authSlot == (if hasWindow then Holds(StoredAuth(email, Some(u.value.hasProfile))) else s.authSlot)
      && r.value.profileSlot == ReadProfiles(hasWindow, s.profileSlot).slot
  {
    if email == "" || password == "" then Err(LOGIN_ERROR)
    else
      var profiles := ReadProfiles(hasWindow, s.profileSlot);
      var existing := Cached(profiles.value, email);
      var hasProfile := if requireProfileSetup then false else existing.Some?;
      var user := AuthUser(email, hasProfile, if hasProfile then existing else None);
      Ok(SessionState(Some(user), WriteAuth(hasWindow, s.authSlot, StoredAuth(email, Some(hasProfile))), profiles.slot))
  }

  /** `logout`: no user, and the auth record is removed; the profile cache is untouched. */
  function LogoutState(s: SessionState, hasWindow: bool): (r: SessionState)
    ensures r.user.None?
    ensures r.profileSlot == s.profileSlot
    ensures r.authSlot == (if hasWindow then Empty else s.authSlot)
  {
    SessionState(None, if hasWindow then Empty else s.authSlot, s.profileSlot)
  }

  /** `completeProfile`: nothing without a user; otherwise the user has the profile, the
      cache maps the user's email to it (other emails untouched) and the auth record says the
      user has a profile. */
  function CompleteProfileState(s: SessionState, hasWindow: bool, profile: UserProfile): (r: SessionState)
    ensures s.user.None? ==> r == s
    ensures s.user.Some? ==>
      var m := ReadProfiles(hasWindow, s.profileSlot).value;
      && r.user == Some(AuthUser(s.user.value.email, true, Some(profile)))
      && r.profileSlot == (if hasWindow then Holds(ProfileMap(m[s.user.value.email := profile])) else s.profileSlot)
      && r.authSlot == (if hasWindow then Holds(StoredAuth(s.user.value.email, Some(true))) else s.authSlot)
  {
    match s.user {
      case None => s
      case Some(u) =>
        var profiles := ReadProfiles(hasWindow, s.profileSlot);
        var next := AuthUser(u.email, true, Some(profile));
        var profileSlot := if hasWindow then Holds(ProfileMap(profiles.value[u.email := profile])) else profiles.slot;
        SessionState(Some(next), WriteAuth(hasWindow, s.authSlot, StoredAuth(u.email, Some(true))), profileSlot)
    }
  }

  /** `isAuthenticated`. */
  function IsAuthenticated(s: SessionState): (b: bool)
    ensures b <==> s.user.Some?
  {
    s.user.Some?
  }

  /** After completing a profile, the cache holds it for that email and every other email's
      entry is what it was. */
  lemma CompleteProfileKeepsOthers(s: SessionState, profile: UserProfile, other: string)
    requires s.user.Some? && other != s.user.value.email
    ensures ReadProfiles(true, CompleteProfileState(s, true, profile).profileSlot).value[s.user.value.email] == profile
    ensures Cached(ReadProfiles(true, CompleteProfileState(s, true, profile).profileSlot).value, other)
         == Cached(ReadProfiles(true, s.profileSlot).value, other)
  {
  }

  /** A completed profile survives signing out and in again: completing profile P, logging out
      and logging in with the same email and no required setup yields a user with P. */
  lemma ProfileRoundTrip(s: SessionState, profile: UserProfile, password: string)
    requires s.user.Some? && s.user.value.email != "" && password != ""
    ensures
      var back := LoginState(LogoutState(CompleteProfileState(s, true, profile), true), true, s.user.value.email, password, false);
      back.Ok? && back.value.user == Some(AuthUser(s.user.value.email, true, Some(profile)))
  {
    var email := s.user.value.email;
    var t := LogoutState(CompleteProfileState(s, true, profile), true);
    assert ReadProfiles(true, t.profileSlot).value[email] == profile;
  }

  /** The start-up flag comes from the stored record whenever it is defined, so a user can
      start with `hasProfile` set and no profile, or with a profile and `hasProfile` unset. */
  lemma InitialFlagCanDisagree(p: UserProfile)
    ensures
      var s := InitialState(true, Holds(StoredAuth("a@b.c", Some(true))), Empty);
      s.user.Some? && s.user.value.hasProfile && s.user.value.profile.None?
    ensures
      var s := InitialState(true, Holds(StoredAuth("a@b.c", Some(false))), Holds(ProfileMap(map["a@b.c" := p])));
      s.user.Some? && !s.user.value.hasProfile && s.user.value.profile == Some(p)
  {
  }

  /** The session as a mutable store: the user and the two storage slots are its fields, and
      each operation updates them in place. */
  class SessionStore {
    const hasWindow: bool
    var user: Option<AuthUser>
    var authSlot: Slot<StoredAuth>
    var profileSlot: Slot<ProfileJson>

    function State(): SessionState
      reads this
    {
      SessionState(user, authSlot, profileSlot)
    }

    /** The provider's start-up. */
    constructor(hasWindow: bool, authSlot: Slot<StoredAuth>, profileSlot: Slot<ProfileJson>)
      ensures this.hasWindow == hasWindow
      ensures State() == InitialState(hasWindow, authSlot, profileSlot)
    {
      this.hasWindow := hasWindow;
      user := None;
      this.authSlot := authSlot;
      this.profileSlot := profileSlot;
      if hasWindow {
        if authSlot.Corrupt? {
          this.authSlot := Empty;
        } else if authSlot.Holds? && authSlot.value.email != "" {
          var stored := authSlot.value;
          var profiles: map<string, UserProfile> := map[];
          if profileSlot.Corrupt? {
            this.profileSlot := Empty;
          } else if profileSlot.Holds? && profileSlot.value.ProfileMap? {
            profiles := profileSlot.value.profiles;
          }
          var profile := Cached(profiles, stored.email);
          var hasProfile := if stored.hasProfile.Some? then stored.hasProfile.value else profile.Some?;
          user := Some(AuthUser(stored.email, hasProfile, profile));
        }
      }
    }

    /** Reads the profile cache, removing corrupt text. */
    method ReadProfileCache() returns (profiles: map<string, UserProfile>)
      modifies this
      ensures profiles == ReadProfiles(hasWindow, old(profileSlot)).value
      ensures profileSlot == ReadProfiles(hasWindow, old(profileSlot)).slot
      ensures user == old(user) && authSlot == old(authSlot)
    {
      profiles := map[];
      if hasWindow {
        if profileSlot.Corrupt? {
          profileSlot := Empty;
        } else if profileSlot.Holds? && profileSlot.value.ProfileMap? {
          profiles := profileSlot.value.profiles;
        }
      }
    }

    method Login(email: string, password: string, requireProfileSetup: bool) returns (error: Option<string>)
      modifies this
      ensures var r := LoginState(old(State()), hasWindow, email, password, requireProfileSetup);
        && (r.Err? ==> error == Some(r.error) && State() == old(State()))
        && (r.Ok? ==> error.None? && State() == r.value)
    {
      if email == "" || password == "" {
        return Some(LOGIN_ERROR);
      }
      var profiles := ReadProfileCache();
      var existing := Cached(profiles, email);
      var hasProfile := if requireProfileSetup then false else existing.Some?;
      user := Some(AuthUser(email, hasProfile, if hasProfile then existing else None));
      if hasWindow {
        authSlot := Holds(StoredAuth(email, Some(hasProfile)));
      }
      error := None;
    }

    method Logout()
      modifies this
      ensures State() == LogoutState(old(State()), hasWindow)
    {
      user := None;
      if hasWindow {
        authSlot := Empty;
      }
    }

    method CompleteProfile(profile: UserProfile)
      modifies this
      ensures State() == CompleteProfileState(old(State()), hasWindow, profile)
    {
      if user.None? {
        return;
      }
      var email := user.value.email;
      var profiles := ReadProfileCache();
      profiles := profiles[email := profile];
      user := Some(AuthUser(email, true, Some(profile)));
      if hasWindow {
        profileSlot := Holds(ProfileMap(profiles));
        authSlot := Holds(StoredAuth(email, Some(true)));
      }
    }

    function IsAuthenticated(): (b: bool)
      reads this
      ensures b <==> user.Some?
    {
      user.Some?
    }
  }
}
