/** The user store: the signed-in user's profile, preferences and settings,
    with the role getters and the stubbed fetch and update actions. Every
    update is a shallow merge applied only when the record is present; the
    `userId` argument of the actions is not consulted except by the profile
    fetch. */
module Users {
  import opened Options
  import opened CalendarViews
  import opened Ui

  datatype Role = AdminRole | ManagerRole | UserRole

  datatype User = User(
    id: string,
    email: string,
    displayName: string,
    photoURL: Option<string>,
    role: Role,
    emailVerified: bool,
    createdAt: int,
    updatedAt: int)

  /** `Partial<User>`. */
  datatype UserUpdates = UserUpdates(
    id: Option<string>,
    email: Option<string>,
    displayName: Option<string>,
    photoURL: Option<string>,
    role: Option<Role>,
    emailVerified: Option<bool>,
    createdAt: Option<int>,
    updatedAt: Option<int>)

  datatype NotificationPrefs = NotificationPrefs(email: bool, push: bool, calendarUpdates: bool)

  datatype Preferences = Preferences(
    language: string, theme: Theme, timezone: string, notifications: NotificationPrefs)

  /** `Partial<UserPreferences>`. */
  datatype PreferenceUpdates = PreferenceUpdates(
    language: Option<string>, theme: Option<Theme>, timezone: Option<string>,
    notifications: Option<NotificationPrefs>)

  datatype Hours = Hours(start: string, end: string)
  datatype CalendarSettings = CalendarSettings(defaultView: ViewType, showWeekends: bool, businessHours: Hours)

  datatype Settings = Settings(preferences: Preferences, calendar: CalendarSettings)

  /** `Partial<UserSettings>`: each key, when present, is a whole record. */
  datatype SettingsUpdates = SettingsUpdates(preferences: Option<Preferences>, calendar: Option<CalendarSettings>)

  // ---------------------------------------------------------------- getters

  /** isAdmin: a user is signed in and has the admin role. */
  predicate IsAdmin(u: Option<User>) {
    u.Some? && u.value.role == AdminRole
  }

  /** isManager: a user is signed in and has the manager role. */
  predicate IsManager(u: Option<User>) {
    u.Some? && u.value.role == ManagerRole
  }

  /** The two role getters are never both true, and neither holds with no
      user or for the plain user role. */
  lemma RolesAreExclusive(u: Option<User>)
    ensures !(IsAdmin(u) && IsManager(u))
    ensures u.None? || u.value.role == UserRole ==> !IsAdmin(u) && !IsManager(u)
  {
  }

  // ---------------------------------------------------------------- merges

  /** `{...user, ...updates}`: the profile update does not touch `updatedAt`
      unless the update supplies it. */
  function MergeUser(u: User, p: UserUpdates): User {
    User(
      p.id.GetOr(u.id),
      p.email.GetOr(u.email),
      p.displayName.GetOr(u.displayName),
      p.photoURL.OrElse(u.photoURL),
      p.role.GetOr(u.role),
      p.emailVerified.GetOr(u.emailVerified),
      p.createdAt.GetOr(u.createdAt),
      p.updatedAt.GetOr(u.updatedAt))
  }

  function MergePreferences(p: Preferences, q: PreferenceUpdates): Preferences {
    Preferences(
      q.language.GetOr(p.language),
      q.theme.GetOr(p.theme),
      q.timezone.GetOr(p.timezone),
      q.notifications.GetOr(p.notifications))
  }

  /** Shallow: a supplied `preferences` replaces the nested record whole. */
  function MergeSettings(s: Settings, q: SettingsUpdates): Settings {
    Settings(q.preferences.GetOr(s.preferences), q.calendar.GetOr(s.calendar))
  }

  /** The merge applied to a record that may be absent: an absent record
      stays absent. */
  function MergeIfPresent<T, P>(r: Option<T>, q: P, merge: (T, P) -> T): (m: Option<T>)
    ensures m.None? <==> r.None?
    ensures r.Some? ==> m.value == merge(r.value, q)
  {
    if r.Some? then Some(merge(r.value, q)) else None
  }

  /** Lifting a merge to a record that may be absent keeps what the merge
      itself has: an idempotent merge stays idempotent, and a merge that
      changes nothing gives the record back. */
  lemma MergeIfPresentProperties<T, P>(r: Option<T>, q: P, merge: (T, P) -> T)
    ensures (forall x :: merge(merge(x, q), q) == merge(x, q)) ==>
              MergeIfPresent(MergeIfPresent(r, q, merge), q, merge) == MergeIfPresent(r, q, merge)
    ensures (forall x :: merge(x, q) == x) ==> MergeIfPresent(r, q, merge) == r
  {
  }

  /** A supplied preferences record replaces the nested one whole: the
      settings' earlier preferences are not merged into it. */
  lemma SettingsMergeIsShallow(s: Settings, p: Preferences)
    ensures MergeSettings(s, SettingsUpdates(Some(p), None)) == s.(preferences := p)
  {
  }

  /** Each merge is idempotent, and an empty update changes nothing. */
  lemma MergesAreIdempotent(u: User, p: UserUpdates, prefs: Preferences, q: PreferenceUpdates,
                            s: Settings, r: SettingsUpdates)
    ensures MergeUser(MergeUser(u, p), p) == MergeUser(u, p)
    ensures MergePreferences(MergePreferences(prefs, q), q) == MergePreferences(prefs, q)
    ensures MergeSettings(MergeSettings(s, r), r) == MergeSettings(s, r)
    ensures MergeUser(u, UserUpdates(None, None, None, None, None, None, None, None)) == u
    ensures MergePreferences(prefs, PreferenceUpdates(None, None, None, None)) == prefs
    ensures MergeSettings(s, SettingsUpdates(None, None)) == s
  {
  }

  // --------------------------------------------------------- fetched values

  /** The stubbed profile fetch: the id asked for, a test identity, the plain
      user role, verified email, both timestamps `now`. */
  function FetchedUser(userId: string, now: int): (u: User)
    ensures u.id == userId && u.role == UserRole && u.emailVerified
    ensures u.createdAt == now && u.updatedAt == now
  {
    User(userId, "test@example.com", "Test User", None, UserRole, true, now, now)
  }

  const DefaultPreferences := Preferences("en", Light, "UTC", NotificationPrefs(true, true, true))

  const DefaultSettings := Settings(DefaultPreferences,
    CalendarSettings(DayGridMonth, true, Hours("09:00", "17:00")))

  /** The fetched settings carry the fetched preferences, start in the month
      grid and give business hours from 09:00 to 17:00. */
  lemma DefaultSettingsFacts()
    ensures DefaultSettings.preferences == DefaultPreferences
    ensures DefaultSettings.calendar.defaultView == DayGridMonth
    ensures ParseClock(DefaultSettings.calendar.businessHours.start) == Some(9 * 60)
    ensures ParseClock(DefaultSettings.calendar.businessHours.end) == Some(17 * 60)
  {
    assert DefaultSettings.calendar.businessHours.start == ClockValue(9);
    assert DefaultSettings.calendar.businessHours.end == ClockValue(17);
    ParseClockValue(9);
    ParseClockValue(17);
  }

  // ---------------------------------------------------------------- the store

  class UserStore {
    var currentUser: Option<User>
    var preferences: Option<Preferences>
    var settings: Option<Settings>
    var loading: bool
    var error: Option<string>

    constructor ()
      ensures currentUser == None && preferences == None && settings == None && !loading && error == None
    {
      currentUser := None;
      preferences := None;
      settings := None;
      loading := false;
      error := None;
    }

    method FetchUserProfile(userId: string, now: int)
      modifies this
      ensures currentUser == Some(FetchedUser(userId, now))
      ensures !IsAdmin(currentUser) && !IsManager(currentUser)
      ensures preferences == old(preferences) && settings == old(settings)
      ensures !loading && error == None
    {
      loading := true;
      error := None;
      currentUser := Some(FetchedUser(userId, now));
      loading := false;
    }

    method UpdateUserProfile(userId: string, updates: UserUpdates)
      modifies this
      ensures currentUser == MergeIfPresent(old(currentUser), updates, MergeUser)
      ensures preferences == old(preferences) && settings == old(settings)
      ensures !loading && error == None
    {
      loading := true;
      error := None;
      if currentUser.Some? {
        currentUser := Some(MergeUser(currentUser.value, updates));
      }
      loading := false;
    }

    method FetchUserPreferences(userId: string)
      modifies this
      ensures preferences == Some(DefaultPreferences)
      ensures currentUser == old(currentUser) && settings == old(settings)
      ensures !loading && error == None
    {
      loading := true;
      error := None;
      preferences := Some(DefaultPreferences);
      loading := false;
    }

    method UpdateUserPreferences(userId: string, updates: PreferenceUpdates)
      modifies this
      ensures preferences == MergeIfPresent(old(preferences), updates, MergePreferences)
      ensures currentUser == old(currentUser) && settings == old(settings)
      ensures !loading && error == None
    {
      loading := true;
      error := None;
      if preferences.Some? {
        preferences := Some(MergePreferences(preferences.value, updates));
      }
      loading := false;
    }

    method FetchUserSettings(userId: string)
      modifies this
      ensures settings == Some(DefaultSettings)
      ensures currentUser == old(currentUser) && preferences == old(preferences)
      ensures !loading && error == None
    {
      loading := true;
      error := None;
      settings := Some(DefaultSettings);
      loading := false;
    }

    method UpdateUserSettings(userId: string, updates: SettingsUpdates)
      modifies this
      ensures settings == MergeIfPresent(old(settings), updates, MergeSettings)
      ensures currentUser == old(currentUser) && preferences == old(preferences)
      ensures !loading && error == None
    {
      loading := true;
      error := None;
      if settings.Some? {
        settings := Some(MergeSettings(settings.value, updates));
      }
      loading := false;
    }
  }
}
