/**
 * The client-side identity module: a one-slot profile cache in browser
 * storage with a 30-minute time-to-live, profile loading with lazy creation
 * and e-mail/name synchronisation, and the provider state (user, session,
 * profile, loading) with its operations: initialisation, the auth-event
 * handler, sign-out, refresh and profile update.
 *
 * Backend answers are parameters (a `ProfileBackend` gives the reply to each
 * query the load can issue), and so is the clock (`now`, in milliseconds).
 * Backend calls and navigations the module performs are appended to `effects`.
 */
module Auth {
  import opened Common
  import opened Types

  const ProfileKey := "realestate_profile"
  const TimestampKey := "realestate_profile_timestamp"
  /** 30 minutes in milliseconds. */
  const CacheTtl := 30 * 60 * 1000

  /** What a storage slot holds: a serialised profile, a serialised clock
      reading, or any other text (which is neither valid JSON nor a number). */
  datatype Stored = ProfileJson(profile: Profile) | Millis(ms: int) | Text(text: string)

  type Storage = map<string, Stored>

  /** `localStorage.getItem(k)` is truthy: present and not the empty string. */
  predicate Filled(store: Storage, k: string) {
    k in store && store[k] != Text("")
  }

  /** The outcome of reading the cache: a usable profile, or nothing, in which
      case `purge` says whether both keys are removed. */
  datatype CacheAnswer = Hit(profile: Profile) | Miss(purge: bool)

  /** The read performed by `getCachedProfile(userId)` at time `now`. */
  function CacheRead(store: Storage, userId: string, now: int): (r: CacheAnswer)
    ensures r.Hit? <==>
      Filled(store, ProfileKey) && Filled(store, TimestampKey) &&
      store[ProfileKey].ProfileJson? && store[TimestampKey].Millis? &&
      store[ProfileKey].profile.id == userId &&
      now - store[TimestampKey].ms < CacheTtl
    ensures r.Hit? ==> r.profile == store[ProfileKey].profile
    ensures r.Miss? && r.purge <==>
      Filled(store, ProfileKey) && Filled(store, TimestampKey) && !store[ProfileKey].Text? && !r.Hit?
  {
    if !Filled(store, ProfileKey) || !Filled(store, TimestampKey) then Miss(false)
    else match store[ProfileKey]
      // JSON.parse throws on the text; the error is caught and nothing is removed
      case Text(_) => Miss(false)
      // a JSON number has no `id`, so it never matches
      case Millis(_) => Miss(true)
      case ProfileJson(p) =>
        if p.id == userId && store[TimestampKey].Millis? && now - store[TimestampKey].ms < CacheTtl
        then Hit(p)
        else Miss(true)
  }

  /** The storage after a read: a purge removes both keys. */
  function AfterRead(store: Storage, a: CacheAnswer): Storage {
    if a.Miss? && a.purge then store - {ProfileKey, TimestampKey} else store
  }

  /** `setCachedProfile(p)` at time `now`: a profile is written with the clock
      reading; null removes both keys. */
  function CacheWrite(store: Storage, p: Option<Profile>, now: int): (r: Storage)
    ensures p.Some? ==> (r.Keys == store.Keys + {ProfileKey, TimestampKey} &&
      r[ProfileKey] == ProfileJson(p.value) && r[TimestampKey] == Millis(now))
    ensures p.None? ==> r.Keys == store.Keys - {ProfileKey, TimestampKey}
    ensures forall k :: k in store && k != ProfileKey && k != TimestampKey ==> k in r && r[k] == store[k]
  {
    if p.Some? then store[ProfileKey := ProfileJson(p.value)][TimestampKey := Millis(now)]
    else store - {ProfileKey, TimestampKey}
  }

  /** A profile written at `written` is read back for its own id at any `now`
      less than 30 minutes later, whatever else the storage holds. */
  lemma CacheRoundTrip(store: Storage, p: Profile, written: int, now: int)
    requires written <= now < written + CacheTtl
    ensures CacheRead(CacheWrite(store, Some(p), written), p.id, now) == Hit(p)
  {
  }

  /** The same entry is purged once 30 minutes have passed, or when read for another user. */
  lemma CacheExpiresOrMismatch(store: Storage, p: Profile, written: int, now: int, userId: string)
    requires now >= written + CacheTtl || userId != p.id
    ensures CacheRead(CacheWrite(store, Some(p), written), userId, now) == Miss(true)
    ensures AfterRead(CacheWrite(store, Some(p), written), Miss(true)).Keys == store.Keys - {ProfileKey, TimestampKey}
  {
  }

  /** After the cache is cleared, a read finds nothing and removes nothing. */
  lemma ClearedCacheMisses(store: Storage, userId: string, now: int)
    ensures CacheRead(CacheWrite(store, None, now), userId, now) == Miss(false)
  {
  }

  /** A read never reports a hit that a purge would follow, and a purge leaves neither key. */
  lemma PurgeRemovesBothKeys(store: Storage, userId: string, now: int)
    ensures var a := CacheRead(store, userId, now);
      a.Miss? && a.purge ==> ProfileKey !in AfterRead(store, a) && TimestampKey !in AfterRead(store, a)
    ensures var a := CacheRead(store, userId, now);
      !(a.Miss? && a.purge) ==> AfterRead(store, a) == store
  {
  }

  // ---------------------------------------------------------------------
  // Loading a profile: creation and synchronisation
  // ---------------------------------------------------------------------

  /** `email.split('@')[0]`: the text before the first '@'. */
  function BeforeAt(s: string): (r: string)
    ensures r <= s
    ensures '@' !in r
    ensures r == s || s[|r|] == '@'
  {
    if s == [] || s[0] == '@' then [] else [s[0]] + BeforeAt(s[1..])
  }

  /** The name given to a profile created on first access: the auth account's
      metadata name when truthy, else the part of the e-mail before '@', else null. */
  function NewProfileName(metadataName: string, email: Option<string>): (r: Option<string>)
    ensures metadataName != "" ==> r == Some(metadataName)
    ensures metadataName == "" && Truthy(email) ==> r == Some(BeforeAt(email.value))
    ensures metadataName == "" && !Truthy(email) ==> r.None?
  {
    if metadataName != "" then Some(metadataName)
    else if Truthy(email) then Some(BeforeAt(email.value))
    else None
  }

  /** The fields a synchronising load sends; `None` means the key is absent. */
  datatype SyncUpdates = SyncUpdates(email: Option<string>, fullName: Option<string>)

  /** A stored name that is null, empty or blank needs to be filled in. */
  predicate NeedsName(data: Profile) {
    !Truthy(data.fullName) || Trim(data.fullName.value) == ""
  }

  /** The update a synchronising load builds for the fetched row: the account
      e-mail when the stored one differs, and a name when the stored one is
      missing or blank. */
  function SyncDiff(data: Profile, email: string, metadataName: string): (u: SyncUpdates)
    ensures u.email.Some? <==> data.email != Some(email)
    ensures u.email.Some? ==> u.email.value == email
    ensures u.fullName.Some? <==> NeedsName(data)
    ensures u.fullName.Some? && email != "" ==> u.fullName == NewProfileName(metadataName, Some(email))
  {
    SyncUpdates(
      if data.email != Some(email) then Some(email) else None,
      if NeedsName(data) then (if metadataName != "" then Some(metadataName) else Some(BeforeAt(email))) else None)
  }

  /** The backend's answers to the queries a profile load can issue. */
  datatype ProfileBackend = ProfileBackend(
    select: Reply<Profile>,   // select * from profiles where id = userId, single row
    metadataName: string,     // user_metadata.full_name of the auth account ("" when absent)
    insert: Reply<Profile>,   // reply to the insert of a new profile
    update: Reply<Profile>)   // reply to the synchronising update

  /** A write a profile load sends to the backend. */
  datatype ProfileWrite =
    | InsertProfile(id: string, email: Option<string>, fullName: Option<string>)
    | SyncProfile(id: string, changes: SyncUpdates)

  /** The result of `fetchProfile`: the profile it returns, or the error it
      throws, with the writes it sent on the way. */
  datatype LoadOutcome = Loaded(profile: Profile, writes: seq<ProfileWrite>) | LoadFailed(writes: seq<ProfileWrite>)

  /** `fetchProfile(userId, userEmail, forceSync)`. */
  function FetchProfile(userId: string, email: Option<string>, forceSync: bool, b: ProfileBackend): (r: LoadOutcome)
    ensures r.LoadFailed? <==> b.select.Failure? || (b.select.NoRow? && !b.insert.Row?)
    ensures |r.writes| <= 1
    ensures b.select.NoRow? ==>
      r.writes == [InsertProfile(userId, if Truthy(email) then email else None, NewProfileName(b.metadataName, email))]
    ensures b.select.Row? && (!forceSync || !Truthy(email)) ==> r == Loaded(b.select.row, [])
  {
    match b.select
    case Failure(_) => LoadFailed([])
    case NoRow =>
      var w := InsertProfile(userId, if Truthy(email) then email else None, NewProfileName(b.metadataName, email));
      if b.insert.Row? then Loaded(b.insert.row, [w]) else LoadFailed([w])
    case Row(data) =>
      if Truthy(email) && forceSync then
        var u := SyncDiff(data, email.value, b.metadataName);
        if u == SyncUpdates(None, None) then Loaded(data, [])
        else if b.update.Row? then Loaded(b.update.row, [SyncProfile(userId, u)])
        else Loaded(data, [SyncProfile(userId, u)])
      else Loaded(data, [])
  }

  /** A load fails exactly when the select fails with an error other than "no
      row", or when there is no row and the insert fails. */
  lemma LoadFailsWhen(userId: string, email: Option<string>, forceSync: bool, b: ProfileBackend)
    ensures FetchProfile(userId, email, forceSync, b).LoadFailed? <==>
      b.select.Failure? || (b.select.NoRow? && !b.insert.Row?)
  {
  }

  /** A missing profile is inserted with the account id, the e-mail (or null)
      and the fallback name, and the inserted row is returned. */
  lemma MissingProfileIsCreated(userId: string, email: Option<string>, forceSync: bool, b: ProfileBackend)
    requires b.select.NoRow?
    ensures FetchProfile(userId, email, forceSync, b).writes ==
      [InsertProfile(userId, if Truthy(email) then email else None, NewProfileName(b.metadataName, email))]
    ensures b.insert.Row? ==> FetchProfile(userId, email, forceSync, b).profile == b.insert.row
  {
  }

  /** Without forceSync, or without an e-mail, the fetched row is returned and nothing is written. */
  lemma NoSyncReturnsRow(userId: string, email: Option<string>, forceSync: bool, b: ProfileBackend)
    requires b.select.Row? && (!forceSync || !Truthy(email))
    ensures FetchProfile(userId, email, forceSync, b) == Loaded(b.select.row, [])
  {
  }

  /** Under forceSync a row already in step with the account sends no update. */
  lemma InSyncRowSendsNothing(userId: string, email: string, b: ProfileBackend)
    requires b.select.Row? && email != ""
    requires b.select.row.email == Some(email) && !NeedsName(b.select.row)
    ensures FetchProfile(userId, Some(email), true, b) == Loaded(b.select.row, [])
  {
  }

  /** Under forceSync a row out of step sends exactly the differing fields; a
      failed update falls back to the fetched row. */
  lemma OutOfSyncRowIsUpdated(userId: string, email: string, b: ProfileBackend)
    requires b.select.Row? && email != ""
    requires b.select.row.email != Some(email) || NeedsName(b.select.row)
    ensures var f := FetchProfile(userId, Some(email), true, b);
      f.Loaded? &&
      f.writes == [SyncProfile(userId, SyncDiff(b.select.row, email, b.metadataName))] &&
      f.profile == (if b.update.Row? then b.update.row else b.select.row)
  {
    var u := SyncDiff(b.select.row, email, b.metadataName);
    assert u.email.Some? || u.fullName.Some?;
  }

  // ---------------------------------------------------------------------
  // The provider state
  // ---------------------------------------------------------------------

  /** What `supabase.auth.getSession()` answers. */
  datatype SessionReply = SessionError | NoSession | Active(session: Session)

  /** The auth events the backend emits. */
  datatype AuthEvent = SignedIn | SignedOut | UserUpdated | InitialSession | TokenRefreshed | PasswordRecovery

  /** The partial profile that `updateProfile` sends; `Unset` means the key is absent. */
  datatype Field<T> = Unset | Set(value: T)
  datatype ProfileChanges = ProfileChanges(
    fullName: Field<string>,
    phone: Field<Option<string>>,
    facebook: Field<Option<string>>,
    line: Field<Option<string>>)

  /** A call to the backend or a navigation, in the order performed. */
  datatype Effect =
    | ProfileLoad(userId: string, writes: seq<ProfileWrite>)
    | ProfileUpdate(userId: string, changes: ProfileChanges)
    | BackendSignOut
    | Navigate(href: string)

  /** The effects of a profile load that ended in the forced sign-out. */
  function FatalEffects(userId: string, f: LoadOutcome): seq<Effect> {
    [ProfileLoad(userId, f.writes), BackendSignOut, Navigate("/auth/signin")]
  }

  class AuthProvider {
    var user: Option<User>
    var session: Option<Session>
    var profile: Option<Profile>
    var loading: bool
    /** The browser's `localStorage`. */
    var storage: Storage
    var effects: seq<Effect>

    constructor (storage: Storage)
      ensures user.None? && session.None? && profile.None? && loading
      ensures this.storage == storage && effects == []
    {
      user, session, profile, loading := None, None, None, true;
      this.storage := storage;
      effects := [];
    }

    /** `getCachedProfile(userId)`. */
    method GetCachedProfile(userId: string, now: int) returns (p: Option<Profile>)
      modifies this`storage
      ensures var a := CacheRead(old(storage), userId, now);
        (p.Some? <==> a.Hit?) && (a.Hit? ==> p.value == a.profile) &&
        storage == AfterRead(old(storage), a)
    {
      var a := CacheRead(storage, userId, now);
      if a.Hit? {
        p := Some(a.profile);
      } else {
        if a.purge {
          storage := storage - {ProfileKey, TimestampKey};
        }
        p := None;
      }
    }

    /** `setCachedProfile(p)`. */
    method SetCachedProfile(p: Option<Profile>, now: int)
      modifies this`storage
      ensures storage == CacheWrite(old(storage), p, now)
    {
      if p.Some? {
        storage := storage[ProfileKey := ProfileJson(p.value)][TimestampKey := Millis(now)];
      } else {
        storage := storage - {ProfileKey, TimestampKey};
      }
    }

    /** The load-or-sign-out step shared by initialisation, the event handler
        and refresh: a loaded profile is stored in state and cache; a failure
        signs out, clears user, session, profile and cache, and goes to sign-in. */
    method LoadOrSignOut(userId: string, email: Option<string>, forceSync: bool, now: int, b: ProfileBackend)
      returns (loaded: Option<Profile>)
      modifies this
      ensures var f := FetchProfile(userId, email, forceSync, b);
        if f.Loaded? then
          loaded == Some(f.profile) && profile == Some(f.profile) &&
          user == old(user) && session == old(session) &&
          storage == CacheWrite(old(storage), Some(f.profile), now) &&
          effects == old(effects) + [ProfileLoad(userId, f.writes)]
        else
          loaded.None? && user.None? && session.None? && profile.None? &&
          storage == CacheWrite(old(storage), None, now) &&
          effects == old(effects) + FatalEffects(userId, f)
      ensures loading == old(loading)
    {
      var f := FetchProfile(userId, email, forceSync, b);
      effects := effects + [ProfileLoad(userId, f.writes)];
      if f.Loaded? {
        profile := Some(f.profile);
        SetCachedProfile(Some(f.profile), now);
        loaded := Some(f.profile);
      } else {
        effects := effects + [BackendSignOut];
        user, session, profile := None, None, None;
        SetCachedProfile(None, now);
        effects := effects + [Navigate("/auth/signin")];
        loaded := None;
      }
    }

    /** `initAuth`: read the session; with one, use a valid cached profile
        without querying, or load it with forceSync; without one, clear the cache. */
    method InitAuth(reply: SessionReply, now: int, b: ProfileBackend)
      modifies this
      ensures !loading
      ensures reply.SessionError? ==>
        user == old(user) && session == old(session) && profile == old(profile) &&
        storage == old(storage) && effects == old(effects)
      ensures reply.NoSession? ==>
        user == old(user) && session == old(session) && profile == old(profile) &&
        storage == CacheWrite(old(storage), None, now) && effects == old(effects)
      ensures reply.Active? ==>
        var s := reply.session;
        var a := CacheRead(old(storage), s.user.id, now);
        var f := FetchProfile(s.user.id, s.user.email, true, b);
        if a.Hit? then
          user == Some(s.user) && session == Some(s) && profile == Some(a.profile) &&
          storage == old(storage) && effects == old(effects)
        else if f.Loaded? then
          user == Some(s.user) && session == Some(s) && profile == Some(f.profile) &&
          storage == CacheWrite(AfterRead(old(storage), a), Some(f.profile), now) &&
          effects == old(effects) + [ProfileLoad(s.user.id, f.writes)]
        else
          user.None? && session.None? && profile.None? &&
          storage == CacheWrite(AfterRead(old(storage), a), None, now) &&
          effects == old(effects) + FatalEffects(s.user.id, f)
    {
      match reply {
        case SessionError =>
        case NoSession =>
          SetCachedProfile(None, now);
        case Active(s) =>
          session := Some(s);
          user := Some(s.user);
          var cached := GetCachedProfile(s.user.id, now);
          if cached.Some? {
            profile := cached;
          } else {
            var _ := LoadOrSignOut(s.user.id, s.user.email, true, now, b);
          }
      }
      loading := false;
    }

    /** The `onAuthStateChange` handler. A valid cached profile is used, and on
        USER_UPDATED reloaded with forceSync; without one, SIGNED_IN,
        SIGNED_OUT, USER_UPDATED and INITIAL_SESSION load (forceSync on
        SIGNED_IN and USER_UPDATED) and every other event loads without
        forceSync, because the captured `profile` is null. An event without a
        user clears profile and cache. The background reload of USER_UPDATED
        is taken to finish before the next event. */
    method OnAuthStateChange(event: AuthEvent, s: Option<Session>, now: int, b: ProfileBackend)
      modifies this
      ensures !loading
      ensures s.None? ==>
        user.None? && session.None? && profile.None? &&
        storage == CacheWrite(old(storage), None, now) && effects == old(effects)
      ensures s.Some? ==>
        var u := s.value.user;
        var a := CacheRead(old(storage), u.id, now);
        var force := event == SignedIn || event == UserUpdated;
        var f := FetchProfile(u.id, u.email, if a.Hit? then true else force, b);
        if a.Hit? && event != UserUpdated then
          user == Some(u) && session == s && profile == Some(a.profile) &&
          storage == old(storage) && effects == old(effects)
        else if f.Loaded? then
          user == Some(u) && session == s && profile == Some(f.profile) &&
          storage == CacheWrite(AfterRead(old(storage), a), Some(f.profile), now) &&
          effects == old(effects) + [ProfileLoad(u.id, f.writes)]
        else
          user.None? && session.None? && profile.None? &&
          storage == CacheWrite(AfterRead(old(storage), a), None, now) &&
          effects == old(effects) + FatalEffects(u.id, f)
    {
      // the `profile` the handler reads is the one captured when it was
      // subscribed, at mount, which is null
      var capturedProfile: Option<Profile> := None;
      session := s;
      user := if s.Some? then Some(s.value.user) else None;
      if s.Some? {
        var u := s.value.user;
        var cached := GetCachedProfile(u.id, now);
        if cached.Some? {
          profile := cached;
          if event == UserUpdated {
            var _ := LoadOrSignOut(u.id, u.email, true, now, b);
          }
        } else if event == SignedIn || event == SignedOut || event == UserUpdated || event == InitialSession {
          var _ := LoadOrSignOut(u.id, u.email, event == SignedIn || event == UserUpdated, now, b);
        } else if event == TokenRefreshed || capturedProfile.None? {
          var _ := LoadOrSignOut(u.id, u.email, false, now, b);
        }
      } else {
        profile := None;
        SetCachedProfile(None, now);
      }
      loading := false;
    }

    /** `signOut`: the backend sign-out, then user, session and profile become
        null; both cache keys are removed whether or not the backend call
        threw, and the browser goes to '/'. When it throws the in-memory
        fields are left as they were. */
    method SignOut(backendThrows: bool)
      modifies this
      ensures storage == old(storage) - {ProfileKey, TimestampKey}
      ensures effects == old(effects) + [BackendSignOut, Navigate("/")]
      ensures !backendThrows ==> user.None? && session.None? && profile.None?
      ensures backendThrows ==> user == old(user) && session == old(session) && profile == old(profile)
      ensures loading == old(loading)
    {
      effects := effects + [BackendSignOut];
      if !backendThrows {
        user, session, profile := None, None, None;
      }
      storage := storage - {ProfileKey, TimestampKey};
      effects := effects + [Navigate("/")];
    }

    /** `refreshProfile(force)`: resolve the user (state first, else the
        backend's `getUser` answer); unless forced, a valid cached profile is
        returned without querying; otherwise load with forceSync, or sign out. */
    method RefreshProfile(force: bool, sessionUser: Option<User>, now: int, b: ProfileBackend)
      returns (r: Option<Profile>)
      modifies this
      ensures var cu := if old(user).Some? then old(user) else sessionUser;
        if cu.None? then
          r.None? && user == old(user) && session == old(session) && profile == old(profile) &&
          storage == old(storage) && effects == old(effects)
        else
          var a := if force then Miss(false) else CacheRead(old(storage), cu.value.id, now);
          var f := FetchProfile(cu.value.id, cu.value.email, true, b);
          if a.Hit? then
            r == Some(a.profile) && profile == r && user == old(user) && session == old(session) &&
            storage == old(storage) && effects == old(effects)
          else if f.Loaded? then
            r == Some(f.profile) && profile == r && user == old(user) && session == old(session) &&
            storage == CacheWrite(AfterRead(old(storage), a), r, now) &&
            effects == old(effects) + [ProfileLoad(cu.value.id, f.writes)]
          else
            r.None? && user.None? && session.None? && profile.None? &&
            storage == CacheWrite(AfterRead(old(storage), a), None, now) &&
            effects == old(effects) + FatalEffects(cu.value.id, f)
      ensures loading == old(loading)
    {
      var currentUser := user;
      if currentUser.None? {
        currentUser := sessionUser;
      }
      if currentUser.None? {
        return None;
      }
      var cu := currentUser.value;
      if !force {
        var cached := GetCachedProfile(cu.id, now);
        if cached.Some? {
          profile := cached;
          return cached;
        }
      }
      r := LoadOrSignOut(cu.id, cu.email, true, now, b);
    }

    /** `updateProfile(changes)`: without a user nothing happens and the answer
        is false; otherwise the update is sent for the user's id, and only a
        returned row replaces the profile in state and cache. */
    method UpdateProfile(changes: ProfileChanges, reply: Reply<Profile>, now: int) returns (ok: bool)
      modifies this
      ensures old(user).None? ==> !ok && effects == old(effects)
      ensures old(user).Some? ==> effects == old(effects) + [ProfileUpdate(old(user).value.id, changes)]
      ensures ok <==> old(user).Some? && reply.Row?
      ensures ok ==> profile == Some(reply.row) && storage == CacheWrite(old(storage), Some(reply.row), now)
      ensures !ok ==> profile == old(profile) && storage == old(storage)
      ensures user == old(user) && session == old(session) && loading == old(loading)
    {
      if user.None? {
        return false;
      }
      effects := effects + [ProfileUpdate(user.value.id, changes)];
      if reply.Row? {
        profile := Some(reply.row);
        SetCachedProfile(Some(reply.row), now);
        ok := true;
      } else {
        ok := false;
      }
    }
  }
}
