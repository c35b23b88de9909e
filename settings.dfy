/**
 * The account settings page: the profile form prefilled from the auth
 * module's profile, the update built from the fields that changed, and the
 * password change with its local checks run in order before the backend is
 * asked anything.
 *
 * Messages are the translation keys the page shows; the backend's answers
 * are parameters.
 */
module Settings {
  import opened Common
  import opened Types
  import Auth

  datatype ProfileForm = ProfileForm(fullName: string, phone: string, email: string, facebook: string, line: string)
  datatype PasswordForm = PasswordForm(current: string, newPassword: string, confirm: string)

  datatype FormField = FullNameField | PhoneField | EmailField | FacebookField | LineField
  datatype PasswordField = CurrentField | NewField | ConfirmField

  /** What the page shows in its error or success banner. */
  datatype Message =
    | NoChanges | Saved | SaveFailed
    | PasswordRequired | PasswordTooShort | PasswordMismatch | CurrentPasswordIncorrect
    | PasswordUpdateFailed(detail: string) | PasswordChanged

  /** The backend calls of the password change, in order. */
  datatype PasswordCall = VerifyPassword(email: string, password: string) | SetPassword(password: string)

  const EmptyForm := ProfileForm("", "", "", "", "")
  const EmptyPasswords := PasswordForm("", "", "")

  /** The page's redirect when auth has settled without a user. */
  function SettingsRedirect(authLoading: bool, user: Option<User>): (r: Option<string>)
    ensures r.Some? <==> !authLoading && user.None?
    ensures r.Some? ==> r.value == "/auth/signin?redirect=/settings"
  {
    if !authLoading && user.None? then Some("/auth/signin?redirect=/settings") else None
  }

  /** The form prefilled from a profile: missing values become '', and the
      e-mail prefers the account's over the profile's. */
  function PrefilledForm(p: Profile, user: Option<User>): (f: ProfileForm)
    ensures f.fullName == OrEmpty(p.fullName) && f.phone == OrEmpty(p.phone)
    ensures f.facebook == OrEmpty(p.facebook) && f.line == OrEmpty(p.line)
    ensures user.Some? && Truthy(user.value.email) ==> f.email == user.value.email.value
    ensures (user.None? || !Truthy(user.value.email)) ==> f.email == OrEmpty(p.email)
  {
    ProfileForm(
      OrEmpty(p.fullName), OrEmpty(p.phone),
      if user.Some? && Truthy(user.value.email) then user.value.email.value else OrEmpty(p.email),
      OrEmpty(p.facebook), OrEmpty(p.line))
  }

  /** An optional field of the update: sent when its trimmed value differs
      from the stored value (or ''), as the trimmed value or null when empty. */
  function OptionalChange(input: string, stored: Option<string>): (c: Auth.Field<Option<string>>)
    ensures c.Set? <==> Trim(input) != OrEmpty(stored)
    ensures c.Set? ==> c.value == EmptyToNull(Trim(input))
  {
    if Trim(input) != OrEmpty(stored) then Auth.Set(EmptyToNull(Trim(input))) else Auth.Unset
  }

  /** The update `handleUpdateProfile` builds. It has no `id` or `email`
      field: those are never sent. */
  function ProfileDiff(form: ProfileForm, profile: Option<Profile>): (d: Auth.ProfileChanges)
    ensures var storedName := if profile.Some? then profile.value.fullName else None;
      (d.fullName.Set? <==> Trim(form.fullName) != OrEmpty(storedName)) &&
      (d.fullName.Set? ==> d.fullName.value == Trim(form.fullName))
    ensures d.phone == OptionalChange(form.phone, if profile.Some? then profile.value.phone else None)
    ensures d.facebook == OptionalChange(form.facebook, if profile.Some? then profile.value.facebook else None)
    ensures d.line == OptionalChange(form.line, if profile.Some? then profile.value.line else None)
  {
    var p := if profile.Some? then profile.value else Profile("", None, None, None, None, None, None);
    Auth.ProfileChanges(
      if Trim(form.fullName) != OrEmpty(p.fullName) then Auth.Set(Trim(form.fullName)) else Auth.Unset,
      OptionalChange(form.phone, p.phone),
      OptionalChange(form.facebook, p.facebook),
      OptionalChange(form.line, p.line))
  }

  const NothingChanged := Auth.ProfileChanges(Auth.Unset, Auth.Unset, Auth.Unset, Auth.Unset)

  /** A stored value that trimming would not change (or none at all). */
  predicate Trimmed(o: Option<string>) {
    o.None? || Trim(o.value) == o.value
  }

  lemma OptionalUnchanged(o: Option<string>)
    requires Trimmed(o)
    ensures OptionalChange(OrEmpty(o), o) == Auth.Unset
  {
    if o.None? {
      TrimUnchanged("");
    }
  }

  /** A form that shows the profile as prefilled, untouched, changes nothing
      (the e-mail is not part of the update). */
  lemma PrefilledFormChangesNothing(p: Profile, user: Option<User>)
    requires Trimmed(p.fullName) && Trimmed(p.phone) && Trimmed(p.facebook) && Trimmed(p.line)
    ensures ProfileDiff(PrefilledForm(p, user), Some(p)) == NothingChanged
  {
    OptionalUnchanged(p.fullName);
    OptionalUnchanged(p.phone);
    OptionalUnchanged(p.facebook);
    OptionalUnchanged(p.line);
  }

  /** The local password checks, first failure first. */
  function PasswordProblem(pw: PasswordForm): (m: Option<Message>)
    ensures m == Some(PasswordRequired) <==> pw.current == "" || pw.newPassword == ""
    ensures m == Some(PasswordTooShort) <==> pw.current != "" && pw.newPassword != "" && |pw.newPassword| < 6
    ensures m == Some(PasswordMismatch) <==> pw.current != "" && |pw.newPassword| >= 6 && pw.newPassword != pw.confirm
    ensures m.None? <==> pw.current != "" && |pw.newPassword| >= 6 && pw.newPassword == pw.confirm
  {
    if pw.current == "" || pw.newPassword == "" then Some(PasswordRequired)
    else if |pw.newPassword| < 6 then Some(PasswordTooShort)
    else if pw.newPassword != pw.confirm then Some(PasswordMismatch)
    else None
  }

  class SettingsPage {
    var form: ProfileForm
    var passwords: PasswordForm
    var error: Option<Message>
    var success: Option<Message>
    var saving: bool
    var calls: seq<PasswordCall>

    constructor ()
      ensures form == EmptyForm && passwords == EmptyPasswords
      ensures error.None? && success.None? && !saving && calls == []
    {
      form, passwords := EmptyForm, EmptyPasswords;
      error, success, saving := None, None, false;
      calls := [];
    }

    /** The prefill effect, run whenever the profile or user changes. */
    method Prefill(profile: Option<Profile>, user: Option<User>)
      modifies this`form
      ensures profile.Some? ==> form == PrefilledForm(profile.value, user)
      ensures profile.None? ==> form == old(form)
    {
      if profile.Some? {
        form := PrefilledForm(profile.value, user);
      }
    }

    /** `handleInputChange`: one field takes the value; both banners clear. */
    method InputChange(field: FormField, value: string)
      modifies this`form, this`error, this`success
      ensures form == match field
        case FullNameField => old(form).(fullName := value)
        case PhoneField => old(form).(phone := value)
        case EmailField => old(form).(email := value)
        case FacebookField => old(form).(facebook := value)
        case LineField => old(form).(line := value)
      ensures error.None? && success.None?
    {
      match field {
        case FullNameField => form := form.(fullName := value);
        case PhoneField => form := form.(phone := value);
        case EmailField => form := form.(email := value);
        case FacebookField => form := form.(facebook := value);
        case LineField => form := form.(line := value);
      }
      error, success := None, None;
    }

    /** `handlePasswordChange`: one password field takes the value; both banners clear. */
    method PasswordInput(field: PasswordField, value: string)
      modifies this`passwords, this`error, this`success
      ensures passwords == match field
        case CurrentField => old(passwords).(current := value)
        case NewField => old(passwords).(newPassword := value)
        case ConfirmField => old(passwords).(confirm := value)
      ensures error.None? && success.None?
    {
      match field {
        case CurrentField => passwords := passwords.(current := value);
        case NewField => passwords := passwords.(newPassword := value);
        case ConfirmField => passwords := passwords.(confirm := value);
      }
      error, success := None, None;
    }

    /** `handleUpdateProfile`: with nothing changed the page says so and the
        auth module is not called; otherwise the update goes through the auth
        module's `updateProfile` and its answer picks the banner. */
    method HandleUpdateProfile(auth: Auth.AuthProvider, reply: Reply<Profile>, now: int)
      modifies this`error, this`success, this`saving, auth
      ensures ProfileDiff(old(form), old(auth.profile)) == NothingChanged ==>
        error == Some(NoChanges) && success.None? &&
        auth.profile == old(auth.profile) && auth.storage == old(auth.storage) && auth.effects == old(auth.effects)
      ensures ProfileDiff(old(form), old(auth.profile)) != NothingChanged && old(auth.user).Some? ==>
        auth.effects == old(auth.effects) + [Auth.ProfileUpdate(old(auth.user).value.id, ProfileDiff(old(form), old(auth.profile)))]
      ensures ProfileDiff(old(form), old(auth.profile)) != NothingChanged && old(auth.user).Some? && reply.Row? ==>
        auth.profile == Some(reply.row) && auth.storage == Auth.CacheWrite(old(auth.storage), Some(reply.row), now) &&
        success == Some(Saved) && error.None?
      ensures ProfileDiff(old(form), old(auth.profile)) != NothingChanged && !(old(auth.user).Some? && reply.Row?) ==>
        auth.profile == old(auth.profile) && auth.storage == old(auth.storage) && error == Some(SaveFailed) && success.None?
      ensures old(auth.user).None? ==> auth.effects == old(auth.effects)
      ensures auth.user == old(auth.user) && auth.session == old(auth.session)
      ensures !saving
    {
      Submit(auth, ProfileDiff(form, auth.profile), reply, now);
    }

    /** `handleUpdateProfile` once the update is built: an empty one is
        refused locally, any other goes through the auth module. */
    method Submit(auth: Auth.AuthProvider, d: Auth.ProfileChanges, reply: Reply<Profile>, now: int)
      modifies this`error, this`success, this`saving, auth
      ensures d == NothingChanged ==>
        error == Some(NoChanges) && success.None? &&
        auth.profile == old(auth.profile) && auth.storage == old(auth.storage) && auth.effects == old(auth.effects)
      ensures d != NothingChanged && old(auth.user).Some? ==>
        auth.effects == old(auth.effects) + [Auth.ProfileUpdate(old(auth.user).value.id, d)]
      ensures d != NothingChanged && old(auth.user).Some? && reply.Row? ==>
        auth.profile == Some(reply.row) && auth.storage == Auth.CacheWrite(old(auth.storage), Some(reply.row), now) &&
        success == Some(Saved) && error.None?
      ensures d != NothingChanged && !(old(auth.user).Some? && reply.Row?) ==>
        auth.profile == old(auth.profile) && auth.storage == old(auth.storage) && error == Some(SaveFailed) && success.None?
      ensures old(auth.user).None? ==> auth.effects == old(auth.effects)
      ensures auth.user == old(auth.user) && auth.session == old(auth.session)
      ensures !saving
    {
      saving, error, success := true, None, None;
      if d == NothingChanged {
        error := Some(NoChanges);
        saving := false;
        return;
      }
      var ok := auth.UpdateProfile(d, reply, now);
      if ok {
        success := Some(Saved);
      } else {
        error := Some(SaveFailed);
      }
      saving := false;
    }

    /** `handleChangePassword`: the local checks first, then the current
        password is verified by signing in with the account's e-mail, then
        the new password is set. A failure at any step shows its message and
        sends nothing further; success clears all three password fields. */
    method HandleChangePassword(user: Option<User>, signInFails: bool, updateError: Option<string>)
      modifies this`error, this`success, this`saving, this`passwords, this`calls
      ensures var problem := PasswordProblem(old(passwords));
        var email := if user.Some? && Truthy(user.value.email) then user.value.email.value else "";
        var verify := VerifyPassword(email, old(passwords).current);
        if problem.Some? then
          error == problem && success.None? && calls == old(calls) && passwords == old(passwords)
        else if signInFails then
          error == Some(CurrentPasswordIncorrect) && success.None? &&
          calls == old(calls) + [verify] && passwords == old(passwords)
        else if updateError.Some? then
          error == Some(PasswordUpdateFailed(updateError.value)) && success.None? &&
          calls == old(calls) + [verify, SetPassword(old(passwords).newPassword)] && passwords == old(passwords)
        else
          success == Some(PasswordChanged) && error.None? &&
          calls == old(calls) + [verify, SetPassword(old(passwords).newPassword)] && passwords == EmptyPasswords
      ensures !saving
    {
      saving, error, success := true, None, None;
      var problem := PasswordProblem(passwords);
      if problem.Some? {
        error := problem;
        saving := false;
        return;
      }
      var email := if user.Some? && Truthy(user.value.email) then user.value.email.value else "";
      calls := calls + [VerifyPassword(email, passwords.current)];
      if signInFails {
        error := Some(CurrentPasswordIncorrect);
        saving := false;
        return;
      }
      calls := calls + [SetPassword(passwords.newPassword)];
      if updateError.Some? {
        error := Some(PasswordUpdateFailed(updateError.value));
        saving := false;
        return;
      }
      success := Some(PasswordChanged);
      passwords := EmptyPasswords;
      saving := false;
    }
  }
}
