/**
 * The page that creates a listing: contact fields prefilled once from the
 * profile, the image selection capped at ten, removal by position, and the
 * submit that uploads the images first, then checks the sign-in and the
 * required fields in a fixed order, and finally inserts the row.
 */
module NewListing {
  import opened Common
  import opened Types
  import opened ListingForm

  /** The form as the page opens: everything empty, a condo for sale. */
  const InitialForm := Form("", "", "", "condo", "sale", "", "", "", "", "", "", "", "", "", "", "", "")

  const SignInHref := "/auth/signin?redirect=/listings/new"

  /** The page's redirect when auth has settled without a user. */
  function NewListingRedirect(authLoading: bool, user: Option<User>): (r: Option<string>)
    ensures r.Some? <==> !authLoading && user.None?
    ensures r.Some? ==> r.value == SignInHref
  {
    if !authLoading && user.None? then Some(SignInHref) else None
  }

  /** `prev || fallback || ''`. */
  function KeepOr(prev: string, fallback: Option<string>): (r: string)
    ensures prev != "" ==> r == prev
    ensures prev == "" ==> r == OrEmpty(fallback)
  {
    if prev != "" then prev else OrEmpty(fallback)
  }

  /** The contact fields after the prefill: each one still empty takes the
      profile's value (the e-mail the account's first, then the profile's). */
  function PrefilledContacts(f: Form, p: Profile, user: Option<User>): (g: Form)
    ensures g.contactName == KeepOr(f.contactName, p.fullName)
    ensures g.contactPhone == KeepOr(f.contactPhone, p.phone)
    ensures g.contactEmail == KeepOr(f.contactEmail, if user.Some? && Truthy(user.value.email) then user.value.email else p.email)
    ensures g.contactFacebook == KeepOr(f.contactFacebook, p.facebook)
    ensures g.contactLine == KeepOr(f.contactLine, p.line)
    ensures g.(contactName := f.contactName, contactPhone := f.contactPhone, contactEmail := f.contactEmail,
               contactFacebook := f.contactFacebook, contactLine := f.contactLine) == f
  {
    f.(contactName := KeepOr(f.contactName, p.fullName),
       contactPhone := KeepOr(f.contactPhone, p.phone),
       contactEmail := KeepOr(f.contactEmail, if user.Some? && Truthy(user.value.email) then user.value.email else p.email),
       contactFacebook := KeepOr(f.contactFacebook, p.facebook),
       contactLine := KeepOr(f.contactLine, p.line))
  }

  /** The prefill never overwrites what the user typed: a non-empty field is
      kept, and every field other than the five contact fields is untouched. */
  lemma PrefillKeepsTyped(f: Form, p: Profile, user: Option<User>, name: FieldName)
    requires FieldValue(f, name) != "" || name !in {ContactNameField, ContactPhoneField, ContactEmailField, ContactFacebookField, ContactLineField}
    ensures FieldValue(PrefilledContacts(f, p, user), name) == FieldValue(f, name)
  {
  }

  /** A check the submit can fail, in the order the page runs them. */
  datatype Problem =
    | SignInRequired | TitleMissing | PriceInvalid | AddressMissing
    | DistrictMissing | ProvinceMissing | ContactNameMissing | ContactPhoneMissing

  /** The price check: empty text, or a number that is not positive. A text
      that does not parse (NaN) is not `<= 0`, so it passes. */
  function PriceRejected(price: string, parseFloat: string -> Option<real>): (r: bool)
    ensures price == "" ==> r
    ensures price != "" && parseFloat(price).None? ==> !r
    ensures price != "" && parseFloat(price).Some? ==> (r <==> parseFloat(price).value <= 0.0)
  {
    price == "" || (parseFloat(price).Some? && parseFloat(price).value <= 0.0)
  }

  /** The checks in the order the page runs them. */
  const Checks: seq<Problem> := [SignInRequired, TitleMissing, PriceInvalid, AddressMissing,
                                 DistrictMissing, ProvinceMissing, ContactNameMissing, ContactPhoneMissing]

  /** Where a check stands in `Checks`. */
  function CheckIndex(p: Problem): (k: nat)
    ensures k < |Checks| && Checks[k] == p
  {
    match p
    case SignInRequired => 0
    case TitleMissing => 1
    case PriceInvalid => 2
    case AddressMissing => 3
    case DistrictMissing => 4
    case ProvinceMissing => 5
    case ContactNameMissing => 6
    case ContactPhoneMissing => 7
  }

  /** Whether one check fails. */
  predicate Fails(user: Option<User>, f: Form, parseFloat: string -> Option<real>, p: Problem) {
    match p
    case SignInRequired => user.None?
    case TitleMissing => Trim(f.title) == ""
    case PriceInvalid => PriceRejected(f.price, parseFloat)
    case AddressMissing => Trim(f.address) == ""
    case DistrictMissing => Trim(f.district) == ""
    case ProvinceMissing => Trim(f.province) == ""
    case ContactNameMissing => Trim(f.contactName) == ""
    case ContactPhoneMissing => Trim(f.contactPhone) == ""
  }

  /** The checks of cs that fail, in the order of cs. */
  function Failing(cs: seq<Problem>, user: Option<User>, f: Form, parseFloat: string -> Option<real>): (ps: seq<Problem>)
    ensures forall q :: q in ps <==> q in cs && Fails(user, f, parseFloat, q)
    ensures |ps| <= |cs|
  {
    if cs == [] then []
    else (if Fails(user, f, parseFloat, cs[0]) then [cs[0]] else []) + Failing(cs[1..], user, f, parseFloat)
  }

  /** The first failing check of cs heads the list of failing ones. */
  lemma {:induction false} FailingStartsAt(cs: seq<Problem>, user: Option<User>, f: Form, parseFloat: string -> Option<real>, k: nat)
    requires k < |cs| && Fails(user, f, parseFloat, cs[k])
    requires forall j :: 0 <= j < k ==> !Fails(user, f, parseFloat, cs[j])
    ensures Failing(cs, user, f, parseFloat) != [] && Failing(cs, user, f, parseFloat)[0] == cs[k]
    decreases k
  {
    if k > 0 {
      assert !Fails(user, f, parseFloat, cs[0]);
      forall j | 0 <= j < k - 1 ensures !Fails(user, f, parseFloat, cs[1..][j]) {
        assert cs[1..][j] == cs[j + 1];
      }
      FailingStartsAt(cs[1..], user, f, parseFloat, k - 1);
    }
  }

  /** When no check of cs fails, nothing is listed. */
  lemma {:induction false} NoneFailing(cs: seq<Problem>, user: Option<User>, f: Form, parseFloat: string -> Option<real>)
    requires forall q :: !Fails(user, f, parseFloat, q)
    ensures Failing(cs, user, f, parseFloat) == []
  {
    if cs != [] {
      NoneFailing(cs[1..], user, f, parseFloat);
    }
  }

  /** Every check that fails, in order; an independent statement of the
      whole validation. */
  function Problems(user: Option<User>, f: Form, parseFloat: string -> Option<real>): (ps: seq<Problem>)
    ensures forall q :: q in ps <==> Fails(user, f, parseFloat, q)
    ensures |ps| <= |Checks|
  {
    assert forall q :: Checks[CheckIndex(q)] == q;
    Failing(Checks, user, f, parseFloat)
  }

  /** The row the insert sends: the shared columns, the rounded price (null
      when the price text is NaN) and the owner. */
  datatype NewRow = NewRow(details: Details, price: Option<int>, userId: string)

  function RoundedPrice(price: string, parseFloat: string -> Option<real>): (r: Option<int>)
    ensures parseFloat(price).None? ==> r.None?
    ensures parseFloat(price).Some? ==> r == Some(MathRound(parseFloat(price).value))
  {
    if parseFloat(price).Some? then Some(MathRound(parseFloat(price).value)) else None
  }

  /** When check k is the first to fail, it heads `Problems`. */
  lemma FirstProblemIs(user: Option<User>, f: Form, parseFloat: string -> Option<real>, k: nat)
    requires k < |Checks| && Fails(user, f, parseFloat, Checks[k])
    requires forall j :: 0 <= j < k ==> !Fails(user, f, parseFloat, Checks[j])
    ensures Problems(user, f, parseFloat) != [] && Problems(user, f, parseFloat)[0] == Checks[k]
  {
    FailingStartsAt(Checks, user, f, parseFloat, k);
  }

  /** When every check passes, nothing is listed. */
  lemma NoProblems(user: Option<User>, f: Form, parseFloat: string -> Option<real>)
    requires user.Some? && Trim(f.title) != "" && !PriceRejected(f.price, parseFloat) && Trim(f.address) != ""
    requires Trim(f.district) != "" && Trim(f.province) != "" && Trim(f.contactName) != "" && Trim(f.contactPhone) != ""
    ensures Problems(user, f, parseFloat) == []
  {
    assert forall q :: !Fails(user, f, parseFloat, q);
    NoneFailing(Checks, user, f, parseFloat);
  }

  datatype Verdict = Rejected(problem: Problem) | Accepted(row: NewRow)

  /** `handleSubmit` after the upload: the early returns in the page's order,
      then the row. */
  function SubmitVerdict(user: Option<User>, f: Form, urls: seq<string>,
                         parseFloat: string -> Option<real>, parseInt: string -> Option<int>): (v: Verdict)
    ensures v.Rejected? <==> Problems(user, f, parseFloat) != []
    ensures v.Rejected? ==> v.problem == Problems(user, f, parseFloat)[0]
    ensures v.Accepted? ==>
      v.row == NewRow(FormDetails(f, urls, parseFloat, parseInt), RoundedPrice(f.price, parseFloat), user.value.id)
  {
    if user.None? then FirstProblemIs(user, f, parseFloat, 0); Rejected(SignInRequired)
    else if Trim(f.title) == "" then FirstProblemIs(user, f, parseFloat, 1); Rejected(TitleMissing)
    else if PriceRejected(f.price, parseFloat) then FirstProblemIs(user, f, parseFloat, 2); Rejected(PriceInvalid)
    else if Trim(f.address) == "" then FirstProblemIs(user, f, parseFloat, 3); Rejected(AddressMissing)
    else if Trim(f.district) == "" then FirstProblemIs(user, f, parseFloat, 4); Rejected(DistrictMissing)
    else if Trim(f.province) == "" then FirstProblemIs(user, f, parseFloat, 5); Rejected(ProvinceMissing)
    else if Trim(f.contactName) == "" then FirstProblemIs(user, f, parseFloat, 6); Rejected(ContactNameMissing)
    else if Trim(f.contactPhone) == "" then FirstProblemIs(user, f, parseFloat, 7); Rejected(ContactPhoneMissing)
    else
      NoProblems(user, f, parseFloat);
      Accepted(NewRow(FormDetails(f, urls, parseFloat, parseInt), RoundedPrice(f.price, parseFloat), user.value.id))
  }

  /** An accepted row has every required text column non-empty and trimmed,
      belongs to the signed-in user, carries the uploaded images, and has a
      price that is null or not negative. */
  lemma AcceptedRowIsWellFormed(user: Option<User>, f: Form, urls: seq<string>,
                                parseFloat: string -> Option<real>, parseInt: string -> Option<int>)
    requires SubmitVerdict(user, f, urls, parseFloat, parseInt).Accepted?
    ensures var row := SubmitVerdict(user, f, urls, parseFloat, parseInt).row;
      var d := row.details;
      user.Some? && row.userId == user.value.id && d.images == urls &&
      d.title != "" && d.address != "" && d.district != "" && d.province != "" &&
      d.contactName != "" && d.contactPhone != "" &&
      Clean(d.title) && Clean(d.address) && Clean(d.contactPhone) &&
      (row.price.Some? ==> row.price.value >= 0)
  {
    if parseFloat(f.price).Some? {
      MathRoundFacts(0, parseFloat(f.price).value);
    }
  }

  /** A price that does not parse as a number passes the check and is stored as null. */
  lemma NonNumericPriceIsStoredAsNull(user: Option<User>, f: Form, urls: seq<string>,
                                      parseFloat: string -> Option<real>, parseInt: string -> Option<int>)
    requires f.price != "" && parseFloat(f.price).None?
    requires SubmitVerdict(user, f, urls, parseFloat, parseInt).Accepted?
    ensures SubmitVerdict(user, f, urls, parseFloat, parseInt).row.price.None?
  {
  }

  /** A positive price below one half passes the check and is stored as 0. */
  lemma TinyPriceIsStoredAsZero(user: Option<User>, f: Form, urls: seq<string>,
                                parseFloat: string -> Option<real>, parseInt: string -> Option<int>)
    requires parseFloat(f.price).Some? && 0.0 < parseFloat(f.price).value < 0.5
    requires SubmitVerdict(user, f, urls, parseFloat, parseInt).Accepted?
    ensures SubmitVerdict(user, f, urls, parseFloat, parseInt).row.price == Some(0)
  {
    MathRoundFacts(0, parseFloat(f.price).value);
  }

  /** The alert each failed check shows. The phone check shows its own
      message, falling back to the contact-name one when that is empty. */
  function ProblemAlert(p: Problem): (a: Alert)
    ensures a.kind == Warning
    ensures a.title == Key("newListing.validation.contactName") <==> p == ContactNameMissing || p == ContactPhoneMissing
    ensures p == ContactPhoneMissing ==>
      a.message == KeyOr("newListing.validation.contactPhoneMessage", "newListing.validation.contactNameMessage")
  {
    match p
    case SignInRequired => Alert(Key("newListing.signInRequired"), Key("newListing.signInRequiredMessage"), Warning)
    case TitleMissing => Alert(Key("newListing.validation.title"), Key("newListing.validation.titleMessage"), Warning)
    case PriceInvalid => Alert(Key("newListing.validation.price"), Key("newListing.validation.priceMessage"), Warning)
    case AddressMissing => Alert(Key("newListing.validation.address"), Key("newListing.validation.addressMessage"), Warning)
    case DistrictMissing => Alert(Key("newListing.validation.district"), Key("newListing.validation.districtMessage"), Warning)
    case ProvinceMissing => Alert(Key("newListing.validation.province"), Key("newListing.validation.provinceMessage"), Warning)
    case ContactNameMissing => Alert(Key("newListing.validation.contactName"), Key("newListing.validation.contactNameMessage"), Warning)
    case ContactPhoneMissing =>
      Alert(Key("newListing.validation.contactName"), KeyOr("newListing.validation.contactPhoneMessage", "newListing.validation.contactNameMessage"), Warning)
  }

  /** What the database answers to the insert. */
  datatype InsertReply = Inserted(id: string) | InsertError(message: string) | InsertThrew

  /** What the page does to the outside: storage writes, the insert, navigation. */
  datatype PageEffect = UploadTo(path: string) | InsertRow(row: NewRow) | Navigate(href: string)

  function UploadEffects(paths: seq<string>): (r: seq<PageEffect>)
    ensures |r| == |paths| && forall i :: 0 <= i < |r| ==> r[i] == UploadTo(paths[i])
  {
    seq(|paths|, i requires 0 <= i < |paths| => UploadTo(paths[i]))
  }

  class NewListingPage {
    var form: Form
    var hasLoadedProfile: bool
    var images: seq<ImageFile>
    /** The file each preview shows, in order. */
    var previews: seq<ImageFile>
    var loading: bool
    var alert: Option<Alert>
    var effects: seq<PageEffect>

    /** The previews match the selected files, and there are at most ten. */
    predicate Valid()
      reads this
    {
      previews == images && |images| <= MaxImages
    }

    constructor ()
      ensures form == InitialForm && !hasLoadedProfile && images == [] && previews == []
      ensures !loading && alert.None? && effects == []
      ensures Valid()
    {
      form, hasLoadedProfile := InitialForm, false;
      images, previews := [], [];
      loading, alert, effects := false, None, [];
    }

    /** The prefill effect: runs once, the first time a profile is there. */
    method Prefill(profile: Option<Profile>, user: Option<User>)
      requires Valid()
      modifies this`form, this`hasLoadedProfile
      ensures Valid()
      ensures profile.Some? && !old(hasLoadedProfile) ==>
        form == PrefilledContacts(old(form), profile.value, user) && hasLoadedProfile
      ensures !(profile.Some? && !old(hasLoadedProfile)) ==>
        form == old(form) && hasLoadedProfile == old(hasLoadedProfile)
    {
      if profile.Some? && !hasLoadedProfile {
        form := PrefilledContacts(form, profile.value, user);
        hasLoadedProfile := true;
      }
    }

    method InputChange(name: FieldName, value: string)
      requires Valid()
      modifies this`form
      ensures Valid()
      ensures form == WithField(old(form), name, value)
    {
      form := WithField(form, name, value);
    }

    /** `handleImageChange`: the selection is processed and appended, and
        the list cut to its first ten; a compression that throws shows the
        image error and keeps the list. No files (null) does nothing. */
    method HandleImageChange(files: Option<seq<ImageFile>>, compress: ImageFile -> Option<nat>)
      requires Valid()
      modifies this`images, this`previews, this`alert
      ensures files.None? ==> images == old(images) && previews == old(previews) && alert == old(alert)
      ensures files.Some? && Processed(files.value, compress).Some? ==>
        images == Take(old(images) + Processed(files.value, compress).value, MaxImages) &&
        previews == images && alert == old(alert)
      ensures files.Some? && Processed(files.value, compress).None? ==>
        images == old(images) && previews == old(previews) &&
        alert == Some(Alert(Key("newListing.imageError"), Key("newListing.imageError"), Error))
      ensures Valid()
    {
      if files.None? {
        return;
      }
      var processed := ProcessFiles(files.value, compress);
      if processed.None? {
        alert := Some(Alert(Key("newListing.imageError"), Key("newListing.imageError"), Error));
        return;
      }
      images := Take(images + processed.value, MaxImages);
      previews := images;
    }

    /** `removeImage(index)`: position `index` leaves both lists, the rest keep their order. */
    method RemoveImage(index: int)
      requires Valid()
      modifies this`images, this`previews
      ensures images == RemoveAt(old(images), index) && previews == RemoveAt(old(previews), index)
      ensures Valid()
    {
      images := RemoveAt(images, index);
      previews := RemoveAt(previews, index);
    }

    /** `handleSubmit`: the images are uploaded first, whatever follows;
        then the checks run in order and the first failure shows its alert
        (a missing user also redirects to sign-in); otherwise the row is
        inserted and the page goes to the new listing, or shows the error. */
    method HandleSubmit(user: Option<User>, tries: seq<UploadTry>, parseFloat: string -> Option<real>,
                        parseInt: string -> Option<int>, reply: InsertReply)
      requires Valid() && |tries| == |images|
      modifies this`loading, this`alert, this`effects
      ensures Valid()
      ensures |effects| <= |old(effects)| + MaxImages + 2
      ensures var uploads := UploadEffects(UploadPaths(old(images), tries));
        var verdict := SubmitVerdict(user, old(form), UploadedUrls(tries), parseFloat, parseInt);
        effects == old(effects) + uploads + SubmitEffects(verdict, reply) &&
        alert == SubmitAlert(verdict, reply, old(alert)) &&
        loading == (verdict.Accepted? && reply.Inserted?)
    {
      loading := true;
      var urls, paths := UploadImages(images, tries);
      effects := effects + UploadEffects(paths);
      Finish(SubmitVerdict(user, form, urls, parseFloat, parseInt), reply);
    }

    /** The submit once the upload is done and the checks have run. */
    method Finish(verdict: Verdict, reply: InsertReply)
      requires Valid()
      modifies this`loading, this`alert, this`effects
      ensures Valid()
      ensures effects == old(effects) + SubmitEffects(verdict, reply)
      ensures alert == SubmitAlert(verdict, reply, old(alert))
      ensures loading == if verdict.Accepted? && reply.Inserted? then old(loading) else false
    {
      match verdict {
        case Rejected(p) =>
          alert := Some(ProblemAlert(p));
          if p == SignInRequired {
            effects := effects + [Navigate(SignInHref)];
          }
          loading := false;
        case Accepted(row) =>
          effects := effects + [InsertRow(row)];
          match reply {
            case Inserted(id) =>
              effects := effects + [Navigate("/listings/" + id)];
            case InsertError(message) =>
              alert := Some(Alert(Key("newListing.error"), if message != "" then Literal(message) else Key("newListing.errorMessage"), Error));
              loading := false;
            case InsertThrew =>
              alert := Some(Alert(Key("newListing.error"), Key("newListing.errorMessage"), Error));
              loading := false;
          }
      }
    }
  }

  /** What the submit does after the upload: a redirect to sign-in when
      there is no user, nothing more for another failed check, and for an
      accepted row the insert followed by navigation to it when it succeeds. */
  function SubmitEffects(verdict: Verdict, reply: InsertReply): (r: seq<PageEffect>)
    ensures verdict.Rejected? ==> r == (if verdict.problem == SignInRequired then [Navigate(SignInHref)] else [])
    ensures verdict.Accepted? ==> |r| >= 1 && r[0] == InsertRow(verdict.row)
    ensures verdict.Accepted? && reply.Inserted? ==> r == [InsertRow(verdict.row), Navigate("/listings/" + reply.id)]
    ensures verdict.Accepted? && !reply.Inserted? ==> r == [InsertRow(verdict.row)]
  {
    match verdict
    case Rejected(p) => if p == SignInRequired then [Navigate(SignInHref)] else []
    case Accepted(row) => [InsertRow(row)] + (if reply.Inserted? then [Navigate("/listings/" + reply.id)] else [])
  }

  /** The alert after the submit: the failed check's, the database's error
      message (or the generic one when it is empty or the insert threw), and
      no new alert after a successful insert. */
  function SubmitAlert(verdict: Verdict, reply: InsertReply, previous: Option<Alert>): (a: Option<Alert>)
    ensures verdict.Rejected? ==> a == Some(ProblemAlert(verdict.problem))
    ensures verdict.Accepted? && reply.Inserted? ==> a == previous
    ensures verdict.Accepted? && !reply.Inserted? ==> a.Some? && a.value.kind == Error && a.value.title == Key("newListing.error")
    ensures verdict.Accepted? && reply.InsertError? && reply.message != "" ==> a.value.message == Literal(reply.message)
  {
    match verdict
    case Rejected(p) => Some(ProblemAlert(p))
    case Accepted(_) =>
      match reply
      case Inserted(_) => previous
      case InsertError(message) => Some(Alert(Key("newListing.error"), if message != "" then Literal(message) else Key("newListing.errorMessage"), Error))
      case InsertThrew => Some(Alert(Key("newListing.error"), Key("newListing.errorMessage"), Error))
  }

  /** Uploads happen before the checks: a submit refused for a missing
      field has still written every image whose compression did not throw. */
  lemma RejectedSubmitMayHaveUploaded(images: seq<ImageFile>, tries: seq<UploadTry>)
    requires |tries| == |images| && forall i :: 0 <= i < |tries| ==> tries[i].UploadStored?
    ensures |UploadPaths(images, tries)| == |images|
  {
    UploadPathsCount(images, tries);
  }

  lemma {:induction false} UploadPathsCount(images: seq<ImageFile>, tries: seq<UploadTry>)
    requires |tries| == |images| && forall i :: 0 <= i < |tries| ==> !tries[i].CompressionThrew?
    ensures |UploadPaths(images, tries)| == |images|
    decreases |images|
  {
    if images != [] {
      var n := |images| - 1;
      UploadPathsCount(images[..n], tries[..n]);
    }
  }
}
