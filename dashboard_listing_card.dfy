/**
 * The owner's card on the dashboard: its menu, the delete confirmation
 * (a POST to the delete route with the session's bearer token) and the
 * featured toggle (an update filtered by listing and owner). The labels
 * and image are the listing card's.
 */
module DashboardListingCard {
  import opened Common
  import opened Types

  /** `getSession()`: an error, no session, a session, or a throw. */
  datatype SessionCheck = SessionFailed | NoSession | GotSession(session: Session) | SessionThrew

  /** The delete route's answer: success, a refusal with the `error` and
      `details` of its JSON body, or a throw (network or body). */
  datatype DeleteReply = Deleted | DeleteRefused(error: Option<string>, details: Option<string>) | DeleteThrew

  /** `getUser()`: a user, none, or a throw. */
  datatype UserCheck = GotUser(user: User) | NoUser | UserThrew

  /** The featured update's answer. */
  datatype ToggleReply = Toggled | ToggleError(message: string) | ToggleThrew

  /** What the card asks of the outside world, in order. */
  datatype CardEffect =
    | PostDelete(url: string, authorization: string)
    | UpdateFeatured(listingId: string, userId: string, isFeatured: bool)
    | Push(href: string)
    | CallOnDelete
    | Refresh

  const SignInRequired := Alert(Key("dashboard.signInRequired"), Key("dashboard.signInRequiredMessage"), Warning)
  const GenericError := Alert(Key("dashboard.errorMessage"), Key("dashboard.errorMessage"), Error)
  const DeleteSuccess := Alert(Key("dashboard.deleteSuccess"), Key("dashboard.deleteSuccessMessage"), Success)
  const ToggleSuccess := Alert(Key("dashboard.toggleFeaturedSuccess"), Key("dashboard.toggleFeaturedSuccessMessage"), Success)

  /** The delete route of a listing. */
  function DeleteUrl(id: string): string {
    "/api/listings/" + id + "/delete"
  }

  /** What follows a successful change: the parent's callback if it gave one, else a page refresh. */
  function AfterChange(hasOnDelete: bool): (e: CardEffect)
    ensures e == CallOnDelete <==> hasOnDelete
    ensures e == Refresh <==> !hasOnDelete
  {
    if hasOnDelete then CallOnDelete else Refresh
  }

  /** The message of a refused delete: the body's `error`, else its `details`, else the generic text. */
  function RefusalMessage(error: Option<string>, details: Option<string>): (t: Text)
    ensures Truthy(error) ==> t == Literal(error.value)
    ensures !Truthy(error) && Truthy(details) ==> t == Literal(details.value)
    ensures !Truthy(error) && !Truthy(details) ==> t == Key("dashboard.errorMessage")
  {
    if Truthy(error) then Literal(error.value)
    else if Truthy(details) then Literal(details.value)
    else Key("dashboard.errorMessage")
  }

  /** The effects and alert of a delete confirmation, as a reference. */
  function DeleteEffects(id: string, hasOnDelete: bool, s: SessionCheck, r: DeleteReply): (e: seq<CardEffect>)
    ensures |e| <= 2
    ensures s.SessionThrew? <==> e == []
    ensures s.GotSession? <==> e != [] && e[0].PostDelete?
    ensures s.GotSession? ==> e[0] == PostDelete(DeleteUrl(id), "Bearer " + s.session.accessToken)
    ensures |e| == 2 <==> s.GotSession? && r.Deleted?
    ensures |e| == 2 ==> e[1] == AfterChange(hasOnDelete)
  {
    match s
    case SessionFailed => [Push("/auth/signin?redirect=/dashboard")]
    case NoSession => [Push("/auth/signin?redirect=/dashboard")]
    case SessionThrew => []
    case GotSession(session) =>
      [PostDelete(DeleteUrl(id), "Bearer " + session.accessToken)] +
      (if r.Deleted? then [AfterChange(hasOnDelete)] else [])
  }

  function DeleteAlert(s: SessionCheck, r: DeleteReply): (a: Alert)
    ensures a == DeleteSuccess <==> s.GotSession? && r.Deleted?
    ensures a == SignInRequired <==> s.SessionFailed? || s.NoSession?
    ensures s.GotSession? && r.DeleteRefused? ==> a.kind == Error && a.message == RefusalMessage(r.error, r.details)
  {
    match s
    case SessionFailed => SignInRequired
    case NoSession => SignInRequired
    case SessionThrew => GenericError
    case GotSession(_) =>
      match r
      case Deleted => DeleteSuccess
      case DeleteRefused(error, details) => Alert(Key("dashboard.errorMessage"), RefusalMessage(error, details), Error)
      case DeleteThrew => GenericError
  }

  class DashboardCard {
    const listing: Listing
    /** Whether the parent passed `onDelete`. */
    const hasOnDelete: bool
    var showMenu: bool
    var isDeleting: bool
    var isTogglingFeatured: bool
    var showDeleteConfirm: bool
    /** The alert dialog: shown with its contents, or hidden. */
    var alert: Option<Alert>
    var effects: seq<CardEffect>

    constructor (listing: Listing, hasOnDelete: bool)
      ensures this.listing == listing && this.hasOnDelete == hasOnDelete
      ensures !showMenu && !isDeleting && !isTogglingFeatured && !showDeleteConfirm
      ensures alert.None? && effects == []
    {
      this.listing := listing;
      this.hasOnDelete := hasOnDelete;
      showMenu, isDeleting, isTogglingFeatured, showDeleteConfirm := false, false, false, false;
      alert, effects := None, [];
    }

    /** `handleDeleteClick`: the menu closes and the confirmation opens. */
    method DeleteClick()
      modifies this`showMenu, this`showDeleteConfirm
      ensures !showMenu && showDeleteConfirm
    {
      showMenu := false;
      showDeleteConfirm := true;
    }

    /** `handleDeleteConfirm`. Without a session nothing is sent, the
        confirmation stays open and the page goes to sign-in; otherwise the
        delete is posted with the bearer token and the confirmation closes. */
    method DeleteConfirm(s: SessionCheck, r: DeleteReply)
      modifies this`isDeleting, this`showDeleteConfirm, this`alert, this`effects
      ensures effects == old(effects) + DeleteEffects(listing.id, hasOnDelete, s, r)
      ensures alert == Some(DeleteAlert(s, r))
      ensures showDeleteConfirm == ((s.SessionFailed? || s.NoSession?) && old(showDeleteConfirm))
      ensures !isDeleting
    {
      isDeleting := true;
      match s {
        case SessionFailed =>
          alert := Some(SignInRequired);
          isDeleting := false;
          effects := effects + [Push("/auth/signin?redirect=/dashboard")];
        case NoSession =>
          alert := Some(SignInRequired);
          isDeleting := false;
          effects := effects + [Push("/auth/signin?redirect=/dashboard")];
        case SessionThrew =>
          showDeleteConfirm := false;
          alert := Some(GenericError);
        case GotSession(session) =>
          effects := effects + [PostDelete(DeleteUrl(listing.id), "Bearer " + session.accessToken)];
          showDeleteConfirm := false;
          match r {
            case Deleted =>
              alert := Some(DeleteSuccess);
              effects := effects + [AfterChange(hasOnDelete)];
            case DeleteRefused(error, details) =>
              alert := Some(Alert(Key("dashboard.errorMessage"), RefusalMessage(error, details), Error));
            case DeleteThrew =>
              alert := Some(GenericError);
          }
      }
      isDeleting := false;
    }

    /** `handleToggleFeatured`: with a user, the update flips the flag for
        this listing and this owner only; the menu closes in every case. */
    method ToggleFeatured(u: UserCheck, r: ToggleReply)
      modifies this`isTogglingFeatured, this`showMenu, this`alert, this`effects
      ensures !showMenu && !isTogglingFeatured
      ensures u.NoUser? ==> effects == old(effects) && alert == Some(SignInRequired)
      ensures u.UserThrew? ==> effects == old(effects) && alert == Some(GenericError)
      ensures u.GotUser? ==>
        effects == old(effects) + [UpdateFeatured(listing.id, u.user.id, !listing.isFeatured)] +
          (if r.Toggled? then [AfterChange(hasOnDelete)] else [])
      ensures u.GotUser? && r.Toggled? ==> alert == Some(ToggleSuccess)
      ensures u.GotUser? && r.ToggleError? ==> alert == Some(Alert(Key("dashboard.errorMessage"), Literal(r.message), Error))
      ensures u.GotUser? && r.ToggleThrew? ==> alert == Some(GenericError)
    {
      isTogglingFeatured := true;
      showMenu := false;
      match u {
        case NoUser =>
          alert := Some(SignInRequired);
          isTogglingFeatured := false;
          return;
        case UserThrew =>
          alert := Some(GenericError);
        case GotUser(user) =>
          effects := effects + [UpdateFeatured(listing.id, user.id, !listing.isFeatured)];
          match r {
            case ToggleError(message) =>
              alert := Some(Alert(Key("dashboard.errorMessage"), Literal(message), Error));
            case Toggled =>
              alert := Some(ToggleSuccess);
              effects := effects + [AfterChange(hasOnDelete)];
            case ToggleThrew =>
              alert := Some(GenericError);
          }
      }
      isTogglingFeatured := false;
    }
  }

  /** No request leaves the card without a session: the only effect is the
      redirect to sign-in, which comes back to the dashboard. */
  lemma NoSessionNoRequest(id: string, hasOnDelete: bool, s: SessionCheck, r: DeleteReply)
    requires s.SessionFailed? || s.NoSession?
    ensures DeleteEffects(id, hasOnDelete, s, r) == [Push("/auth/signin?redirect=/dashboard")]
    ensures DeleteAlert(s, r).kind == Warning
  {
  }

  /** A delete is posted exactly when a session was obtained, to the
      listing's own route, with that session's token. */
  lemma DeletePostedIffSession(id: string, hasOnDelete: bool, s: SessionCheck, r: DeleteReply)
    ensures (exists e :: e in DeleteEffects(id, hasOnDelete, s, r) && e.PostDelete?) <==> s.GotSession?
    ensures s.GotSession? ==>
      DeleteEffects(id, hasOnDelete, s, r)[0] == PostDelete("/api/listings/" + id + "/delete", "Bearer " + s.session.accessToken)
  {
    if s.GotSession? {
      assert DeleteEffects(id, hasOnDelete, s, r)[0].PostDelete?;
    }
  }

  /** The parent is told (or the page refreshed) only after a delete that succeeded. */
  lemma RefreshOnlyAfterSuccess(id: string, hasOnDelete: bool, s: SessionCheck, r: DeleteReply)
    ensures AfterChange(hasOnDelete) in DeleteEffects(id, hasOnDelete, s, r) <==> s.GotSession? && r.Deleted?
  {
    var es := DeleteEffects(id, hasOnDelete, s, r);
    if s.GotSession? && !r.Deleted? {
      assert es == [PostDelete(DeleteUrl(id), "Bearer " + s.session.accessToken)];
    }
  }
}
