/**
 * The form that edits an existing listing: fields start from the listing,
 * previews show the listing's images followed by newly selected files,
 * removal works on the combined list, and the submit uploads the new files
 * (when there are any), appends their URLs to the listing's images and
 * updates the row by its id.
 */
module EditListing {
  import opened Common
  import opened Types
  import opened ListingForm

  /** The number's text for the price and area fields (`toString`): left as a parameter. */
  type NumberText = real -> string

  /** The form as it opens: every field from the listing, '' where the listing has nothing. */
  function InitialForm(l: Listing, show: NumberText): (f: Form)
    ensures f.title == l.title && f.description == OrEmpty(l.description)
    ensures f.bedrooms == (if l.bedrooms.Some? then IntToString(l.bedrooms.value) else "")
    ensures f.areaSqm == (if l.areaSqm.Some? then show(l.areaSqm.value) else "")
    ensures f.contactEmail == OrEmpty(l.contactEmail) && f.postalCode == OrEmpty(l.postalCode)
    ensures f.price == show(l.price) && f.propertyType == l.propertyType && f.transactionType == l.transactionType
    ensures f.bathrooms == (if l.bathrooms.Some? then IntToString(l.bathrooms.value) else "")
    ensures f.address == l.address && f.district == l.district && f.province == l.province
    ensures f.contactName == l.contactName && f.contactPhone == l.contactPhone
    ensures f.contactFacebook == OrEmpty(l.contactFacebook) && f.contactLine == OrEmpty(l.contactLine)
  {
    Form(
      l.title, OrEmpty(l.description), show(l.price),
      l.propertyType, l.transactionType,
      if l.bedrooms.Some? then IntToString(l.bedrooms.value) else "",
      if l.bathrooms.Some? then IntToString(l.bathrooms.value) else "",
      if l.areaSqm.Some? then show(l.areaSqm.value) else "",
      l.address, l.district, l.province, OrEmpty(l.postalCode),
      l.contactName, l.contactPhone, OrEmpty(l.contactEmail),
      OrEmpty(l.contactFacebook), OrEmpty(l.contactLine))
  }

  /** A preview: one of the listing's stored images, or a newly selected file. */
  datatype Preview = Existing(url: string) | Added(file: ImageFile)

  function ExistingPreviews(urls: seq<string>): (r: seq<Preview>)
    ensures |r| == |urls| && forall i :: 0 <= i < |r| ==> r[i] == Existing(urls[i])
  {
    seq(|urls|, i requires 0 <= i < |urls| => Existing(urls[i]))
  }

  function AddedPreviews(files: seq<ImageFile>): (r: seq<Preview>)
    ensures |r| == |files| && forall i :: 0 <= i < |r| ==> r[i] == Added(files[i])
  {
    seq(|files|, i requires 0 <= i < |files| => Added(files[i]))
  }

  /** The image list the update sends: the listing's own when no file was
      added, otherwise the listing's followed by the URLs that came back. */
  function SubmittedImages(stored: seq<string>, added: seq<ImageFile>, tries: seq<UploadTry>): (r: seq<string>)
    ensures added == [] ==> r == stored
    ensures added != [] ==> r == stored + UploadedUrls(tries)
  {
    if added == [] then stored else stored + UploadedUrls(tries)
  }

  /** The submitted list keeps the listing's images first, adds at most one
      URL per new file, and is not capped: ten stored images and one stored
      upload make eleven. */
  lemma SubmittedImagesBounds(stored: seq<string>, added: seq<ImageFile>, tries: seq<UploadTry>)
    requires |tries| == |added|
    ensures var r := SubmittedImages(stored, added, tries);
      stored <= r && |r| <= |stored| + |added|
    ensures |stored| == 10 && |added| == 1 && tries[0].UploadStored? && tries[0].publicUrl != "" ==>
      |SubmittedImages(stored, added, tries)| == 11
  {
    if |added| == 1 && tries[0].UploadStored? && tries[0].publicUrl != "" {
      assert tries[..0] == [];
    }
  }

  /** The row the update writes: the shared columns and the parsed price,
      `parseFloat(price || '0')`, without rounding (null when NaN). */
  datatype UpdateRow = UpdateRow(details: Details, price: Option<real>)

  function UpdatePayload(f: Form, images: seq<string>, parseFloat: string -> Option<real>, parseInt: string -> Option<int>): (row: UpdateRow)
    ensures row.details == FormDetails(f, images, parseFloat, parseInt)
    ensures f.price == "" ==> row.price == parseFloat("0")
    ensures f.price != "" ==> row.price == parseFloat(f.price)
  {
    UpdateRow(FormDetails(f, images, parseFloat, parseInt), parseFloat(if f.price == "" then "0" else f.price))
  }

  datatype UpdateReply = Updated | UpdateError(message: string) | UpdateThrew

  datatype FormEffect = UploadTo(path: string) | UpdateListing(id: string, row: UpdateRow) | Navigate(href: string)

  function UploadEffects(paths: seq<string>): (r: seq<FormEffect>)
    ensures |r| == |paths| && forall i :: 0 <= i < |r| ==> r[i] == UploadTo(paths[i])
  {
    seq(|paths|, i requires 0 <= i < |paths| => UploadTo(paths[i]))
  }

  /** The alert after the update: none on success, else the error. */
  function UpdateAlert(reply: UpdateReply, previous: Option<Alert>): (a: Option<Alert>)
    ensures reply.Updated? ==> a == previous
    ensures !reply.Updated? ==> a.Some? && a.value.kind == Error && a.value.title == Key("editListing.error")
    ensures reply.UpdateError? && reply.message != "" ==> a.value.message == Literal(reply.message)
    ensures (reply.UpdateError? && reply.message == "") || reply.UpdateThrew? ==> a.value.message == Key("editListing.errorMessage")
  {
    match reply
    case Updated => previous
    case UpdateError(message) => Some(Alert(Key("editListing.error"), if message != "" then Literal(message) else Key("editListing.errorMessage"), Error))
    case UpdateThrew => Some(Alert(Key("editListing.error"), Key("editListing.errorMessage"), Error))
  }

  class EditListingForm {
    const listing: Listing
    var form: Form
    /** The newly selected files, not yet uploaded. */
    var images: seq<ImageFile>
    var previews: seq<Preview>
    var loading: bool
    var alert: Option<Alert>
    var effects: seq<FormEffect>

    constructor (l: Listing, show: NumberText)
      ensures listing == l && form == InitialForm(l, show)
      ensures images == [] && previews == ExistingPreviews(l.images)
      ensures !loading && alert.None? && effects == []
    {
      listing := l;
      form := InitialForm(l, show);
      images, previews := [], ExistingPreviews(l.images);
      loading, alert, effects := false, None, [];
    }

    method InputChange(name: FieldName, value: string)
      modifies this`form
      ensures form == WithField(old(form), name, value)
    {
      form := WithField(form, name, value);
    }

    /** `handleImageChange`: new files are appended and cut to ten, and the
        previews are the listing's images followed by the new files, cut to
        ten as well; a compression that throws shows the image error. */
    method HandleImageChange(files: Option<seq<ImageFile>>, compress: ImageFile -> Option<nat>)
      modifies this`images, this`previews, this`alert
      ensures files.None? ==> images == old(images) && previews == old(previews) && alert == old(alert)
      ensures files.Some? && Processed(files.value, compress).Some? ==>
        images == Take(old(images) + Processed(files.value, compress).value, MaxImages) &&
        previews == Take(ExistingPreviews(listing.images) + AddedPreviews(images), MaxImages) &&
        alert == old(alert)
      ensures files.Some? && Processed(files.value, compress).None? ==>
        images == old(images) && previews == old(previews) &&
        alert == Some(Alert(Key("editListing.error"), Key("editListing.imageError"), Error))
      ensures |images| <= MaxImages || images == old(images)
    {
      if files.None? {
        return;
      }
      var processed := ProcessFiles(files.value, compress);
      if processed.None? {
        alert := Some(Alert(Key("editListing.error"), Key("editListing.imageError"), Error));
        return;
      }
      images := Take(images + processed.value, MaxImages);
      previews := Take(ExistingPreviews(listing.images) + AddedPreviews(images), MaxImages);
    }

    /** `removeImage(index)`. An index among the listing's images shows
        the listing's images without it, and no new files, while neither
        the listing nor the new files change. A later index removes that
        new file and shows all the listing's images and the remaining files. */
    method RemoveImage(index: int)
      modifies this`images, this`previews
      ensures index < |listing.images| ==>
        previews == ExistingPreviews(RemoveAt(listing.images, index)) && images == old(images)
      ensures index >= |listing.images| ==>
        images == RemoveAt(old(images), index - |listing.images|) &&
        previews == ExistingPreviews(listing.images) + AddedPreviews(images)
    {
      if index < |listing.images| {
        previews := ExistingPreviews(RemoveAt(listing.images, index));
      } else {
        images := RemoveAt(images, index - |listing.images|);
        previews := ExistingPreviews(listing.images) + AddedPreviews(images);
      }
    }

    /** `handleSubmit`: uploads the new files when there are any, sends the
        update for this listing's id, and goes to the listing on success or
        shows the error. */
    method HandleSubmit(tries: seq<UploadTry>, parseFloat: string -> Option<real>,
                        parseInt: string -> Option<int>, reply: UpdateReply)
      requires |tries| == |images|
      modifies this`loading, this`alert, this`effects
      ensures var uploads := if old(images) == [] then [] else UploadEffects(UploadPaths(old(images), tries));
        var row := UpdatePayload(old(form), SubmittedImages(listing.images, old(images), tries), parseFloat, parseInt);
        effects == old(effects) + uploads + [UpdateListing(listing.id, row)] +
          (if reply.Updated? then [Navigate("/listings/" + listing.id)] else [])
      ensures alert == UpdateAlert(reply, old(alert))
      ensures loading == reply.Updated?
    {
      loading := true;
      var imageUrls, uploads := UploadNew(tries);
      effects := effects + uploads;
      Finish(UpdatePayload(form, imageUrls, parseFloat, parseInt), reply);
    }

    /** The upload step of the submit: nothing when no file was added. */
    method UploadNew(tries: seq<UploadTry>) returns (imageUrls: seq<string>, uploads: seq<FormEffect>)
      requires |tries| == |images|
      ensures imageUrls == SubmittedImages(listing.images, images, tries)
      ensures uploads == if images == [] then [] else UploadEffects(UploadPaths(images, tries))
    {
      imageUrls, uploads := listing.images, [];
      if images != [] {
        var urls, paths := UploadImages(images, tries);
        uploads := UploadEffects(paths);
        imageUrls := listing.images + urls;
      }
    }

    /** The update and what follows it. */
    method Finish(row: UpdateRow, reply: UpdateReply)
      modifies this`loading, this`alert, this`effects
      ensures effects == old(effects) + [UpdateListing(listing.id, row)] +
        (if reply.Updated? then [Navigate("/listings/" + listing.id)] else [])
      ensures alert == UpdateAlert(reply, old(alert))
      ensures loading == (reply.Updated? && old(loading))
    {
      effects := effects + [UpdateListing(listing.id, row)];
      alert := UpdateAlert(reply, alert);
      if reply.Updated? {
        effects := effects + [Navigate("/listings/" + listing.id)];
      } else {
        loading := false;
      }
    }
  }

  /** Removing one of the listing's own images changes what is shown but not
      what is submitted: the update still carries every stored image. */
  lemma RemovedStoredImageIsStillSubmitted(stored: seq<string>, added: seq<ImageFile>, tries: seq<UploadTry>, index: int)
    requires 0 <= index < |stored| && |tries| == |added|
    ensures stored[index] in SubmittedImages(stored, added, tries)
    ensures |ExistingPreviews(RemoveAt(stored, index))| == |stored| - 1
  {
    var r := SubmittedImages(stored, added, tries);
    assert r[index] == stored[index];
  }

  /** Selecting more new files than the previews have room for uploads them all:
      a listing with eight images and five new files previews two of them. */
  lemma HiddenFilesAreUploaded(stored: seq<string>, added: seq<ImageFile>)
    requires |stored| == 8 && |added| == 5
    ensures |Take(ExistingPreviews(stored) + AddedPreviews(added), MaxImages)| == 10
    ensures |Take(added, MaxImages)| == 5
  {
  }
}
