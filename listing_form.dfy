/**
 * What the new-listing page and the edit form share: the seventeen form
 * fields, the image files a user selects, the '.jpg' rename applied to a
 * compressed file, the selection loop that compresses large files, the
 * upload loop that keeps only the images that reached storage, and
 * JavaScript's `Math.round`.
 */
module ListingForm {
  import opened Common

  /** The form state; every field is text as typed. */
  datatype Form = Form(
    title: string, description: string, price: string,
    propertyType: string, transactionType: string,
    bedrooms: string, bathrooms: string, areaSqm: string,
    address: string, district: string, province: string, postalCode: string,
    contactName: string, contactPhone: string, contactEmail: string,
    contactFacebook: string, contactLine: string)

  datatype FieldName =
    | TitleField | DescriptionField | PriceField | PropertyTypeField | TransactionTypeField
    | BedroomsField | BathroomsField | AreaField | AddressField | DistrictField | ProvinceField
    | PostalCodeField | ContactNameField | ContactPhoneField | ContactEmailField
    | ContactFacebookField | ContactLineField

  /** The value of one field. */
  function FieldValue(f: Form, name: FieldName): string {
    match name
    case TitleField => f.title
    case DescriptionField => f.description
    case PriceField => f.price
    case PropertyTypeField => f.propertyType
    case TransactionTypeField => f.transactionType
    case BedroomsField => f.bedrooms
    case BathroomsField => f.bathrooms
    case AreaField => f.areaSqm
    case AddressField => f.address
    case DistrictField => f.district
    case ProvinceField => f.province
    case PostalCodeField => f.postalCode
    case ContactNameField => f.contactName
    case ContactPhoneField => f.contactPhone
    case ContactEmailField => f.contactEmail
    case ContactFacebookField => f.contactFacebook
    case ContactLineField => f.contactLine
  }

  /** `{ ...prev, [name]: value }`: the named field takes the value, the others keep theirs. */
  function WithField(f: Form, name: FieldName, value: string): (g: Form)
    ensures FieldValue(g, name) == value
    ensures forall other :: other != name ==> FieldValue(g, other) == FieldValue(f, other)
  {
    match name
    case TitleField => f.(title := value)
    case DescriptionField => f.(description := value)
    case PriceField => f.(price := value)
    case PropertyTypeField => f.(propertyType := value)
    case TransactionTypeField => f.(transactionType := value)
    case BedroomsField => f.(bedrooms := value)
    case BathroomsField => f.(bathrooms := value)
    case AreaField => f.(areaSqm := value)
    case AddressField => f.(address := value)
    case DistrictField => f.(district := value)
    case ProvinceField => f.(province := value)
    case PostalCodeField => f.(postalCode := value)
    case ContactNameField => f.(contactName := value)
    case ContactPhoneField => f.(contactPhone := value)
    case ContactEmailField => f.(contactEmail := value)
    case ContactFacebookField => f.(contactFacebook := value)
    case ContactLineField => f.(contactLine := value)
  }

  /** A selected file: its name, MIME type and size in bytes. */
  datatype ImageFile = ImageFile(name: string, mime: string, size: nat)

  /** More than 1 MB (1024 * 1024 bytes) needs compression. */
  function NeedsCompression(f: ImageFile): (r: bool)
    ensures r <==> f.size > 1048576
  {
    f.size > 1024 * 1024
  }

  /** The position of the last `c` in `s`, or -1. */
  function LastIndexOf(s: string, c: char): (r: int)
    ensures -1 <= r < |s|
    ensures r == -1 <==> c !in s
    ensures r >= 0 ==> s[r] == c && c !in s[r + 1..]
  {
    if s == [] then -1
    else if s[|s| - 1] == c then |s| - 1
    else
      var r := LastIndexOf(s[..|s| - 1], c);
      assert s == s[..|s| - 1] + [s[|s| - 1]];
      LastIndexOfSnoc(s[..|s| - 1], s[|s| - 1], c, r);
      r
  }

  /** A character other than `c` appended at the end keeps the last `c`. */
  lemma LastIndexOfSnoc(init: string, x: char, c: char, r: int)
    requires x != c && -1 <= r < |init|
    requires r == -1 <==> c !in init
    requires r >= 0 ==> init[r] == c && c !in init[r + 1..]
    ensures r == -1 <==> c !in init + [x]
    ensures r >= 0 ==> (init + [x])[r] == c && c !in (init + [x])[r + 1..]
  {
    if r >= 0 {
      assert (init + [x])[r + 1..] == init[r + 1..] + [x];
    }
  }

  /** `name` ends in an extension the rename replaces: `/\.[^/.]+$/` matches. */
  function HasExtension(name: string): (r: bool)
    ensures '.' !in name ==> !r
    ensures r ==> name[|name| - 1] != '.' && name[|name| - 1] != '/'
  {
    var k := LastIndexOf(name, '.');
    if 0 <= k < |name| - 1 then
      assert name[|name| - 1] == name[k + 1..][|name| - k - 2];
      '/' !in name[k + 1..]
    else false
  }

  /** `name.replace(/\.[^/.]+$/, '.jpg')`: the last extension becomes '.jpg';
      a name without one is kept (only the file type changes). */
  function RenameToJpg(name: string): (r: string)
    ensures HasExtension(name) ==> r == name[..LastIndexOf(name, '.')] + ".jpg"
    ensures !HasExtension(name) ==> r == name
  {
    if HasExtension(name) then name[..LastIndexOf(name, '.')] + ".jpg" else name
  }

  /** `name.split('.').pop()`: what follows the last '.', or the whole name. */
  function FileExtension(name: string): (r: string)
    ensures '.' !in r
    ensures '.' !in name ==> r == name
  {
    name[LastIndexOf(name, '.') + 1..]
  }

  /** A renamed file's extension is 'jpg', and renaming again changes nothing. */
  lemma RenameToJpgIdempotent(name: string)
    requires HasExtension(name)
    ensures FileExtension(RenameToJpg(name)) == "jpg"
    ensures HasExtension(RenameToJpg(name))
    ensures RenameToJpg(RenameToJpg(name)) == RenameToJpg(name)
  {
    var k := LastIndexOf(name, '.');
    var r := name[..k] + ".jpg";
    JpgDotIsLast(name[..k]);
    assert r[k + 1..] == "jpg";
    assert '/' !in "jpg";
    assert r[..k] == name[..k];
  }

  lemma JpgDotIsLast(stem: string)
    ensures LastIndexOf(stem + ".jpg", '.') == |stem|
  {
    var withDot := stem + ['.'];
    LastIndexOfLast(withDot, '.');
    var ext := ['j', 'p', 'g'];
    assert '.' !in ext;
    LastIndexOfSkips(withDot, ext, '.');
    JpgSplit(stem);
  }

  lemma JpgSplit(stem: string)
    ensures stem + ".jpg" == stem + ['.'] + ['j', 'p', 'g']
  {
  }

  /** A string ending in `c` has its last `c` at the end. */
  lemma LastIndexOfLast(s: string, c: char)
    requires s != [] && s[|s| - 1] == c
    ensures LastIndexOf(s, c) == |s| - 1
  {
  }

  /** Appending text without `c` leaves the last `c` where it was. */
  lemma {:induction false} LastIndexOfSkips(s: string, t: string, c: char)
    requires c !in t
    ensures LastIndexOf(s + t, c) == LastIndexOf(s, c)
    decreases |t|
  {
    if t != [] {
      var init := t[..|t| - 1];
      LastIndexOfSkips(s, init, c);
      assert (s + t)[..|s + t| - 1] == s + init;
      assert (s + t)[|s + t| - 1] == t[|t| - 1];
    } else {
      assert s + t == s;
    }
  }

  /** A rename keeps every character before the extension. */
  lemma RenameKeepsStem(name: string)
    ensures var r := RenameToJpg(name);
      var k := LastIndexOf(name, '.');
      HasExtension(name) ==> r[..k] == name[..k] && |r| == k + 4
  {
  }

  /** A file as the selection passes it on: compressed files are renamed and become JPEG. */
  function Compressed(f: ImageFile, newSize: nat): (g: ImageFile)
    ensures g.mime == "image/jpeg" && g.size == newSize
    ensures g.name == RenameToJpg(f.name)
  {
    ImageFile(RenameToJpg(f.name), "image/jpeg", newSize)
  }

  /** The files a selection yields, in order; `compress` gives the size of
      the compressed file, or None when compression throws, which aborts the
      whole selection. */
  function Processed(files: seq<ImageFile>, compress: ImageFile -> Option<nat>): (r: Option<seq<ImageFile>>)
    ensures r.Some? ==> |r.value| == |files|
    decreases |files|
  {
    if files == [] then Some([])
    else
      var rest := Processed(files[..|files| - 1], compress);
      var f := files[|files| - 1];
      if rest.None? then None
      else if !NeedsCompression(f) then Some(rest.value + [f])
      else if compress(f).None? then None
      else Some(rest.value + [Compressed(f, compress(f).value)])
  }

  /** Each processed file is the selected file itself when it was small
      enough, and otherwise its compressed, renamed JPEG. */
  lemma {:induction false} ProcessedFiles(files: seq<ImageFile>, compress: ImageFile -> Option<nat>, i: int)
    requires Processed(files, compress).Some? && 0 <= i < |files|
    ensures var g := Processed(files, compress).value[i];
      if NeedsCompression(files[i]) then compress(files[i]).Some? && g == Compressed(files[i], compress(files[i]).value)
      else g == files[i]
    decreases |files|
  {
    if i < |files| - 1 {
      ProcessedFiles(files[..|files| - 1], compress, i);
    }
  }

  /** The selection fails exactly when some file that needs compression cannot be compressed. */
  lemma {:induction false} ProcessedFailsIff(files: seq<ImageFile>, compress: ImageFile -> Option<nat>)
    ensures Processed(files, compress).None? <==>
      exists i :: 0 <= i < |files| && NeedsCompression(files[i]) && compress(files[i]).None?
    decreases |files|
  {
    if files != [] {
      var init := files[..|files| - 1];
      ProcessedFailsIff(init, compress);
      if Processed(init, compress).None? {
        var i :| 0 <= i < |init| && NeedsCompression(init[i]) && compress(init[i]).None?;
        assert files[i] == init[i];
      } else {
        forall i | 0 <= i < |files| - 1
          ensures !(NeedsCompression(files[i]) && compress(files[i]).None?)
        {
          assert files[i] == init[i];
        }
      }
    }
  }

  /** The selection loop: each file in turn, compressed when large; the first
      compression that throws ends the loop with nothing. */
  method ProcessFiles(files: seq<ImageFile>, compress: ImageFile -> Option<nat>) returns (r: Option<seq<ImageFile>>)
    ensures r == Processed(files, compress)
  {
    var processed: seq<ImageFile> := [];
    var i := 0;
    while i < |files|
      invariant 0 <= i <= |files|
      invariant Processed(files[..i], compress) == Some(processed)
    {
      var f := files[i];
      assert files[..i + 1][..i] == files[..i];
      if NeedsCompression(f) {
        var size := compress(f);
        if size.None? {
          ProcessedStaysFailed(files, compress, i + 1);
          return None;
        }
        processed := processed + [Compressed(f, size.value)];
      } else {
        processed := processed + [f];
      }
      i := i + 1;
    }
    assert files[..i] == files;
    r := Some(processed);
  }

  /** Once a prefix of the selection fails, the whole selection fails. */
  lemma {:induction false} ProcessedStaysFailed(files: seq<ImageFile>, compress: ImageFile -> Option<nat>, n: nat)
    requires n <= |files| && Processed(files[..n], compress).None?
    ensures Processed(files, compress).None?
    decreases |files| - n
  {
    if n < |files| {
      assert files[..n + 1][..n] == files[..n];
      ProcessedStaysFailed(files, compress, n + 1);
    } else {
      assert files[..n] == files;
    }
  }

  /** The most images a listing form keeps. */
  const MaxImages := 10

  /** What one image's upload came to. A compression that throws and an
      upload the storage refuses both skip the image; a stored image
      contributes its public URL when that URL is non-empty. */
  datatype UploadTry = CompressionThrew | UploadRefused(stamp: string) | UploadStored(stamp: string, publicUrl: string)

  /** The storage path of an upload: `listings/<stamp>.<extension>`, where
      the stamp stands for the time and random part and the extension is that
      of the (re-compressed, renamed) file. */
  function UploadPath(image: ImageFile, stamp: string): string {
    var name := if NeedsCompression(image) then RenameToJpg(image.name) else image.name;
    "listings/" + stamp + "." + FileExtension(name)
  }

  /** The public URLs that come back, in order. */
  function UploadedUrls(tries: seq<UploadTry>): (urls: seq<string>)
    ensures |urls| <= |tries|
    decreases |tries|
  {
    if tries == [] then []
    else
      var last := tries[|tries| - 1];
      UploadedUrls(tries[..|tries| - 1]) + (if last.UploadStored? && last.publicUrl != "" then [last.publicUrl] else [])
  }

  /** The storage paths written to, in order: every image whose compression did not throw. */
  function UploadPaths(images: seq<ImageFile>, tries: seq<UploadTry>): (paths: seq<string>)
    requires |tries| == |images|
    ensures |paths| <= |images|
    decreases |images|
  {
    if images == [] then []
    else
      var n := |images| - 1;
      UploadPaths(images[..n], tries[..n]) + (if tries[n].CompressionThrew? then [] else [UploadPath(images[n], tries[n].stamp)])
  }

  /** Every returned URL is the non-empty public URL of a stored image, and
      all images stored with a URL contribute one. */
  lemma {:induction false} UploadedUrlsMeaning(tries: seq<UploadTry>)
    ensures forall u :: u in UploadedUrls(tries) ==> u != "" && exists i :: 0 <= i < |tries| && tries[i].UploadStored? && tries[i].publicUrl == u
    ensures (forall i :: 0 <= i < |tries| ==> tries[i].UploadStored? && tries[i].publicUrl != "") ==> |UploadedUrls(tries)| == |tries|
    decreases |tries|
  {
    if tries != [] {
      var init := tries[..|tries| - 1];
      UploadedUrlsMeaning(init);
      forall u | u in UploadedUrls(init)
        ensures exists i :: 0 <= i < |tries| && tries[i].UploadStored? && tries[i].publicUrl == u
      {
        var i :| 0 <= i < |init| && init[i].UploadStored? && init[i].publicUrl == u;
        assert tries[i] == init[i];
      }
      if forall i :: 0 <= i < |tries| ==> tries[i].UploadStored? && tries[i].publicUrl != "" {
        assert forall i :: 0 <= i < |init| ==> init[i] == tries[i];
      }
    }
  }

  /** The upload loop: each image is re-compressed when still large, written
      under a fresh path, and its public URL kept; a failure skips that
      image only. `tries` holds each image's outcome. */
  method UploadImages(images: seq<ImageFile>, tries: seq<UploadTry>) returns (urls: seq<string>, paths: seq<string>)
    requires |tries| == |images|
    ensures urls == UploadedUrls(tries)
    ensures paths == UploadPaths(images, tries)
  {
    urls, paths := [], [];
    var i := 0;
    while i < |images|
      invariant 0 <= i <= |images|
      invariant urls == UploadedUrls(tries[..i])
      invariant paths == UploadPaths(images[..i], tries[..i])
    {
      assert tries[..i + 1][..i] == tries[..i];
      assert images[..i + 1][..i] == images[..i];
      match tries[i] {
        case CompressionThrew =>
        case UploadRefused(stamp) =>
          paths := paths + [UploadPath(images[i], stamp)];
        case UploadStored(stamp, url) =>
          paths := paths + [UploadPath(images[i], stamp)];
          if url != "" {
            urls := urls + [url];
          }
      }
      i := i + 1;
    }
    assert tries[..i] == tries;
    assert images[..i] == images;
  }

  /** The columns both the insert and the update write, apart from the price. */
  datatype Details = Details(
    title: string, description: Option<string>,
    propertyType: string, transactionType: string,
    bedrooms: Option<int>, bathrooms: Option<int>, areaSqm: Option<real>,
    address: string, district: string, province: string, postalCode: Option<string>,
    images: seq<string>,
    contactName: string, contactPhone: string, contactEmail: Option<string>,
    contactFacebook: Option<string>, contactLine: Option<string>)

  /** A number field as sent: null when the text is empty, otherwise what
      the parser makes of it (null again when it yields NaN). */
  function NumberOrNull<N>(text: string, parse: string -> Option<N>): (r: Option<N>)
    ensures text == "" ==> r.None?
    ensures text != "" ==> r == parse(text)
  {
    if text != "" then parse(text) else None
  }

  /** The form's columns as both pages send them: required text trimmed,
      optional text trimmed with '' sent as null, the two selects as chosen,
      counts through `parseInt` and the area through `parseFloat`. */
  function FormDetails(f: Form, images: seq<string>, parseFloat: string -> Option<real>, parseInt: string -> Option<int>): (d: Details)
    ensures d.images == images && d.propertyType == f.propertyType && d.transactionType == f.transactionType
    ensures d.bedrooms == NumberOrNull(f.bedrooms, parseInt) && d.bathrooms == NumberOrNull(f.bathrooms, parseInt)
    ensures d.areaSqm == NumberOrNull(f.areaSqm, parseFloat)
    ensures d.title == Trim(f.title) && d.address == Trim(f.address) && d.district == Trim(f.district) &&
      d.province == Trim(f.province) && d.contactName == Trim(f.contactName) && d.contactPhone == Trim(f.contactPhone)
    ensures d.description == EmptyToNull(Trim(f.description)) && d.postalCode == EmptyToNull(Trim(f.postalCode)) &&
      d.contactEmail == EmptyToNull(Trim(f.contactEmail)) && d.contactFacebook == EmptyToNull(Trim(f.contactFacebook)) &&
      d.contactLine == EmptyToNull(Trim(f.contactLine))
    ensures Clean(d.title) && Clean(d.address) && Clean(d.district) && Clean(d.province) &&
      Clean(d.contactName) && Clean(d.contactPhone)
    ensures CleanOptional(d.description) && CleanOptional(d.postalCode) && CleanOptional(d.contactEmail) &&
      CleanOptional(d.contactFacebook) && CleanOptional(d.contactLine)
  {
    TrimmedIsClean(f.title); TrimmedIsClean(f.address); TrimmedIsClean(f.district);
    TrimmedIsClean(f.province); TrimmedIsClean(f.contactName); TrimmedIsClean(f.contactPhone);
    TrimmedIsClean(f.description); TrimmedIsClean(f.postalCode); TrimmedIsClean(f.contactEmail);
    TrimmedIsClean(f.contactFacebook); TrimmedIsClean(f.contactLine);
    Details(
      Trim(f.title), EmptyToNull(Trim(f.description)),
      f.propertyType, f.transactionType,
      NumberOrNull(f.bedrooms, parseInt), NumberOrNull(f.bathrooms, parseInt), NumberOrNull(f.areaSqm, parseFloat),
      Trim(f.address), Trim(f.district), Trim(f.province), EmptyToNull(Trim(f.postalCode)),
      images,
      Trim(f.contactName), Trim(f.contactPhone), EmptyToNull(Trim(f.contactEmail)),
      EmptyToNull(Trim(f.contactFacebook)), EmptyToNull(Trim(f.contactLine)))
  }

  /** Text with nothing left to trim. */
  predicate Clean(s: string) {
    Trim(s) == s
  }

  /** Optional text that is either null or non-empty and clean. */
  predicate CleanOptional(o: Option<string>) {
    o.None? || (o.value != "" && Clean(o.value))
  }

  lemma TrimmedIsClean(s: string)
    ensures Clean(Trim(s)) && CleanOptional(EmptyToNull(Trim(s)))
  {
    TrimIdempotent(s);
  }

  /** JavaScript's `Math.round` on a finite number: the nearest integer, halves rounded up. */
  function MathRound(x: real): (r: int)
    ensures x - 0.5 < r as real <= x + 0.5
  {
    (x + 0.5).Floor
  }

  /** Rounding an integer gives it back, and rounding never crosses zero downwards from a positive number. */
  lemma MathRoundFacts(n: int, x: real)
    ensures MathRound(n as real) == n
    ensures x > 0.0 ==> MathRound(x) >= 0
    ensures 0.0 < x < 0.5 ==> MathRound(x) == 0
  {
  }
}
