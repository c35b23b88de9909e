/**
 * How a listing is labelled and displayed on the listing card, the
 * dashboard card and the detail page: the transaction- and property-type
 * labels (the three components carry the same two functions), the card
 * image, and the detail page's conditional parts.
 */
module ListingLabels {
  import opened Common
  import opened Types
  import Language

  /** The translation function in scope (`t`). */
  type Translator = string -> string

  const TransactionPrefix := "transaction."

  /** `replace(/^transaction\./, '')`: one leading prefix is removed. */
  function StripTransactionPrefix(s: string): (r: string)
    ensures StartsWith(s, TransactionPrefix) ==> TransactionPrefix + r == s
    ensures !StartsWith(s, TransactionPrefix) ==> r == s
  {
    if StartsWith(s, TransactionPrefix) then s[|TransactionPrefix|..] else s
  }

  /** The normalised transaction type: prefix removed, trimmed, lower-cased. */
  function NormalizeTransaction(s: string): (r: string)
    ensures ToLower(r) == r
    ensures |r| <= |s|
  {
    ToLowerIdempotent(Trim(StripTransactionPrefix(s)));
    ToLower(Trim(StripTransactionPrefix(s)))
  }

  /** `getTransactionTypeLabel`. */
  function TransactionLabel(t: Translator, tx: Option<string>): (r: string)
    ensures !Truthy(tx) ==> r == ""
    ensures Truthy(tx) && NormalizeTransaction(tx.value) == "sale" ==> r == t("transaction.sale")
    ensures Truthy(tx) && NormalizeTransaction(tx.value) == "rent" ==> r == t("transaction.rent")
    ensures Truthy(tx) && NormalizeTransaction(tx.value) != "sale" && NormalizeTransaction(tx.value) != "rent" ==> r == tx.value
  {
    if !Truthy(tx) then ""
    else if NormalizeTransaction(tx.value) == "sale" then t("transaction.sale")
    else if NormalizeTransaction(tx.value) == "rent" then t("transaction.rent")
    else tx.value
  }

  /** A type without the prefix and without white space at its ends is only lower-cased. */
  lemma NormalizePlain(s: string)
    requires !StartsWith(s, TransactionPrefix)
    requires s == [] || (!IsWhite(s[0]) && !IsWhite(s[|s| - 1]))
    ensures NormalizeTransaction(s) == ToLower(s)
  {
    TrimUnchanged(s);
  }

  /** A prefixed type loses the prefix and is then only lower-cased. */
  lemma NormalizePrefixed(r: string)
    requires r == [] || (!IsWhite(r[0]) && !IsWhite(r[|r| - 1]))
    ensures NormalizeTransaction(TransactionPrefix + r) == ToLower(r)
  {
    assert StartsWith(TransactionPrefix + r, TransactionPrefix);
    assert StripTransactionPrefix(TransactionPrefix + r) == r;
    TrimUnchanged(r);
  }

  /** Both stored forms of "rent", with and without the key prefix, get the rent label. */
  lemma RentSpellings(t: Translator)
    ensures TransactionLabel(t, Some("rent")) == t("transaction.rent")
    ensures TransactionLabel(t, Some("transaction.rent")) == t("transaction.rent")
  {
    assert !StartsWith("rent", TransactionPrefix) by { assert "rent"[0] != TransactionPrefix[0]; }
    NormalizePlain("rent");
    assert ToLower("rent") == "rent";
    assert "transaction.rent" == TransactionPrefix + "rent";
    NormalizePrefixed("rent");
  }

  /** Capitals do not matter. */
  lemma CapitalisedSale(t: Translator)
    ensures TransactionLabel(t, Some("Sale")) == t("transaction.sale")
  {
    assert !StartsWith("Sale", TransactionPrefix) by { assert "Sale"[0] != TransactionPrefix[0]; }
    NormalizePlain("Sale");
    assert ToLower("Sale") == "sale";
  }

  /** Only one prefix is removed: a doubled prefix is shown as stored. */
  lemma DoublePrefixIsKept(t: Translator)
    ensures TransactionLabel(t, Some("transaction.transaction.sale")) == "transaction.transaction.sale"
  {
    var r := "transaction.sale";
    assert "transaction.transaction.sale" == TransactionPrefix + r;
    NormalizePrefixed(r);
    assert |ToLower(r)| == 16;
  }

  /** The prefix is stripped before trimming, so a space in front of it keeps it. */
  lemma SpaceBeforePrefixKeepsIt(t: Translator)
    ensures TransactionLabel(t, Some(" transaction.sale")) == " transaction.sale"
  {
    var s := " transaction.sale";
    assert !StartsWith(s, TransactionPrefix) by { assert s[0] != TransactionPrefix[0]; }
    assert s[1..] == "transaction.sale";
    assert TrimStart(s) == TrimStart("transaction.sale");
    TrimUnchanged("transaction.sale");
    assert Trim("transaction.sale") == "transaction.sale";
    assert TrimStart("transaction.sale") == "transaction.sale";
    assert |ToLower("transaction.sale")| == 16;
  }

  /** `getPropertyTypeLabel`: the translation of `property.<type>` when
      there is one, otherwise the type itself. */
  function PropertyLabel(t: Translator, ty: string): (r: string)
    ensures ty == "" ==> r == ""
    ensures ty != "" ==> r == t("property." + ty) || r == ty
    ensures ty != "" && t("property." + ty) != "" && t("property." + ty) != "property." + ty ==> r == t("property." + ty)
  {
    if ty == "" then ""
    else
      var name := t("property." + ty);
      if name != "" && name != "property." + ty then name else ty
  }

  /** `t` in language `l`, with the other entries of the tables given. */
  function TranslatorOf(others: Language.Lang -> Language.Table, l: Language.Lang): Translator {
    key => Language.Translate(Language.TableOf(others, l), key)
  }

  /** With the application's tables, the five property types get their
      translated names and a type without an entry is shown as it is. */
  lemma PropertyLabelWithTables(others: Language.Lang -> Language.Table, l: Language.Lang, ty: string)
    requires ty != ""
    ensures "property." + ty in Language.LabelEntries(l) ==>
      PropertyLabel(TranslatorOf(others, l), ty) == Language.LabelEntries(l)["property." + ty]
    ensures !("property." + ty in others(l)) && !("property." + ty in Language.LabelEntries(l)) ==>
      PropertyLabel(TranslatorOf(others, l), ty) == ty
  {
    var key := "property." + ty;
    if key in Language.LabelEntries(l) {
      Language.LabelKeysTranslate(others, l, key);
      assert Language.LabelEntries(l)[key] != key;
    }
  }

  /** With the application's tables, a rent listing is labelled with the
      current language's word for rent. */
  lemma RentLabelWithTables(others: Language.Lang -> Language.Table, l: Language.Lang)
    ensures TransactionLabel(TranslatorOf(others, l), Some("rent")) == Language.LabelEntries(l)["transaction.rent"]
  {
    RentSpellings(TranslatorOf(others, l));
    Language.LabelKeysTranslate(others, l, "transaction.rent");
  }

  /** The card's image: the first image, or none and the no-image text. */
  function CardImage(images: seq<string>): (r: Option<string>)
    ensures r.None? <==> images == []
    ensures r.Some? ==> r.value == images[0]
  {
    if |images| > 0 then Some(images[0]) else None
  }

  /** The per-month suffix after the price compares the stored type exactly. */
  function ShowsPerMonth(l: Listing): (r: bool)
    ensures r ==> NormalizeTransaction(l.transactionType) == "rent"
  {
    assert !StartsWith("rent", TransactionPrefix) by { assert "rent"[0] != TransactionPrefix[0]; }
    NormalizePlain("rent");
    assert ToLower("rent") == "rent";
    l.transactionType == "rent"
  }

  /** So a type stored as "transaction.rent" is labelled rent but, as written,
      its price carries no per-month suffix. */
  lemma PrefixedRentHasNoSuffix(t: Translator, l: Listing)
    requires l.transactionType == "transaction.rent"
    ensures TransactionLabel(t, Some(l.transactionType)) == t("transaction.rent")
    ensures !ShowsPerMonth(l)
  {
    RentSpellings(t);
  }

  /** A numeric feature (bedrooms, bathrooms, area) rendered by `value && …`:
      nothing when absent, the block for a non-zero value, and a stray "0"
      in the page for zero. */
  datatype Feature<N> = NoFeature | FeatureBlock(value: N) | StrayZero

  function IntFeature(v: Option<int>): (f: Feature<int>)
    ensures f.NoFeature? <==> v.None?
    ensures f.StrayZero? <==> v == Some(0)
    ensures f.FeatureBlock? ==> v == Some(f.value) && f.value != 0
  {
    match v
    case None => NoFeature
    case Some(n) => if n == 0 then StrayZero else FeatureBlock(n)
  }

  function RealFeature(v: Option<real>): (f: Feature<real>)
    ensures f.NoFeature? <==> v.None?
    ensures f.StrayZero? <==> v == Some(0.0)
    ensures f.FeatureBlock? ==> v == Some(f.value) && f.value != 0.0
  {
    match v
    case None => NoFeature
    case Some(x) => if x == 0.0 then StrayZero else FeatureBlock(x)
  }

  /** The description block: the text, or the no-description message. */
  datatype Description = DescriptionText(text: string) | NoDescription

  /** The parts of the detail page that depend on the listing. */
  datatype Detail = Detail(
    ownerActions: bool,
    addressLine: string,
    perMonth: bool,
    transactionLabel: string,
    propertyLabel: string,
    viewsShown: bool,
    description: Description,
    bedrooms: Feature<int>,
    bathrooms: Feature<int>,
    area: Feature<real>,
    emailShown: bool,
    facebookShown: bool,
    lineShown: bool,
    updatedShown: bool)

  /** `ListingDetailContent` for a listing and whether the viewer owns it. */
  function DetailOf(t: Translator, l: Listing, isOwner: bool): (d: Detail)
    ensures d.ownerActions <==> isOwner
    ensures d.viewsShown <==> l.views.Some?
    ensures d.description.NoDescription? <==> !Truthy(l.description)
    ensures d.updatedShown <==> l.updatedAt != l.createdAt
  {
    Detail(
      isOwner,
      l.address + ", " + l.district + ", " + l.province +
        (if Truthy(l.postalCode) then " " + l.postalCode.value else ""),
      ShowsPerMonth(l),
      TransactionLabel(t, Some(l.transactionType)),
      PropertyLabel(t, l.propertyType),
      l.views.Some?,
      if Truthy(l.description) then DescriptionText(l.description.value) else NoDescription,
      IntFeature(l.bedrooms), IntFeature(l.bathrooms), RealFeature(l.areaSqm),
      Truthy(l.contactEmail), Truthy(l.contactFacebook), Truthy(l.contactLine),
      l.updatedAt != l.createdAt)
  }

  /** The postal code is appended to the address, after a space, only when present. */
  lemma AddressLine(t: Translator, l: Listing, isOwner: bool)
    ensures var base := l.address + ", " + l.district + ", " + l.province;
      DetailOf(t, l, isOwner).addressLine ==
        if Truthy(l.postalCode) then base + " " + l.postalCode.value else base
  {
  }

  /** A listing viewed zero times still shows its views line; an empty
      description counts as missing. */
  lemma ZeroViewsShown(t: Translator, l: Listing, isOwner: bool)
    requires l.views == Some(0) && l.description == Some("")
    ensures DetailOf(t, l, isOwner).viewsShown
    ensures DetailOf(t, l, isOwner).description == NoDescription
  {
  }
}
