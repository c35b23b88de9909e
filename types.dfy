/**
 * The entities the application passes around: a listing row, the profile row
 * the auth module keeps, the signed-in user and the session, and a reply from
 * the hosted backend. Rows are values; the backend that stores them is not part
 * of this model.
 */
module Types {
  import opened Common

  /**
   * A row of the `listings` table. The declared union for `property_type`
   * omits 'room' although the edit form offers it, so both type fields are
   * plain strings here. `description` may be null in stored rows (the new
   * listing form inserts null for an empty description). An absent
   * `is_featured` behaves as false everywhere it is read.
   */
  datatype Listing = Listing(
    id: string,
    title: string,
    description: Option<string>,
    price: real,
    propertyType: string,
    transactionType: string,
    bedrooms: Option<int>,
    bathrooms: Option<int>,
    areaSqm: Option<real>,
    address: string,
    district: string,
    province: string,
    postalCode: Option<string>,
    images: seq<string>,
    contactName: string,
    contactPhone: string,
    contactEmail: Option<string>,
    contactFacebook: Option<string>,
    contactLine: Option<string>,
    createdAt: string,
    updatedAt: string,
    userId: Option<string>,
    isFeatured: bool,
    views: Option<int>)

  /** A row of the `profiles` table as the auth module and the forms read it. */
  datatype Profile = Profile(
    id: string,
    email: Option<string>,
    fullName: Option<string>,
    phone: Option<string>,
    avatarUrl: Option<string>,
    facebook: Option<string>,
    line: Option<string>)

  /** The authenticated account: its id and, when it has one, its email. */
  datatype User = User(id: string, email: Option<string>)

  /** A session issued by the auth service; only its user and bearer token are read. */
  datatype Session = Session(user: User, accessToken: string)

  /** An advertisement as the home page passes it to the hero slider. */
  datatype Advertisement = Advertisement(
    id: string,
    image: string,
    link: string,
    title: Option<string>,
    subtitle: Option<string>)

  /** What a `.single()` query on the backend answers: the row, "no row"
      (error code PGRST116), or any other error with its message. */
  datatype Reply<T> = Row(row: T) | NoRow | Failure(message: string)

  /** Text of an alert dialog: a translation key, the translation of `first` or,
      when that is empty, of `second`, or text passed through as is. */
  datatype Text = Key(key: string) | KeyOr(first: string, second: string) | Literal(text: string)
  datatype AlertKind = Success | Error | Warning | Info
  datatype Alert = Alert(title: Text, message: Text, kind: AlertKind)
}
