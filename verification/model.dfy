/** The records the document store keeps, the payloads its callers hand it,
    and the small wrappers used for lookups and for the errors it throws. */
module Model {

  datatype Option<+T> = None | Some(value: T)

  /** A store call either returns a value or throws an `Error` with a message. */
  datatype Result<+T> = Ok(value: T) | Err(message: string)

  const USER_ROLE := "USER"
  const PENDING := "PENDING"
  const SUCCESS := "SUCCESS"
  const FAILED := "FAILED"
  const DEFAULT_CURRENCY := "usd"
  const DONATION_NOT_FOUND := "Donation not found"

  /** JavaScript's `s || fallback` on an optional string: an absent or empty string is falsy. */
  function OrElse(s: Option<string>, fallback: string): string {
    if s.Some? && s.value != "" then s.value else fallback
  }

  /** A string filter key in a `where` clause only takes effect when it is truthy. */
  predicate TruthyString(s: Option<string>) {
    s.Some? && s.value != ""
  }

  /** A numeric filter key in a `where` clause only takes effect when it is truthy (present and not 0). */
  predicate TruthyInt(n: Option<int>) {
    n.Some? && n.value != 0
  }

  /** A stored user. `createdAt` is the creation time in milliseconds. */
  datatype User = User(id: int, email: string, name: string, password: string, role: string, createdAt: int)

  /** The `data` argument of `user.create`; an `id` in it overrides the generated one. */
  datatype UserData = UserData(id: Option<int>, email: string, name: string, password: string, role: Option<string>)

  /** The `where` argument of `user.findUnique`: `email` is tried first, then `id`. */
  datatype UserWhere = UserWhere(email: Option<string>, id: Option<int>)

  /** A stored donation. `createdAt` is the creation time in milliseconds. */
  datatype Donation = Donation(
    id: int,
    amount: real,
    currency: string,
    status: string,
    userId: int,
    stripePaymentIntentId: Option<string>,
    createdAt: int)

  /** The `data` argument of `donation.create`; an `id` in it overrides the generated one. */
  datatype DonationData = DonationData(
    id: Option<int>,
    amount: real,
    currency: string,
    status: Option<string>,
    userId: int,
    stripePaymentIntentId: Option<string>)

  /** The `data` argument of `donation.update` and `updateMany`: the fields it names replace the record's. */
  datatype DonationPatch = DonationPatch(
    id: Option<int>,
    amount: Option<real>,
    currency: Option<string>,
    status: Option<string>,
    userId: Option<int>,
    stripePaymentIntentId: Option<string>,
    createdAt: Option<int>)

  /** What `include: { user }` adds to a queried donation: nothing, or the `user` key
      holding the first user with the donation's `userId` (undefined when there is none). */
  datatype Owner = NotIncluded | Included(user: Option<User>)

  /** One element of a `donation.findMany` result. */
  datatype Row = Row(donation: Donation, owner: Owner)
}
