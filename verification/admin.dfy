/** The admin routes: read-only statistics and listings, and the two bulk clears,
    as operations on the store. Authorisation happens before these handlers run. */
module AdminRoutes {
  import opened Model
  import opened Queries
  import opened DocumentStore

  /** The body of GET /stats. */
  datatype Stats = Stats(totalUsers: nat, totalDonationsCount: nat, totalAmount: real)

  /** GET /stats: the two collection sizes and the total of SUCCESS donations, which is 0
      when no donation has succeeded. (`totalAmount._sum.amount || 0` only differs from the
      sum for NaN, which a real-valued amount cannot be.) */
  function GetStats(store: Store): (s: Stats)
    reads store
    ensures s.totalUsers == |store.users| && s.totalDonationsCount == |store.donations|
    ensures s.totalAmount == StatusSum(store.donations, SUCCESS)
    ensures (forall j :: 0 <= j < |store.donations| ==> store.donations[j].status != SUCCESS) ==> s.totalAmount == 0.0
  {
    Stats(store.CountUsers(), store.CountDonations(), store.AggregateDonations(SUCCESS))
  }

  /** GET /users: every user in insertion order, unprojected (the store ignores `select`). */
  function ListUsers(store: Store): (users: seq<User>)
    reads store
    ensures users == store.users
  {
    store.FindManyUsers()
  }

  /** DELETE /users: wipes every user, the calling admin included, and reports how many there were. */
  method ClearUsers(store: Store) returns (count: nat)
    modifies store
    ensures store.users == [] && count == |old(store.users)|
    ensures store.donations == old(store.donations)
  {
    count := store.DeleteManyUsers({});
  }

  /** GET /donations: every donation once per time it is stored, each carrying the first
      user with its `userId` (or none), newest first with ties in store order. */
  function ListDonations(store: Store): (rows: seq<Row>)
    reads store
    ensures |rows| == |store.donations|
    ensures NewestFirst(rows)
    ensures multiset(rows) == multiset(Attach(store.donations, store.users, true))
    ensures forall r :: r in rows ==>
              r.donation in store.donations && r.owner.Included? &&
              Finds(store.users, UserIdIs(r.donation.userId), r.owner.user)
    ensures forall t :: Filter(rows, CreatedAtIs(t)) == Filter(Attach(store.donations, store.users, true), CreatedAtIs(t))
  {
    var rows := store.FindManyDonations(None, true, true);
    ListedRows(store.donations, store.users, rows);
    rows
  }

  /** Helper: what a permutation of the owner-joined donations holds. */
  lemma ListedRows(donations: seq<Donation>, users: seq<User>, rows: seq<Row>)
    requires multiset(rows) == multiset(Attach(donations, users, true))
    ensures |rows| == |donations|
    ensures forall r :: r in rows ==>
              r.donation in donations && r.owner.Included? && Finds(users, UserIdIs(r.donation.userId), r.owner.user)
  {
    assert |multiset(rows)| == |rows|;
    forall r | r in rows
      ensures r.donation in donations && r.owner.Included? && Finds(users, UserIdIs(r.donation.userId), r.owner.user)
    {
      assert r in multiset(rows);
      assert r in Attach(donations, users, true);
    }
  }

  /** DELETE /donations: wipes every donation and reports how many there were; users stay,
      and the statistics then report no donations and a total of 0. */
  method ClearDonations(store: Store) returns (count: nat)
    modifies store
    ensures store.donations == [] && count == |old(store.donations)|
    ensures store.users == old(store.users)
    ensures GetStats(store) == Stats(|old(store.users)|, 0, 0.0)
  {
    count := store.DeleteManyDonations({});
  }
}
