/** The document store that stands in for a Prisma client: one snapshot holding
    the `users` and `donations` collections. Every call reads the whole snapshot;
    the calls that change it (`create`, `update`, `updateMany`, and `deleteMany`
    with an empty `where`) write the whole snapshot back, and the others only
    read. Here the snapshot is the state of a `Store` object: the calls that
    change it are methods and the ones that only read are functions. */
module DocumentStore {
  import opened Model
  import opened Queries

  /** The record `user.create` stores when the collection holds `n` users:
      the next id, then the payload's fields, then the creation time and the role default. */
  function NewUser(n: nat, data: UserData, now: int): User {
    User(if data.id.Some? then data.id.value else n + 1,
         data.email, data.name, data.password, OrElse(data.role, USER_ROLE), now)
  }

  /** The record `donation.create` stores when the collection holds `n` donations. */
  function NewDonation(n: nat, data: DonationData, now: int): Donation {
    Donation(if data.id.Some? then data.id.value else n + 1,
             data.amount, data.currency, OrElse(data.status, PENDING), data.userId,
             data.stripePaymentIntentId, now)
  }

  /** `{ ...d, ...patch }`: every field the patch names replaces the record's. */
  function Merge(d: Donation, patch: DonationPatch): Donation {
    Donation(
      if patch.id.Some? then patch.id.value else d.id,
      if patch.amount.Some? then patch.amount.value else d.amount,
      if patch.currency.Some? then patch.currency.value else d.currency,
      if patch.status.Some? then patch.status.value else d.status,
      if patch.userId.Some? then patch.userId.value else d.userId,
      if patch.stripePaymentIntentId.Some? then patch.stripePaymentIntentId else d.stripePaymentIntentId,
      if patch.createdAt.Some? then patch.createdAt.value else d.createdAt)
  }

  /** Ids are positions plus one, as they are while every record was created without an explicit id. */
  ghost predicate UserIdsDense(users: seq<User>) {
    forall i :: 0 <= i < |users| ==> users[i].id == i + 1
  }

  ghost predicate DonationIdsDense(donations: seq<Donation>) {
    forall i :: 0 <= i < |donations| ==> donations[i].id == i + 1
  }

  /** In a store with dense ids, the donation with id `k` is the `k`-th one, and ids
      outside 1..length name no donation. */
  lemma DenseLookup(donations: seq<Donation>, id: int)
    requires DonationIdsDense(donations)
    ensures IndexOf(donations, DonationIdIs(id)) == if 1 <= id <= |donations| then Some(id - 1) else None
  {
    if 1 <= id <= |donations| {
      assert DonationIdIs(id)(donations[id - 1]);
    }
  }

  /** What `donation.update({ where: { id }, data: patch })` does to the collection:
      throw when no donation has the id, and otherwise merge the patch into the first
      donation that has it and leave every other donation alone. */
  function ApplyUpdate(donations: seq<Donation>, id: int, patch: DonationPatch): (r: Result<seq<Donation>>)
    ensures r.Err? <==> forall j :: 0 <= j < |donations| ==> donations[j].id != id
    ensures r.Err? ==> r.message == DONATION_NOT_FOUND
    ensures r.Ok? ==> |r.value| == |donations|
    ensures r.Ok? ==> forall j :: 0 <= j < |donations| ==>
              r.value[j] == if FirstAt(donations, DonationIdIs(id), j) then Merge(donations[j], patch) else donations[j]
  {
    match IndexOf(donations, DonationIdIs(id))
    case None => Err(DONATION_NOT_FOUND)
    case Some(i) =>
      assert forall j :: 0 <= j < |donations| && j != i ==> !FirstAt(donations, DonationIdIs(id), j);
      Ok(donations[i := Merge(donations[i], patch)])
  }

  /** The filter `updateMany` applies: a truthy payment-intent id equal to the donation's. */
  function IntentIs(intentId: Option<string>): Donation -> bool {
    (d: Donation) => TruthyString(intentId) && d.stripePaymentIntentId == intentId
  }

  /** What `updateMany` leaves in the collection: matching donations merged, the rest as they were. */
  function MergeMatching(donations: seq<Donation>, intentId: Option<string>, patch: DonationPatch): (r: seq<Donation>)
    ensures |r| == |donations|
  {
    seq(|donations|, i requires 0 <= i < |donations| =>
      if IntentIs(intentId)(donations[i]) then Merge(donations[i], patch) else donations[i])
  }

  /** Without a truthy payment-intent id, `updateMany` matches nothing and changes nothing. */
  lemma UpdateManyWithoutIntent(donations: seq<Donation>, intentId: Option<string>, patch: DonationPatch)
    requires !TruthyString(intentId)
    ensures MergeMatching(donations, intentId, patch) == donations
    ensures Filter(donations, IntentIs(intentId)) == []
  {
    FilterNone(donations, IntentIs(intentId));
  }

  class Store {
    var users: seq<User>
    var donations: seq<Donation>

    /** A fresh database file: `{ users: [], donations: [] }`. */
    constructor Init()
      ensures users == [] && donations == []
    {
      users := [];
      donations := [];
    }

    // -------------------------------------------------------------------------
    // user delegate

    /** `user.findUnique({ where })`: by email when one is given, else by id, else nothing. */
    function FindUniqueUser(where: UserWhere): (r: Option<User>)
      reads this
      ensures TruthyString(where.email) ==> Finds(users, EmailIs(where.email.value), r)
      ensures !TruthyString(where.email) && TruthyInt(where.id) ==> Finds(users, UserIdIs(where.id.value), r)
      ensures !TruthyString(where.email) && !TruthyInt(where.id) ==> r == None
    {
      if TruthyString(where.email) then FindFirst(users, EmailIs(where.email.value))
      else if TruthyInt(where.id) then FindFirst(users, UserIdIs(where.id.value))
      else None
    }

    /** `user.create({ data })`. */
    method CreateUser(data: UserData, now: int) returns (u: User)
      modifies this
      ensures users == old(users) + [u] && donations == old(donations)
      ensures u.id == if data.id.Some? then data.id.value else |old(users)| + 1
      ensures u.email == data.email && u.name == data.name && u.password == data.password
      ensures u.role == OrElse(data.role, USER_ROLE) && (data.role.None? ==> u.role == USER_ROLE)
      ensures u.createdAt == now
      ensures data.id.None? && old(UserIdsDense(users)) ==> UserIdsDense(users)
    {
      u := NewUser(|users|, data, now);
      users := users + [u];
    }

    /** `user.count()`. */
    function CountUsers(): nat
      reads this
    {
      |users|
    }

    /** `user.findMany({ select })`: the `select` projection is ignored, so every user comes back whole. */
    function FindManyUsers(): seq<User>
      reads this
    {
      users
    }

    /** `user.deleteMany({ where })`, with `whereKeys` the keys of `where` (none when it is absent). */
    method DeleteManyUsers(whereKeys: set<string>) returns (count: nat)
      modifies this
      ensures whereKeys == {} ==> users == [] && count == |old(users)|
      ensures whereKeys != {} ==> users == old(users) && count == 0
      ensures donations == old(donations)
    {
      if whereKeys == {} {
        count := |users|;
        users := [];
      } else {
        count := 0;
      }
    }

    // -------------------------------------------------------------------------
    // donation delegate

    /** `donation.create({ data })`. */
    method CreateDonation(data: DonationData, now: int) returns (d: Donation)
      modifies this
      ensures donations == old(donations) + [d] && users == old(users)
      ensures d.id == if data.id.Some? then data.id.value else |old(donations)| + 1
      ensures d.amount == data.amount && d.currency == data.currency && d.userId == data.userId
      ensures d.stripePaymentIntentId == data.stripePaymentIntentId && d.createdAt == now
      ensures d.status == OrElse(data.status, PENDING) && (data.status.None? ==> d.status == PENDING)
      ensures data.id.None? && old(DonationIdsDense(donations)) ==> DonationIdsDense(donations)
    {
      d := NewDonation(|donations|, data, now);
      donations := donations + [d];
    }

    /** `donation.update({ where: { id }, data: patch })`; the thrown error becomes `Err`. */
    method UpdateDonation(id: int, patch: DonationPatch) returns (r: Result<Donation>)
      modifies this
      ensures users == old(users)
      ensures ApplyUpdate(old(donations), id, patch).Err? ==>
                r == Err(DONATION_NOT_FOUND) && donations == old(donations)
      ensures ApplyUpdate(old(donations), id, patch).Ok? ==>
                donations == ApplyUpdate(old(donations), id, patch).value &&
                r.Ok? && exists i :: FirstAt(old(donations), DonationIdIs(id), i) && r.value == donations[i]
      ensures patch.id.None? && old(DonationIdsDense(donations)) ==> DonationIdsDense(donations)
    {
      var index := IndexOf(donations, DonationIdIs(id));
      if index.None? {
        r := Err(DONATION_NOT_FOUND);
        return;
      }
      var i := index.value;
      ghost var before := donations;
      donations := donations[i := Merge(donations[i], patch)];
      assert donations == ApplyUpdate(before, id, patch).value;
      r := Ok(donations[i]);
    }

    /** `donation.updateMany({ where: { stripePaymentIntentId }, data: patch })`: the `map`
        over the collection, counting the donations it merges. */
    method UpdateManyDonations(intentId: Option<string>, patch: DonationPatch) returns (count: nat)
      modifies this
      ensures users == old(users)
      ensures donations == MergeMatching(old(donations), intentId, patch)
      ensures count == |Filter(old(donations), IntentIs(intentId))|
      ensures patch.id.None? && old(DonationIdsDense(donations)) ==> DonationIdsDense(donations)
    {
      var matches := IntentIs(intentId);
      var mapped: seq<Donation> := [];
      count := 0;
      var k := 0;
      while k < |donations|
        invariant users == old(users) && donations == old(donations)
        invariant 0 <= k <= |donations|
        invariant |mapped| == k
        invariant forall j :: 0 <= j < k ==>
                    mapped[j] == if matches(donations[j]) then Merge(donations[j], patch) else donations[j]
        invariant count == |Filter(donations[..k], matches)|
      {
        var d := donations[k];
        assert donations[..k + 1] == donations[..k] + [d];
        FilterAppend(donations[..k], [d], matches);
        if matches(d) {
          count := count + 1;
          mapped := mapped + [Merge(d, patch)];
        } else {
          mapped := mapped + [d];
        }
        k := k + 1;
      }
      assert donations[..k] == donations;
      donations := mapped;
    }

    /** `donation.findMany({ where: { userId }, include: { user }, orderBy: { createdAt: 'desc' } })`:
        filter by a truthy `userId`, then attach owners, then sort newest first. */
    function FindManyDonations(userId: Option<int>, includeUser: bool, newestFirst: bool): (rows: seq<Row>)
      reads this
      ensures var chosen := if TruthyInt(userId) then Filter(donations, OwnedBy(userId.value)) else donations;
              var joined := Attach(chosen, users, includeUser);
              && (newestFirst ==> NewestFirst(rows) && multiset(rows) == multiset(joined))
              && (newestFirst ==> forall t :: Filter(rows, CreatedAtIs(t)) == Filter(joined, CreatedAtIs(t)))
              && (!newestFirst ==> rows == joined)
    {
      var chosen := if TruthyInt(userId) then Filter(donations, OwnedBy(userId.value)) else donations;
      var joined := Attach(chosen, users, includeUser);
      if newestFirst then SortIsStable(joined); SortNewestFirst(joined) else joined
    }

    /** `donation.count()`. */
    function CountDonations(): nat
      reads this
    {
      |donations|
    }

    /** `donation.aggregate({ _sum: { amount }, where: { status } })`: the filter-then-reduce
        equals the reference total, 0 when nothing matches. */
    function AggregateDonations(status: string): (total: real)
      reads this
      ensures total == StatusSum(donations, status)
      ensures (forall j :: 0 <= j < |donations| ==> donations[j].status != status) ==> total == 0.0
    {
      FilteredSumIsStatusSum(donations, status);
      StatusSumNoMatch(donations, status);
      SumAmounts(Filter(donations, StatusIs(status)))
    }

    /** `donation.deleteMany({ where })`, with `whereKeys` the keys of `where` (none when it is absent). */
    method DeleteManyDonations(whereKeys: set<string>) returns (count: nat)
      modifies this
      ensures whereKeys == {} ==> donations == [] && count == |old(donations)|
      ensures whereKeys != {} ==> donations == old(donations) && count == 0
      ensures users == old(users)
    {
      if whereKeys == {} {
        count := |donations|;
        donations := [];
      } else {
        count := 0;
      }
    }
  }
}
