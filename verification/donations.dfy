/** The donation routes: create-payment-intent, confirm-payment and my-history,
    as operations on the store. The caller's id is the authenticated user's;
    the clock readings that the handlers and the store take are parameters. */
module DonationRoutes {
  import opened Model
  import opened Queries
  import opened DocumentStore

  /** The `data` confirm-payment hands `donation.update`. */
  function ConfirmPatch(reference: string): DonationPatch {
    DonationPatch(None, None, None, Some(SUCCESS), None, Some(reference), None)
  }

  /** The donation collection after confirm-payment: the update applied, or the
      collection as it was when the update threw. */
  function Confirmed(donations: seq<Donation>, id: int, reference: string): seq<Donation> {
    match ApplyUpdate(donations, id, ConfirmPatch(reference))
    case Ok(updated) => updated
    case Err(_) => donations
  }

  /** Helper: only one position can be the first with a given id. */
  lemma FirstIsUnique(donations: seq<Donation>, id: int, i: int, j: int)
    requires FirstAt(donations, DonationIdIs(id), i) && FirstAt(donations, DonationIdIs(id), j)
    ensures i == j
  {
  }

  /** Confirm-payment sets SUCCESS and the payment reference on the first donation with
      the id, whatever status it had (there is no terminal-state check, so a FAILED or an
      already SUCCESS donation is overwritten too); its id, amount, currency, owner and
      creation time stay, and every other donation stays as it was. */
  lemma ConfirmOverwritesStatus(donations: seq<Donation>, id: int, reference: string, i: int)
    requires FirstAt(donations, DonationIdIs(id), i)
    ensures var after := Confirmed(donations, id, reference);
            && |after| == |donations|
            && after[i].status == SUCCESS && after[i].stripePaymentIntentId == Some(reference)
            && after[i].id == donations[i].id && after[i].amount == donations[i].amount
            && after[i].currency == donations[i].currency && after[i].userId == donations[i].userId
            && after[i].createdAt == donations[i].createdAt
            && forall j :: 0 <= j < |donations| && j != i ==> after[j] == donations[j]
  {
    assert !(forall j :: 0 <= j < |donations| ==> donations[j].id != id);
    forall j | 0 <= j < |donations| && j != i
      ensures !FirstAt(donations, DonationIdIs(id), j)
    {
      if FirstAt(donations, DonationIdIs(id), j) {
        FirstIsUnique(donations, id, i, j);
      }
    }
  }

  /** Confirm-payment on an id no donation has changes nothing. */
  lemma ConfirmUnknownChangesNothing(donations: seq<Donation>, id: int, reference: string)
    requires forall j :: 0 <= j < |donations| ==> donations[j].id != id
    ensures Confirmed(donations, id, reference) == donations
  {
  }

  /** After confirm-payment the SUCCESS total has gained the confirmed donation's amount,
      less what it already contributed when it was SUCCESS before. */
  lemma {:induction false} ConfirmSuccessTotal(donations: seq<Donation>, id: int, reference: string, i: int)
    requires FirstAt(donations, DonationIdIs(id), i)
    ensures StatusSum(Confirmed(donations, id, reference), SUCCESS)
         == StatusSum(donations, SUCCESS) - Contribution(donations[i], SUCCESS) + donations[i].amount
  {
    ConfirmOverwritesStatus(donations, id, reference, i);
    var after := Confirmed(donations, id, reference);
    assert after == donations[i := after[i]];
    StatusSumReplace(donations, i, after[i], SUCCESS);
  }

  /** Confirming the same donation twice leaves the collection's length, the donation's
      SUCCESS status and the SUCCESS total as the first confirmation left them: the
      amount is counted once. */
  lemma {:induction false} ConfirmTwiceCountsOnce(donations: seq<Donation>, id: int, first: string, second: string)
    ensures var once := Confirmed(donations, id, first);
            var twice := Confirmed(once, id, second);
            && |twice| == |once| == |donations|
            && StatusSum(twice, SUCCESS) == StatusSum(once, SUCCESS)
            && forall i :: FirstAt(donations, DonationIdIs(id), i) ==> twice[i].status == SUCCESS
  {
    var once := Confirmed(donations, id, first);
    if i :| FirstAt(donations, DonationIdIs(id), i) {
      ConfirmOverwritesStatus(donations, id, first, i);
      assert FirstAt(once, DonationIdIs(id), i);
      ConfirmOverwritesStatus(once, id, second, i);
      ConfirmSuccessTotal(once, id, second, i);
      forall k | FirstAt(donations, DonationIdIs(id), k) ensures Confirmed(once, id, second)[k].status == SUCCESS {
        FirstIsUnique(donations, id, i, k);
      }
    } else {
      var m := IndexOf(donations, DonationIdIs(id));
      assert m.None?;
    }
  }

  /** POST /create-payment-intent: one new donation for the caller with the given amount,
      the currency or `usd`, and status FAILED (not PENDING); the response carries a mock
      client secret and the new donation's id. */
  method CreatePaymentIntent(store: Store, callerId: int, amount: real, currency: Option<string>,
                             clock: string, now: int)
    returns (clientSecret: string, donationId: int)
    modifies store
    ensures store.users == old(store.users)
    ensures donationId == |old(store.donations)| + 1
    ensures store.donations == old(store.donations) + [Donation(donationId, amount,
              if currency.Some? then currency.value else DEFAULT_CURRENCY, FAILED, callerId, None, now)]
    ensures clientSecret == "mock_secret_" + clock
    ensures StatusSum(store.donations, SUCCESS) == old(StatusSum(store.donations, SUCCESS))
    ensures old(DonationIdsDense(store.donations)) ==> DonationIdsDense(store.donations)
  {
    var data := DonationData(None, amount, if currency.Some? then currency.value else DEFAULT_CURRENCY,
                             Some(FAILED), callerId, None);
    ghost var before := store.donations;
    var d := store.CreateDonation(data, now);
    StatusSumAppend(before, d, SUCCESS);
    clientSecret := "mock_secret_" + clock;
    donationId := d.id;
  }

  /** POST /confirm-payment: the update with status SUCCESS and the mock payment reference
      `mock_pi_` followed by the clock reading; the store's "Donation not found" error is
      passed on to the caller. Any signed-in caller may confirm any donation: the handler
      never looks at the donation's owner, so no caller id takes part. */
  method ConfirmPayment(store: Store, donationId: int, clock: string) returns (r: Result<string>)
    modifies store
    ensures store.users == old(store.users)
    ensures store.donations == Confirmed(old(store.donations), donationId, "mock_pi_" + clock)
    ensures r.Err? <==> forall j :: 0 <= j < |old(store.donations)| ==> old(store.donations)[j].id != donationId
    ensures r.Ok? ==> r.value == SUCCESS
    ensures r.Err? ==> r.message == DONATION_NOT_FOUND && store.donations == old(store.donations)
    ensures old(DonationIdsDense(store.donations)) ==> DonationIdsDense(store.donations)
  {
    var updated := store.UpdateDonation(donationId, ConfirmPatch("mock_pi_" + clock));
    if updated.Err? {
      r := Err(updated.message);
    } else {
      r := Ok(SUCCESS);
    }
  }

  /** Helper: what the newest-first, owner-less query for `callerId` returns. */
  lemma HistoryRows(donations: seq<Donation>, users: seq<User>, callerId: int, rows: seq<Row>)
    requires callerId != 0
    requires multiset(rows) == multiset(Attach(Filter(donations, OwnedBy(callerId)), users, false))
    ensures forall r :: r in rows ==> r.donation.userId == callerId && r.owner == NotIncluded
    ensures forall d ::
              multiset(rows)[Row(d, NotIncluded)] == (if d.userId == callerId then multiset(donations)[d] else 0)
  {
    var owned := Filter(donations, OwnedBy(callerId));
    FilterMembers(donations, OwnedBy(callerId));
    forall r | r in rows ensures r.donation.userId == callerId && r.owner == NotIncluded {
      assert r in multiset(rows);
      assert r in Attach(owned, users, false);
    }
    forall d
      ensures multiset(rows)[Row(d, NotIncluded)] == (if d.userId == callerId then multiset(donations)[d] else 0)
    {
      AttachCounts(owned, users, d);
      FilterCounts(donations, OwnedBy(callerId), d);
    }
  }

  /** The caller's donations in store order, as bare rows. */
  function Owned(store: Store, callerId: int): seq<Row>
    reads store
  {
    Attach(Filter(store.donations, OwnedBy(callerId)), store.users, false)
  }

  /** GET /my-history: for a caller with a (truthy) id, exactly the caller's donations,
      each as often as it is stored, newest first with ties in store order. A caller id
      of 0 is falsy, so the store's filter is skipped and every donation comes back. */
  function MyHistory(store: Store, callerId: int): (rows: seq<Row>)
    reads store
    ensures NewestFirst(rows)
    ensures callerId != 0 ==> forall r :: r in rows ==> r.donation.userId == callerId && r.owner == NotIncluded
    ensures callerId != 0 ==> forall d ::
              multiset(rows)[Row(d, NotIncluded)] == (if d.userId == callerId then multiset(store.donations)[d] else 0)
    ensures callerId != 0 ==> forall t ::
              Filter(rows, CreatedAtIs(t)) == Filter(Owned(store, callerId), CreatedAtIs(t))
    ensures callerId == 0 ==> multiset(rows) == multiset(Attach(store.donations, store.users, false))
    ensures callerId == 0 ==> forall t ::
              Filter(rows, CreatedAtIs(t)) == Filter(Attach(store.donations, store.users, false), CreatedAtIs(t))
  {
    var rows := store.FindManyDonations(Some(callerId), false, true);
    if callerId != 0 then
      HistoryRows(store.donations, store.users, callerId, rows);
      rows
    else
      rows
  }
}
