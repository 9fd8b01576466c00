/** The pure array operations the store's queries are built from: `filter`,
    `find`/`findIndex`, the `reduce` that sums amounts, the `map` that joins
    owners, and the stable newest-first `sort`. */
module Queries {
  import opened Model

  // ---------------------------------------------------------------------------
  // filter, findIndex, find

  /** `s.filter(keep)`: the elements that satisfy `keep`, in their original order. */
  function Filter<T>(s: seq<T>, keep: T -> bool): (r: seq<T>)
    ensures |r| <= |s|
    decreases |s|
  {
    if s == [] then [] else (if keep(s[0]) then [s[0]] else []) + Filter(s[1..], keep)
  }

  /** Filtering keeps exactly the satisfying elements. */
  lemma {:induction false} FilterMembers<T(!new)>(s: seq<T>, keep: T -> bool)
    ensures forall x :: x in Filter(s, keep) <==> x in s && keep(x)
    decreases |s|
  {
    if s != [] {
      FilterMembers(s[1..], keep);
      assert forall x :: x in s <==> x == s[0] || x in s[1..];
    }
  }

  /** Filtering keeps every satisfying element as many times as it occurs, and no other. */
  lemma {:induction false} FilterCounts<T(!new)>(s: seq<T>, keep: T -> bool, x: T)
    ensures multiset(Filter(s, keep))[x] == if keep(x) then multiset(s)[x] else 0
    decreases |s|
  {
    if s != [] {
      FilterCounts(s[1..], keep, x);
      assert s == [s[0]] + s[1..];
    }
  }

  /** Helper: filtering a sequence with a given first element. */
  lemma FilterCons<T>(h: T, s: seq<T>, keep: T -> bool)
    ensures Filter([h] + s, keep) == (if keep(h) then [h] else []) + Filter(s, keep)
  {
    var r := [h] + s;
    assert r[0] == h && r[1..] == s;
  }

  /** Filtering out everything leaves nothing. */
  lemma {:induction false} FilterNone<T>(s: seq<T>, keep: T -> bool)
    requires forall j :: 0 <= j < |s| ==> !keep(s[j])
    ensures Filter(s, keep) == []
    decreases |s|
  {
    if s != [] {
      FilterNone(s[1..], keep);
    }
  }

  /** Filtering distributes over concatenation. */
  lemma {:induction false} FilterAppend<T>(a: seq<T>, b: seq<T>, keep: T -> bool)
    ensures Filter(a + b, keep) == Filter(a, keep) + Filter(b, keep)
    decreases |a|
  {
    if a == [] {
      assert a + b == b;
    } else {
      var h, t := a[0], a[1..];
      assert a == [h] + t;
      assert a + b == [h] + (t + b);
      FilterCons(h, t + b, keep);
      FilterCons(h, t, keep);
      FilterAppend(t, b, keep);
    }
  }

  /** `i` is the position of the first element of `s` that satisfies `keep`. */
  ghost predicate FirstAt<T>(s: seq<T>, keep: T -> bool, i: int) {
    0 <= i < |s| && keep(s[i]) && forall j :: 0 <= j < i ==> !keep(s[j])
  }

  /** `r` is what `s.find(keep)` must return: the first satisfying element, or nothing when none does. */
  ghost predicate Finds<T>(s: seq<T>, keep: T -> bool, r: Option<T>) {
    && (r.Some? ==> exists i :: FirstAt(s, keep, i) && s[i] == r.value)
    && (r.None? ==> forall j :: 0 <= j < |s| ==> !keep(s[j]))
  }

  /** `s.findIndex(keep)`, with `None` for JavaScript's -1. */
  function IndexOf<T>(s: seq<T>, keep: T -> bool): (r: Option<nat>)
    ensures r.Some? ==> FirstAt(s, keep, r.value)
    ensures r.None? ==> forall j :: 0 <= j < |s| ==> !keep(s[j])
    decreases |s|
  {
    if s == [] then None
    else if keep(s[0]) then Some(0)
    else match IndexOf(s[1..], keep)
      case None => None
      case Some(k) => Some(k + 1)
  }

  /** `s.find(keep)`, with `None` for `undefined`. */
  function FindFirst<T>(s: seq<T>, keep: T -> bool): (r: Option<T>)
    ensures Finds(s, keep, r)
  {
    match IndexOf(s, keep)
    case None => None
    case Some(i) => Some(s[i])
  }

  // ---------------------------------------------------------------------------
  // Predicates handed to filter and find

  function StatusIs(status: string): Donation -> bool {
    (d: Donation) => d.status == status
  }

  function OwnedBy(userId: int): Donation -> bool {
    (d: Donation) => d.userId == userId
  }

  function DonationIdIs(id: int): Donation -> bool {
    (d: Donation) => d.id == id
  }

  function UserIdIs(id: int): User -> bool {
    (u: User) => u.id == id
  }

  function EmailIs(email: string): User -> bool {
    (u: User) => u.email == email
  }

  function CreatedAtIs(t: int): Row -> bool {
    (r: Row) => r.donation.createdAt == t
  }

  // ---------------------------------------------------------------------------
  // Sums of amounts

  /** `ds.reduce((acc, d) => acc + d.amount, 0)`: a left fold, so the last element is added last. */
  function SumAmounts(ds: seq<Donation>): real {
    if ds == [] then 0.0 else SumAmounts(ds[..|ds| - 1]) + ds[|ds| - 1].amount
  }

  /** What one donation adds to the total of `status`. */
  function Contribution(d: Donation, status: string): real {
    if d.status == status then d.amount else 0.0
  }

  /** Reference definition of a per-status total: every donation contributes its
      amount when its status matches, and nothing otherwise. */
  function StatusSum(ds: seq<Donation>, status: string): real {
    if ds == [] then 0.0 else Contribution(ds[0], status) + StatusSum(ds[1..], status)
  }

  lemma {:induction false} SumAmountsPrepend(d: Donation, ds: seq<Donation>)
    ensures SumAmounts([d] + ds) == d.amount + SumAmounts(ds)
    decreases |ds|
  {
    if ds != [] {
      var s := [d] + ds;
      assert s[..|s| - 1] == [d] + ds[..|ds| - 1];
      SumAmountsPrepend(d, ds[..|ds| - 1]);
    }
  }

  /** The filter-then-reduce the store runs equals the reference per-status total. */
  lemma {:induction false} FilteredSumIsStatusSum(ds: seq<Donation>, status: string)
    ensures SumAmounts(Filter(ds, StatusIs(status))) == StatusSum(ds, status)
    decreases |ds|
  {
    if ds != [] {
      FilteredSumIsStatusSum(ds[1..], status);
      var rest := Filter(ds[1..], StatusIs(status));
      if StatusIs(status)(ds[0]) {
        assert Filter(ds, StatusIs(status)) == [ds[0]] + rest;
        SumAmountsPrepend(ds[0], rest);
      } else {
        assert Filter(ds, StatusIs(status)) == [] + rest;
        assert [] + rest == rest;
      }
    }
  }

  lemma {:induction false} StatusSumAppend(ds: seq<Donation>, d: Donation, status: string)
    ensures StatusSum(ds + [d], status) == StatusSum(ds, status) + Contribution(d, status)
    decreases |ds|
  {
    if ds == [] {
      assert ds + [d] == [d];
      assert [d][1..] == [];
    } else {
      assert (ds + [d])[1..] == ds[1..] + [d];
      StatusSumAppend(ds[1..], d, status);
    }
  }

  /** Replacing one donation changes the total by exactly the difference of the two contributions. */
  lemma {:induction false} StatusSumReplace(ds: seq<Donation>, i: nat, d: Donation, status: string)
    requires i < |ds|
    ensures StatusSum(ds[i := d], status)
         == StatusSum(ds, status) - Contribution(ds[i], status) + Contribution(d, status)
    decreases i
  {
    if i == 0 {
      assert ds[i := d][1..] == ds[1..];
    } else {
      assert ds[i := d][1..] == ds[1..][i - 1 := d];
      StatusSumReplace(ds[1..], i - 1, d, status);
    }
  }

  /** With no donation in `status`, its total is 0. */
  lemma {:induction false} StatusSumNoMatch(ds: seq<Donation>, status: string)
    ensures (forall j :: 0 <= j < |ds| ==> ds[j].status != status) ==> StatusSum(ds, status) == 0.0
    decreases |ds|
  {
    if ds != [] {
      StatusSumNoMatch(ds[1..], status);
    }
  }

  // ---------------------------------------------------------------------------
  // include: { user }

  /** The `user` a queried donation carries: the first user whose id is its `userId`. */
  function OwnerOf(d: Donation, users: seq<User>, includeUser: bool): Owner {
    if includeUser then Included(FindFirst(users, UserIdIs(d.userId))) else NotIncluded
  }

  /** `ds.map(d => ({...d, user: users.find(...)}))` when the owner is included, and the
      donations unchanged otherwise. */
  function Attach(ds: seq<Donation>, users: seq<User>, includeUser: bool): (rows: seq<Row>)
    ensures |rows| == |ds|
    ensures forall i :: 0 <= i < |ds| ==> rows[i] == Row(ds[i], OwnerOf(ds[i], users, includeUser))
    ensures forall r :: r in rows ==> r.donation in ds && r.owner == OwnerOf(r.donation, users, includeUser)
    decreases |ds|
  {
    if ds == [] then []
    else
      [Row(ds[0], OwnerOf(ds[0], users, includeUser))] + Attach(ds[1..], users, includeUser)
  }

  /** Without the owner, each donation appears as a bare row exactly as often as it is stored. */
  lemma {:induction false} AttachCounts(ds: seq<Donation>, users: seq<User>, d: Donation)
    ensures multiset(Attach(ds, users, false))[Row(d, NotIncluded)] == multiset(ds)[d]
    decreases |ds|
  {
    if ds != [] {
      AttachCounts(ds[1..], users, d);
      assert ds == [ds[0]] + ds[1..];
    }
  }

  // ---------------------------------------------------------------------------
  // sort((a, b) => b.createdAt - a.createdAt)

  /** Non-increasing `createdAt`: newest first. */
  ghost predicate NewestFirst(rows: seq<Row>) {
    forall i :: 0 < i < |rows| ==> rows[i - 1].donation.createdAt >= rows[i].donation.createdAt
  }

  /** Newest first between neighbours means newest first between any two rows. */
  lemma {:induction false} NewestFirstPairwise(rows: seq<Row>, i: int, j: int)
    requires NewestFirst(rows) && 0 <= i <= j < |rows|
    ensures rows[i].donation.createdAt >= rows[j].donation.createdAt
    decreases j - i
  {
    if i < j {
      NewestFirstPairwise(rows, i + 1, j);
    }
  }

  /** Puts `x` into newest-first `rows` ahead of every row that is not newer than it. */
  function Insert(x: Row, rows: seq<Row>): (r: seq<Row>)
    requires NewestFirst(rows)
    ensures NewestFirst(r)
    ensures multiset(r) == multiset(rows) + multiset{x}
    ensures |r| == |rows| + 1
    ensures r[0] == x || (rows != [] && r[0] == rows[0])
    decreases |rows|
  {
    if rows == [] || rows[0].donation.createdAt <= x.donation.createdAt then
      NewestFirstCons(x, rows);
      [x] + rows
    else
      var tail := Insert(x, rows[1..]);
      assert rows == [rows[0]] + rows[1..];
      assert |rows| > 1 ==> rows[0].donation.createdAt >= rows[1].donation.createdAt;
      NewestFirstCons(rows[0], tail);
      [rows[0]] + tail
  }

  /** Helper: a row at least as new as the head of a newest-first sequence can go in front. */
  lemma NewestFirstCons(h: Row, rows: seq<Row>)
    requires NewestFirst(rows)
    requires rows != [] ==> h.donation.createdAt >= rows[0].donation.createdAt
    ensures NewestFirst([h] + rows)
  {
    var r := [h] + rows;
    forall i | 0 < i < |r| ensures r[i - 1].donation.createdAt >= r[i].donation.createdAt {
      if i > 1 {
        assert r[i - 1] == rows[i - 2] && r[i] == rows[i - 1];
      }
    }
  }

  /** The comparator sort the store runs. JavaScript's `Array.prototype.sort` is stable,
      so rows with equal `createdAt` keep their relative order. */
  function SortNewestFirst(rows: seq<Row>): (r: seq<Row>)
    ensures NewestFirst(r)
    ensures multiset(r) == multiset(rows)
    ensures |r| == |rows|
    decreases |rows|
  {
    if rows == [] then []
    else
      assert rows == [rows[0]] + rows[1..];
      Insert(rows[0], SortNewestFirst(rows[1..]))
  }

  lemma {:induction false} InsertKeepsTies(x: Row, rows: seq<Row>, t: int)
    requires NewestFirst(rows)
    ensures Filter(Insert(x, rows), CreatedAtIs(t))
         == (if x.donation.createdAt == t then [x] else []) + Filter(rows, CreatedAtIs(t))
    decreases |rows|
  {
    if rows == [] || rows[0].donation.createdAt <= x.donation.createdAt {
      assert Insert(x, rows) == [x] + rows;
      FilterCons(x, rows, CreatedAtIs(t));
    } else {
      assert NewestFirst(rows[1..]);
      InsertKeepsTies(x, rows[1..], t);
      InsertBehindKeepsTies(x, rows, t);
    }
  }

  /** Helper: the step of InsertKeepsTies where `x` goes behind the head of `rows`. */
  lemma InsertBehindKeepsTies(x: Row, rows: seq<Row>, t: int)
    requires NewestFirst(rows) && rows != [] && rows[0].donation.createdAt > x.donation.createdAt
    requires Filter(Insert(x, rows[1..]), CreatedAtIs(t))
          == (if x.donation.createdAt == t then [x] else []) + Filter(rows[1..], CreatedAtIs(t))
    ensures Filter(Insert(x, rows), CreatedAtIs(t))
         == (if x.donation.createdAt == t then [x] else []) + Filter(rows, CreatedAtIs(t))
  {
    var at := CreatedAtIs(t);
    var h := rows[0];
    var mine: seq<Row> := if at(x) then [x] else [];
    var theirs: seq<Row> := if at(h) then [h] else [];
    var inserted := Insert(x, rows[1..]);
    assert !(at(x) && at(h));
    calc {
      Filter(Insert(x, rows), at);
      { InsertBehind(x, rows); }
      Filter([h] + inserted, at);
      { FilterCons(h, inserted, at); }
      theirs + Filter(inserted, at);
      theirs + (mine + Filter(rows[1..], at));
      { SwapOneEmpty(theirs, mine, Filter(rows[1..], at)); }
      mine + (theirs + Filter(rows[1..], at));
      { assert Filter(rows, at) == theirs + Filter(rows[1..], at); }
      mine + Filter(rows, at);
    }
  }

  /** Helper: a row older than the head is inserted into the tail. */
  lemma InsertBehind(x: Row, rows: seq<Row>)
    requires NewestFirst(rows) && rows != [] && rows[0].donation.createdAt > x.donation.createdAt
    ensures NewestFirst(rows[1..])
    ensures Insert(x, rows) == [rows[0]] + Insert(x, rows[1..])
  {
  }

  /** Helper: of two pieces, one of them empty, either may go first. */
  lemma SwapOneEmpty<T>(a: seq<T>, b: seq<T>, rest: seq<T>)
    requires a == [] || b == []
    ensures a + (b + rest) == b + (a + rest)
  {
    if a == [] {
      assert a + (b + rest) == b + rest;
    } else {
      assert b + (a + rest) == a + rest;
    }
  }

  /** Stability: the rows created at any one instant appear in the sorted result
      exactly as, and in the order, they appear in the input. */
  lemma SortIsStable(rows: seq<Row>)
    ensures forall t :: Filter(SortNewestFirst(rows), CreatedAtIs(t)) == Filter(rows, CreatedAtIs(t))
  {
    forall t ensures Filter(SortNewestFirst(rows), CreatedAtIs(t)) == Filter(rows, CreatedAtIs(t)) {
      SortKeepsTies(rows, t);
    }
  }

  lemma {:induction false} SortKeepsTies(rows: seq<Row>, t: int)
    ensures Filter(SortNewestFirst(rows), CreatedAtIs(t)) == Filter(rows, CreatedAtIs(t))
    decreases |rows|
  {
    if rows != [] {
      SortKeepsTies(rows[1..], t);
      InsertKeepsTies(rows[0], SortNewestFirst(rows[1..]), t);
    }
  }

  /** Any two newest-first orderings that keep every group of equal timestamps in the
      same order are the same sequence: a stable newest-first sort has exactly one
      possible result, whatever algorithm computes it. */
  lemma {:induction false} StableOrderIsUnique(a: seq<Row>, b: seq<Row>)
    requires NewestFirst(a) && NewestFirst(b)
    requires forall t :: Filter(a, CreatedAtIs(t)) == Filter(b, CreatedAtIs(t))
    ensures a == b
    decreases |a|
  {
    if a == [] || b == [] {
      if a != [] {
        EmptyFilterWitness(a, b, a[0].donation.createdAt);
      } else if b != [] {
        EmptyFilterWitness(b, a, b[0].donation.createdAt);
      }
    } else {
      var ta, tb := a[0].donation.createdAt, b[0].donation.createdAt;
      HeadIsNewest(a, b, ta);
      HeadIsNewest(b, a, tb);
      assert ta == tb;
      assert Filter(a, CreatedAtIs(ta))[0] == a[0];
      assert Filter(b, CreatedAtIs(ta))[0] == b[0];
      assert a[0] == b[0];
      forall t ensures Filter(a[1..], CreatedAtIs(t)) == Filter(b[1..], CreatedAtIs(t)) {
        assert a == [a[0]] + a[1..] && b == [b[0]] + b[1..];
        FilterAppend([a[0]], a[1..], CreatedAtIs(t));
        FilterAppend([b[0]], b[1..], CreatedAtIs(t));
        var head := Filter([a[0]], CreatedAtIs(t));
        assert Filter(a, CreatedAtIs(t)) == head + Filter(a[1..], CreatedAtIs(t));
        assert Filter(b, CreatedAtIs(t)) == head + Filter(b[1..], CreatedAtIs(t));
        assert (head + Filter(a[1..], CreatedAtIs(t)))[|head|..] == Filter(a[1..], CreatedAtIs(t));
        assert (head + Filter(b[1..], CreatedAtIs(t)))[|head|..] == Filter(b[1..], CreatedAtIs(t));
      }
      assert NewestFirst(a[1..]) && NewestFirst(b[1..]);
      StableOrderIsUnique(a[1..], b[1..]);
      assert a == [a[0]] + a[1..] && b == [b[0]] + b[1..];
    }
  }

  /** Helper: a non-empty sequence and an empty one cannot share every tie group. */
  lemma EmptyFilterWitness(a: seq<Row>, b: seq<Row>, t: int)
    requires a != [] && b == [] && t == a[0].donation.createdAt
    ensures Filter(a, CreatedAtIs(t)) != Filter(b, CreatedAtIs(t))
  {
    FilterMembers(a, CreatedAtIs(t));
    assert a[0] in Filter(a, CreatedAtIs(t));
  }

  /** Helper: the head of a newest-first sequence is at least as new as the head of
      any sequence sharing its tie groups. */
  lemma HeadIsNewest(a: seq<Row>, b: seq<Row>, t: int)
    requires a != [] && b != [] && NewestFirst(b) && t == a[0].donation.createdAt
    requires Filter(a, CreatedAtIs(t)) == Filter(b, CreatedAtIs(t))
    ensures b[0].donation.createdAt >= t
  {
    FilterMembers(a, CreatedAtIs(t));
    FilterMembers(b, CreatedAtIs(t));
    assert a[0] in Filter(a, CreatedAtIs(t));
    var k :| 0 <= k < |b| && b[k] == a[0];
    NewestFirstPairwise(b, 0, k);
  }

  /** Putting the two together: whatever stable newest-first result a caller expects,
      the sort computes exactly that. */
  lemma SortIsTheStableOrder(rows: seq<Row>, expected: seq<Row>)
    requires NewestFirst(expected)
    requires forall t :: Filter(expected, CreatedAtIs(t)) == Filter(rows, CreatedAtIs(t))
    ensures SortNewestFirst(rows) == expected
  {
    SortIsStable(rows);
    StableOrderIsUnique(SortNewestFirst(rows), expected);
  }
}
