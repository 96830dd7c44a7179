/** The list helpers of the user dashboard (`UserDashboard.tsx`): the booking filters
    and their rank-then-date sort, the redemption pre-checks, the memoised points
    total and the progress-stepper index. */
module UserDashboard {
  import opened Wrappers
  import opened Seqs
  import Backend

  datatype Booking = Booking(id: int, status: string, createdAt: int)

  /** The progress steps, in order. */
  const Steps: seq<string> := ["pending", "scheduled", "assigned", "picked_up", "delivered"]

  // ---------------------------------------------------------------- filters

  /** Whether `getFilteredBookings` keeps a booking under the active filter: `all`
      keeps everything, `active` keeps pending and scheduled bookings, the three
      later steps keep exact matches, and any other filter hides delivered ones. */
  predicate Keeps(filter: string, b: Booking) {
    match filter
    case "all" => true
    case "active" => b.status == "pending" || b.status == "scheduled"
    case "assigned" => b.status == "assigned"
    case "picked_up" => b.status == "picked_up"
    case "delivered" => b.status == "delivered"
    case _ => b.status != "delivered"
  }

  /** A booking at one of the steps is kept by exactly one of the four step filters. */
  lemma StepFiltersPartition(b: Booking)
    ensures b.status in Steps <==>
      (Keeps("active", b) || Keeps("assigned", b) || Keeps("picked_up", b) || Keeps("delivered", b))
    ensures !(Keeps("active", b) && Keeps("assigned", b)) && !(Keeps("active", b) && Keeps("picked_up", b))
    ensures !(Keeps("active", b) && Keeps("delivered", b)) && !(Keeps("assigned", b) && Keeps("picked_up", b))
    ensures !(Keeps("assigned", b) && Keeps("delivered", b)) && !(Keeps("picked_up", b) && Keeps("delivered", b))
  {
  }

  // ---------------------------------------------------------------- sort order

  /** The comparator's status rank as written: `statusOrder[s] || 4`, where the
      order maps pending and scheduled to 0, which `||` turns into 4. */
  function RankAsWritten(status: string): (r: nat)
    ensures r == 4 <==> status !in ["assigned", "picked_up", "delivered"]
  {
    var order := match status
      case "pending" => 0
      case "scheduled" => 0
      case "assigned" => 1
      case "picked_up" => 2
      case "delivered" => 3
      case _ => 4;
    if order == 0 then 4 else order
  }

  /** The rank the comparator's comment describes: pending and scheduled first. */
  function Rank(status: string): (r: nat)
    ensures (r == 0 <==> status == "pending" || status == "scheduled") && r <= 4
    ensures r == 4 <==> status !in Steps
  {
    match status
    case "pending" => 0
    case "scheduled" => 0
    case "assigned" => 1
    case "picked_up" => 2
    case "delivered" => 3
    case _ => 4
  }

  /** The intended rank follows the steps: pending and scheduled tie, then assigned,
      picked up and delivered in that order, and an unknown status after all of them. */
  lemma RankFollowsSteps(status: string)
    ensures Rank(Steps[0]) == Rank(Steps[1])
    ensures forall i, j :: 1 <= i < j < |Steps| ==> Rank(Steps[i]) < Rank(Steps[j])
    ensures status !in Steps ==> forall i :: 0 <= i < |Steps| ==> Rank(Steps[i]) < Rank(status)
  {
  }

  /** `x` may precede `y`: lower rank first, and within a rank the newer booking first. */
  predicate InOrder(x: Booking, y: Booking, rank: string -> nat) {
    rank(x.status) < rank(y.status) || (rank(x.status) == rank(y.status) && x.createdAt >= y.createdAt)
  }

  predicate SortedBy(s: seq<Booking>, rank: string -> nat) {
    forall i, j :: 0 <= i < j < |s| ==> InOrder(s[i], s[j], rank)
  }

  /** As written, a pending booking is listed after a delivered one. */
  lemma PendingAfterDeliveredAsWritten(s: seq<Booking>, i: int, j: int)
    requires SortedBy(s, RankAsWritten) && 0 <= i < |s| && 0 <= j < |s|
    requires s[i].status == "pending" && s[j].status == "delivered"
    ensures j < i
  {
  }

  /** With the intended rank, pending and scheduled bookings come before every
      booking at a later step or with an unknown status. */
  lemma OpenBookingsFirst(s: seq<Booking>, i: int, j: int)
    requires SortedBy(s, Rank) && 0 <= i < |s| && 0 <= j < |s|
    requires s[i].status in ["pending", "scheduled"] && s[j].status !in ["pending", "scheduled"]
    ensures i < j
  {
  }

  /** `s[..i + 1]` is in order except for the pairs ending at `j`, the element being
      moved towards the front. */
  predicate SortedExcept(s: seq<Booking>, i: int, j: int, rank: string -> nat) {
    0 <= j <= i < |s| &&
    forall p, q :: 0 <= p < q <= i && q != j ==> InOrder(s[p], s[q], rank)
  }

  lemma StartInsertion(s: seq<Booking>, i: int, rank: string -> nat)
    requires 0 <= i < |s| && SortedBy(s[..i], rank)
    ensures SortedExcept(s, i, i, rank)
  {
    forall p, q | 0 <= p < q <= i && q != i
      ensures InOrder(s[p], s[q], rank)
    {
      assert s[p] == s[..i][p] && s[q] == s[..i][q];
    }
  }

  lemma SwapStep(s: seq<Booking>, i: int, j: int, rank: string -> nat)
    requires SortedExcept(s, i, j, rank) && j > 0 && !InOrder(s[j - 1], s[j], rank)
    ensures SortedExcept(s[j - 1 := s[j]][j := s[j - 1]], i, j - 1, rank)
  {
  }

  lemma SwapKeepsMultiset(s: seq<Booking>, j: int)
    requires 0 < j < |s|
    ensures multiset(s[j - 1 := s[j]][j := s[j - 1]]) == multiset(s)
  {
  }

  lemma FinishInsertion(s: seq<Booking>, i: int, j: int, rank: string -> nat)
    requires SortedExcept(s, i, j, rank) && (j == 0 || InOrder(s[j - 1], s[j], rank))
    ensures SortedBy(s[..i + 1], rank)
  {
    forall p, q | 0 <= p < q <= i
      ensures InOrder(s[p], s[q], rank)
    {
      if q == j && p < j - 1 {
        assert InOrder(s[p], s[j - 1], rank);
      }
    }
  }

  /** Sorts `a` in place by rank, then newest first. */
  method SortByRank(a: array<Booking>, rank: string -> nat)
    modifies a
    ensures SortedBy(a[..], rank)
    ensures multiset(a[..]) == multiset(old(a[..]))
  {
    var i := 0;
    while i < a.Length
      invariant 0 <= i <= a.Length
      invariant SortedBy(a[..i], rank)
      invariant multiset(a[..]) == multiset(old(a[..]))
    {
      Insert(a, i, rank);
      i := i + 1;
    }
    assert a[..a.Length] == a[..];
  }

  /** One pass of the insertion sort: `a[i]` moves left past every element it
      should precede, so that `a[..i + 1]` is in order. */
  method Insert(a: array<Booking>, i: int, rank: string -> nat)
    requires 0 <= i < a.Length && SortedBy(a[..i], rank)
    modifies a
    ensures SortedBy(a[..i + 1], rank)
    ensures multiset(a[..]) == multiset(old(a[..]))
  {
    StartInsertion(a[..], i, rank);
    var j := i;
    while j > 0 && !InOrder(a[j - 1], a[j], rank)
      invariant SortedExcept(a[..], i, j, rank)
      invariant multiset(a[..]) == multiset(old(a[..]))
    {
      ghost var s := a[..];
      SwapStep(s, i, j, rank);
      SwapKeepsMultiset(s, j);
      a[j - 1], a[j] := a[j], a[j - 1];
      assert a[..] == s[j - 1 := s[j]][j := s[j - 1]];
      j := j - 1;
    }
    FinishInsertion(a[..], i, j, rank);
  }

  /** The body of `getFilteredBookings` for a given status rank: under `all` the
      shared array itself is sorted and returned; any other filter sorts a fresh array
      and leaves `bookings` as it was. Either way the result is the kept bookings,
      reordered. */
  method FilterAndSort(bookings: array<Booking>, filter: string, rank: string -> nat) returns (r: array<Booking>)
    modifies bookings
    ensures filter == "all" ==> r == bookings
    ensures filter != "all" ==> fresh(r) && bookings[..] == old(bookings[..])
    ensures multiset(r[..]) == multiset(Filter(old(bookings[..]), b => Keeps(filter, b)))
    ensures SortedBy(r[..], rank)
  {
    if filter == "all" {
      FilterAll(bookings[..], b => Keeps(filter, b));
      r := bookings;
    } else {
      var kept := Filter(bookings[..], b => Keeps(filter, b));
      r := new Booking[|kept|](k requires 0 <= k < |kept| => kept[k]);
      assert r[..] == kept;
    }
    SortByRank(r, rank);
  }

  /** `getFilteredBookings` as written: the comparator ranks by `statusOrder[s] || 4`. */
  method GetFilteredBookings(bookings: array<Booking>, filter: string) returns (r: array<Booking>)
    modifies bookings
    ensures filter == "all" ==> r == bookings
    ensures filter != "all" ==> fresh(r) && bookings[..] == old(bookings[..])
    ensures multiset(r[..]) == multiset(Filter(old(bookings[..]), b => Keeps(filter, b)))
    ensures SortedBy(r[..], RankAsWritten)
  {
    r := FilterAndSort(bookings, filter, RankAsWritten);
  }

  /** `getFilteredBookings` with the order its comment describes: open bookings first. */
  method GetFilteredBookingsIntended(bookings: array<Booking>, filter: string) returns (r: array<Booking>)
    modifies bookings
    ensures filter == "all" ==> r == bookings
    ensures filter != "all" ==> fresh(r) && bookings[..] == old(bookings[..])
    ensures multiset(r[..]) == multiset(Filter(old(bookings[..]), b => Keeps(filter, b)))
    ensures SortedBy(r[..], Rank)
  {
    r := FilterAndSort(bookings, filter, Rank);
  }

  // ---------------------------------------------------------------- redemption

  /** The client-side checks of `handleRedeem`, in their order; `amount` is
      `parseInt` of the input, `None` when that is NaN, which fails neither
      comparison. `None` means the request goes to the server. */
  function RedeemPrecheck(amount: Option<int>, balance: int): (err: Option<string>)
    ensures amount.None? ==> err.None?
    ensures amount.Some? ==>
      (err.None? <==> Backend.MinimumRedemption <= amount.value <= balance)
    ensures amount.Some? && amount.value > balance ==> err == Some("Insufficient points balance")
    ensures amount.Some? && amount.value <= balance && amount.value < Backend.MinimumRedemption ==>
      err == Some("Minimum 60 points required for redemption")
  {
    match amount
    case None => None
    case Some(a) =>
      if a > balance then Some("Insufficient points balance")
      else if a < 60 then Some("Minimum 60 points required for redemption")
      else None
  }

  /** An amount the client lets through passes the server's two amount checks when
      the server reads the same balance, so the server redeems it. */
  lemma PrecheckMatchesServer(amount: int, balance: int)
    requires RedeemPrecheck(Some(amount), balance).None?
    ensures !(amount < Backend.MinimumRedemption) && !(balance < amount)
    ensures balance - amount >= 0
  {
  }

  /** The two sides order their checks differently: too small an amount above the
      balance is refused for the balance here and for the minimum by the server. */
  lemma ClientReportsBalanceFirst()
    ensures RedeemPrecheck(Some(50), 40) == Some("Insufficient points balance")
    ensures 50 < Backend.MinimumRedemption
  {
  }

  // ---------------------------------------------------------------- points and stepper

  predicate IsDelivered(b: Booking) { b.status == "delivered" }

  /** `memoizedPoints`: 20 points per delivered booking. */
  function MemoizedPoints(bookings: seq<Booking>): (p: int)
    ensures 0 <= p <= Backend.PointsPerDelivery * |bookings|
    ensures p % Backend.PointsPerDelivery == 0
  {
    20 * |Filter(bookings, IsDelivered)|
  }

  /** One more booking adds a delivery's worth of points exactly when it is delivered. */
  lemma {:induction false} MemoizedPointsAppend(bookings: seq<Booking>, b: Booking)
    ensures MemoizedPoints(bookings + [b])
         == MemoizedPoints(bookings) + if IsDelivered(b) then Backend.PointsPerDelivery else 0
  {
    FilterAppendOne(bookings, b);
  }

  lemma {:induction false} FilterAppendOne(s: seq<Booking>, b: Booking)
    ensures Filter(s + [b], IsDelivered) == Filter(s, IsDelivered) + if IsDelivered(b) then [b] else []
  {
    if s != [] {
      assert (s + [b])[1..] == s[1..] + [b];
      FilterAppendOne(s[1..], b);
    }
  }

  /** `steps.indexOf(status)`, or -1. */
  function IndexIn(steps: seq<string>, status: string): (i: int)
    ensures -1 <= i < |steps|
    ensures i >= 0 ==> steps[i] == status && status !in steps[..i]
    ensures i == -1 <==> status !in steps
  {
    if steps == [] then -1
    else if steps[0] == status then 0
    else var k := IndexIn(steps[1..], status); if k == -1 then -1 else k + 1
  }

  /** The stepper's active step: the status's position among the steps, or 0. */
  function StepperIndex(status: string): (i: nat)
    ensures i < |Steps|
    ensures status in Steps ==> Steps[i] == status
    ensures status !in Steps ==> i == 0
  {
    var k := IndexIn(Steps, status);
    if k >= 0 then k else 0
  }
}
