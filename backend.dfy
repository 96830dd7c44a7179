/** The state-changing endpoints of the FastAPI backend (`backend/main.py`): user
    registration, delivery assignment and status updates with the loyalty-points
    award, point redemption, and round-robin route scheduling. The SQLite tables are
    sequences of rows in rowid order (a map for `users`, keyed by id); the caller's
    decoded token, the clock and the random gift-card code are parameters. */
module Backend {
  import opened Wrappers
  import Seqs

  datatype UserRow = UserRow(username: string, role: string)
  datatype BookingRow = BookingRow(id: int, userId: Option<int>, pincode: string, status: string,
                                   routeId: Option<int>, scheduled: bool)
  datatype DeliveryRow = DeliveryRow(bookingId: int, deliveryGuyId: int, status: string, completedAt: Option<int>)
  /** A `user_points` row. The table has no uniqueness constraint on `user_id`. */
  datatype PointsRow = PointsRow(userId: int, balance: int)
  datatype HistoryRow = HistoryRow(userId: int, transactionId: Option<int>, points: int)
  /** The `user_points` and `points_history` tables together. */
  datatype PointsTables = PointsTables(rows: seq<PointsRow>, history: seq<HistoryRow>)

  /** The authenticated caller, as `get_current_user` returns it. */
  datatype Caller = Caller(id: int, role: string)

  /** An endpoint's reply: a JSON body, or an `HTTPException`. */
  datatype Response =
    | Message(text: string)
    | Created(bookingId: int)
    | Redemption(giftCardCode: string, pointsRedeemed: int, remainingBalance: int)
    | Error(status: int, detail: string)

  const PointsPerDelivery: int := 20
  const MinimumRedemption: int := 60
  const Forbidden: Response := Error(403, "Not enough permissions")

  predicate RegistrableRole(role: string) {
    role in ["user", "delivery"]
  }

  predicate DeliveryStatus(status: string) {
    status in ["assigned", "picked_up", "delivered"]
  }

  predicate BookingStatus(status: string) {
    status in ["pending", "scheduled", "assigned", "picked_up", "delivered"]
  }

  // ---------------------------------------------------------------- points ledger

  /** The balance `SELECT points_balance ... WHERE user_id = ?` fetches first: the
      lowest-rowid row of user `u`, if any. */
  function FirstBalance(rows: seq<PointsRow>, u: int): (r: Option<int>)
    ensures r.None? <==> forall i :: 0 <= i < |rows| ==> rows[i].userId != u
  {
    if rows == [] then None
    else if rows[0].userId == u then Some(rows[0].balance)
    else
      var r := FirstBalance(rows[1..], u);
      assert forall i :: 1 <= i < |rows| ==> rows[i] == rows[1..][i - 1];
      r
  }

  /** The balance read is the balance of the first row of the user. */
  lemma {:induction false} FirstBalanceIsFirstRow(rows: seq<PointsRow>, u: int)
    requires FirstBalance(rows, u).Some?
    ensures exists i :: (0 <= i < |rows| && rows[i].userId == u && rows[i].balance == FirstBalance(rows, u).value
                         && forall j :: 0 <= j < i ==> rows[j].userId != u)
  {
    if rows[0].userId != u {
      FirstBalanceIsFirstRow(rows[1..], u);
      var i :| 0 <= i < |rows[1..]| && rows[1..][i].userId == u && rows[1..][i].balance == FirstBalance(rows, u).value
        && forall j :: 0 <= j < i ==> rows[1..][j].userId != u;
      assert rows[i + 1] == rows[1..][i];
      assert forall j :: 1 <= j < i + 1 ==> rows[j] == rows[1..][j - 1];
    }
  }

  /** `UPDATE user_points SET points_balance = points_balance + d WHERE user_id = u`. */
  function Credit(rows: seq<PointsRow>, u: int, d: int): (r: seq<PointsRow>) {
    seq(|rows|, i requires 0 <= i < |rows| =>
      if rows[i].userId == u then rows[i].(balance := rows[i].balance + d) else rows[i])
  }

  /** `UPDATE user_points SET points_balance = v WHERE user_id = u`. */
  function Reset(rows: seq<PointsRow>, u: int, v: int): (r: seq<PointsRow>) {
    seq(|rows|, i requires 0 <= i < |rows| =>
      if rows[i].userId == u then rows[i].(balance := v) else rows[i])
  }

  /** The sum of the history amounts of user `u`. */
  function SumFor(h: seq<HistoryRow>, u: int): int {
    if h == [] then 0
    else (if h[0].userId == u then h[0].points else 0) + SumFor(h[1..], u)
  }

  /** Whether a history row already records the award of booking `b` to user `u`. */
  predicate Awarded(h: seq<HistoryRow>, u: int, b: int) {
    exists i :: 0 <= i < |h| && h[i].userId == u && h[i].transactionId == Some(b)
  }

  /** Every balance row of `u` lies between 0 and `b`. */
  ghost predicate RowsWithin(rows: seq<PointsRow>, u: int, b: int) {
    forall i :: 0 <= i < |rows| && rows[i].userId == u ==> 0 <= rows[i].balance <= b
  }

  /** The ledger of user `u` balances: the balance read is the sum of the user's
      history, no row of the user is negative or above it, and a user without a row
      has no history total. */
  ghost predicate LedgerFor(t: PointsTables, u: int) {
    match FirstBalance(t.rows, u)
    case None => SumFor(t.history, u) == 0
    case Some(b) => b == SumFor(t.history, u) && RowsWithin(t.rows, u, b)
  }

  ghost predicate Consistent(t: PointsTables) {
    forall u :: LedgerFor(t, u)
  }

  /** No booking is recorded twice as an award to the same user. */
  ghost predicate AwardsOnce(h: seq<HistoryRow>) {
    forall i, j :: 0 <= i < j < |h| && h[i].transactionId.Some? ==>
      h[i].userId != h[j].userId || h[i].transactionId != h[j].transactionId
  }

  /** The award of a delivered booking `b` to user `u`: unless already recorded, a zero
      row is inserted (`INSERT OR IGNORE`, which no constraint ever ignores), every row
      of `u` gains 20 points, and the history records the award. */
  function Award(t: PointsTables, u: int, b: int): PointsTables {
    if Awarded(t.history, u, b) then t
    else PointsTables(Credit(t.rows + [PointsRow(u, 0)], u, PointsPerDelivery),
                      t.history + [HistoryRow(u, Some(b), PointsPerDelivery)])
  }

  /** A successful redemption of `amount` by `u` whose balance read was `balance`:
      every row of `u` is set to the new balance and the history records the debit. */
  function Debit(t: PointsTables, u: int, balance: int, amount: int): PointsTables {
    PointsTables(Reset(t.rows, u, balance - amount), t.history + [HistoryRow(u, None, -amount)])
  }

  lemma {:induction false} FirstBalanceAppend(rows: seq<PointsRow>, x: PointsRow, v: int)
    ensures FirstBalance(rows + [x], v)
         == if FirstBalance(rows, v).Some? then FirstBalance(rows, v)
            else if x.userId == v then Some(x.balance) else None
  {
    if rows != [] {
      assert (rows + [x])[1..] == rows[1..] + [x];
      FirstBalanceAppend(rows[1..], x, v);
    }
  }

  lemma {:induction false} FirstBalanceCredit(rows: seq<PointsRow>, u: int, d: int, v: int)
    ensures FirstBalance(Credit(rows, u, d), v)
         == if v == u && FirstBalance(rows, u).Some? then Some(FirstBalance(rows, u).value + d)
            else FirstBalance(rows, v)
  {
    if rows != [] {
      assert Credit(rows, u, d)[1..] == Credit(rows[1..], u, d);
      FirstBalanceCredit(rows[1..], u, d, v);
    }
  }

  lemma {:induction false} FirstBalanceReset(rows: seq<PointsRow>, u: int, x: int, v: int)
    ensures FirstBalance(Reset(rows, u, x), v)
         == if v == u && FirstBalance(rows, u).Some? then Some(x) else FirstBalance(rows, v)
  {
    if rows != [] {
      assert Reset(rows, u, x)[1..] == Reset(rows[1..], u, x);
      FirstBalanceReset(rows[1..], u, x, v);
    }
  }

  lemma {:induction false} SumForAppend(h: seq<HistoryRow>, r: HistoryRow, v: int)
    ensures SumFor(h + [r], v) == SumFor(h, v) + (if r.userId == v then r.points else 0)
  {
    if h != [] {
      assert (h + [r])[1..] == h[1..] + [r];
      SumForAppend(h[1..], r, v);
    }
  }

  /** A consistent ledger never shows a negative balance. */
  lemma BalanceNonNegative(t: PointsTables, u: int)
    requires LedgerFor(t, u)
    ensures FirstBalance(t.rows, u).Some? ==> FirstBalance(t.rows, u).value >= 0
    ensures SumFor(t.history, u) >= 0
  {
    if FirstBalance(t.rows, u).Some? {
      FirstBalanceIsFirstRow(t.rows, u);
    }
  }

  /** Delivering awards exactly 20 points the first time a booking is delivered to a
      user and nothing afterwards, and keeps the ledger consistent and the awards
      unique. */
  lemma AwardKeepsLedger(t: PointsTables, u: int, b: int)
    requires Consistent(t) && AwardsOnce(t.history)
    ensures Consistent(Award(t, u, b)) && AwardsOnce(Award(t, u, b).history)
    ensures Awarded(t.history, u, b) ==> Award(t, u, b) == t
    ensures !Awarded(t.history, u, b) ==>
      FirstBalance(Award(t, u, b).rows, u) == Some(SumFor(t.history, u) + PointsPerDelivery)
    ensures forall v :: v != u ==> FirstBalance(Award(t, u, b).rows, v) == FirstBalance(t.rows, v)
  {
    if !Awarded(t.history, u, b) {
      var t' := Award(t, u, b);
      forall v ensures LedgerFor(t', v) && (v != u ==> FirstBalance(t'.rows, v) == FirstBalance(t.rows, v))
      {
        assert LedgerFor(t, u) && LedgerFor(t, v);
        AwardLedgerFor(t, u, b, v);
      }
      assert LedgerFor(t, u);
      AwardLedgerFor(t, u, b, u);
      assert AwardsOnce(t'.history) by {
        forall i | 0 <= i < |t.history| && t.history[i].transactionId.Some?
          ensures t.history[i].userId != u || t.history[i].transactionId != Some(b)
        {
        }
      }
    }
  }

  /** The award seen from one user `v`. */
  lemma AwardLedgerFor(t: PointsTables, u: int, b: int, v: int)
    requires LedgerFor(t, u) && LedgerFor(t, v) && !Awarded(t.history, u, b)
    ensures LedgerFor(Award(t, u, b), v)
    ensures v == u ==> FirstBalance(Award(t, u, b).rows, u) == Some(SumFor(t.history, u) + PointsPerDelivery)
    ensures v != u ==> FirstBalance(Award(t, u, b).rows, v) == FirstBalance(t.rows, v)
  {
    var grown := t.rows + [PointsRow(u, 0)];
    var t' := Award(t, u, b);
    FirstBalanceAppend(t.rows, PointsRow(u, 0), v);
    FirstBalanceCredit(grown, u, PointsPerDelivery, v);
    SumForAppend(t.history, HistoryRow(u, Some(b), PointsPerDelivery), v);
    if v == u {
      var bal := SumFor(t.history, u);
      if FirstBalance(t.rows, u).Some? {
        BalanceNonNegative(t, u);
      }
      forall i | 0 <= i < |t'.rows| && t'.rows[i].userId == u
        ensures 0 <= t'.rows[i].balance <= bal + PointsPerDelivery
      {
        if i < |t.rows| {
          assert grown[i] == t.rows[i];
        }
      }
    } else {
      forall i | 0 <= i < |t'.rows| && t'.rows[i].userId == v
        ensures t'.rows[i] == t.rows[i]
      {
        assert grown[i].userId == v;
      }
    }
  }

  /** Awarding is idempotent: delivering a booking again changes nothing. */
  lemma AwardIdempotent(t: PointsTables, u: int, b: int)
    ensures Award(Award(t, u, b), u, b) == Award(t, u, b)
  {
    if !Awarded(t.history, u, b) {
      var h := Award(t, u, b).history;
      assert h[|h| - 1].userId == u && h[|h| - 1].transactionId == Some(b);
    }
  }

  /** Redeeming leaves the ledger consistent, records the debit, and the new balance,
      the one returned as `remaining_balance`, is never negative. */
  lemma DebitKeepsLedger(t: PointsTables, u: int, amount: int)
    requires Consistent(t) && AwardsOnce(t.history)
    requires FirstBalance(t.rows, u).Some? && 0 <= amount <= FirstBalance(t.rows, u).value
    ensures var t' := Debit(t, u, FirstBalance(t.rows, u).value, amount);
      && Consistent(t') && AwardsOnce(t'.history)
      && FirstBalance(t'.rows, u) == Some(FirstBalance(t.rows, u).value - amount)
      && FirstBalance(t'.rows, u).value >= 0
      && forall v :: v != u ==> FirstBalance(t'.rows, v) == FirstBalance(t.rows, v)
  {
    var bal := FirstBalance(t.rows, u).value;
    var t' := Debit(t, u, bal, amount);
    forall v ensures LedgerFor(t', v) && (v != u ==> FirstBalance(t'.rows, v) == FirstBalance(t.rows, v))
    {
      assert LedgerFor(t, u) && LedgerFor(t, v);
      DebitLedgerFor(t, u, amount, v);
    }
    assert LedgerFor(t, u);
    DebitLedgerFor(t, u, amount, u);
  }

  /** The redemption seen from one user `v`. */
  lemma DebitLedgerFor(t: PointsTables, u: int, amount: int, v: int)
    requires LedgerFor(t, u) && LedgerFor(t, v)
    requires FirstBalance(t.rows, u).Some? && 0 <= amount <= FirstBalance(t.rows, u).value
    ensures var t' := Debit(t, u, FirstBalance(t.rows, u).value, amount);
      && LedgerFor(t', v)
      && (v == u ==> FirstBalance(t'.rows, u) == Some(FirstBalance(t.rows, u).value - amount))
      && (v != u ==> FirstBalance(t'.rows, v) == FirstBalance(t.rows, v))
  {
    var bal := FirstBalance(t.rows, u).value;
    var t' := Debit(t, u, bal, amount);
    assert bal == SumFor(t.history, u);
    FirstBalanceReset(t.rows, u, bal - amount, v);
    SumForAppend(t.history, HistoryRow(u, None, -amount), v);
    if v == u {
      assert FirstBalance(t'.rows, u) == Some(bal - amount);
      assert SumFor(t'.history, u) == bal - amount;
      assert RowsWithin(t'.rows, u, bal - amount);
    } else {
      assert FirstBalance(t'.rows, v) == FirstBalance(t.rows, v);
      assert SumFor(t'.history, v) == SumFor(t.history, v);
      forall i | 0 <= i < |t'.rows| && t'.rows[i].userId == v
        ensures t'.rows[i] == t.rows[i]
      {
      }
    }
  }

  // ---------------------------------------------------------------- route scheduling

  /** Python's `%`, whose result takes the sign of the divisor and differs from `a`
      by a multiple of `d`. */
  function PyMod(a: int, d: int): (r: int)
    requires d != 0
    ensures d > 0 ==> 0 <= r < d && r == a % d
    ensures d < 0 ==> d < r <= 0
    ensures (a - r) % d == 0
  {
    if d > 0 || a % d == 0 then
      MultipleMod(d, a / d);
      a % d
    else
      assert a - (a % d + d) == d * (a / d - 1);
      MultipleMod(d, a / d - 1);
      a % d + d
  }

  lemma NoSmallMultiple(d: int, k: int)
    requires d != 0 && 0 <= d * k < (if d > 0 then d else -d)
    ensures k == 0
  {
  }

  /** A multiple of `d` leaves no remainder. */
  lemma MultipleMod(d: int, q: int)
    requires d != 0
    ensures (d * q) % d == 0
  {
    var x := d * q;
    var k := q - x / d;
    assert d * k == x % d by {
      assert x == d * (x / d) + x % d;
      assert d * k == d * q - d * (x / d);
    }
    NoSmallMultiple(d, k);
  }

  /** `pandas.Series.unique`: the distinct values in order of first appearance. */
  function Unique(s: seq<string>): (u: seq<string>)
    ensures Seqs.Distinct(u)
    ensures forall x :: x in u <==> x in s
    ensures forall i, j :: 0 <= i < j < |u| ==> IndexOf(s, u[i]) < IndexOf(s, u[j])
  {
    if s == [] then []
    else
      var p, x := s[..|s| - 1], s[|s| - 1];
      var w := Unique(p);
      assert s == p + [x];
      assert forall y :: y in s <==> y in p || y == x;
      IndexOfAppendAll(p, x);
      if x in w then w
      else
        IndexOfLast(p, x);
        w + [x]
  }

  /** Appending leaves the first position of every value already present. */
  lemma {:induction false} IndexOfAppend(p: seq<string>, x: string, y: string)
    requires y in p
    ensures IndexOf(p + [x], y) == IndexOf(p, y)
  {
    if p[0] != y {
      assert (p + [x])[1..] == p[1..] + [x];
      IndexOfAppend(p[1..], x, y);
    }
  }

  lemma IndexOfAppendAll(p: seq<string>, x: string)
    ensures forall y :: y in p ==> IndexOf(p + [x], y) == IndexOf(p, y)
  {
    forall y | y in p
      ensures IndexOf(p + [x], y) == IndexOf(p, y)
    {
      IndexOfAppend(p, x, y);
    }
  }

  /** A value new to `p` is first found at the appended position. */
  lemma {:induction false} IndexOfLast(p: seq<string>, x: string)
    requires x !in p
    ensures IndexOf(p + [x], x) == |p|
  {
    if p != [] {
      assert (p + [x])[1..] == p[1..] + [x];
      IndexOfLast(p[1..], x);
    }
  }

  /** The route the `i`-th distinct pincode gets when `n` routes are formed. */
  function RouteOf(i: int, n: int): int
    requires n != 0
  {
    PyMod(i, n) + 1
  }

  /** The `pincode_to_route` loop: the `i`-th distinct pincode maps to `(i % n) + 1`. */
  method RouteMap(unique: seq<string>, n: int) returns (m: map<string, int>)
    requires n != 0 && Seqs.Distinct(unique)
    ensures m.Keys == set p | p in unique
    ensures forall i :: 0 <= i < |unique| ==> m[unique[i]] == RouteOf(i, n)
  {
    m := map[];
    var i := 0;
    while i < |unique|
      invariant 0 <= i <= |unique|
      invariant m.Keys == set p | p in unique[..i]
      invariant forall j :: 0 <= j < i ==> m[unique[j]] == RouteOf(j, n)
    {
      assert unique[..i + 1] == unique[..i] + [unique[i]];
      m := m[unique[i] := PyMod(i, n) + 1];
      i := i + 1;
    }
    assert unique[..i] == unique;
  }

  /** With at least one route requested, every route number lies in `1..n` and each
      of them is given to some pincode: the first `n` pincodes get routes `1..n`. */
  lemma RoundRobinCovers(unique: seq<string>, k: int, i: int)
    requires k >= 1 && |unique| >= 1
    ensures var n := if |unique| < k then |unique| else k;
      && (0 <= i ==> 1 <= RouteOf(i, n) <= n)
      && (0 <= i < n ==> RouteOf(i, n) == i + 1)
  {
    var n := if |unique| < k then |unique| else k;
    var r := PyMod(i, n);
    assert 0 <= r < n && r == i % n;
  }

  /** The pincodes of the unscheduled bookings, in rowid order. */
  function Pincodes(bs: seq<BookingRow>): (ps: seq<string>)
    ensures |ps| == |bs| && forall i :: 0 <= i < |bs| ==> ps[i] == bs[i].pincode
  {
    seq(|bs|, i requires 0 <= i < |bs| => bs[i].pincode)
  }

  function Unscheduled(bs: seq<BookingRow>): seq<BookingRow> {
    Seqs.Filter(bs, (b: BookingRow) => !b.scheduled)
  }

  /** The position of `x` in `s`. */
  function IndexOf(s: seq<string>, x: string): (i: nat)
    requires x in s
    ensures i < |s| && s[i] == x && forall j :: 0 <= j < i ==> s[j] != x
  {
    if s[0] == x then 0 else 1 + IndexOf(s[1..], x)
  }

  /** One booking after scheduling onto `n` routes: an unscheduled booking whose
      pincode is the `j`-th distinct one gets route `RouteOf(j, n)`, the status
      scheduled and the scheduled flag. */
  function Rescheduled(b: BookingRow, unique: seq<string>, n: int): BookingRow
    requires n != 0
  {
    if b.scheduled || b.pincode !in unique then b
    else b.(routeId := Some(RouteOf(IndexOf(unique, b.pincode), n)), scheduled := true, status := "scheduled")
  }

  function RescheduleAll(bs: seq<BookingRow>, unique: seq<string>, n: int): (r: seq<BookingRow>)
    requires n != 0
  {
    seq(|bs|, i requires 0 <= i < |bs| => Rescheduled(bs[i], unique, n))
  }

  /** Every unscheduled booking's pincode is among the distinct pincodes. */
  lemma PendingPincodesCovered(bs: seq<BookingRow>, i: int)
    requires 0 <= i < |bs| && !bs[i].scheduled
    ensures bs[i].pincode in Unique(Pincodes(Unscheduled(bs)))
  {
    var pending := Unscheduled(bs);
    Seqs.FilterMembership(bs, (b: BookingRow) => !b.scheduled, bs[i]);
    var j :| 0 <= j < |pending| && pending[j] == bs[i];
    assert Pincodes(pending)[j] == bs[i].pincode;
  }

  /** After a successful scheduling no booking is left unscheduled, every formerly
      unscheduled booking gets a route in `1..n` when at least one route was asked
      for, and bookings sharing a pincode share a route. */
  lemma SchedulingCoversAll(bs: seq<BookingRow>, k: int, i: int, i': int)
    requires Unscheduled(bs) != [] && k != 0
    requires 0 <= i < |bs| && 0 <= i' < |bs|
    ensures var unique := Unique(Pincodes(Unscheduled(bs)));
      var n := if |unique| < k then |unique| else k;
      var after := RescheduleAll(bs, unique, n);
      && after[i].scheduled
      && (!bs[i].scheduled ==> after[i].routeId.Some? && after[i].status == "scheduled")
      && (!bs[i].scheduled && k >= 1 ==> 1 <= after[i].routeId.value <= n)
      && (!bs[i].scheduled && !bs[i'].scheduled && bs[i].pincode == bs[i'].pincode ==>
            after[i].routeId == after[i'].routeId)
  {
    var unique := Unique(Pincodes(Unscheduled(bs)));
    assert Pincodes(Unscheduled(bs))[0] in unique;
    if !bs[i].scheduled {
      PendingPincodesCovered(bs, i);
      if k >= 1 {
        RoundRobinCovers(unique, k, IndexOf(unique, bs[i].pincode));
      }
    }
  }

  /** Applying the route map the loop built to every row is the rescheduling. */
  lemma ScheduleRowsMatch(bs: seq<BookingRow>, unique: seq<string>, n: int, m: map<string, int>)
    requires n != 0 && unique == Unique(Pincodes(Unscheduled(bs)))
    requires m.Keys == set p | p in unique
    requires forall i :: 0 <= i < |unique| ==> m[unique[i]] == RouteOf(i, n)
    ensures forall i :: 0 <= i < |bs| && !bs[i].scheduled ==> bs[i].pincode in m
    ensures seq(|bs|, i requires 0 <= i < |bs| => ScheduleRow(bs[i], m)) == RescheduleAll(bs, unique, n)
    ensures forall i :: 0 <= i < |bs| ==> RescheduleAll(bs, unique, n)[i].scheduled
  {
    forall i | 0 <= i < |bs|
      ensures bs[i].pincode in m || bs[i].scheduled
      ensures ScheduleRow(bs[i], m) == Rescheduled(bs[i], unique, n)
    {
      if !bs[i].scheduled {
        PendingPincodesCovered(bs, i);
      }
    }
  }

  lemma RescheduleAllValid(bs: seq<BookingRow>, next: int, unique: seq<string>, n: int)
    requires n != 0 && BookingsValid(bs, next)
    ensures BookingsValid(RescheduleAll(bs, unique, n), next)
  {
  }

  // ---------------------------------------------------------------- row updates

  /** The first booking with id `id`. */
  function FindBooking(bs: seq<BookingRow>, id: int): (r: Option<BookingRow>)
    ensures r.None? <==> forall i :: 0 <= i < |bs| ==> bs[i].id != id
    ensures r.Some? ==> r.value in bs && r.value.id == id
  {
    if bs == [] then None
    else if bs[0].id == id then Some(bs[0])
    else
      var r := FindBooking(bs[1..], id);
      assert forall i :: 1 <= i < |bs| ==> bs[i] == bs[1..][i - 1];
      r
  }

  /** The user a delivered booking pays: its `user_id`, when the booking exists and
      that id is truthy (neither NULL nor 0). */
  function AwardRecipient(bs: seq<BookingRow>, id: int): Option<int> {
    match FindBooking(bs, id)
    case None => None
    case Some(b) => if b.userId.Some? && b.userId.value != 0 then b.userId else None
  }

  /** `UPDATE bookings SET status = ? WHERE id = ?`. */
  function SetBookingStatus(bs: seq<BookingRow>, id: int, status: string): (r: seq<BookingRow>) {
    seq(|bs|, i requires 0 <= i < |bs| => if bs[i].id == id then bs[i].(status := status) else bs[i])
  }

  /** `UPDATE bookings SET status = 'assigned', scheduled = 1 WHERE id = ?`. */
  function MarkAssigned(bs: seq<BookingRow>, id: int): (r: seq<BookingRow>) {
    seq(|bs|, i requires 0 <= i < |bs| =>
      if bs[i].id == id then bs[i].(status := "assigned", scheduled := true) else bs[i])
  }

  /** `UPDATE deliveries SET status = ?, completed_at = ? WHERE booking_id = ? AND
      delivery_guy_id = ?`, with `completed_at` the time only for a delivery. */
  function SetDeliveryStatus(ds: seq<DeliveryRow>, bookingId: int, guy: int, status: string, now: int): (r: seq<DeliveryRow>) {
    seq(|ds|, i requires 0 <= i < |ds| =>
      if ds[i].bookingId == bookingId && ds[i].deliveryGuyId == guy
      then ds[i].(status := status, completedAt := if status == "delivered" then Some(now) else None)
      else ds[i])
  }

  predicate HasAssignment(ds: seq<DeliveryRow>, bookingId: int, guy: int) {
    exists i :: 0 <= i < |ds| && ds[i].bookingId == bookingId && ds[i].deliveryGuyId == guy
  }

  /** The scheduling update of one booking given the pincode-to-route map. */
  function ScheduleRow(b: BookingRow, m: map<string, int>): BookingRow
    requires !b.scheduled ==> b.pincode in m
  {
    if b.scheduled then b else b.(routeId := Some(m[b.pincode]), scheduled := true, status := "scheduled")
  }

  ghost predicate UsersValid(users: map<int, UserRow>, nextId: int) {
    && 1 <= nextId
    && (forall id :: id in users ==> 1 <= id < nextId && users[id].role in ["user", "delivery", "admin"])
    && (forall a, b :: a in users && b in users && a != b ==> users[a].username != users[b].username)
  }

  ghost predicate BookingsValid(bs: seq<BookingRow>, nextId: int) {
    && 1 <= nextId
    && (forall i :: 0 <= i < |bs| ==> 1 <= bs[i].id < nextId && BookingStatus(bs[i].status))
    && (forall i, j :: 0 <= i < j < |bs| ==> bs[i].id < bs[j].id)
  }

  ghost predicate DeliveriesValid(ds: seq<DeliveryRow>) {
    forall i :: 0 <= i < |ds| ==>
      DeliveryStatus(ds[i].status) && (ds[i].completedAt.Some? <==> ds[i].status == "delivered")
  }

  lemma SetBookingStatusValid(bs: seq<BookingRow>, next: int, id: int, status: string)
    requires BookingsValid(bs, next) && BookingStatus(status)
    ensures BookingsValid(SetBookingStatus(bs, id, status), next)
  {
  }

  lemma MarkAssignedValid(bs: seq<BookingRow>, next: int, id: int)
    requires BookingsValid(bs, next)
    ensures BookingsValid(MarkAssigned(bs, id), next)
  {
  }

  /** A status update keeps every delivery row's status valid and its completion
      time present exactly for delivered rows. */
  lemma SetDeliveryStatusValid(ds: seq<DeliveryRow>, bookingId: int, guy: int, status: string, now: int)
    requires DeliveriesValid(ds) && DeliveryStatus(status)
    ensures DeliveriesValid(SetDeliveryStatus(ds, bookingId, guy, status, now))
  {
  }

  class Db {
    var users: map<int, UserRow>
    var nextUserId: int
    var bookings: seq<BookingRow>
    var nextBookingId: int
    var deliveries: seq<DeliveryRow>
    var points: PointsTables

    ghost predicate Valid()
      reads this
    {
      && UsersValid(users, nextUserId)
      && BookingsValid(bookings, nextBookingId)
      && DeliveriesValid(deliveries)
      && Consistent(points) && AwardsOnce(points.history)
    }

    constructor ()
      ensures Valid()
      ensures users == map[] && bookings == [] && deliveries == [] && points == PointsTables([], [])
    {
      users := map[];
      nextUserId := 1;
      bookings := [];
      nextBookingId := 1;
      deliveries := [];
      points := PointsTables([], []);
    }

    /** `POST /auth/register`: only the roles user and delivery may register, and a
        taken username is refused; otherwise the user gets the next id. */
    method Register(username: string, role: string) returns (r: Response)
      requires Valid()
      modifies this
      ensures Valid()
      ensures !RegistrableRole(role) ==>
        r == Error(400, "Invalid role. Only 'user' and 'delivery' roles are allowed for registration.")
      ensures RegistrableRole(role) && (exists id :: id in old(users) && old(users)[id].username == username) ==>
        r == Error(400, "Username already registered")
      ensures r.Error? ==> users == old(users) && nextUserId == old(nextUserId)
      ensures r.Message? <==>
        RegistrableRole(role) && forall id :: id in old(users) ==> old(users)[id].username != username
      ensures r.Message? ==>
        r.text == "User registered successfully"
        && users == old(users)[old(nextUserId) := UserRow(username, role)] && nextUserId == old(nextUserId) + 1
      ensures bookings == old(bookings) && deliveries == old(deliveries) && points == old(points)
    {
      if !RegistrableRole(role) {
        return Error(400, "Invalid role. Only 'user' and 'delivery' roles are allowed for registration.");
      }
      if exists id :: id in users && users[id].username == username {
        return Error(400, "Username already registered");
      }
      users := users[nextUserId := UserRow(username, role)];
      nextUserId := nextUserId + 1;
      r := Message("User registered successfully");
    }

    /** The bookings row `POST /bookings` inserts for a user: pending, unrouted and
        unscheduled. */
    method CreateBooking(caller: Caller, pincode: string) returns (r: Response)
      requires Valid()
      modifies this
      ensures Valid()
      ensures caller.role != "user" ==> r == Forbidden && bookings == old(bookings)
      ensures caller.role == "user" ==>
        r == Created(old(nextBookingId)) && nextBookingId == old(nextBookingId) + 1
        && bookings == old(bookings) + [BookingRow(old(nextBookingId), Some(caller.id), pincode, "pending", None, false)]
      ensures users == old(users) && deliveries == old(deliveries) && points == old(points)
    {
      if caller.role != "user" {
        return Forbidden;
      }
      bookings := bookings + [BookingRow(nextBookingId, Some(caller.id), pincode, "pending", None, false)];
      r := Created(nextBookingId);
      nextBookingId := nextBookingId + 1;
    }

    /** `POST /admin/assign-delivery`: the booking must exist and the delivery person
        must be a user with role delivery; a new assigned delivery row is recorded and
        the booking becomes assigned and scheduled. */
    method AssignDelivery(caller: Caller, bookingId: int, deliveryGuyId: int) returns (r: Response)
      requires Valid()
      modifies this
      ensures Valid()
      ensures caller.role != "admin" ==> r == Forbidden
      ensures caller.role == "admin" && FindBooking(old(bookings), bookingId).None? ==>
        r == Error(404, "Booking not found")
      ensures caller.role == "admin" && FindBooking(old(bookings), bookingId).Some?
              && (deliveryGuyId !in users || users[deliveryGuyId].role != "delivery") ==>
        r == Error(404, "Delivery guy not found")
      ensures r.Error? ==> bookings == old(bookings) && deliveries == old(deliveries)
      ensures r.Message? ==>
        r.text == "Delivery assigned successfully"
        && deliveries == old(deliveries) + [DeliveryRow(bookingId, deliveryGuyId, "assigned", None)]
        && bookings == MarkAssigned(old(bookings), bookingId)
      ensures r.Error? || r.Message?
      ensures r.Message? <==>
        caller.role == "admin" && FindBooking(old(bookings), bookingId).Some?
        && deliveryGuyId in users && users[deliveryGuyId].role == "delivery"
      ensures users == old(users) && points == old(points)
    {
      if caller.role != "admin" {
        return Forbidden;
      }
      if FindBooking(bookings, bookingId).None? {
        return Error(404, "Booking not found");
      }
      if deliveryGuyId !in users || users[deliveryGuyId].role != "delivery" {
        return Error(404, "Delivery guy not found");
      }
      deliveries := deliveries + [DeliveryRow(bookingId, deliveryGuyId, "assigned", None)];
      MarkAssignedValid(bookings, nextBookingId, bookingId);
      bookings := MarkAssigned(bookings, bookingId);
      r := Message("Delivery assigned successfully");
    }

    /** `POST /delivery/update-status`: the status must be one of the three delivery
        states and the caller must hold an assignment for the booking. The caller's
        delivery rows and the booking take the status; no transition order is
        enforced. A delivery pays the booking's user 20 points unless that booking was
        already paid to them. */
    method UpdateDeliveryStatus(caller: Caller, bookingId: int, status: string, now: int) returns (r: Response)
      requires Valid()
      modifies this
      ensures Valid()
      ensures caller.role != "delivery" ==> r == Forbidden
      ensures caller.role == "delivery" && !DeliveryStatus(status) ==> r == Error(400, "Invalid status")
      ensures caller.role == "delivery" && DeliveryStatus(status) && !HasAssignment(old(deliveries), bookingId, caller.id) ==>
        r == Error(404, "Delivery assignment not found")
      ensures r.Error? ==> bookings == old(bookings) && deliveries == old(deliveries) && points == old(points)
      ensures r.Error? || r.Message?
      ensures r.Message? <==>
        caller.role == "delivery" && DeliveryStatus(status) && HasAssignment(old(deliveries), bookingId, caller.id)
      ensures r.Message? ==>
        r.text == "Status updated to " + status
        && deliveries == SetDeliveryStatus(old(deliveries), bookingId, caller.id, status, now)
        && bookings == SetBookingStatus(old(bookings), bookingId, status)
        && points == (if status == "delivered" && AwardRecipient(old(bookings), bookingId).Some?
                      then Award(old(points), AwardRecipient(old(bookings), bookingId).value, bookingId)
                      else old(points))
      ensures users == old(users)
    {
      if caller.role != "delivery" {
        return Forbidden;
      }
      if !DeliveryStatus(status) {
        return Error(400, "Invalid status");
      }
      if !HasAssignment(deliveries, bookingId, caller.id) {
        return Error(404, "Delivery assignment not found");
      }
      var recipient := AwardRecipient(bookings, bookingId);
      SetDeliveryStatusValid(deliveries, bookingId, caller.id, status, now);
      SetBookingStatusValid(bookings, nextBookingId, bookingId, status);
      var paid := points;
      if status == "delivered" && recipient.Some? {
        AwardKeepsLedger(points, recipient.value, bookingId);
        paid := Award(points, recipient.value, bookingId);
      }
      deliveries, bookings, points := SetDeliveryStatus(deliveries, bookingId, caller.id, status, now),
                                      SetBookingStatus(bookings, bookingId, status), paid;
      r := Message("Status updated to " + status);
    }

    /** `POST /points/redeem`: refused below 60 points, then without a balance row,
        then when the balance is short; otherwise every row of the caller is set to
        the new balance, the debit is recorded, and the new balance is returned. */
    method RedeemPoints(caller: Caller, amount: int, giftCardCode: string) returns (r: Response)
      requires Valid()
      modifies this
      ensures Valid()
      ensures caller.role != "user" ==> r == Forbidden
      ensures caller.role == "user" && amount < MinimumRedemption ==>
        r == Error(400, "Minimum 60 points required for redemption")
      ensures caller.role == "user" && amount >= MinimumRedemption && FirstBalance(old(points).rows, caller.id).None? ==>
        r == Error(400, "No points balance found")
      ensures caller.role == "user" && amount >= MinimumRedemption && FirstBalance(old(points).rows, caller.id).Some?
              && FirstBalance(old(points).rows, caller.id).value < amount ==>
        r == Error(400, "Insufficient points balance")
      ensures r.Error? ==> points == old(points)
      ensures r.Error? || r.Redemption?
      ensures r.Redemption? <==>
        caller.role == "user" && amount >= MinimumRedemption && FirstBalance(old(points).rows, caller.id).Some?
        && FirstBalance(old(points).rows, caller.id).value >= amount
      ensures r.Redemption? ==>
        var balance := FirstBalance(old(points).rows, caller.id).value;
        && r == Redemption(giftCardCode, amount, balance - amount)
        && r.remainingBalance >= 0
        && points == Debit(old(points), caller.id, balance, amount)
        && FirstBalance(points.rows, caller.id) == Some(r.remainingBalance)
      ensures users == old(users) && bookings == old(bookings) && deliveries == old(deliveries)
    {
      if caller.role != "user" {
        return Forbidden;
      }
      if amount < MinimumRedemption {
        return Error(400, "Minimum 60 points required for redemption");
      }
      var row := FirstBalance(points.rows, caller.id);
      if row.None? {
        return Error(400, "No points balance found");
      }
      var balance := row.value;
      if balance < amount {
        return Error(400, "Insufficient points balance");
      }
      DebitKeepsLedger(points, caller.id, amount);
      points := Debit(points, caller.id, balance, amount);
      r := Redemption(giftCardCode, amount, balance - amount);
    }

    /** `POST /schedule_routes?k=`: the unscheduled bookings' distinct pincodes, in
        order of first appearance, are dealt round-robin onto `min(#pincodes, k)`
        routes; each unscheduled booking gets its pincode's route and becomes
        scheduled. With `k = 0` the modulo raises and the request fails. */
    method ScheduleRoutes(caller: Caller, k: int) returns (r: Response)
      requires Valid()
      modifies this
      ensures Valid()
      ensures caller.role != "admin" ==> r == Forbidden && bookings == old(bookings)
      ensures caller.role == "admin" && Unscheduled(old(bookings)) == [] ==>
        r == Message("No unscheduled bookings") && bookings == old(bookings)
      ensures caller.role == "admin" && Unscheduled(old(bookings)) != [] && k == 0 ==>
        r == Error(500, "Internal Server Error") && bookings == old(bookings)
      ensures caller.role == "admin" && Unscheduled(old(bookings)) != [] && k != 0 ==>
        var unique := Unique(Pincodes(Unscheduled(old(bookings))));
        var n := if |unique| < k then |unique| else k;
        && r == Message("routes")
        && bookings == RescheduleAll(old(bookings), unique, n)
        && forall i :: 0 <= i < |bookings| ==> bookings[i].scheduled
      ensures users == old(users) && deliveries == old(deliveries) && points == old(points)
    {
      if caller.role != "admin" {
        return Forbidden;
      }
      var pending := Unscheduled(bookings);
      if pending == [] {
        return Message("No unscheduled bookings");
      }
      var unique := Unique(Pincodes(pending));
      var n := if |unique| < k then |unique| else k;
      if n == 0 {
        return Error(500, "Internal Server Error");
      }
      var m := RouteMap(unique, n);
      var before := bookings;
      ScheduleRowsMatch(before, unique, n, m);
      RescheduleAllValid(before, nextBookingId, unique, n);
      bookings := seq(|before|, i requires 0 <= i < |before| => ScheduleRow(before[i], m));
      r := Message("routes");
    }
  }

  /** Changing a booking's status does not change whom its delivery pays. */
  lemma {:induction false} SetStatusKeepsRecipient(bs: seq<BookingRow>, id: int, status: string)
    ensures AwardRecipient(SetBookingStatus(bs, id, status), id) == AwardRecipient(bs, id)
  {
    if bs != [] {
      assert SetBookingStatus(bs, id, status)[1..] == SetBookingStatus(bs[1..], id, status);
      SetStatusKeepsRecipient(bs[1..], id, status);
    }
  }
}
