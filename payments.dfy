/**
 * The payments page: the revenue total and the two status counts over the store's
 * payments, and the badge and icon chosen for a status.
 */
module Payments {
  import Db

  /** `payments.reduce((sum, p) => sum + p.amount, 0)`, folding from the left. */
  function TotalRevenue(ps: seq<Db.Payment>): int
    decreases |ps|
  {
    if |ps| == 0 then 0 else TotalRevenue(ps[..|ps| - 1]) + ps[|ps| - 1].amount
  }

  function CountStatus(ps: seq<Db.Payment>, status: string): (n: nat)
    ensures n <= |ps|
    decreases |ps|
  {
    if |ps| == 0 then 0 else CountStatus(ps[..|ps| - 1], status) + (if ps[|ps| - 1].status == status then 1 else 0)
  }

  function CompletedPayments(ps: seq<Db.Payment>): nat {
    CountStatus(ps, "completed")
  }

  function PendingPayments(ps: seq<Db.Payment>): nat {
    CountStatus(ps, "pending")
  }

  /** The total is additive over concatenation, so the fold order does not matter. */
  lemma {:induction false} TotalRevenueAppend(a: seq<Db.Payment>, b: seq<Db.Payment>)
    ensures TotalRevenue(a + b) == TotalRevenue(a) + TotalRevenue(b)
    decreases |b|
  {
    if |b| == 0 {
      assert a + b == a;
    } else {
      TotalRevenueAppend(a, b[..|b| - 1]);
      assert (a + b)[..|a + b| - 1] == a + b[..|b| - 1];
      assert (a + b)[|a + b| - 1] == b[|b| - 1];
    }
  }

  /** With no negative amount, the total is at least every single amount. */
  lemma {:induction false} TotalRevenueBounds(ps: seq<Db.Payment>, k: nat)
    requires forall i :: 0 <= i < |ps| ==> ps[i].amount >= 0
    requires k < |ps|
    ensures TotalRevenue(ps) >= ps[k].amount
    decreases |ps|
  {
    if k < |ps| - 1 {
      TotalRevenueBounds(ps[..|ps| - 1], k);
    } else {
      TotalRevenueNonNegative(ps[..|ps| - 1]);
    }
  }

  lemma {:induction false} TotalRevenueNonNegative(ps: seq<Db.Payment>)
    requires forall i :: 0 <= i < |ps| ==> ps[i].amount >= 0
    ensures TotalRevenue(ps) >= 0
    decreases |ps|
  {
    if |ps| > 0 {
      TotalRevenueNonNegative(ps[..|ps| - 1]);
    }
  }

  /** Completed and pending payments are counted separately, so together they are at most the list. */
  lemma {:induction false} CountsBounded(ps: seq<Db.Payment>)
    ensures CompletedPayments(ps) + PendingPayments(ps) <= |ps|
    decreases |ps|
  {
    if |ps| > 0 {
      CountsBounded(ps[..|ps| - 1]);
    }
  }

  datatype Badge = Green | Orange | Red
  datatype Icon = CheckCircle | Clock | XCircle

  function BadgeFor(status: string): Badge {
    if status == "completed" then Green else if status == "pending" then Orange else Red
  }

  /** The icon shown beside the status text; an unknown status other than 'failed' has none. */
  function IconFor(status: string): set<Icon> {
    (if status == "completed" then {CheckCircle} else {})
    + (if status == "pending" then {Clock} else {})
    + (if status == "failed" then {XCircle} else {})
  }

  /** Green and orange mark exactly completed and pending; red covers every other status, 'failed' included. */
  lemma BadgeAndIcon(status: string)
    ensures BadgeFor(status) == Green <==> status == "completed"
    ensures BadgeFor(status) == Orange <==> status == "pending"
    ensures BadgeFor(status) == Red <==> status != "completed" && status != "pending"
    ensures |IconFor(status)| <= 1
    ensures BadgeFor(status) == Red && status != "failed" ==> IconFor(status) == {}
    ensures BadgeFor(status) == Green <==> IconFor(status) == {CheckCircle}
  {
  }
}
