/** The vendor's payment-status summary
    (packages/nexus-procurement/src/Services/VendorPortalService.php):
    counts and sums over the vendor's invoices, filtered by payment status
    or by being overdue at the instant `now`. */
module PaymentSummary {
  import opened Common
  import opened VendorInvoices

  const Paid: string := "paid"
  const Authorized: string := "authorized"

  /** Not paid, and due strictly before `now`. */
  predicate IsOverdue(inv: Invoice, now: Instant)
  {
    inv.paymentStatus != Paid && inv.dueDate < now
  }

  /** `where('payment_status', status)`: the invoices with that payment
      status, in order. */
  function WithPaymentStatus(invoices: seq<Invoice>, status: string): (r: seq<Invoice>)
    ensures |r| <= |invoices|
    ensures forall x :: x in r <==> x in invoices && x.paymentStatus == status
  {
    if invoices == [] then []
    else
      var init := invoices[..|invoices| - 1];
      var last := invoices[|invoices| - 1];
      assert invoices == init + [last];
      WithPaymentStatus(init, status) + (if last.paymentStatus == status then [last] else [])
  }

  /** The overdue filter: the invoices overdue at `now`, in order. */
  function Overdue(invoices: seq<Invoice>, now: Instant): (r: seq<Invoice>)
    ensures |r| <= |invoices|
    ensures forall x :: x in r <==> x in invoices && IsOverdue(x, now)
  {
    if invoices == [] then []
    else
      var init := invoices[..|invoices| - 1];
      var last := invoices[|invoices| - 1];
      assert invoices == init + [last];
      Overdue(init, now) + (if IsOverdue(last, now) then [last] else [])
  }

  /** `sum('total_amount')`. */
  function SumTotal(invoices: seq<Invoice>): real
  {
    if invoices == [] then 0.0 else SumTotal(invoices[..|invoices| - 1]) + invoices[|invoices| - 1].totalAmount
  }

  datatype Summary = Summary(totalPending: nat, totalOverdue: nat, totalPaid: nat, totalAuthorized: nat,
                             pendingAmount: real, overdueAmount: real)

  /** `getPaymentStatusSummary`: the counts of pending, overdue, paid and
      authorized invoices and the pending and overdue amounts. */
  function PaymentStatusSummary(invoices: seq<Invoice>, now: Instant): (s: Summary)
    ensures s.totalPending <= |invoices| && s.totalOverdue <= |invoices|
    ensures s.totalPaid <= |invoices| && s.totalAuthorized <= |invoices|
    ensures s.totalPending == |WithPaymentStatus(invoices, Pending)| && s.totalOverdue == |Overdue(invoices, now)|
    ensures s.totalPaid == |WithPaymentStatus(invoices, Paid)| &&
            s.totalAuthorized == |WithPaymentStatus(invoices, Authorized)|
    ensures s.pendingAmount == SumTotal(WithPaymentStatus(invoices, Pending)) &&
            s.overdueAmount == SumTotal(Overdue(invoices, now))
  {
    var pending := WithPaymentStatus(invoices, Pending);
    var overdue := Overdue(invoices, now);
    Summary(|pending|, |overdue|, |WithPaymentStatus(invoices, Paid)|,
            |WithPaymentStatus(invoices, Authorized)|, SumTotal(pending), SumTotal(overdue))
  }

  /** The three status counts partition by payment status, so together they
      never exceed the number of invoices. */
  lemma {:induction false} StatusCountsBounded(invoices: seq<Invoice>, now: Instant)
    ensures var s := PaymentStatusSummary(invoices, now);
      s.totalPending + s.totalPaid + s.totalAuthorized <= |invoices|
  {
    if invoices != [] {
      var init := invoices[..|invoices| - 1];
      StatusCountsBounded(init, now);
    }
  }

  /** A paid invoice is never overdue, so the paid and overdue counts
      together never exceed the number of invoices. */
  lemma {:induction false} PaidAndOverdueDisjoint(invoices: seq<Invoice>, now: Instant)
    ensures var s := PaymentStatusSummary(invoices, now);
      s.totalPaid + s.totalOverdue <= |invoices|
  {
    if invoices != [] {
      var init := invoices[..|invoices| - 1];
      PaidAndOverdueDisjoint(init, now);
    }
  }

  /** The payment-status filter keeps every invoice with that status exactly
      as often as it occurs, and no other invoice. */
  lemma {:induction false} StatusFilterExact(invoices: seq<Invoice>, status: string)
    ensures var r := WithPaymentStatus(invoices, status);
      forall x: Invoice :: multiset(r)[x] == if x.paymentStatus == status then multiset(invoices)[x] else 0
  {
    if invoices != [] {
      var init := invoices[..|invoices| - 1];
      var last := invoices[|invoices| - 1];
      assert invoices == init + [last];
      StatusFilterExact(init, status);
      assert multiset(invoices) == multiset(init) + multiset{last};
    }
  }

  /** The overdue filter keeps every overdue invoice exactly as often as it
      occurs, and no other invoice. */
  lemma {:induction false} OverdueFilterExact(invoices: seq<Invoice>, now: Instant)
    ensures var r := Overdue(invoices, now);
      forall x: Invoice :: multiset(r)[x] == if IsOverdue(x, now) then multiset(invoices)[x] else 0
  {
    if invoices != [] {
      var init := invoices[..|invoices| - 1];
      var last := invoices[|invoices| - 1];
      assert invoices == init + [last];
      OverdueFilterExact(init, now);
      assert multiset(invoices) == multiset(init) + multiset{last};
    }
  }

  /** The positions of the invoices with that payment status. */
  function StatusPositions(invoices: seq<Invoice>, status: string): set<nat>
  {
    set k: nat | k < |invoices| && invoices[k].paymentStatus == status
  }

  /** The positions of the invoices overdue at `now`. */
  function OverduePositions(invoices: seq<Invoice>, now: Instant): set<nat>
  {
    set k: nat | k < |invoices| && IsOverdue(invoices[k], now)
  }

  /** One invoice more adds its own position when it matches. */
  lemma StatusPositionsStep(invoices: seq<Invoice>, status: string)
    requires |invoices| > 0
    ensures var n := |invoices| - 1;
      StatusPositions(invoices, status) == StatusPositions(invoices[..n], status) + (if invoices[n].paymentStatus == status then {n} else {})
  {
    var n := |invoices| - 1;
    var init := invoices[..n];
    forall k: nat
      ensures k in StatusPositions(invoices, status) <==> k in StatusPositions(init, status) + (if invoices[n].paymentStatus == status then {n} else {})
    {
      if k < n {
        assert init[k] == invoices[k];
      }
    }
  }

  /** The filter's length is the number of invoices with that status. */
  lemma {:induction false} StatusCountIsPositions(invoices: seq<Invoice>, status: string)
    ensures |WithPaymentStatus(invoices, status)| == |StatusPositions(invoices, status)|
  {
    if invoices != [] {
      var n := |invoices| - 1;
      var init := invoices[..n];
      StatusCountIsPositions(init, status);
      StatusPositionsStep(invoices, status);
      var before := StatusPositions(init, status);
      assert n !in before;
    }
  }

  /** One invoice more adds its own position when it matches. */
  lemma OverduePositionsStep(invoices: seq<Invoice>, now: Instant)
    requires |invoices| > 0
    ensures var n := |invoices| - 1;
      OverduePositions(invoices, now) == OverduePositions(invoices[..n], now) + (if IsOverdue(invoices[n], now) then {n} else {})
  {
    var n := |invoices| - 1;
    var init := invoices[..n];
    forall k: nat
      ensures k in OverduePositions(invoices, now) <==> k in OverduePositions(init, now) + (if IsOverdue(invoices[n], now) then {n} else {})
    {
      if k < n {
        assert init[k] == invoices[k];
      }
    }
  }

  /** The overdue filter's length is the number of overdue invoices. */
  lemma {:induction false} OverdueCountIsPositions(invoices: seq<Invoice>, now: Instant)
    ensures |Overdue(invoices, now)| == |OverduePositions(invoices, now)|
  {
    if invoices != [] {
      var n := |invoices| - 1;
      var init := invoices[..n];
      OverdueCountIsPositions(init, now);
      OverduePositionsStep(invoices, now);
      var before := OverduePositions(init, now);
      assert n !in before;
    }
  }

  /** Each count of the summary is the number of invoices that satisfy its
      condition. */
  lemma SummaryCounts(invoices: seq<Invoice>, now: Instant)
    ensures var s := PaymentStatusSummary(invoices, now);
      s.totalPending == |StatusPositions(invoices, Pending)| &&
      s.totalPaid == |StatusPositions(invoices, Paid)| &&
      s.totalAuthorized == |StatusPositions(invoices, Authorized)| &&
      s.totalOverdue == |OverduePositions(invoices, now)|
  {
    StatusCountIsPositions(invoices, Pending);
    StatusCountIsPositions(invoices, Paid);
    StatusCountIsPositions(invoices, Authorized);
    OverdueCountIsPositions(invoices, now);
  }

  /** The payment-status filter distributes over concatenation. */
  lemma {:induction false} StatusFilterAppend(a: seq<Invoice>, b: seq<Invoice>, status: string)
    ensures WithPaymentStatus(a + b, status) == WithPaymentStatus(a, status) + WithPaymentStatus(b, status)
    decreases |b|
  {
    if b == [] {
      assert a + b == a;
    } else {
      var binit := b[..|b| - 1];
      assert (a + b)[..|a + b| - 1] == a + binit;
      assert (a + b)[|a + b| - 1] == b[|b| - 1];
      StatusFilterAppend(a, binit, status);
    }
  }

  /** The overdue filter distributes over concatenation. */
  lemma {:induction false} OverdueFilterAppend(a: seq<Invoice>, b: seq<Invoice>, now: Instant)
    ensures Overdue(a + b, now) == Overdue(a, now) + Overdue(b, now)
    decreases |b|
  {
    if b == [] {
      assert a + b == a;
    } else {
      var binit := b[..|b| - 1];
      assert (a + b)[..|a + b| - 1] == a + binit;
      assert (a + b)[|a + b| - 1] == b[|b| - 1];
      OverdueFilterAppend(a, binit, now);
    }
  }

  /** The sum of totals distributes over concatenation. */
  lemma {:induction false} SumTotalAppend(a: seq<Invoice>, b: seq<Invoice>)
    ensures SumTotal(a + b) == SumTotal(a) + SumTotal(b)
    decreases |b|
  {
    if b == [] {
      assert a + b == a;
    } else {
      var binit := b[..|b| - 1];
      assert (a + b)[..|a + b| - 1] == a + binit;
      assert (a + b)[|a + b| - 1] == b[|b| - 1];
      SumTotalAppend(a, binit);
    }
  }

  /** The summary of a concatenation adds up: counts and amounts over
      `a + b` are those over `a` plus those over `b`. */
  lemma SummaryAdditive(a: seq<Invoice>, b: seq<Invoice>, now: Instant)
    ensures var s, sa, sb := PaymentStatusSummary(a + b, now), PaymentStatusSummary(a, now), PaymentStatusSummary(b, now);
      s.totalPending == sa.totalPending + sb.totalPending &&
      s.totalOverdue == sa.totalOverdue + sb.totalOverdue &&
      s.totalPaid == sa.totalPaid + sb.totalPaid &&
      s.totalAuthorized == sa.totalAuthorized + sb.totalAuthorized &&
      s.pendingAmount == sa.pendingAmount + sb.pendingAmount &&
      s.overdueAmount == sa.overdueAmount + sb.overdueAmount
  {
    StatusFilterAppend(a, b, Pending);
    StatusFilterAppend(a, b, Paid);
    StatusFilterAppend(a, b, Authorized);
    OverdueFilterAppend(a, b, now);
    SumTotalAppend(WithPaymentStatus(a, Pending), WithPaymentStatus(b, Pending));
    SumTotalAppend(Overdue(a, now), Overdue(b, now));
  }

  /** Every invoice total is non-negative. */
  predicate NonNegativeTotals(invoices: seq<Invoice>)
  {
    forall k :: 0 <= k < |invoices| ==> invoices[k].totalAmount >= 0.0
  }

  /** The amount over one payment status lies between zero and the total. */
  lemma {:induction false} StatusSumBounded(invoices: seq<Invoice>, status: string)
    requires NonNegativeTotals(invoices)
    ensures 0.0 <= SumTotal(WithPaymentStatus(invoices, status)) <= SumTotal(invoices)
  {
    if invoices != [] {
      var init := invoices[..|invoices| - 1];
      var last := invoices[|invoices| - 1];
      var tail := if last.paymentStatus == status then [last] else [];
      assert NonNegativeTotals(init);
      StatusSumBounded(init, status);
      assert WithPaymentStatus(invoices, status) == WithPaymentStatus(init, status) + tail;
      SumTotalAppend(WithPaymentStatus(init, status), tail);
      assert tail == [] || tail[..0] == [];
    }
  }

  /** The overdue amount lies between zero and the total. */
  lemma {:induction false} OverdueSumBounded(invoices: seq<Invoice>, now: Instant)
    requires NonNegativeTotals(invoices)
    ensures 0.0 <= SumTotal(Overdue(invoices, now)) <= SumTotal(invoices)
  {
    if invoices != [] {
      var init := invoices[..|invoices| - 1];
      var last := invoices[|invoices| - 1];
      var tail := if IsOverdue(last, now) then [last] else [];
      assert NonNegativeTotals(init);
      OverdueSumBounded(init, now);
      assert Overdue(invoices, now) == Overdue(init, now) + tail;
      SumTotalAppend(Overdue(init, now), tail);
      assert tail == [] || tail[..0] == [];
    }
  }

  /** With non-negative totals (which submission validation enforces), the
      overdue and pending amounts never exceed the sum of all totals. */
  lemma AmountsBounded(invoices: seq<Invoice>, now: Instant)
    requires NonNegativeTotals(invoices)
    ensures var s := PaymentStatusSummary(invoices, now);
      0.0 <= s.overdueAmount <= SumTotal(invoices) && 0.0 <= s.pendingAmount <= SumTotal(invoices)
  {
    StatusSumBounded(invoices, Pending);
    OverdueSumBounded(invoices, now);
  }

  /** An invoice that is paid is counted as paid and never as overdue. */
  lemma PaidInvoiceNeverOverdue(inv: Invoice, now: Instant)
    requires inv.paymentStatus == Paid
    ensures PaymentStatusSummary([inv], now).totalOverdue == 0
    ensures PaymentStatusSummary([inv], now).totalPaid == 1
  {
    assert [inv][..0] == [];
  }
}
