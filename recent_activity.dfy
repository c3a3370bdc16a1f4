/** The recent-activity feeds of the vendor portal: the service's
    (packages/nexus-procurement/src/Services/VendorPortalService.php) merges
    the latest purchase orders, invoices and payments, and the dashboard's
    (packages/nexus-procurement/src/Http/Controllers/VendorPortalController.php)
    merges the five latest purchase orders and invoices. Each source is
    mapped to activity entries, ordered newest first and cut to its length;
    the concatenation is then ordered newest first again, stably, and cut.
    Mapping before ordering is the same as ordering before mapping because
    an entry's date is the key the source was ordered by. */
module RecentActivity {
  import opened Common
  import opened VendorInvoices

  datatype ActivityKind = PoReceived | InvoiceSubmitted | PaymentProcessed

  /** One feed entry; the dashboard's entries have no title and no reference. */
  datatype Activity = Activity(kind: ActivityKind, title: Option<string>, description: string,
                               date: Instant, amount: real, reference: Option<string>)

  /** Newest first. */
  predicate SortedDesc(s: seq<Activity>)
  {
    forall i, j :: 0 <= i < j < |s| ==> s[i].date >= s[j].date
  }

  /** An entry at least as new as the head of a sorted sequence can go in
      front of it. */
  lemma ConsSorted(x: Activity, s: seq<Activity>)
    requires SortedDesc(s) && (s == [] || x.date >= s[0].date)
    ensures SortedDesc([x] + s)
  {
    var r := [x] + s;
    forall i, j | 0 <= i < j < |r| ensures r[i].date >= r[j].date {
      assert r[j] == s[j - 1];
      if i > 0 {
        assert r[i] == s[i - 1];
      } else if j > 1 {
        assert s[0].date >= s[j - 1].date;
      }
    }
  }

  /** Inserts `x` before the first entry that is not newer than it, so that
      among equal dates the earlier input stays first. */
  function InsertByDate(x: Activity, s: seq<Activity>): (r: seq<Activity>)
    requires SortedDesc(s)
    ensures SortedDesc(r)
    ensures multiset(r) == multiset(s) + multiset{x}
    ensures |r| == |s| + 1
    ensures r[0] == x || (|s| > 0 && r[0] == s[0])
  {
    if s == [] then [x]
    else if s[0].date <= x.date then
      ConsSorted(x, s);
      [x] + s
    else
      var rest := InsertByDate(x, s[1..]);
      InsertBehindHead(x, s, rest);
      [s[0]] + rest
  }

  /** The recursive step of `InsertByDate`: an entry older than the head
      goes into the tail, behind the head. */
  lemma InsertBehindHead(x: Activity, s: seq<Activity>, rest: seq<Activity>)
    requires SortedDesc(s) && |s| > 0 && s[0].date > x.date
    requires SortedDesc(rest) && multiset(rest) == multiset(s[1..]) + multiset{x} && |rest| == |s|
    requires rest[0] == x || (|s| > 1 && rest[0] == s[1])
    ensures SortedDesc([s[0]] + rest)
    ensures multiset([s[0]] + rest) == multiset(s) + multiset{x}
  {
    assert s == [s[0]] + s[1..];
    assert s[0].date >= rest[0].date;
    ConsSorted(s[0], rest);
    assert multiset([s[0]] + rest) == multiset{s[0]} + multiset(rest);
  }

  /** `sortByDesc('date')`: a stable ordering of the entries, newest first. */
  function SortByDateDesc(s: seq<Activity>): (r: seq<Activity>)
    ensures SortedDesc(r)
    ensures multiset(r) == multiset(s)
    ensures |r| == |s|
  {
    if s == [] then []
    else
      assert s == [s[0]] + s[1..];
      InsertByDate(s[0], SortByDateDesc(s[1..]))
  }

  /** `take(n)` for a non-negative `n`: the first `n` entries, or all of them. */
  function Take(s: seq<Activity>, n: nat): (r: seq<Activity>)
    ensures |r| == if n <= |s| then n else |s|
    ensures r == s[..|r|]
    ensures multiset(r) <= multiset(s)
  {
    if n <= |s| then
      assert s == s[..n] + s[n..];
      s[..n]
    else s
  }

  /** The `n` newest entries, newest first. */
  function Latest(s: seq<Activity>, n: nat): (r: seq<Activity>)
    ensures |r| == if n <= |s| then n else |s|
    ensures SortedDesc(r)
    ensures multiset(r) <= multiset(s)
  {
    Take(SortByDateDesc(s), n)
  }

  /** In a sorted sequence, whatever its first `m` entries leave out is
      not newer than any of them. */
  lemma DroppedNotNewer(sorted: seq<Activity>, m: nat, k: nat, x: Activity)
    requires SortedDesc(sorted) && k < m <= |sorted|
    requires x in multiset(sorted) - multiset(sorted[..m])
    ensures sorted[k].date >= x.date
  {
    assert sorted == sorted[..m] + sorted[m..];
    assert multiset(sorted) == multiset(sorted[..m]) + multiset(sorted[m..]);
    assert x in sorted[m..];
    var j :| 0 <= j < |sorted[m..]| && sorted[m..][j] == x;
    assert sorted[m + j] == x;
  }

  /** What `Latest` leaves out is never newer than anything it keeps. */
  lemma LatestKeepsNewest(s: seq<Activity>, n: nat)
    ensures var r := Latest(s, n);
            forall k, x :: 0 <= k < |r| && x in multiset(s) - multiset(r) ==> r[k].date >= x.date
  {
    var sorted := SortByDateDesc(s);
    var r := Latest(s, n);
    assert r == sorted[..|r|];
    forall k, x | 0 <= k < |r| && x in multiset(s) - multiset(r) ensures r[k].date >= x.date {
      DroppedNotNewer(sorted, |r|, k, x);
    }
  }

  function PoEntry(po: PurchaseOrder, detailed: bool): Activity
  {
    Activity(PoReceived, if detailed then Some("Purchase Order Received") else None,
             "PO " + po.poNumber + " received", po.createdAt, po.totalAmount,
             if detailed then Some(po.poNumber) else None)
  }

  function InvoiceEntry(inv: Invoice, detailed: bool): Activity
  {
    Activity(InvoiceSubmitted, if detailed then Some("Invoice Submitted") else None,
             "Invoice " + inv.invoiceNumber + " submitted", inv.createdAt, inv.totalAmount,
             if detailed then Some(inv.invoiceNumber) else None)
  }

  function PoEntries(pos: seq<PurchaseOrder>, detailed: bool): (r: seq<Activity>)
    ensures |r| == |pos|
  {
    seq(|pos|, i requires 0 <= i < |pos| => PoEntry(pos[i], detailed))
  }

  function InvoiceEntries(invoices: seq<Invoice>, detailed: bool): (r: seq<Activity>)
    ensures |r| == |invoices|
  {
    seq(|invoices|, i requires 0 <= i < |invoices| => InvoiceEntry(invoices[i], detailed))
  }

  /** The entry for an invoice whose payment was authorised: dated by the
      authorisation and referencing the invoice number. */
  function PaymentEntry(inv: Invoice): Activity
    requires inv.paymentAuthorizedAt.Some?
  {
    Activity(PaymentProcessed, Some("Payment Processed"),
             "Payment processed for invoice " + inv.invoiceNumber,
             inv.paymentAuthorizedAt.value, inv.totalAmount, Some(inv.invoiceNumber))
  }

  /** `whereNotNull('payment_authorized_at')`, mapped to entries dated by
      the authorisation, in the order of the invoices. */
  function PaymentEntries(invoices: seq<Invoice>): (r: seq<Activity>)
    ensures |r| <= |invoices|
    ensures forall k :: 0 <= k < |r| ==> r[k].kind == PaymentProcessed
  {
    if invoices == [] then []
    else
      var n := |invoices| - 1;
      PaymentEntries(invoices[..n])
        + (if invoices[n].paymentAuthorizedAt.Some? then [PaymentEntry(invoices[n])] else [])
  }

  /** The positions of the invoices whose payment was authorised. */
  function AuthorizedPositions(invoices: seq<Invoice>): set<nat>
  {
    set k: nat | k < |invoices| && invoices[k].paymentAuthorizedAt.Some?
  }

  lemma AuthorizedPositionsStep(invoices: seq<Invoice>)
    requires |invoices| > 0
    ensures var n := |invoices| - 1;
            AuthorizedPositions(invoices)
              == AuthorizedPositions(invoices[..n]) + (if invoices[n].paymentAuthorizedAt.Some? then {n} else {})
  {
    var n := |invoices| - 1;
    var init := invoices[..n];
    forall k: nat
      ensures k in AuthorizedPositions(invoices)
              <==> k in AuthorizedPositions(init) + (if invoices[n].paymentAuthorizedAt.Some? then {n} else {})
    {
      if k < n {
        assert init[k] == invoices[k];
      }
    }
  }

  /** One payment entry per authorised invoice. */
  lemma {:induction false} PaymentEntriesCount(invoices: seq<Invoice>)
    ensures |PaymentEntries(invoices)| == |AuthorizedPositions(invoices)|
  {
    if invoices != [] {
      var n := |invoices| - 1;
      PaymentEntriesCount(invoices[..n]);
      AuthorizedPositionsStep(invoices);
      assert n !in AuthorizedPositions(invoices[..n]);
    }
  }

  /** `a` is the payment entry of an authorised invoice `inv`. */
  predicate EntryOf(a: Activity, inv: Invoice)
  {
    inv.paymentAuthorizedAt.Some? && a.kind == PaymentProcessed &&
    a.date == inv.paymentAuthorizedAt.value &&
    a.reference == Some(inv.invoiceNumber) && a.amount == inv.totalAmount
  }

  /** Every payment entry is the entry of an authorised invoice. */
  lemma {:induction false} PaymentEntriesSound(invoices: seq<Invoice>)
    ensures forall k :: 0 <= k < |PaymentEntries(invoices)| ==>
              exists j :: 0 <= j < |invoices| && EntryOf(PaymentEntries(invoices)[k], invoices[j])
  {
    if invoices != [] {
      var n := |invoices| - 1;
      var init := invoices[..n];
      PaymentEntriesSound(init);
      var r := PaymentEntries(invoices);
      var before := PaymentEntries(init);
      assert r == before + (if invoices[n].paymentAuthorizedAt.Some? then [PaymentEntry(invoices[n])] else []);
      forall k | 0 <= k < |r| ensures exists j :: 0 <= j < |invoices| && EntryOf(r[k], invoices[j]) {
        if k < |before| {
          assert r[k] == before[k];
          var j :| 0 <= j < |init| && EntryOf(before[k], init[j]);
          assert init[j] == invoices[j];
          assert EntryOf(r[k], invoices[j]);
        } else {
          assert invoices[n].paymentAuthorizedAt.Some? && r[k] == PaymentEntry(invoices[n]);
          assert EntryOf(r[k], invoices[n]);
        }
      }
    } else {
      assert PaymentEntries(invoices) == [];
    }
  }

  /** Every authorised invoice has its payment entry. */
  lemma {:induction false} PaymentEntriesComplete(invoices: seq<Invoice>)
    ensures forall j :: 0 <= j < |invoices| && invoices[j].paymentAuthorizedAt.Some? ==>
              PaymentEntry(invoices[j]) in PaymentEntries(invoices)
  {
    if invoices != [] {
      var n := |invoices| - 1;
      var init := invoices[..n];
      PaymentEntriesComplete(init);
      var r := PaymentEntries(invoices);
      var before := PaymentEntries(init);
      assert r == before + (if invoices[n].paymentAuthorizedAt.Some? then [PaymentEntry(invoices[n])] else []);
      forall j | 0 <= j < |invoices| && invoices[j].paymentAuthorizedAt.Some?
        ensures PaymentEntry(invoices[j]) in r
      {
        if j < n {
          assert init[j] == invoices[j];
          assert PaymentEntry(init[j]) in before;
        } else {
          assert r[|r| - 1] == PaymentEntry(invoices[n]);
        }
      }
    }
  }

  function Min(a: nat, b: nat): nat
  {
    if a <= b then a else b
  }

  /** The service feed of at most `limit` entries. */
  function ServiceFeed(pos: seq<PurchaseOrder>, invoices: seq<Invoice>, limit: nat): (r: seq<Activity>)
    ensures SortedDesc(r) && |r| <= limit
  {
    Take(SortByDateDesc(Latest(PoEntries(pos, true), limit) + Latest(InvoiceEntries(invoices, true), limit)
                        + Latest(PaymentEntries(invoices), limit)), limit)
  }

  /** The dashboard feed: five purchase orders, five invoices, ten entries. */
  function DashboardFeed(pos: seq<PurchaseOrder>, invoices: seq<Invoice>): (r: seq<Activity>)
    ensures SortedDesc(r) && |r| <= 10
  {
    Take(SortByDateDesc(Latest(PoEntries(pos, false), 5) + Latest(InvoiceEntries(invoices, false), 5)), 10)
  }

  /** A sorted sequence keeps its order in any prefix. */
  lemma TakeSorted(s: seq<Activity>, n: nat)
    requires SortedDesc(s)
    ensures SortedDesc(Take(s, n))
  {
  }

  /** Merging the `limit` newest of three sources and cutting to `limit`
      gives a sorted feed of `limit` entries when that many exist, drawn
      from the sources. */
  lemma MergeShape(a: seq<Activity>, b: seq<Activity>, c: seq<Activity>, limit: nat)
    ensures var r := Take(SortByDateDesc(Latest(a, limit) + Latest(b, limit) + Latest(c, limit)), limit);
      SortedDesc(r) && |r| == Min(limit, |a + b + c|) && multiset(r) <= multiset(a + b + c)
  {
    var la, lb, lc := Latest(a, limit), Latest(b, limit), Latest(c, limit);
    var merged := SortByDateDesc(la + lb + lc);
    TakeSorted(merged, limit);
    assert multiset(la + lb + lc) == multiset(la) + multiset(lb) + multiset(lc);
    assert multiset(a + b + c) == multiset(a) + multiset(b) + multiset(c);
  }

  /** The service feed is newest first, has exactly `limit` entries when
      that many candidates exist (all of them otherwise), and holds only
      candidates. */
  lemma ServiceFeedShape(pos: seq<PurchaseOrder>, invoices: seq<Invoice>, limit: nat)
    ensures var r := ServiceFeed(pos, invoices, limit);
      var all := PoEntries(pos, true) + InvoiceEntries(invoices, true) + PaymentEntries(invoices);
      SortedDesc(r) &&
      |r| == Min(limit, |all|) &&
      multiset(r) <= multiset(all)
  {
    MergeShape(PoEntries(pos, true), InvoiceEntries(invoices, true), PaymentEntries(invoices), limit);
  }

  /** The dashboard feed is newest first, has ten entries when there are
      that many candidates among the five newest of each source, and holds
      only those candidates. */
  lemma DashboardFeedShape(pos: seq<PurchaseOrder>, invoices: seq<Invoice>)
    ensures var r := DashboardFeed(pos, invoices);
      var la, lb := Latest(PoEntries(pos, false), 5), Latest(InvoiceEntries(invoices, false), 5);
      SortedDesc(r) &&
      |r| == Min(10, Min(5, |pos|) + Min(5, |invoices|)) &&
      multiset(r) <= multiset(la) + multiset(lb)
  {
    var la, lb := Latest(PoEntries(pos, false), 5), Latest(InvoiceEntries(invoices, false), 5);
    var merged := SortByDateDesc(la + lb);
    TakeSorted(merged, 10);
    assert multiset(la + lb) == multiset(la) + multiset(lb);
  }

  /** The first entry of a sorted permutation is the newest of all. */
  lemma {:induction false} HeadIsNewest(s: seq<Activity>, x: Activity)
    requires x in multiset(s)
    ensures |SortByDateDesc(s)| > 0 && SortByDateDesc(s)[0].date >= x.date
  {
    var r := SortByDateDesc(s);
    assert x in multiset(r);
    var k :| 0 <= k < |r| && r[k] == x;
    assert k == 0 || r[0].date >= r[k].date;
  }

  /** With a positive `limit`, the cut of a source keeps an entry at least
      as new as any entry of the source. */
  lemma CutKeepsNewest(s: seq<Activity>, limit: nat, x: Activity)
    requires limit > 0 && x in multiset(s)
    ensures |Latest(s, limit)| > 0 && Latest(s, limit)[0] in multiset(Latest(s, limit))
    ensures Latest(s, limit)[0].date >= x.date
  {
    HeadIsNewest(s, x);
    var r := SortByDateDesc(s);
    assert Latest(s, limit)[0] == r[0];
  }

  /** Some entry of the merged cuts is at least as new as any entry of the
      three sources: the newest of that entry's own source. */
  lemma {:induction false} NewestSurvivesCut(a: seq<Activity>, b: seq<Activity>, c: seq<Activity>, limit: nat,
                                             x: Activity) returns (m: Activity)
    requires limit > 0 && x in multiset(a + b + c)
    ensures m in multiset(Latest(a, limit) + Latest(b, limit) + Latest(c, limit)) && m.date >= x.date
  {
    var la, lb, lc := Latest(a, limit), Latest(b, limit), Latest(c, limit);
    assert multiset(a + b + c) == multiset(a) + multiset(b) + multiset(c);
    assert multiset(la + lb + lc) == multiset(la) + multiset(lb) + multiset(lc);
    if x in multiset(a) {
      CutKeepsNewest(a, limit, x);
      m := la[0];
    } else if x in multiset(b) {
      CutKeepsNewest(b, limit, x);
      m := lb[0];
    } else {
      CutKeepsNewest(c, limit, x);
      m := lc[0];
    }
  }

  /** When `limit` is positive, merging the `limit` newest of three sources
      and cutting to `limit` starts with the newest entry of all. */
  lemma {:induction false} MergeNewestFirst(a: seq<Activity>, b: seq<Activity>, c: seq<Activity>, limit: nat,
                                            x: Activity)
    requires limit > 0 && x in multiset(a + b + c)
    ensures var r := Take(SortByDateDesc(Latest(a, limit) + Latest(b, limit) + Latest(c, limit)), limit);
      |r| > 0 && r[0].date >= x.date
  {
    var m := NewestSurvivesCut(a, b, c, limit, x);
    HeadIsNewest(Latest(a, limit) + Latest(b, limit) + Latest(c, limit), m);
  }

  /** When `limit` is positive, the service feed starts with the newest
      entry among all candidates. */
  lemma ServiceFeedNewestFirst(pos: seq<PurchaseOrder>, invoices: seq<Invoice>, limit: nat, x: Activity)
    requires limit > 0
    requires x in multiset(PoEntries(pos, true) + InvoiceEntries(invoices, true) + PaymentEntries(invoices))
    ensures var r := ServiceFeed(pos, invoices, limit); |r| > 0 && r[0].date >= x.date
  {
    MergeNewestFirst(PoEntries(pos, true), InvoiceEntries(invoices, true), PaymentEntries(invoices), limit, x);
  }
}
