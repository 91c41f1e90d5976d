/** The figures of the reports page (src/pages/admin/Reports.tsx). */
module Reports {
  import opened Wrappers
  import opened Aggregates
  import Records
  import ReceiptsManagement

  /** A `select('status, price')` row of `properties` or `plots`. */
  datatype StatusPrice = StatusPrice(status: string, price: int)

  /** A `select('amount, date')` row of `receipts`. */
  datatype AmountDate = AmountDate(amount: int, date: string)

  const SOLD := "Sold"
  const PENDING := "Pending"

  /** `rows.filter(p => p.status === 'Sold')`: exact, case-sensitive match, order kept. */
  function SoldRows(rows: seq<StatusPrice>): (r: seq<StatusPrice>)
    ensures |r| <= |rows|
    ensures forall i :: 0 <= i < |r| ==> r[i].status == SOLD && r[i] in rows
    ensures forall i :: 0 <= i < |rows| && rows[i].status == SOLD ==> rows[i] in r
  {
    if rows == [] then []
    else
      var init := SoldRows(rows[..|rows| - 1]);
      var last := rows[|rows| - 1];
      assert rows == rows[..|rows| - 1] + [last];
      if last.status == SOLD then init + [last] else init
  }

  function PriceOf(row: StatusPrice): int {
    row.price
  }

  function StatusOf(row: StatusPrice): string {
    row.status
  }

  /** An independent count: how many entries of `ss` are exactly `s`. */
  function CountOf(ss: seq<string>, s: string): (n: nat)
    ensures n <= |ss|
    ensures n == 0 <==> forall i :: 0 <= i < |ss| ==> ss[i] != s
  {
    if ss == [] then 0
    else
      assert forall i :: 0 <= i < |ss| - 1 ==> ss[..|ss| - 1][i] == ss[i];
      CountOf(ss[..|ss| - 1], s) + (if ss[|ss| - 1] == s then 1 else 0)
  }

  /** `list?.filter(...).length || 0` and the like: a missing list counts as empty. */
  function OrEmpty<T>(list: Option<seq<T>>): seq<T> {
    if list.Some? then list.value else []
  }

  /** `propertySales` / `plotsSold`. */
  function SoldCount(rows: Option<seq<StatusPrice>>): (n: nat)
    ensures rows.None? ==> n == 0
    ensures rows.Some? ==> n <= |rows.value|
  {
    |SoldRows(OrEmpty(rows))|
  }

  /** `propertyRevenue` / `plotsRevenue`. */
  function SoldRevenue(rows: Option<seq<StatusPrice>>): (r: int)
    ensures rows.None? ==> r == 0
  {
    Sum(Map(SoldRows(OrEmpty(rows)), PriceOf))
  }

  function ReceiptAmount(row: AmountDate): int {
    row.amount
  }

  /** `totalRevenue`: the receipts alone, whatever has been sold. */
  function TotalRevenue(receipts: Option<seq<AmountDate>>): (r: int)
    ensures receipts.None? ==> r == 0
  {
    Sum(Map(OrEmpty(receipts), ReceiptAmount))
  }

  /** `pendingVisits`. */
  function PendingVisits(visits: Option<seq<string>>): (n: nat)
    ensures visits.None? ==> n == 0
    ensures visits.Some? ==> n <= |visits.value|
    ensures visits.Some? ==> (n == 0 <==> PENDING !in visits.value)
  {
    CountOf(OrEmpty(visits), PENDING)
  }

  datatype ReportStats = ReportStats(
    propertySales: nat,
    propertyRevenue: int,
    plotsSold: nat,
    plotsRevenue: int,
    totalRevenue: int,
    pendingVisits: nat)

  /** The `queryFn` result, from the four fetched lists. */
  function Stats(properties: Option<seq<StatusPrice>>, plots: Option<seq<StatusPrice>>,
                 receipts: Option<seq<AmountDate>>, visits: Option<seq<string>>): (s: ReportStats)
    ensures s.propertySales == SoldCount(properties) && s.propertyRevenue == SoldRevenue(properties)
    ensures s.plotsSold == SoldCount(plots) && s.plotsRevenue == SoldRevenue(plots)
    ensures s.totalRevenue == TotalRevenue(receipts) && s.pendingVisits == PendingVisits(visits)
  {
    ReportStats(SoldCount(properties), SoldRevenue(properties), SoldCount(plots),
                SoldRevenue(plots), TotalRevenue(receipts), PendingVisits(visits))
  }

  /** The "Combined Revenue" line, with `|| 0` while the stats are not loaded. */
  function CombinedRevenue(stats: Option<ReportStats>): (r: int)
    ensures stats.None? ==> r == 0
    ensures stats.Some? ==> r == stats.value.propertyRevenue + stats.value.plotsRevenue
  {
    if stats.Some? then stats.value.propertyRevenue + stats.value.plotsRevenue else 0
  }

  lemma {:induction false} SoldRowsAppend(a: seq<StatusPrice>, b: seq<StatusPrice>)
    ensures SoldRows(a + b) == SoldRows(a) + SoldRows(b)
    decreases |b|
  {
    if b == [] {
      assert a + b == a;
    } else {
      var b' := b[..|b| - 1];
      assert (a + b)[..|a + b| - 1] == a + b';
      SoldRowsAppend(a, b');
    }
  }

  /** The sold count is the number of rows whose status is exactly `Sold`. */
  lemma {:induction false} SoldCountCounts(rows: seq<StatusPrice>)
    ensures SoldCount(Some(rows)) == CountOf(Map(rows, StatusOf), SOLD)
    decreases |rows|
  {
    if rows != [] {
      var init := rows[..|rows| - 1];
      var last := rows[|rows| - 1];
      var ss := Map(rows, StatusOf);
      assert ss == Map(init, StatusOf) + [last.status];
      assert ss[..|ss| - 1] == Map(init, StatusOf);
      assert CountOf(ss, SOLD) == CountOf(Map(init, StatusOf), SOLD) + (if last.status == SOLD then 1 else 0);
      assert SoldRows(rows) == SoldRows(init) + (if last.status == SOLD then [last] else []);
      SoldCountCounts(init);
    }
  }

  /** Sold counts and revenues add up over any split of the list. */
  lemma SoldFiguresAdd(a: seq<StatusPrice>, b: seq<StatusPrice>)
    ensures SoldCount(Some(a + b)) == SoldCount(Some(a)) + SoldCount(Some(b))
    ensures SoldRevenue(Some(a + b)) == SoldRevenue(Some(a)) + SoldRevenue(Some(b))
  {
    SoldRowsAppend(a, b);
    MapAppend(SoldRows(a), SoldRows(b), PriceOf);
    SumAppend(Map(SoldRows(a), PriceOf), Map(SoldRows(b), PriceOf));
  }

  /** Every sold count is bounded by the list, and reaches it exactly when everything is sold. */
  lemma SoldCountBounds(rows: seq<StatusPrice>)
    ensures SoldCount(Some(rows)) <= |rows|
    ensures SoldCount(Some(rows)) == 0 <==> forall i :: 0 <= i < |rows| ==> rows[i].status != SOLD
  {
    SoldCountCounts(rows);
  }

  /** A missing list gives 0 for every derived figure. */
  lemma MissingListsGiveZero()
    ensures Stats(None, None, None, None) == ReportStats(0, 0, 0, 0, 0, 0)
  {
  }

  /** Matching is case-sensitive: a lower-case `sold` is not a sale, `pending` not pending. */
  lemma StatusMatchIsExact(price: int)
    ensures SoldCount(Some([StatusPrice("sold", price)])) == 0
    ensures SoldRevenue(Some([StatusPrice("sold", price)])) == 0
    ensures PendingVisits(Some(["pending"])) == 0
    ensures SoldRevenue(Some([StatusPrice("Sold", price)])) == price
  {
    var sold := [StatusPrice("Sold", price)];
    assert sold[..0] == [];
    assert SoldRows(sold) == sold;
    assert Map(sold, PriceOf) == [price];
    assert [price][..0] == [];
  }

  /** `totalRevenue` does not depend on what was sold. */
  lemma TotalRevenueIndependent(p1: Option<seq<StatusPrice>>, p2: Option<seq<StatusPrice>>,
                                q1: Option<seq<StatusPrice>>, q2: Option<seq<StatusPrice>>,
                                receipts: Option<seq<AmountDate>>, v1: Option<seq<string>>,
                                v2: Option<seq<string>>)
    ensures Stats(p1, q1, receipts, v1).totalRevenue == Stats(p2, q2, receipts, v2).totalRevenue
  {
  }

  /** The combined line is the sum of the two sold revenues of the loaded stats. */
  lemma CombinedRevenueSplits(properties: seq<StatusPrice>, plots: seq<StatusPrice>,
                              receipts: Option<seq<AmountDate>>, visits: Option<seq<string>>)
    ensures CombinedRevenue(Some(Stats(Some(properties), Some(plots), receipts, visits)))
         == SoldRevenue(Some(properties + plots))
    ensures CombinedRevenue(None) == 0
  {
    SoldFiguresAdd(properties, plots);
  }

  /**
   * The reports' total agrees with the receipts page's total for the same receipts:
   * both are the sum of the amounts.
   */
  lemma TotalRevenueAgrees(rows: seq<AmountDate>, receipts: seq<Records.Receipt>)
    requires |rows| == |receipts|
    requires forall i :: 0 <= i < |rows| ==> rows[i].amount == receipts[i].amount
    ensures TotalRevenue(Some(rows)) == ReceiptsManagement.TotalRevenue(receipts)
  {
    assert Map(rows, ReceiptAmount) == Map(receipts, ReceiptsManagement.AmountOf);
  }
}
