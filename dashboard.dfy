/** The overview cards of the admin dashboard (src/pages/admin/Dashboard.tsx). */
module Dashboard {
  import opened Wrappers
  import opened Aggregates

  /** `x || 0` for a count or amount that may be null. */
  function OrZero(x: Option<int>): (n: int)
    ensures x.None? ==> n == 0
    ensures x.Some? ==> n == x.value
  {
    if x.Some? then x.value else 0
  }

  /**
   * `totalRevenue` over the amounts of `select('amount')`, each read with `r.amount || 0`:
   * a missing list or a missing amount contributes nothing.
   */
  function TotalRevenue(receiptsData: Option<seq<Option<int>>>): (t: int)
    ensures receiptsData.None? ==> t == 0
  {
    if receiptsData.Some? then Sum(Map(receiptsData.value, OrZero)) else 0
  }

  /** Rows without an amount can be dropped without changing the total. */
  lemma {:induction false} MissingAmountsIgnored(rows: seq<Option<int>>)
    ensures TotalRevenue(Some(rows)) == Sum(PresentAmounts(rows))
    decreases |rows|
  {
    if rows != [] {
      var init := rows[..|rows| - 1];
      assert Map(rows, OrZero) == Map(init, OrZero) + [OrZero(rows[|rows| - 1])];
      MissingAmountsIgnored(init);
      SumSnoc(Map(init, OrZero), OrZero(rows[|rows| - 1]));
      if rows[|rows| - 1].Some? {
        SumSnoc(PresentAmounts(init), rows[|rows| - 1].value);
      }
    }
  }

  /** The amounts that are present, in order. */
  function PresentAmounts(rows: seq<Option<int>>): (xs: seq<int>)
    ensures |xs| <= |rows|
  {
    if rows == [] then []
    else
      var init := PresentAmounts(rows[..|rows| - 1]);
      if rows[|rows| - 1].Some? then init + [rows[|rows| - 1].value] else init
  }

  lemma NullReceiptsGiveZero()
    ensures TotalRevenue(None) == 0
    ensures TotalRevenue(Some([])) == 0
  {
  }

  /** The dashboard's `Stats`. */
  datatype Stats = Stats(
    properties: int,
    clients: int,
    plots: int,
    receipts: int,
    siteVisits: int,
    totalRevenue: int)

  /** The `queryFn` result from the five head counts and the amounts list. */
  function StatsOf(properties: Option<int>, clients: Option<int>, plots: Option<int>,
                   receipts: Option<int>, siteVisits: Option<int>,
                   receiptsData: Option<seq<Option<int>>>): (s: Stats)
    ensures properties.None? ==> s.properties == 0
    ensures clients.None? ==> s.clients == 0
    ensures plots.None? ==> s.plots == 0
    ensures receipts.None? ==> s.receipts == 0
    ensures siteVisits.None? ==> s.siteVisits == 0
    ensures receiptsData.None? ==> s.totalRevenue == 0
    ensures properties.Some? ==> s.properties == properties.value
    ensures clients.Some? ==> s.clients == clients.value
    ensures plots.Some? ==> s.plots == plots.value
    ensures receipts.Some? ==> s.receipts == receipts.value
    ensures siteVisits.Some? ==> s.siteVisits == siteVisits.value
    ensures s.totalRevenue == TotalRevenue(receiptsData)
  {
    Stats(OrZero(properties), OrZero(clients), OrZero(plots), OrZero(receipts),
          OrZero(siteVisits), TotalRevenue(receiptsData))
  }

  /** What a card shows: a plain count, or an amount handed to `formatKES`. */
  datatype CardValue = Count(n: int) | Money(amount: int)

  datatype StatCard = StatCard(name: string, value: CardValue)

  const CARD_NAMES: seq<string> :=
    ["Total Properties", "Total Clients", "Total Plots", "Site Visits", "Total Receipts", "Total Revenue"]

  /** `statCards`, before and after the stats have loaded. */
  function StatCards(stats: Option<Stats>): (cards: seq<StatCard>)
    ensures |cards| == 6
    ensures forall i :: 0 <= i < 6 ==> cards[i].name == CARD_NAMES[i]
    ensures forall i :: 0 <= i < 5 ==> cards[i].value.Count?
    ensures cards[5].value.Money?
    ensures stats.None? ==>
      (cards[5].value == Money(0) && forall i :: 0 <= i < 5 ==> cards[i].value == Count(0))
    ensures stats.Some? ==>
      cards[0].value == Count(stats.value.properties) &&
      cards[1].value == Count(stats.value.clients) &&
      cards[2].value == Count(stats.value.plots) &&
      cards[3].value == Count(stats.value.siteVisits) &&
      cards[4].value == Count(stats.value.receipts) &&
      cards[5].value == Money(stats.value.totalRevenue)
  {
    var s := if stats.Some? then stats.value else Stats(0, 0, 0, 0, 0, 0);
    [StatCard(CARD_NAMES[0], Count(s.properties)),
     StatCard(CARD_NAMES[1], Count(s.clients)),
     StatCard(CARD_NAMES[2], Count(s.plots)),
     StatCard(CARD_NAMES[3], Count(s.siteVisits)),
     StatCard(CARD_NAMES[4], Count(s.receipts)),
     StatCard(CARD_NAMES[5], Money(s.totalRevenue))]
  }

  /** The card names are distinct, so they serve as React keys. */
  lemma CardNamesDistinct(stats: Option<Stats>)
    ensures forall i, j :: 0 <= i < j < 6 ==> StatCards(stats)[i].name != StatCards(stats)[j].name
  {
  }
}
