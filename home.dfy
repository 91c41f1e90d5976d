/** The "browse by city" figures of the home page (src/pages/Home.tsx). */
module Home {
  import opened Wrappers

  /** One entry of `citiesData`. */
  datatype CityCount = CityCount(city: string, count: nat)

  const MAX_CITIES := 6

  /** `if (prop.city)`: a null or empty city is skipped. */
  predicate HasCity(row: Option<string>) {
    row.Some? && row.value != ""
  }

  /** The number of rows whose city is `c`. */
  function Occurrences(rows: seq<Option<string>>, c: string): nat {
    if rows == [] then 0
    else Occurrences(rows[..|rows| - 1], c) + (if HasCity(rows[|rows| - 1]) && rows[|rows| - 1].value == c then 1 else 0)
  }

  /** The number of rows that are counted at all. */
  function CountedRows(rows: seq<Option<string>>): nat {
    if rows == [] then 0
    else CountedRows(rows[..|rows| - 1]) + (if HasCity(rows[|rows| - 1]) then 1 else 0)
  }

  /** The keys of the accumulator in insertion order: each city at its first occurrence. */
  function Cities(rows: seq<Option<string>>): seq<string> {
    if rows == [] then []
    else
      var init := Cities(rows[..|rows| - 1]);
      var last := rows[|rows| - 1];
      if HasCity(last) && last.value !in init then init + [last.value] else init
  }

  predicate Distinct(cs: seq<string>) {
    forall i, j :: 0 <= i < j < |cs| ==> cs[i] != cs[j]
  }

  /** `Object.entries(cityCounts).map(...)`, before the cap. */
  function Tally(rows: seq<Option<string>>): (t: seq<CityCount>)
    ensures |t| == |Cities(rows)|
    ensures forall i :: 0 <= i < |t| ==>
              t[i].city == Cities(rows)[i] && t[i].count == Occurrences(rows, t[i].city)
  {
    var cs := Cities(rows);
    seq(|cs|, i requires 0 <= i < |cs| => CityCount(cs[i], Occurrences(rows, cs[i])))
  }

  /** `.slice(0, 6)`. */
  function CitiesData(rows: seq<Option<string>>): (r: seq<CityCount>)
    ensures |r| <= MAX_CITIES && r <= Tally(rows)
    ensures |Tally(rows)| <= MAX_CITIES ==> r == Tally(rows)
    ensures |Tally(rows)| > MAX_CITIES ==> |r| == MAX_CITIES
  {
    var t := Tally(rows);
    if |t| <= MAX_CITIES then t else t[..MAX_CITIES]
  }

  /** The sum of the counts of the cities `cs`. */
  function CountSum(cs: seq<string>, rows: seq<Option<string>>): nat {
    if cs == [] then 0 else CountSum(cs[..|cs| - 1], rows) + Occurrences(rows, cs[|cs| - 1])
  }

  /**
   * The reducer `acc[prop.city] = (acc[prop.city] || 0) + 1` over the rows, then the
   * entries in insertion order, capped at six.
   */
  method CountCities(rows: seq<Option<string>>) returns (result: seq<CityCount>)
    ensures result == CitiesData(rows)
  {
    var counts: map<string, nat> := map[];
    var keys: seq<string> := [];
    var i := 0;
    while i < |rows|
      invariant 0 <= i <= |rows|
      invariant keys == Cities(rows[..i])
      invariant forall k :: k in counts <==> k in keys
      invariant forall k :: k in counts ==> counts[k] == Occurrences(rows[..i], k)
    {
      assert rows[..i + 1][..i] == rows[..i];
      assert forall k :: Occurrences(rows[..i + 1], k) == Occurrences(rows[..i], k) + (if HasCity(rows[i]) && rows[i].value == k then 1 else 0);
      var row := rows[i];
      if row.Some? && row.value != "" {
        var c := row.value;
        if c !in counts {
          CitiesAreCounted(rows[..i], c);
          keys := keys + [c];
        }
        counts := counts[c := (if c in counts then counts[c] else 0) + 1];
      }
      i := i + 1;
    }
    assert rows[..i] == rows;
    result := [];
    var j := 0;
    var n := if |keys| < MAX_CITIES then |keys| else MAX_CITIES;
    while j < n
      invariant 0 <= j <= n
      invariant result == Tally(rows)[..j]
    {
      assert keys[j] in counts;
      result := result + [CityCount(keys[j], counts[keys[j]])];
      j := j + 1;
    }
  }

  lemma {:induction false} CitiesDistinct(rows: seq<Option<string>>)
    ensures Distinct(Cities(rows))
    decreases |rows|
  {
    if rows != [] {
      CitiesDistinct(rows[..|rows| - 1]);
    }
  }

  /** A city is listed iff it has a row, that is iff its count is at least 1. */
  lemma {:induction false} CitiesAreCounted(rows: seq<Option<string>>, c: string)
    ensures c in Cities(rows) <==> Occurrences(rows, c) >= 1
    decreases |rows|
  {
    if rows != [] {
      CitiesAreCounted(rows[..|rows| - 1], c);
    }
  }

  /** No row with an empty or missing city is counted, under any name. */
  lemma {:induction false} EmptyCityNotCounted(rows: seq<Option<string>>)
    ensures Occurrences(rows, "") == 0
    ensures "" !in Cities(rows)
    decreases |rows|
  {
    if rows != [] {
      EmptyCityNotCounted(rows[..|rows| - 1]);
    }
  }

  /** One more row adds one to exactly one of the distinct cities, or to none. */
  lemma {:induction false} CountSumSnoc(cs: seq<string>, rows: seq<Option<string>>, row: Option<string>)
    requires Distinct(cs)
    ensures CountSum(cs, rows + [row]) == CountSum(cs, rows) + (if HasCity(row) && row.value in cs then 1 else 0)
    decreases |cs|
  {
    assert (rows + [row])[..|rows|] == rows;
    if cs != [] {
      CountSumSnoc(cs[..|cs| - 1], rows, row);
    }
  }

  /** A city that is not in `cs` leaves the sum over `cs` alone when a row for it arrives. */
  lemma {:induction false} CountSumNew(cs: seq<string>, rows: seq<Option<string>>, c: string)
    requires c !in cs
    ensures CountSum(cs, rows + [Some(c)]) == CountSum(cs, rows)
    decreases |cs|
  {
    assert (rows + [Some(c)])[..|rows|] == rows;
    if cs != [] {
      CountSumNew(cs[..|cs| - 1], rows, c);
    }
  }

  /** Before the cap, the counts add up to the number of rows with a non-empty city. */
  lemma {:induction false} CountsSumToRows(rows: seq<Option<string>>)
    ensures CountSum(Cities(rows), rows) == CountedRows(rows)
    decreases |rows|
  {
    if rows != [] {
      var init := rows[..|rows| - 1];
      var last := rows[|rows| - 1];
      var cs := Cities(init);
      assert rows == init + [last];
      CountsSumToRows(init);
      CitiesDistinct(init);
      assert CountedRows(rows) == CountedRows(init) + (if HasCity(last) then 1 else 0);
      if HasCity(last) && last.value !in cs {
        NewCitySum(init, last.value);
      } else {
        assert Cities(rows) == cs;
        CountSumSnoc(cs, init, last);
      }
    }
  }

  /** A row with a city not seen before appends that city to the keys. */
  lemma NewCityAppended(init: seq<Option<string>>, c: string)
    requires c != "" && c !in Cities(init)
    ensures Cities(init + [Some(c)]) == Cities(init) + [c]
  {
    var rows := init + [Some(c)];
    assert rows[..|rows| - 1] == init;
  }

  /** A row for `c` adds one to the count of `c`. */
  lemma OccurrencesSnoc(init: seq<Option<string>>, c: string)
    requires c != ""
    ensures Occurrences(init + [Some(c)], c) == Occurrences(init, c) + 1
  {
    assert (init + [Some(c)])[..|init|] == init;
  }

  /** The sum over one more city adds that city's count. */
  lemma CountSumAppend(cs: seq<string>, c: string, rows: seq<Option<string>>)
    ensures CountSum(cs + [c], rows) == CountSum(cs, rows) + Occurrences(rows, c)
  {
    assert (cs + [c])[..|cs|] == cs;
  }

  /** A row with a city not seen before adds that city with a count of 1. */
  lemma NewCitySum(init: seq<Option<string>>, c: string)
    requires c != "" && c !in Cities(init)
    ensures Cities(init + [Some(c)]) == Cities(init) + [c]
    ensures CountSum(Cities(init + [Some(c)]), init + [Some(c)]) == CountSum(Cities(init), init) + 1
  {
    var rows := init + [Some(c)];
    var cs := Cities(init);
    NewCityAppended(init, c);
    CountSumAppend(cs, c, rows);
    CountSumNew(cs, init, c);
    CitiesAreCounted(init, c);
    OccurrencesSnoc(init, c);
  }

  /**
   * What the page shows: at most six entries, distinct cities, each with its exact count
   * of at least 1, taken in first-occurrence order.
   */
  lemma CitiesDataFacts(rows: seq<Option<string>>)
    ensures |CitiesData(rows)| <= MAX_CITIES
    ensures CitiesData(rows) <= Tally(rows)
    ensures forall i, j :: 0 <= i < j < |CitiesData(rows)| ==> CitiesData(rows)[i].city != CitiesData(rows)[j].city
    ensures forall i :: 0 <= i < |CitiesData(rows)| ==>
      CitiesData(rows)[i].count == Occurrences(rows, CitiesData(rows)[i].city) >= 1
    ensures forall i :: 0 <= i < |CitiesData(rows)| ==> CitiesData(rows)[i].city != ""
    ensures |Tally(rows)| <= MAX_CITIES ==> CitiesData(rows) == Tally(rows)
  {
    CitiesDistinct(rows);
    EmptyCityNotCounted(rows);
    forall i | 0 <= i < |CitiesData(rows)|
      ensures CitiesData(rows)[i].count >= 1
    {
      CitiesAreCounted(rows, Cities(rows)[i]);
    }
  }
}
