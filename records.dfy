/**
 * Records fetched by the aggregation: locations, forecasts and transmissions,
 * the errors Python raises in the aggregation, and the list helpers
 * (`list.index`, distinct keys in first-seen order, filtering by location)
 * that the rest of the model is specified with.
 */
module Records {

  datatype Option<T> = None | Some(value: T)

  /** The Python exceptions the aggregation can raise. */
  datatype Error =
    | ValueError   // `list.index` of a value that is not in the list
    | IndexError   // `[0]` or `[-1]` of an empty list
    | TypeError    // a list indexed with something that is not an integer

  datatype Result<T> = Ok(value: T) | Err(error: Error)

  /** A bound row: forecasts and transmissions carry the same fields the core reads. */
  datatype Record = Record(id: int, locationId: int, dateTimeUtc: int)

  type Forecast = Record
  type Transmission = Record

  /**
   * A location row. The four optional fields are the attributes the
   * aggregation assigns; `None` means the attribute was never assigned.
   */
  datatype Location = Location(
    id: int,
    mostRecentTransmission: Option<seq<Transmission>>,
    forecasts: Option<seq<Forecast>>,
    mostRecentForecasts: Option<Forecast>,
    transmissions: Option<seq<Transmission>>)

  /** `[location.ID for location in locations]` */
  function LocationIds(locations: seq<Location>): seq<int>
  {
    seq(|locations|, i requires 0 <= i < |locations| => locations[i].id)
  }

  /** The `location_id` of every record, in order. */
  function RecordIds(records: seq<Record>): seq<int>
  {
    seq(|records|, i requires 0 <= i < |records| => records[i].locationId)
  }

  /** `xs.index(x)`: the first position holding `x`, or `None` where Python raises ValueError. */
  function IndexOf(xs: seq<int>, x: int): (r: Option<nat>)
    ensures r.Some? <==> x in xs
    ensures r.Some? ==> r.value < |xs| && xs[r.value] == x
    ensures r.Some? ==> forall j :: 0 <= j < r.value ==> xs[j] != x
  {
    if |xs| == 0 then None
    else if xs[0] == x then Some(0)
    else match IndexOf(xs[1..], x)
      case None => None
      case Some(j) => Some(j + 1)
  }

  /** The last position holding `x`: the entry a dictionary keeps when a key is assigned repeatedly. */
  function LastIndexOf(xs: seq<int>, x: int): (r: Option<nat>)
    ensures r.Some? <==> x in xs
    ensures r.Some? ==> r.value < |xs| && xs[r.value] == x
    ensures r.Some? ==> forall j :: r.value < j < |xs| ==> xs[j] != x
  {
    if |xs| == 0 then None
    else if xs[|xs| - 1] == x then Some(|xs| - 1)
    else
      assert forall y :: y in xs <==> y in xs[..|xs| - 1] || y == xs[|xs| - 1] by {
        assert xs == xs[..|xs| - 1] + [xs[|xs| - 1]];
      }
      LastIndexOf(xs[..|xs| - 1], x)
  }

  /** Position `p` is the one `list.index` finds for its own identifier. */
  predicate IsOwner(ids: seq<int>, p: nat)
    requires p < |ids|
  {
    IndexOf(ids, ids[p]) == Some(p)
  }

  /** The distinct values of `xs` in order of first appearance: the key order of a dict filled from `xs`. */
  function Distinct(xs: seq<int>): (d: seq<int>)
    ensures forall x :: x in d <==> x in xs
    ensures forall i, j :: 0 <= i < j < |d| ==> d[i] != d[j]
  {
    if |xs| == 0 then []
    else
      var d' := Distinct(xs[..|xs| - 1]);
      assert xs == xs[..|xs| - 1] + [xs[|xs| - 1]];
      if xs[|xs| - 1] in d' then d' else d' + [xs[|xs| - 1]]
  }

  /** The records filed under location `k`, in input order. */
  function RecordsOf(records: seq<Record>, k: int): (g: seq<Record>)
    ensures forall r :: r in g ==> r in records && r.locationId == k
    ensures |g| == 0 <==> k !in RecordIds(records)
  {
    if |records| == 0 then []
    else
      var n := |records| - 1;
      assert records == records[..n] + [records[n]];
      assert RecordIds(records) == RecordIds(records[..n]) + [records[n].locationId];
      RecordsOf(records[..n], k) + (if records[n].locationId == k then [records[n]] else [])
  }

  /** Appending a record files it under its own key and leaves every other key's records alone. */
  lemma RecordsOfAppend(records: seq<Record>, x: Record, k: int)
    ensures RecordsOf(records + [x], k)
         == RecordsOf(records, k) + (if x.locationId == k then [x] else [])
  {
    assert (records + [x])[..|records|] == records;
  }

  /** A prefix extended by one is the shorter prefix and the next element. */
  lemma PrefixSnoc<T>(s: seq<T>, i: nat)
    requires i < |s|
    ensures s[..i + 1] == s[..i] + [s[i]]
  {
  }

  /** The record ids of a prefix extended by one. */
  lemma RecordIdsAppend(records: seq<Record>, i: nat)
    requires i < |records|
    ensures RecordIds(records[..i + 1]) == RecordIds(records[..i]) + [records[i].locationId]
  {
  }

  /** The key order of a dict after one more insertion: a new key goes last, a known key stays put. */
  lemma DistinctSnoc(xs: seq<int>, x: int)
    ensures Distinct(xs + [x]) == if x in xs then Distinct(xs) else Distinct(xs) + [x]
  {
    assert (xs + [x])[..|xs|] == xs;
  }

  /** The last position of a key after appending one more value. */
  lemma LastIndexOfSnoc(xs: seq<int>, x: int, k: int)
    ensures LastIndexOf(xs + [x], k) == if x == k then Some(|xs|) else LastIndexOf(xs, k)
  {
    assert (xs + [x])[..|xs|] == xs;
  }
}
