/**
 * The forecast grouping loop of `main` (refactor.py:83-90), which fills a
 * dictionary of lists keyed by `location_id`, as written and corrected.
 */
module Grouping {
  import opened Records

  /**
   * A Python dictionary from location id to a list of records: its keys in
   * insertion order (the dictionary's iteration order) and its entries.
   */
  datatype Index = Index(keys: seq<int>, groups: map<int, seq<Record>>)

  /** The dictionary's key list and its entries describe the same keys, each once. */
  ghost predicate WellFormed(index: Index)
  {
    && (forall k :: k in index.keys <==> k in index.groups)
    && (forall i, j :: 0 <= i < j < |index.keys| ==> index.keys[i] != index.keys[j])
  }

  /** The number of records held under the given keys. */
  function TotalSize(keys: seq<int>, groups: map<int, seq<Record>>): nat
    requires forall k :: k in keys ==> k in groups
  {
    if |keys| == 0 then 0
    else
      var k := keys[|keys| - 1];
      assert k in keys;
      TotalSize(keys[..|keys| - 1], groups) + |groups[k]|
  }

  /** The number of records of `records` filed under the given keys. */
  function GroupSizes(records: seq<Record>, keys: seq<int>): nat
  {
    if |keys| == 0 then 0
    else GroupSizes(records, keys[..|keys| - 1]) + |RecordsOf(records, keys[|keys| - 1])|
  }

  /**
   * The grouping loop as written: the first record of a location only creates
   * an empty list, and only later records of it are appended. Each location
   * keeps all its records in input order except the first; a location seen once
   * ends with an empty list; no record is filed under another location; the
   * dictionary holds one record fewer than the input per distinct location.
   */
  method GroupForecasts(forecasts: seq<Forecast>) returns (index: Index)
    ensures WellFormed(index)
    ensures index.keys == Distinct(RecordIds(forecasts))
    ensures forall k :: k in index.groups <==> k in RecordIds(forecasts)
    ensures forall k :: k in index.groups ==>
      |RecordsOf(forecasts, k)| > 0 && index.groups[k] == RecordsOf(forecasts, k)[1..]
    ensures TotalSize(index.keys, index.groups) == |forecasts| - |index.keys|
  {
    var keys: seq<int> := [];
    var groups: map<int, seq<Forecast>> := map[];
    var i := 0;
    while i < |forecasts|
      invariant 0 <= i <= |forecasts|
      invariant keys == Distinct(RecordIds(forecasts[..i]))
      invariant GroupedExceptFirst(groups, forecasts[..i])
    {
      var f := forecasts[i];
      PrefixSnoc(forecasts, i);
      DistinctAppend(forecasts[..i], f);
      GroupedExceptFirstStep(groups, forecasts[..i], f);
      if f.locationId !in groups {
        groups := groups[f.locationId := []];
        keys := keys + [f.locationId];
      } else {
        groups := groups[f.locationId := groups[f.locationId] + [f]];
      }
      i := i + 1;
    }
    assert forecasts[..i] == forecasts;
    index := Index(keys, groups);
    TotalSizeDropped(forecasts, keys, groups);
    GroupingTotality(forecasts);
  }

  /** The state the as-written loop keeps: every seen location, holding its records but the first. */
  ghost predicate GroupedExceptFirst(groups: map<int, seq<Record>>, records: seq<Record>)
  {
    forall k :: (k in groups <==> k in RecordIds(records))
      && (k in groups ==> |RecordsOf(records, k)| > 0 && groups[k] == RecordsOf(records, k)[1..])
  }

  /** One pass of the as-written loop body. */
  lemma GroupedExceptFirstStep(groups: map<int, seq<Record>>, records: seq<Record>, f: Record)
    requires GroupedExceptFirst(groups, records)
    ensures GroupedExceptFirst(
      if f.locationId !in groups then groups[f.locationId := []]
      else groups[f.locationId := groups[f.locationId] + [f]],
      records + [f])
  {
    var next := if f.locationId !in groups then groups[f.locationId := []]
                else groups[f.locationId := groups[f.locationId] + [f]];
    assert RecordIds(records + [f]) == RecordIds(records) + [f.locationId];
    forall k ensures (k in next <==> k in RecordIds(records + [f]))
      && (k in next ==> |RecordsOf(records + [f], k)| > 0
                        && next[k] == RecordsOf(records + [f], k)[1..])
    {
      RecordsOfAppend(records, f, k);
      var was := RecordsOf(records, k);
      if k == f.locationId && k in groups {
        assert (was + [f])[1..] == was[1..] + [f];
      }
    }
  }

  /** The key order of a dictionary after one more insertion. */
  lemma DistinctAppend(records: seq<Record>, f: Record)
    ensures Distinct(RecordIds(records + [f]))
         == if f.locationId in RecordIds(records) then Distinct(RecordIds(records))
            else Distinct(RecordIds(records)) + [f.locationId]
  {
    assert RecordIds(records + [f]) == RecordIds(records) + [f.locationId];
    DistinctSnoc(RecordIds(records), f.locationId);
  }

  /**
   * The grouping loop with the evident intent: both branches append, so every
   * location keeps all its records in input order and the dictionary holds
   * exactly the input's records.
   */
  method GroupAll(forecasts: seq<Forecast>) returns (index: Index)
    ensures WellFormed(index)
    ensures index.keys == Distinct(RecordIds(forecasts))
    ensures forall k :: k in index.groups <==> k in RecordIds(forecasts)
    ensures forall k :: k in index.groups ==> index.groups[k] == RecordsOf(forecasts, k)
    ensures TotalSize(index.keys, index.groups) == |forecasts|
  {
    var keys: seq<int> := [];
    var groups: map<int, seq<Forecast>> := map[];
    var i := 0;
    while i < |forecasts|
      invariant 0 <= i <= |forecasts|
      invariant keys == Distinct(RecordIds(forecasts[..i]))
      invariant GroupedAll(groups, forecasts[..i])
    {
      var f := forecasts[i];
      PrefixSnoc(forecasts, i);
      DistinctAppend(forecasts[..i], f);
      GroupedAllStep(groups, forecasts[..i], f);
      if f.locationId !in groups {
        groups := groups[f.locationId := [f]];
        keys := keys + [f.locationId];
      } else {
        groups := groups[f.locationId := groups[f.locationId] + [f]];
      }
      i := i + 1;
    }
    assert forecasts[..i] == forecasts;
    index := Index(keys, groups);
    TotalSizeKept(forecasts, keys, groups);
    GroupingTotality(forecasts);
  }

  /** The state the corrected loop keeps: every seen location, holding all its records. */
  ghost predicate GroupedAll(groups: map<int, seq<Record>>, records: seq<Record>)
  {
    forall k :: (k in groups <==> k in RecordIds(records))
      && (k in groups ==> groups[k] == RecordsOf(records, k))
  }

  /** One pass of the corrected loop body. */
  lemma GroupedAllStep(groups: map<int, seq<Record>>, records: seq<Record>, f: Record)
    requires GroupedAll(groups, records)
    ensures GroupedAll(
      if f.locationId !in groups then groups[f.locationId := [f]]
      else groups[f.locationId := groups[f.locationId] + [f]],
      records + [f])
  {
    var next := if f.locationId !in groups then groups[f.locationId := [f]]
                else groups[f.locationId := groups[f.locationId] + [f]];
    assert RecordIds(records + [f]) == RecordIds(records) + [f.locationId];
    forall k ensures (k in next <==> k in RecordIds(records + [f]))
      && (k in next ==> next[k] == RecordsOf(records + [f], k))
    {
      RecordsOfAppend(records, f, k);
      if k == f.locationId && k !in groups {
        assert |RecordsOf(records, k)| == 0;
      }
    }
  }

  /** Entries equal to the filtered records add up to the filtered sizes. */
  lemma {:induction false} TotalSizeKept(records: seq<Record>, keys: seq<int>, groups: map<int, seq<Record>>)
    requires forall k :: k in keys ==> k in groups && groups[k] == RecordsOf(records, k)
    ensures TotalSize(keys, groups) == GroupSizes(records, keys)
  {
    if |keys| > 0 {
      TotalSizeKept(records, keys[..|keys| - 1], groups);
    }
  }

  /** Entries missing their first record add up to one less per key. */
  lemma {:induction false} TotalSizeDropped(records: seq<Record>, keys: seq<int>, groups: map<int, seq<Record>>)
    requires forall k :: k in keys ==>
      k in groups && |RecordsOf(records, k)| > 0 && groups[k] == RecordsOf(records, k)[1..]
    ensures TotalSize(keys, groups) + |keys| == GroupSizes(records, keys)
  {
    if |keys| > 0 {
      TotalSizeDropped(records, keys[..|keys| - 1], groups);
    }
  }

  /** One more record adds one to the count of its key and nothing to any other. */
  lemma {:induction false} GroupSizesAppend(records: seq<Record>, x: Record, keys: seq<int>)
    requires forall i, j :: 0 <= i < j < |keys| ==> keys[i] != keys[j]
    ensures GroupSizes(records + [x], keys)
         == GroupSizes(records, keys) + (if x.locationId in keys then 1 else 0)
  {
    if |keys| > 0 {
      var front := keys[..|keys| - 1];
      var k := keys[|keys| - 1];
      assert keys == front + [k];
      GroupSizesAppend(records, x, front);
      RecordsOfAppend(records, x, k);
      assert x.locationId in keys <==> x.locationId in front || x.locationId == k;
      assert x.locationId == k ==> x.locationId !in front;
    }
  }

  /**
   * Grouping totality: the records filed under the distinct locations of the
   * input add up to the input's length, none lost and none counted twice.
   */
  lemma {:induction false} GroupingTotality(records: seq<Record>)
    ensures GroupSizes(records, Distinct(RecordIds(records))) == |records|
  {
    if |records| > 0 {
      var n := |records| - 1;
      var front := records[..n];
      var x := records[n];
      assert records == front + [x];
      RecordIdsAppend(records, n);
      assert RecordIds(records)[..n] == RecordIds(front);
      var d := Distinct(RecordIds(front));
      GroupingTotality(front);
      GroupSizesAppend(front, x, d);
      if x.locationId !in d {
        var d' := d + [x.locationId];
        assert d'[..|d'| - 1] == d;
        RecordsOfAppend(front, x, x.locationId);
        assert GroupSizes(records, d') == GroupSizes(records, d) + 1;
      }
    }
  }
}
