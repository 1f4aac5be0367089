/**
 * `main` of refactor.py: fetch the customer's locations, attach each one's
 * most recent transmission, group the batched forecasts by location and
 * attach them, then fetch, index and attach the transmissions of a trailing
 * two-day window. Every fetch is a parameter; Python's exceptions are `Err`.
 */
module Aggregation {
  import opened Records
  import opened Recency
  import opened Grouping
  import opened Requests

  /** `location.MostRecentTransmission = <fetch for location.ID>` */
  function WithMostRecentTransmission(location: Location, fetch: int -> seq<Transmission>): Location
  {
    location.(mostRecentTransmission := Some(fetch(location.id)))
  }

  /**
   * The loop calling `get_most_recent_transmission` on every location: each
   * location gets the fetch result for its own ID, and nothing else changes.
   */
  method AttachMostRecentTransmissions(locations: seq<Location>, fetch: int -> seq<Transmission>)
    returns (result: seq<Location>)
    ensures |result| == |locations|
    ensures forall p :: 0 <= p < |locations| ==>
      result[p] == WithMostRecentTransmission(locations[p], fetch)
  {
    result := locations;
    var p := 0;
    while p < |result|
      invariant 0 <= p <= |result| == |locations|
      invariant forall q :: 0 <= q < p ==> result[q] == WithMostRecentTransmission(locations[q], fetch)
      invariant forall q :: p <= q < |result| ==> result[q] == locations[q]
    {
      result := result[p := WithMostRecentTransmission(result[p], fetch)];
      p := p + 1;
    }
  }

  /**
   * The exception one forecast key raises: ValueError from `.index` when no
   * location has that ID, IndexError from `[-1]` when the second forecast
   * fetch for it is empty.
   */
  function ForecastKeyFailure(ids: seq<int>, key: int, fetchRecent: int -> seq<Forecast>): Option<Error>
  {
    if key !in ids then Some(ValueError)
    else if |fetchRecent(key)| == 0 then Some(IndexError)
    else None
  }

  /** The exception of the first failing key, in dictionary order; `None` when no key fails. */
  function FirstForecastFailure(ids: seq<int>, keys: seq<int>, fetchRecent: int -> seq<Forecast>): (e: Option<Error>)
    ensures e.None? <==> forall k :: k in keys ==> ForecastKeyFailure(ids, k, fetchRecent).None?
    ensures e.Some? ==> e.value == ValueError || e.value == IndexError
  {
    if |keys| == 0 then None
    else
      assert keys == [keys[0]] + keys[1..];
      match ForecastKeyFailure(ids, keys[0], fetchRecent)
      case Some(err) => Some(err)
      case None => FirstForecastFailure(ids, keys[1..], fetchRecent)
  }

  /** A location after its forecast group is attached: the sorted group and the most recent forecast. */
  function WithForecasts(location: Location, group: seq<Forecast>, recent: seq<Forecast>): Location
    requires |recent| > 0
  {
    location.(forecasts := Some(SortByTime(group)), mostRecentForecasts := Some(MostRecent(recent).value))
  }

  /**
   * Location `p` once the keys `done` are attached: the first location carrying
   * one of those IDs has its forecasts attached, every other one is as it was.
   */
  function ForecastTarget(
    locations: seq<Location>, p: nat, done: seq<int>,
    groups: map<int, seq<Forecast>>, fetchRecent: int -> seq<Forecast>): (location: Location)
    requires p < |locations|
    requires forall k :: k in done ==> k in groups && |fetchRecent(k)| > 0
    ensures location.id == locations[p].id
  {
    var id := locations[p].id;
    if id in done && IsOwner(LocationIds(locations), p)
    then WithForecasts(locations[p], groups[id], fetchRecent(id))
    else locations[p]
  }

  /** Every key in `done` names a location, has a group and a non-empty second fetch. */
  ghost predicate KeysReady(ids: seq<int>, done: seq<int>, groups: map<int, seq<Forecast>>, fetchRecent: int -> seq<Forecast>)
  {
    forall k :: k in done ==> k in groups && k in ids && |fetchRecent(k)| > 0
  }

  /** `current` is `locations` with the keys `done` attached. */
  ghost predicate AttachedUpTo(
    locations: seq<Location>, current: seq<Location>, done: seq<int>,
    groups: map<int, seq<Forecast>>, fetchRecent: int -> seq<Forecast>)
    requires KeysReady(LocationIds(locations), done, groups, fetchRecent)
  {
    && |current| == |locations|
    && forall p :: 0 <= p < |locations| ==> current[p] == ForecastTarget(locations, p, done, groups, fetchRecent)
  }

  /** A key that is ready keeps the keys before it ready. */
  lemma KeysReadyStep(ids: seq<int>, done: seq<int>, key: int, groups: map<int, seq<Forecast>>, fetchRecent: int -> seq<Forecast>)
    requires KeysReady(ids, done, groups, fetchRecent)
    requires key in groups && key in ids && |fetchRecent(key)| > 0
    ensures KeysReady(ids, done + [key], groups, fetchRecent)
  {
    forall k | k in done + [key] ensures k in groups && k in ids && |fetchRecent(k)| > 0 {
      if k != key { assert k in done; }
    }
  }

  /** One pass of the forecast attach loop: the owner of `key` is updated and no one else. */
  lemma ForecastAttachStep(
    locations: seq<Location>, done: seq<int>, key: int, groups: map<int, seq<Forecast>>,
    fetchRecent: int -> seq<Forecast>, current: seq<Location>, idx: nat, next: seq<Location>)
    requires KeysReady(LocationIds(locations), done, groups, fetchRecent)
    requires KeysReady(LocationIds(locations), done + [key], groups, fetchRecent)
    requires AttachedUpTo(locations, current, done, groups, fetchRecent)
    requires IndexOf(LocationIds(locations), key) == Some(idx)
    requires key in groups && |fetchRecent(key)| > 0
    requires next == current[idx := WithForecasts(current[idx], groups[key], fetchRecent(key))]
    ensures AttachedUpTo(locations, next, done + [key], groups, fetchRecent)
  {
    forall p | 0 <= p < |locations|
      ensures next[p] == ForecastTarget(locations, p, done + [key], groups, fetchRecent)
    {
      assert current[p] == ForecastTarget(locations, p, done, groups, fetchRecent);
      ForecastTargetStep(locations, done, key, groups, fetchRecent, idx, p);
    }
  }

  /** Attaching `key` changes the target of its owner `idx` only. */
  lemma ForecastTargetStep(
    locations: seq<Location>, done: seq<int>, key: int, groups: map<int, seq<Forecast>>,
    fetchRecent: int -> seq<Forecast>, idx: nat, p: nat)
    requires KeysReady(LocationIds(locations), done, groups, fetchRecent)
    requires KeysReady(LocationIds(locations), done + [key], groups, fetchRecent)
    requires IndexOf(LocationIds(locations), key) == Some(idx)
    requires key in groups && |fetchRecent(key)| > 0
    requires p < |locations|
    ensures var before := ForecastTarget(locations, p, done, groups, fetchRecent);
      ForecastTarget(locations, p, done + [key], groups, fetchRecent)
      == if p == idx then WithForecasts(before, groups[key], fetchRecent(key)) else before
  {
    var ids := LocationIds(locations);
    assert ids[p] == locations[p].id;
    assert locations[p].id in done + [key] <==> locations[p].id in done || locations[p].id == key;
    if p != idx && locations[p].id == key {
      assert !IsOwner(ids, p);
    }
  }

  /** The first failure from position `i` on is that of `keys[i]`, or else the first one after it. */
  lemma ForecastFailureStep(ids: seq<int>, keys: seq<int>, i: nat, fetchRecent: int -> seq<Forecast>)
    requires i < |keys|
    ensures FirstForecastFailure(ids, keys[i..], fetchRecent)
         == match ForecastKeyFailure(ids, keys[i], fetchRecent)
            case Some(err) => Some(err)
            case None => FirstForecastFailure(ids, keys[i + 1..], fetchRecent)
  {
    assert keys[i..][1..] == keys[i + 1..];
  }

  /**
   * One pass of the loop over the forecast dictionary (refactor.py:93-98):
   * sort the key's list, find the first location with that ID (ValueError if
   * none), set its `Forecasts`, then its `MostRecentForecasts` from a second
   * fetch by its ID (IndexError if that is empty). On success the key's owner,
   * and no other location, is updated.
   */
  method AttachForecastKey(
    locations: seq<Location>, current: seq<Location>, ghost done: seq<int>, key: int,
    groups: map<int, seq<Forecast>>, fetchRecent: int -> seq<Forecast>)
    returns (r: Result<seq<Location>>)
    requires KeysReady(LocationIds(locations), done, groups, fetchRecent)
    requires AttachedUpTo(locations, current, done, groups, fetchRecent)
    requires key in groups
    ensures r.Err? <==> ForecastKeyFailure(LocationIds(locations), key, fetchRecent).Some?
    ensures r.Err? ==> r.error == ForecastKeyFailure(LocationIds(locations), key, fetchRecent).value
    ensures r.Ok? ==> KeysReady(LocationIds(locations), done + [key], groups, fetchRecent)
    ensures r.Ok? ==> AttachedUpTo(locations, r.value, done + [key], groups, fetchRecent)
  {
    var ids := LocationIds(locations);
    var group := SortByTime(groups[key]);
    var found := IndexOf(ids, key);
    if found.None? {
      return Err(ValueError);
    }
    var idx := found.value;
    // The row `locations[idx]` is updated in place, one attribute at a time.
    var location := current[idx];
    assert location == ForecastTarget(locations, idx, done, groups, fetchRecent);
    location := location.(forecasts := Some(group));
    var recent := MostRecent(fetchRecent(location.id));
    if recent.Err? {
      return Err(recent.error);
    }
    location := location.(mostRecentForecasts := Some(recent.value));
    var next := current[idx := location];
    KeysReadyStep(ids, done, key, groups, fetchRecent);
    ForecastAttachStep(locations, done, key, groups, fetchRecent, current, idx, next);
    return Ok(next);
  }

  /**
   * The loop over the forecast dictionary (refactor.py:92-98), key by key in
   * dictionary order. Only the first location carrying a key's ID changes;
   * the first failing key's exception ends the run.
   */
  method AttachForecasts(locations: seq<Location>, index: Index, fetchRecent: int -> seq<Forecast>)
    returns (r: Result<seq<Location>>)
    requires forall k :: k in index.keys ==> k in index.groups
    ensures r.Err? <==> FirstForecastFailure(LocationIds(locations), index.keys, fetchRecent).Some?
    ensures r.Err? ==> r.error == FirstForecastFailure(LocationIds(locations), index.keys, fetchRecent).value
    ensures r.Ok? ==> |r.value| == |locations|
    ensures r.Ok? ==> forall p :: 0 <= p < |locations| ==>
      r.value[p] == ForecastTarget(locations, p, index.keys, index.groups, fetchRecent)
  {
    var ids := LocationIds(locations);
    var current := locations;
    var i := 0;
    ghost var done: seq<int> := [];
    while i < |index.keys|
      invariant 0 <= i <= |index.keys|
      invariant FirstForecastFailure(ids, index.keys, fetchRecent)
             == FirstForecastFailure(ids, index.keys[i..], fetchRecent)
      invariant done == index.keys[..i]
      invariant KeysReady(ids, done, index.groups, fetchRecent)
      invariant AttachedUpTo(locations, current, done, index.groups, fetchRecent)
    {
      var key := index.keys[i];
      ForecastFailureStep(ids, index.keys, i, fetchRecent);
      var step := AttachForecastKey(locations, current, done, key, index.groups, fetchRecent);
      if step.Err? {
        return Err(step.error);
      }
      current := step.value;
      PrefixSnoc(index.keys, i);
      done := done + [key];
      i := i + 1;
    }
    assert index.keys[..i] == index.keys;
    return Ok(current);
  }

  /** No list is empty. */
  predicate NoneEmpty(lists: seq<seq<Transmission>>)
  {
    forall i :: 0 <= i < |lists| ==> |lists[i]| > 0
  }

  /** The `location_id` of the first element of every list. */
  function HeadIds(lists: seq<seq<Transmission>>): seq<int>
    requires NoneEmpty(lists)
  {
    seq(|lists|, i requires 0 <= i < |lists| => lists[i][0].locationId)
  }

  /** The head ids after one more list. */
  lemma HeadIdsSnoc(lists: seq<seq<Transmission>>, list: seq<Transmission>)
    requires NoneEmpty(lists)
    requires |list| > 0
    ensures NoneEmpty(lists + [list])
    ensures HeadIds(lists + [list]) == HeadIds(lists) + [list[0].locationId]
  {
    var all: seq<seq<Transmission>> := lists + [list];
    forall i: nat | i < |all| ensures |all[i]| > 0 {
      if i < |lists| { assert all[i] == lists[i]; }
    }
  }

  /**
   * The dictionary after filing `lists`: keys in first-insertion order, and
   * each key holding the sorted last list whose first element carries it.
   */
  ghost predicate TransmissionsFiled(keys: seq<int>, groups: map<int, seq<Transmission>>, lists: seq<seq<Transmission>>)
    requires NoneEmpty(lists)
  {
    && keys == Distinct(HeadIds(lists))
    && (forall k :: k in groups <==> k in HeadIds(lists))
    && (forall k :: k in groups ==> groups[k] == SortByTime(lists[LastIndexOf(HeadIds(lists), k).value]))
  }

  /** One pass of the filing loop: a new key goes last, and the list replaces the key's entry. */
  lemma TransmissionsFiledStep(
    keys: seq<int>, groups: map<int, seq<Transmission>>, lists: seq<seq<Transmission>>, list: seq<Transmission>,
    keys': seq<int>, groups': map<int, seq<Transmission>>)
    requires NoneEmpty(lists)
    requires |list| > 0
    requires TransmissionsFiled(keys, groups, lists)
    requires keys' == if list[0].locationId in groups then keys else keys + [list[0].locationId]
    requires groups' == groups[list[0].locationId := SortByTime(list)]
    ensures NoneEmpty(lists + [list])
    ensures TransmissionsFiled(keys', groups', lists + [list])
  {
    var key := list[0].locationId;
    var all: seq<seq<Transmission>> := lists + [list];
    HeadIdsSnoc(lists, list);
    DistinctSnoc(HeadIds(lists), key);
    assert keys' == Distinct(HeadIds(all));
    assert forall k :: k in groups' <==> k in HeadIds(all);
    forall k | k in groups'
      ensures groups'[k] == SortByTime(all[LastIndexOf(HeadIds(all), k).value])
    {
      LastIndexOfSnoc(HeadIds(lists), key, k);
      if k != key {
        var j := LastIndexOf(HeadIds(lists), k).value;
        assert LastIndexOf(HeadIds(all), k).value == j;
        assert all[j] == lists[j];
      }
    }
    assert TransmissionsFiled(keys', groups', all);
  }

  /** The filing step stated on prefixes of the input, as the loop uses it. */
  lemma TransmissionsFiledPrefix(
    lists: seq<seq<Transmission>>, i: nat,
    keys: seq<int>, groups: map<int, seq<Transmission>>,
    keys': seq<int>, groups': map<int, seq<Transmission>>)
    requires i < |lists| && |lists[i]| > 0
    requires NoneEmpty(lists[..i])
    requires TransmissionsFiled(keys, groups, lists[..i])
    requires keys' == if lists[i][0].locationId in groups then keys else keys + [lists[i][0].locationId]
    requires groups' == groups[lists[i][0].locationId := SortByTime(lists[i])]
    ensures NoneEmpty(lists[..i + 1])
    ensures TransmissionsFiled(keys', groups', lists[..i + 1])
  {
    PrefixSnoc(lists, i);
    TransmissionsFiledStep(keys, groups, lists[..i], lists[i], keys', groups');
  }

  /**
   * The loop filling `location_id_transmissions` (refactor.py:110-114): each
   * list is stored sorted under its first element's `location_id`; a later
   * list with the same key replaces an earlier one, and an empty list raises
   * IndexError at `[0]`.
   */
  method BuildTransmissionIndex(lists: seq<seq<Transmission>>) returns (r: Result<Index>)
    ensures r.Err? <==> !NoneEmpty(lists)
    ensures r.Err? ==> r.error == IndexError
    ensures r.Ok? ==> WellFormed(r.value)
    ensures r.Ok? ==> TransmissionsFiled(r.value.keys, r.value.groups, lists)
  {
    var keys: seq<int> := [];
    var groups: map<int, seq<Transmission>> := map[];
    var i := 0;
    while i < |lists|
      invariant 0 <= i <= |lists|
      invariant NoneEmpty(lists[..i])
      invariant TransmissionsFiled(keys, groups, lists[..i])
    {
      if |lists[i]| == 0 {
        return Err(IndexError);
      }
      var key := lists[i][0].locationId;
      ghost var (keys0, groups0) := (keys, groups);
      if key !in groups {
        keys := keys + [key];
      }
      groups := groups[key := SortByTime(lists[i])];
      TransmissionsFiledPrefix(lists, i, keys0, groups0, keys, groups);
      i := i + 1;
    }
    assert lists[..i] == lists;
    return Ok(Index(keys, groups));
  }

  /**
   * The attach loop of refactor.py:115-117 with the evident intent: the list
   * stored under an ID goes to the first location with that ID. ValueError when
   * some key is no location's ID; otherwise only owners of keys change.
   */
  method AttachTransmissions(locations: seq<Location>, index: Index) returns (r: Result<seq<Location>>)
    requires forall k :: k in index.keys ==> k in index.groups
    ensures r.Err? <==> exists k :: k in index.keys && k !in LocationIds(locations)
    ensures r.Err? ==> r.error == ValueError
    ensures r.Ok? ==> |r.value| == |locations|
    ensures r.Ok? ==> forall p :: 0 <= p < |locations| ==>
      r.value[p] == (if locations[p].id in index.keys && IsOwner(LocationIds(locations), p)
                     then locations[p].(transmissions := Some(index.groups[locations[p].id]))
                     else locations[p])
  {
    var ids := LocationIds(locations);
    var current := locations;
    var i := 0;
    while i < |index.keys|
      invariant 0 <= i <= |index.keys|
      invariant forall k :: k in index.keys[..i] ==> k in ids
      invariant |current| == |locations|
      invariant forall p :: 0 <= p < |locations| ==>
        current[p] == (if locations[p].id in index.keys[..i] && IsOwner(ids, p)
                       then locations[p].(transmissions := Some(index.groups[locations[p].id]))
                       else locations[p])
    {
      var key := index.keys[i];
      PrefixSnoc(index.keys, i);
      var found := IndexOf(ids, key);
      if found.None? {
        return Err(ValueError);
      }
      var idx := found.value;
      current := current[idx := current[idx].(transmissions := Some(index.groups[key]))];
      i := i + 1;
    }
    assert index.keys[..i] == index.keys;
    return Ok(current);
  }

  /** A Python list subscript: an integer, or a location row as line 117 passes one. */
  datatype Subscript = IntSubscript(n: int) | RowSubscript(row: Location)

  /**
   * The position a subscript of a list of length `length` selects: negative
   * integers count from the end, an integer out of range raises IndexError,
   * and anything but an integer raises TypeError.
   */
  function ResolveSubscript(length: nat, s: Subscript): (r: Result<nat>)
    ensures r.Err? <==> s.RowSubscript? || !(-(length as int) <= s.n < length)
    ensures r.Err? ==> r.error == if s.RowSubscript? then TypeError else IndexError
    ensures r.Ok? ==> r.value < length && (r.value - s.n) % length == 0
  {
    match s
    case RowSubscript(_) => Err(TypeError)
    case IntSubscript(n) =>
      if 0 <= n < length then Ok(n)
      else if -(length as int) <= n < 0 then Ok(n + length)
      else Err(IndexError)
  }

  /** `locations[s].Transmissions = transmissions`: only the selected row changes. */
  function SetTransmissionsAt(locations: seq<Location>, s: Subscript, transmissions: seq<Transmission>)
    : (r: Result<seq<Location>>)
    ensures r.Err? <==> ResolveSubscript(|locations|, s).Err?
    ensures r.Err? ==> r.error == ResolveSubscript(|locations|, s).error
    ensures r.Ok? ==> |r.value| == |locations| && forall q :: 0 <= q < |locations| ==>
      r.value[q] == if q == ResolveSubscript(|locations|, s).value
                    then locations[q].(transmissions := Some(transmissions))
                    else locations[q]
  {
    match ResolveSubscript(|locations|, s)
    case Err(e) => Err(e)
    case Ok(p) => Ok(locations[p := locations[p].(transmissions := Some(transmissions))])
  }

  /**
   * The attach loop of refactor.py:115-117 as written: `.index` finds the
   * first location with the key's ID (ValueError if none), and the list is
   * then subscripted with that location row itself. The exception ends the
   * loop, so the first key always raises (ValueError or TypeError) and only
   * an empty dictionary leaves the locations as they were.
   */
  method AttachTransmissionsAsWritten(locations: seq<Location>, index: Index) returns (r: Result<seq<Location>>)
    requires forall k :: k in index.keys ==> k in index.groups
    ensures r.Ok? <==> |index.keys| == 0
    ensures r.Ok? ==> r.value == locations
    ensures r.Err? ==> |index.keys| > 0
    ensures r.Err? ==> r.error == (if index.keys[0] in LocationIds(locations) then TypeError else ValueError)
  {
    var ids := LocationIds(locations);
    r := Ok(locations);
    var i := 0;
    while i < |index.keys| && r.Ok?
      invariant 0 <= i <= |index.keys|
      invariant r.Ok? <==> i == 0
      invariant r.Ok? ==> r.value == locations
      invariant r.Err? ==> |index.keys| > 0
      invariant r.Err? ==> r.error == (if index.keys[0] in ids then TypeError else ValueError)
    {
      var key := index.keys[i];
      var found := IndexOf(ids, key);
      if found.None? {
        r := Err(ValueError);
      } else {
        var current := r.value;
        r := SetTransmissionsAt(current, RowSubscript(current[found.value]), index.groups[key]);
      }
      i := i + 1;
    }
  }

  /** Every location ID of the forecast batch names a location and has a non-empty second forecast fetch. */
  predicate ForecastsAccepted(ids: seq<int>, batch: seq<Forecast>, fetchRecentForecasts: int -> seq<Forecast>)
  {
    forall k :: k in RecordIds(batch) ==> ForecastKeyFailure(ids, k, fetchRecentForecasts).None?
  }

  /**
   * The fields of location `p` that the forecast stages settle, stated against
   * the fetched rows: its ID kept, its most recent transmission set, and, for
   * the first location with an ID in the batch, all the batch's forecasts for
   * that ID, sorted, and its most recent forecast.
   */
  ghost predicate ForecastFields(
    fetched: seq<Location>, fetchMostRecentTransmission: int -> seq<Transmission>,
    batch: seq<Forecast>, fetchRecentForecasts: int -> seq<Forecast>, p: nat, location: Location)
    requires ForecastsAccepted(LocationIds(fetched), batch, fetchRecentForecasts)
    requires p < |fetched|
  {
    var id := fetched[p].id;
    var attached := IsOwner(LocationIds(fetched), p) && id in RecordIds(batch);
    && location.id == id
    && location.mostRecentTransmission == Some(fetchMostRecentTransmission(id))
    && location.forecasts == (if attached then Some(SortByTime(RecordsOf(batch, id))) else fetched[p].forecasts)
    && location.mostRecentForecasts
       == (if attached then Some(MostRecent(fetchRecentForecasts(id)).value) else fetched[p].mostRecentForecasts)
  }

  /** The locations once forecasts are attached: `ForecastFields` for each, transmissions not yet touched. */
  ghost predicate ForecastsAttached(
    fetched: seq<Location>, fetchMostRecentTransmission: int -> seq<Transmission>,
    batch: seq<Forecast>, fetchRecentForecasts: int -> seq<Forecast>, locations: seq<Location>)
    requires ForecastsAccepted(LocationIds(fetched), batch, fetchRecentForecasts)
  {
    && |locations| == |fetched|
    && forall p :: 0 <= p < |fetched| ==>
      && ForecastFields(fetched, fetchMostRecentTransmission, batch, fetchRecentForecasts, p, locations[p])
      && locations[p].transmissions == fetched[p].transmissions
  }

  /** The first two stages of `main` compose to `ForecastsAttached`. */
  lemma ForecastStage(
    fetched: seq<Location>, fetchMostRecentTransmission: int -> seq<Transmission>,
    batch: seq<Forecast>, fetchRecentForecasts: int -> seq<Forecast>,
    withTransmission: seq<Location>, index: Index, locations: seq<Location>)
    requires |withTransmission| == |fetched|
    requires forall p :: 0 <= p < |fetched| ==>
      withTransmission[p] == WithMostRecentTransmission(fetched[p], fetchMostRecentTransmission)
    requires index.keys == Distinct(RecordIds(batch))
    requires forall k :: k in index.groups <==> k in RecordIds(batch)
    requires forall k :: k in index.groups ==> index.groups[k] == RecordsOf(batch, k)
    requires ForecastsAccepted(LocationIds(fetched), batch, fetchRecentForecasts)
    requires |locations| == |fetched|
    requires forall p :: 0 <= p < |fetched| ==>
      locations[p] == ForecastTarget(withTransmission, p, index.keys, index.groups, fetchRecentForecasts)
    ensures ForecastsAttached(fetched, fetchMostRecentTransmission, batch, fetchRecentForecasts, locations)
    ensures LocationIds(locations) == LocationIds(fetched)
  {
    assert LocationIds(withTransmission) == LocationIds(fetched);
    forall p | 0 <= p < |fetched|
      ensures locations[p].id == fetched[p].id
    {
      assert locations[p] == ForecastTarget(withTransmission, p, index.keys, index.groups, fetchRecentForecasts);
    }
  }

  /** Every filed list's location is known exactly when every dictionary key is. */
  lemma TransmissionKeysKnown(lists: seq<seq<Transmission>>, keys: seq<int>, groups: map<int, seq<Transmission>>, ids: seq<int>)
    requires NoneEmpty(lists)
    requires TransmissionsFiled(keys, groups, lists)
    ensures (forall k :: k in keys ==> k in ids)
        <==> (forall p :: 0 <= p < |lists| ==> lists[p][0].locationId in ids)
  {
    var heads := HeadIds(lists);
    assert forall k :: k in keys <==> k in heads;
    assert forall p :: 0 <= p < |lists| ==> heads[p] == lists[p][0].locationId;
    if forall k :: k in keys ==> k in ids {
      forall p | 0 <= p < |lists| ensures lists[p][0].locationId in ids {
        assert heads[p] in heads;
      }
    }
  }

  /**
   * The locations `main` returns, stated against the fetched rows, the
   * forecast batch and the transmission lists: `ForecastFields` for each,
   * and the first location with an ID that heads some list holds the sorted
   * last such list.
   */
  ghost predicate Aggregated(
    fetched: seq<Location>, fetchMostRecentTransmission: int -> seq<Transmission>,
    batch: seq<Forecast>, fetchRecentForecasts: int -> seq<Forecast>,
    lists: seq<seq<Transmission>>, locations: seq<Location>)
    requires ForecastsAccepted(LocationIds(fetched), batch, fetchRecentForecasts)
    requires NoneEmpty(lists)
  {
    && |locations| == |fetched|
    && forall p :: 0 <= p < |fetched| ==>
      && ForecastFields(fetched, fetchMostRecentTransmission, batch, fetchRecentForecasts, p, locations[p])
      && locations[p].transmissions
         == (if IsOwner(LocationIds(fetched), p) && fetched[p].id in HeadIds(lists)
             then Some(SortByTime(lists[LastIndexOf(HeadIds(lists), fetched[p].id).value]))
             else fetched[p].transmissions)
  }

  /** The transmission stage of `main` turns `ForecastsAttached` into `Aggregated`. */
  lemma TransmissionStage(
    fetched: seq<Location>, fetchMostRecentTransmission: int -> seq<Transmission>,
    batch: seq<Forecast>, fetchRecentForecasts: int -> seq<Forecast>,
    withForecasts: seq<Location>, lists: seq<seq<Transmission>>, index: Index, locations: seq<Location>)
    requires ForecastsAccepted(LocationIds(fetched), batch, fetchRecentForecasts)
    requires ForecastsAttached(fetched, fetchMostRecentTransmission, batch, fetchRecentForecasts, withForecasts)
    requires LocationIds(withForecasts) == LocationIds(fetched)
    requires NoneEmpty(lists)
    requires TransmissionsFiled(index.keys, index.groups, lists)
    requires |locations| == |withForecasts|
    requires forall p :: 0 <= p < |withForecasts| ==>
      locations[p] == (if withForecasts[p].id in index.keys && IsOwner(LocationIds(withForecasts), p)
                       then withForecasts[p].(transmissions := Some(index.groups[withForecasts[p].id]))
                       else withForecasts[p])
    ensures Aggregated(fetched, fetchMostRecentTransmission, batch, fetchRecentForecasts, lists, locations)
  {
    forall p | 0 <= p < |fetched|
      ensures locations[p].transmissions
           == (if IsOwner(LocationIds(fetched), p) && fetched[p].id in HeadIds(lists)
               then Some(SortByTime(lists[LastIndexOf(HeadIds(lists), fetched[p].id).value]))
               else fetched[p].transmissions)
    {
      assert withForecasts[p].id == fetched[p].id;
    }
  }

  /**
   * `main(customer_id)` with its two defects corrected: the grouping loop is
   * `GroupAll`, which keeps every record, and the transmission attach looks
   * locations up by ID. `fetched` is what `get_locations` returned; the
   * functions stand for the other queries and `clock` for `datetime.utcnow()`.
   * The ghost results expose what the forecast and transmission fetches were
   * asked and returned. The run succeeds exactly when every forecast key is a
   * location ID with a non-empty second forecast fetch, and every transmission
   * list is non-empty with its first element's location among the IDs; then
   * every location keeps its ID, gets its most recent transmission, and only
   * the first location with a given ID receives all of that ID's forecasts,
   * sorted, its most recent forecast, and the sorted last transmission list
   * filed under it.
   */
  method Run(
    fetched: seq<Location>,
    fetchMostRecentTransmission: int -> seq<Transmission>,
    fetchForecasts: map<string, Location> -> seq<Forecast>,
    fetchRecentForecasts: int -> seq<Forecast>,
    fetchTransmissions: TransmissionRequest -> seq<Transmission>,
    clock: nat -> int)
    returns (
      r: Result<seq<Location>>,
      ghost forecastRequest: map<string, Location>,
      ghost forecastBatch: seq<Forecast>,
      ghost transmissionLists: seq<seq<Transmission>>)
    ensures |forecastRequest| == |fetched|
    ensures forall p :: 0 <= p < |fetched| ==>
      && ParamKey(p) in forecastRequest
      && forecastRequest[ParamKey(p)] == WithMostRecentTransmission(fetched[p], fetchMostRecentTransmission)
    ensures forecastBatch == fetchForecasts(forecastRequest)
    ensures r.Ok? ==> |transmissionLists| == |fetched| && forall p :: 0 <= p < |fetched| ==>
      transmissionLists[p] == fetchTransmissions(TransmissionRequests(LocationIds(fetched), clock)[p])
    ensures r.Ok? <==>
      && ForecastsAccepted(LocationIds(fetched), forecastBatch, fetchRecentForecasts)
      && |transmissionLists| == |fetched|
      && (forall p :: 0 <= p < |transmissionLists| ==>
            |transmissionLists[p]| > 0 && transmissionLists[p][0].locationId in LocationIds(fetched))
    ensures r.Err? ==> r.error == ValueError || r.error == IndexError
    ensures r.Ok? ==> NoneEmpty(transmissionLists)
    ensures r.Ok? ==> Aggregated(fetched, fetchMostRecentTransmission, forecastBatch, fetchRecentForecasts,
                                 transmissionLists, r.value)
  {
    var ids := LocationIds(fetched);
    var locations := AttachMostRecentTransmissions(fetched, fetchMostRecentTransmission);
    assert LocationIds(locations) == ids;
    ghost var withTransmission := locations;

    // get_forecasts(locations): the request carries the location rows, not their IDs.
    var request := ForecastParams(locations);
    var batch := fetchForecasts(request);
    forecastRequest, forecastBatch, transmissionLists := request, batch, [];
    assert forall p :: 0 <= p < |fetched| ==>
      && ParamKey(p) in forecastRequest
      && forecastRequest[ParamKey(p)] == WithMostRecentTransmission(fetched[p], fetchMostRecentTransmission);

    var forecastIndex := GroupAll(batch);
    var withForecasts := AttachForecasts(locations, forecastIndex, fetchRecentForecasts);
    if withForecasts.Err? {
      r := Err(withForecasts.error);
      return;
    }
    locations := withForecasts.value;
    ForecastStage(fetched, fetchMostRecentTransmission, batch, fetchRecentForecasts,
                  withTransmission, forecastIndex, locations);

    var requests := TransmissionRequests(LocationIds(locations), clock);
    assert requests == TransmissionRequests(ids, clock);
    var lists := seq(|requests|, i requires 0 <= i < |requests| => fetchTransmissions(requests[i]));
    assert |lists| == |fetched| && forall p :: 0 <= p < |fetched| ==>
      lists[p] == fetchTransmissions(TransmissionRequests(ids, clock)[p]);
    transmissionLists := lists;

    var transmissionIndex := BuildTransmissionIndex(lists);
    if transmissionIndex.Err? {
      r := Err(transmissionIndex.error);
      return;
    }
    r := AttachTransmissions(locations, transmissionIndex.value);
    ghost var index := transmissionIndex.value;
    TransmissionKeysKnown(lists, index.keys, index.groups, ids);
    if r.Ok? {
      TransmissionStage(fetched, fetchMostRecentTransmission, batch, fetchRecentForecasts,
                        locations, lists, index, r.value);
    }
  }
}
