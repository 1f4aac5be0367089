# Location aggregation of refactor.py

`refactor.py` builds, for one customer, the list of monitoring locations
with their telemetry and forecasts attached. `main(customer_id)` runs in
these steps:

- it fetches the customer's locations;
- it gives every location its most recent transmission;
- it fetches all the locations' forecasts in one batched query and files the
  batch in a dictionary keyed by `location_id`. As written (lines 85-86), the
  first forecast of each location only creates an empty list and is never
  added to it, so every location loses one forecast;
- for each dictionary key it sorts the list, gives it to the first location
  with that ID, and sets that location's most recent forecast from a second
  query by ID;
- it fetches for every location the transmissions of a trailing two-day
  window and files each list, sorted, in a dictionary under the
  `location_id` of its first element;
- it then means to give each filed list to the location with that ID. As
  written (line 117), it subscripts the list of locations with a location
  row, which raises TypeError, so no list is ever attached.

`Aggregation.Run` is `main` with those two defects corrected; the as-written
steps are modelled beside it (see "## Findings").

The model has six modules:

- `Records`: the rows, the Python exceptions the core raises, and the list
  helpers the contracts use (`list.index`, the key order of a dictionary,
  the records filed under one location).
- `Recency`: the stable sort by `DateTimeUTC` and `get_most_recent_forecasts`.
- `Grouping`: the forecast grouping loop, as written and corrected.
- `Requests`: the `Location{i}` parameter dictionary of `get_forecasts` and
  the per-location transmission windows.
- `Aggregation`: the attach loops, the transmission index and `main` itself (`Run`).
- `Findings`: the two defects, each exhibited next to its correction.

A location row is a value. The loops of `main` update the list of rows by
position, as the source updates the row objects it holds only in that list.
Every database query is a function parameter of `Run`. `datetime.utcnow()`
is a clock parameter indexed by call number. A Python exception is an `Err`
result naming it.

Some behaviour of the code worth knowing, which the model keeps:

- `get_most_recent_forecasts` sorts stably and takes `[-1]`, so of several
  records with the latest time it returns the *last* one in input order, and
  on an empty list it raises IndexError (`Recency.MostRecent`).
- the most recent forecast does not come from the batch already fetched: line
  96 issues a second query by location ID (`fetchRecentForecasts`).
- a forecast or transmission list whose `location_id` is no location's ID
  makes `.index` raise ValueError, which ends the whole run.

## Model

| member | source | states |
|---|---|---|
| `Records.IndexOf` | refactor.py:94 | `list.index`: a position exactly when the value is in the list; the position holds the value and no earlier one does |
| `Records.LastIndexOf` | refactor.py:110-114 | the last position holding a value, exactly when it is present: the list a repeatedly assigned dictionary key ends up with |
| `Records.Distinct` | refactor.py:83-86 | the key order of a dictionary filled from a list: the same values as the list, each once |
| `Records.RecordsOf` | refactor.py:84-90 | the records of one location: all carry that location and come from the input; the list is empty exactly when no record carries that location |
| `Records.RecordsOfAppend` | refactor.py:88-90 | one more record joins its own location's records at the end and changes no other location's |
| `Records.DistinctSnoc` | refactor.py:85-86 | inserting a key into a dictionary puts a new key last and leaves the order alone for a known key |
| `Records.LastIndexOfSnoc` | refactor.py:112 | after one more assignment, a key's last position is the new one if it is that key, the old one otherwise |
| `Recency.InsertByTime` | refactor.py:71 | inserting into a list sorted by time keeps it sorted, adds exactly that record, and puts it first only if it is strictly earliest |
| `Recency.InsertByTimeAtTime` | refactor.py:93 | inserting a record puts it after every record of its own time already in the list |
| `Recency.SortByTime` | refactor.py:93 | `sort` by `DateTimeUTC`: sorted, and a permutation of the input |
| `Recency.SortByTimeStable` | refactor.py:93 | the sort is stable: for every time, the records carrying it keep their input order |
| `Recency.InsertByTimeLast` | refactor.py:71 | after insertion the last element is the new record when it is at least as late as the old last one |
| `Recency.SortByTimeSnocLast` | refactor.py:71-73 | sorting one more record keeps the last element the last record, in input order, with the latest time |
| `Recency.SortByTimeLast` | refactor.py:71-73 | the last element of the stable sort is the last record, in input order, carrying the latest time |
| `Recency.LastLatestUnique` | refactor.py:71-73 | only one position is the last one with the latest time, so the selected record is determined |
| `Recency.MostRecent` | refactor.py:70-73 | `get_most_recent_forecasts`: IndexError exactly on an empty list, otherwise the last record with the latest time |
| `Recency.MostRecentSingleton` | refactor.py:70-73 | a one-element list yields its element |
| `Grouping.GroupForecasts` | refactor.py:83-90 | the grouping loop as written: keys in first-seen order; every location loses its first record; the dictionary holds one record fewer than the input per location |
| `Grouping.GroupedExceptFirstStep` | refactor.py:84-90 | one pass of the as-written loop keeps every seen location holding its records but the first |
| `Grouping.DistinctAppend` | refactor.py:85-86 | one more forecast adds its location to the key order only if the location is new |
| `Grouping.GroupAll` | refactor.py:83-90 | the grouping loop with both branches appending: every location holds all its records in input order, and the dictionary holds exactly the input's records |
| `Grouping.GroupedAllStep` | refactor.py:84-90 | one pass of the corrected loop keeps every seen location holding all its records |
| `Grouping.TotalSizeKept` | refactor.py:84-90 | entries equal to the filtered records add up to the sizes of the filtered records |
| `Grouping.TotalSizeDropped` | refactor.py:85-90 | entries missing their first record add up to one less per key |
| `Grouping.GroupSizesAppend` | refactor.py:84-90 | one more record adds one to the count under its own location and nothing under any other |
| `Grouping.GroupingTotality` | refactor.py:83-90 | the records of the distinct locations of a list add up to its length: none lost, none counted twice |
| `Requests.NatToString` | refactor.py:55 | `str(i)` of a position: at least one digit, a single digit exactly below ten |
| `Requests.NatToStringInjective` | refactor.py:55 | different positions print differently |
| `Requests.ParamKeyInjective` | refactor.py:55 | `Location{i}` names different positions differently |
| `Requests.ParamKeysDistinct` | refactor.py:55 | no two positions share a `Location{i}` name |
| `Requests.ForecastParams` | refactor.py:55 | the parameter dictionary holds the i-th element under `Location{i}`, no name for a position past the end, and one entry per element |
| `Requests.ForecastParamsKey` | refactor.py:52-56 | every parameter name is `Location{i}` for some position of the list |
| `Requests.TransmissionRequests` | refactor.py:100-109 | one request per location in location order, for that location's ID, whose window is two days plus the time between its two clock reads |
| `Requests.TransmissionWindow` | refactor.py:104-105 | with a clock that never goes back, a window spans at least two days, and exactly two days when both reads agree |
| `Requests.FixedNowWindow` | refactor.py:102-106 | with a fixed `now`, every request covers `now - 2 days` to `now` |
| `Aggregation.AttachMostRecentTransmissions` | refactor.py:78-79 | every location gets the most recent transmission fetched for its own ID, and nothing else changes |
| `Aggregation.FirstForecastFailure` | refactor.py:92-98 | no error exactly when every key names a location and has a non-empty second fetch; an error is ValueError or IndexError |
| `Aggregation.ForecastTarget` | refactor.py:94-98 | attaching forecasts keeps a location's ID |
| `Aggregation.KeysReadyStep` | refactor.py:94-96 | a key that names a location and has a non-empty fetch keeps the keys so far attachable |
| `Aggregation.ForecastTargetStep` | refactor.py:94-95 | attaching a key changes the first location with that ID and no other |
| `Aggregation.ForecastAttachStep` | refactor.py:92-98 | one pass of the attach loop updates the key's first owner only |
| `Aggregation.ForecastFailureStep` | refactor.py:92-98 | the first failure from a key on is that key's own, or else the first one after it |
| `Aggregation.AttachForecastKey` | refactor.py:93-98 | one key: ValueError when no location has its ID, IndexError when the second fetch is empty; otherwise only the key's first owner gets the sorted group and the most recent forecast |
| `Aggregation.AttachForecasts` | refactor.py:92-98 | the loop over the forecast dictionary: it fails exactly with the first failing key's error; otherwise each key's first owner, and no one else, is updated |
| `Aggregation.HeadIdsSnoc` | refactor.py:111-112 | one more non-empty list adds its first element's location to the head IDs |
| `Aggregation.TransmissionsFiledStep` | refactor.py:111-114 | one filing pass puts a new key last and replaces the key's entry with the sorted list |
| `Aggregation.TransmissionsFiledPrefix` | refactor.py:111-114 | the filing pass over successive prefixes of the lists |
| `Aggregation.BuildTransmissionIndex` | refactor.py:110-114 | IndexError exactly when a list is empty; otherwise every key holds the sorted last list whose first element carries it |
| `Aggregation.AttachTransmissions` | refactor.py:115-117 | ValueError exactly when some key is no location's ID; otherwise only the first location with each key gets that key's list |
| `Aggregation.ResolveSubscript` | refactor.py:117 | a Python list subscript: an integer in range selects its position, counted from the end when negative; out of range is IndexError; a location row is TypeError |
| `Aggregation.SetTransmissionsAt` | refactor.py:117 | `locations[s].Transmissions = ...`: fails exactly when the subscript does, with its error; otherwise only the selected location changes |
| `Aggregation.AttachTransmissionsAsWritten` | refactor.py:115-117 | the loop as written: the first key raises, ValueError when no location has its ID and TypeError when one does, so only an empty dictionary succeeds, with the locations unchanged |
| `Aggregation.ForecastStage` | refactor.py:76-98 | the first two stages give every location its ID and most recent transmission, and each ID's first owner all its batch forecasts, sorted, and its most recent forecast |
| `Aggregation.TransmissionKeysKnown` | refactor.py:115-116 | every key names a location exactly when every list's first element does |
| `Aggregation.TransmissionStage` | refactor.py:100-117 | the transmission stage adds to each ID's first owner the sorted last list headed by that ID |
| `Aggregation.Run` | refactor.py:76-118 | `main` with both defects corrected: the forecast request holds every location under `Location{i}`; the run succeeds exactly when every forecast key is a location with a non-empty second fetch and every transmission list is non-empty and headed by a known location; it then returns the fully aggregated locations |
| `Findings.GroupingComparison` | refactor.py:83-90 | on any input, the as-written loop holds each location's corrected group minus its first record; so a non-empty input loses records, while the corrected loop keeps all of them |
| `Findings.DoubleIndexExample` | refactor.py:115-117 | one location with ID 7 and one list filed under 7: TypeError as written, the list attached when corrected |

## Left out

- The database layer is left out: the pyodbc connection, the cursor, the SQL text, `execute` and `bind`. Each query is a function parameter of `Run`, and `fetched` is what `get_locations` returned.
- The Pydantic models become datatypes with only the fields the core reads. The copy `Forecast(**forecast.__dict__)` is the identity.
- `datetime` values are integer seconds, `relativedelta(days=2)` is 172800 seconds, and `utcnow()` is a clock parameter indexed by call.
- `get_most_recent_transmission`'s query is a parameter. Its result is assigned as fetched.
- Object aliasing is not modelled. Location rows are values, and the model does not keep the dictionary's lists, which line 93 sorts in place under their keys.
- `sorted(x, "DateTimeUTC")` and `x.sort("DateTimeUTC")` are read as stable sorts keyed on `DateTimeUTC` (`Recency.SortByTimeStable`). Python's `sorted` and `list.sort` take the key only as a keyword, so these calls as written raise TypeError.
- Line 81 passes location rows where the annotation of `get_forecasts` says `List[str]`. The model passes the rows, as written.
- When a run raises, the model returns only the exception. The updates made to the rows before it are discarded.
- Aggregation.Run: on failure it states only that the error is ValueError or IndexError, not which stage raised it. The staged methods it calls give the exact error.
- Aggregation.Run composes the corrected grouping and the corrected transmission attach. `main` as written, with any transmission list filed, raises TypeError at line 117 (`Aggregation.AttachTransmissionsAsWritten`).

## Findings

| source | as written | input that shows it | evidently intended | confidence | as-written member | corrected member |
|---|---|---|---|---|---|---|
| refactor.py:85-90 | the first forecast of a location only creates an empty list and is never appended | any non-empty batch, e.g. one forecast for one location gives an empty group (`Findings.GroupingComparison`) | every forecast appended to its location's list | not executed | `Grouping.GroupForecasts` | `Grouping.GroupAll` |
| refactor.py:117 | `locations[locations[idx]]` indexes the list with a location row and raises TypeError | one location with ID 7 and one transmission list for it (`Findings.DoubleIndexExample`) | `locations[idx].Transmissions = transmissions` | not executed | `Aggregation.AttachTransmissionsAsWritten` | `Aggregation.AttachTransmissions` |
