/**
 * The two defective steps of `main` beside their corrected versions: the
 * grouping loop of refactor.py:83-90 and the attach of refactor.py:115-117.
 */
module Findings {
  import opened Records
  import opened Grouping
  import opened Aggregation

  /**
   * The grouping loop as written beside the corrected one on the same
   * forecasts: the same keys, each as-written group is the corrected group
   * without its first record, and as soon as there is any forecast the
   * as-written dictionary holds fewer records than were fetched.
   */
  method GroupingComparison(forecasts: seq<Forecast>) returns (asWritten: Index, corrected: Index)
    ensures WellFormed(asWritten) && WellFormed(corrected)
    ensures asWritten.keys == corrected.keys
    ensures forall k :: k in corrected.groups <==> k in asWritten.groups
    ensures forall k :: k in corrected.groups ==>
      |corrected.groups[k]| > 0 && asWritten.groups[k] == corrected.groups[k][1..]
    ensures TotalSize(corrected.keys, corrected.groups) == |forecasts|
    ensures |forecasts| > 0 ==> TotalSize(asWritten.keys, asWritten.groups) < |forecasts|
  {
    asWritten := GroupForecasts(forecasts);
    corrected := GroupAll(forecasts);
    if |forecasts| > 0 {
      assert RecordIds(forecasts)[0] in Distinct(RecordIds(forecasts));
    }
  }

  /**
   * One location with ID 7 and one list of its transmissions filed under 7.
   * As written, line 117 raises TypeError; looking the location up by ID
   * attaches the list to it.
   */
  method DoubleIndexExample() returns (asWritten: Result<seq<Location>>, corrected: Result<seq<Location>>)
    ensures asWritten == Err(TypeError)
    ensures corrected == Ok([Location(7, None, None, None, Some([Record(1, 7, 0)]))])
  {
    var location := Location(7, None, None, None, None);
    var index := Index([7], map[7 := [Record(1, 7, 0)]]);
    assert LocationIds([location]) == [7];
    asWritten := AttachTransmissionsAsWritten([location], index);
    corrected := AttachTransmissions([location], index);
    assert IsOwner(LocationIds([location]), 0);
    assert corrected.Ok?;
    assert corrected.value == [corrected.value[0]];
  }
}
