/**
 * The query parameters the aggregation builds: the `Location{i}` dictionary
 * of `get_forecasts` (refactor.py:55) and the per-location transmission
 * window of `main` (refactor.py:100-109).
 */
module Requests {
  import opened Records

  /** The decimal digit `d`. */
  function DigitChar(d: nat): char
    requires d < 10
  {
    ('0' as int + d) as char
  }

  /** `str(n)`: decimal digits, most significant first, no leading zeros. */
  function NatToString(n: nat): (s: string)
    ensures |s| >= 1
    ensures |s| == 1 <==> n < 10
    decreases n
  {
    if n < 10 then [DigitChar(n)] else NatToString(n / 10) + [DigitChar(n % 10)]
  }

  /** Different numbers print differently. */
  lemma {:induction false} NatToStringInjective(a: nat, b: nat)
    requires NatToString(a) == NatToString(b)
    ensures a == b
    decreases a
  {
    if a >= 10 && b >= 10 {
      var sa, sb := NatToString(a), NatToString(b);
      assert sa[|sa| - 1] == sb[|sb| - 1];
      assert NatToString(a / 10) == sa[..|sa| - 1] == sb[..|sb| - 1] == NatToString(b / 10);
      NatToStringInjective(a / 10, b / 10);
    }
  }

  /** `f"Location{i}"` */
  function ParamKey(i: nat): string
  {
    "Location" + NatToString(i)
  }

  /** Different positions get different parameter names. */
  lemma ParamKeyInjective(i: nat, j: nat)
    requires ParamKey(i) == ParamKey(j)
    ensures i == j
  {
    assert ParamKey(i)[8..] == NatToString(i);
    assert ParamKey(j)[8..] == NatToString(j);
    NatToStringInjective(i, j);
  }

  /** Parameter names of all positions are pairwise different. */
  lemma ParamKeysDistinct()
    ensures forall i: nat, j: nat :: ParamKey(i) == ParamKey(j) ==> i == j
  {
    forall i: nat, j: nat | ParamKey(i) == ParamKey(j) ensures i == j {
      ParamKeyInjective(i, j);
    }
  }

  /**
   * `{f"Location{i}": x for i, x in enumerate(params)}`: the i-th element under
   * `Location{i}`, one entry per element and no other names. The comprehension
   * inserts the entries in list order. The forecast fetch hands it the
   * location rows themselves, so the values are whatever the caller passes.
   */
  function ForecastParams<T>(params: seq<T>): (m: map<string, T>)
    ensures forall i :: 0 <= i < |params| ==> ParamKey(i) in m && m[ParamKey(i)] == params[i]
    ensures forall j: nat :: j >= |params| ==> ParamKey(j) !in m
    ensures |m| == |params|
  {
    if |params| == 0 then map[]
    else
      var n := |params| - 1;
      ParamKeysDistinct();
      ForecastParams(params[..n])[ParamKey(n) := params[n]]
  }

  /** Every parameter name is `Location{i}` for a position `i` of the list. */
  lemma {:induction false} ForecastParamsKey<T>(params: seq<T>, key: string)
    requires key in ForecastParams(params)
    ensures exists i :: 0 <= i < |params| && key == ParamKey(i)
  {
    var n := |params| - 1;
    if key != ParamKey(n) {
      ForecastParamsKey(params[..n], key);
      var i :| 0 <= i < n && key == ParamKey(i);
      assert 0 <= i < |params| && key == ParamKey(i);
    }
  }

  /** Seconds in `relativedelta(days=2)`. */
  const TWO_DAYS: int := 2 * 24 * 60 * 60

  /** The parameters of one `get_transmissions` call. */
  datatype TransmissionRequest = TransmissionRequest(locationId: int, start: int, end: int)

  /**
   * One request per location, in location order. `clock(c)` is the time the
   * c-th call of `datetime.utcnow()` returns: each request reads the clock
   * twice, first for `Start`, then for `End`.
   */
  function TransmissionRequests(ids: seq<int>, clock: nat -> int): (reqs: seq<TransmissionRequest>)
    ensures |reqs| == |ids|
    ensures forall i :: 0 <= i < |ids| ==> reqs[i].locationId == ids[i]
    ensures forall i :: 0 <= i < |ids| ==>
      reqs[i].end - reqs[i].start == TWO_DAYS + (clock(2 * i + 1) - clock(2 * i))
  {
    seq(|ids|, i requires 0 <= i < |ids| =>
      TransmissionRequest(ids[i], clock(2 * i) - TWO_DAYS, clock(2 * i + 1)))
  }

  /**
   * With a clock that never runs backwards every window spans at least two
   * days, and exactly two days when both reads return the same instant.
   */
  lemma TransmissionWindow(ids: seq<int>, clock: nat -> int, i: nat)
    requires forall a: nat, b: nat :: a <= b ==> clock(a) <= clock(b)
    requires i < |ids|
    ensures var r := TransmissionRequests(ids, clock)[i];
      r.end - r.start >= TWO_DAYS
      && (r.end - r.start == TWO_DAYS <==> clock(2 * i) == clock(2 * i + 1))
  {
    assert clock(2 * i) <= clock(2 * i + 1);
  }

  /** With one fixed `now`, every request covers `now - 2 days` to `now`. */
  lemma FixedNowWindow(ids: seq<int>, now: int, i: nat)
    requires i < |ids|
    ensures TransmissionRequests(ids, (_: nat) => now)[i] == TransmissionRequest(ids[i], now - TWO_DAYS, now)
  {
  }
}
