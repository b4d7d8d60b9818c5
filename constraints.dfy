/**
 * The constraint accumulator and the limiter chains that narrow it.
 *
 * A constraint holds a value, the value it started from, a log of reasons and
 * the "most limiting" reasons. Limiters narrow the value in place: a bound
 * below the current value replaces the value and becomes the sole most-limiting
 * reason; a bound below the ORIGINAL value is logged even when a tighter one
 * already applied. Integer constraints (percent, carbs) carry integral values.
 */
module Constraints {
  import PluginBase

  /** The plugin a reason comes from (its class name without "Plugin"). */
  datatype Source = Safety | OpenAPSSMB | OpenAPSAMA | DanaRS

  /** What a limiting message speaks of (U/h, %, U of bolus, g, U of IOB). */
  datatype Quantity = BasalRate | PercentRate | Bolus | Carbs | Iob

  datatype Cause =
    | HardLimit | MustBePositive | PumpLimit | MaxValueInPreferences
    | MaxBasalMultiplier | MaxDailyBasalMultiplier | LowGlucoseSuspend

  /** A reason's message: a limit applied, or the percent-to-absolute recalculation note. */
  datatype Message =
    | Limiting(quantity: Quantity, limit: real, cause: Cause)
    | Recalculated(percent: real, absolute: real, currentBasal: real)

  datatype Reason = Reason(from: Source, message: Message)

  /** `Double.MAX_VALUE`, exactly. */
  const DOUBLE_MAX: real := 179769313486231570814527423731704356798070567525844996598917476803157260780028538760589558632766878171540458953514382464234321326889464182768467546703537516986049910576551282076245490090389328944075868508455133942304583236903222948165808559332123348274797826204144723168738177180919299881250404026184124858368.0
  /** `Int.MAX_VALUE`. */
  const INT_MAX: int := 2147483647
  const INT_MIN: int := -2147483648
  /** `HardLimits.MAX_IOB_LGS`. */
  const MAX_IOB_LGS: real := 0.0

  /** The observable state of a constraint. */
  datatype CState = CState(value: real, originalValue: real, reasons: seq<Reason>, mostLimiting: seq<Reason>)

  function Min(a: real, b: real): real
  {
    if a <= b then a else b
  }

  /* ---------------- the accumulator's steps, as functions of its state ---------------- */

  /** `setIfSmaller(v, reason)`. */
  function IfSmaller(s: CState, v: real, r: Reason): (t: CState)
    ensures t.value == Min(s.value, v) && t.originalValue == s.originalValue
    ensures t.mostLimiting == if v < s.value then [r] else s.mostLimiting
    ensures t.reasons == if v < s.originalValue then s.reasons + [r] else s.reasons
  {
    var narrowed := if v < s.value then s.(value := v, mostLimiting := [r]) else s;
    if v < s.originalValue then narrowed.(reasons := narrowed.reasons + [r]) else narrowed
  }

  /** `setIfGreater(v, reason)`, the mirror image. */
  function IfGreater(s: CState, v: real, r: Reason): (t: CState)
    ensures t.value == (if v > s.value then v else s.value) && t.originalValue == s.originalValue
    ensures t.mostLimiting == if v > s.value then [r] else s.mostLimiting
    ensures t.reasons == if v > s.originalValue then s.reasons + [r] else s.reasons
  {
    var widened := if v > s.value then s.(value := v, mostLimiting := [r]) else s;
    if v > s.originalValue then widened.(reasons := widened.reasons + [r]) else widened
  }

  /** `setIfDifferent(v, reason)`: a different value is taken, logged and appended to the most-limiting list. */
  function IfDifferent(s: CState, v: real, r: Reason): (t: CState)
    ensures t.value == v && t.originalValue == s.originalValue
    ensures t.reasons == if v != s.value then s.reasons + [r] else s.reasons
    ensures t.mostLimiting == if v != s.value then s.mostLimiting + [r] else s.mostLimiting
  {
    if v != s.value then s.(value := v, reasons := s.reasons + [r], mostLimiting := s.mostLimiting + [r]) else s
  }

  /* ---------------- a chain of upper bounds ---------------- */

  datatype Bound = Bound(limit: real, reason: Reason)

  /** Applying `setIfSmaller` with each bound in turn. */
  function NarrowAll(s: CState, bs: seq<Bound>): CState
    decreases |bs|
  {
    if bs == [] then s else NarrowAll(IfSmaller(s, bs[0].limit, bs[0].reason), bs[1..])
  }

  /** A chain of two or three bounds is the nested application of `setIfSmaller`. */
  lemma NarrowAllUnfolds(s: CState, b1: Bound, b2: Bound, b3: Bound)
    ensures NarrowAll(s, [b1, b2]) == IfSmaller(IfSmaller(s, b1.limit, b1.reason), b2.limit, b2.reason)
    ensures NarrowAll(s, [b1, b2, b3]) ==
              IfSmaller(IfSmaller(IfSmaller(s, b1.limit, b1.reason), b2.limit, b2.reason), b3.limit, b3.reason)
  {
    var s1 := IfSmaller(s, b1.limit, b1.reason);
    var s2 := IfSmaller(s1, b2.limit, b2.reason);
    assert [b1, b2][1..] == [b2] && [b2][1..] == [];
    assert NarrowAll(s1, [b2]) == NarrowAll(s2, []);
    assert [b1, b2, b3][1..] == [b2, b3] && [b2, b3][1..] == [b3] && [b3][1..] == [];
    assert NarrowAll(s2, [b3]) == NarrowAll(IfSmaller(s2, b3.limit, b3.reason), []);
    assert NarrowAll(s1, [b2, b3]) == NarrowAll(s2, [b3]);
  }

  /** The reasons of the bounds that lie below `original`, in order. */
  function BelowOriginal(original: real, bs: seq<Bound>): seq<Reason>
  {
    if bs == [] then []
    else (if bs[0].limit < original then [bs[0].reason] else []) + BelowOriginal(original, bs[1..])
  }

  /**
   * After a chain of upper bounds the value is the tightest of the start value
   * and all bounds, the original value is kept, and the log gains exactly the
   * bounds below the original, in application order, looser ones included.
   */
  lemma {:induction false} NarrowAllValueAndLog(s: CState, bs: seq<Bound>)
    decreases |bs|
    ensures var t := NarrowAll(s, bs);
            t.value <= s.value && (forall k :: 0 <= k < |bs| ==> t.value <= bs[k].limit) &&
            (t.value == s.value || exists k :: 0 <= k < |bs| && t.value == bs[k].limit) &&
            t.originalValue == s.originalValue &&
            t.reasons == s.reasons + BelowOriginal(s.originalValue, bs)
  {
    if bs != [] {
      var s1 := IfSmaller(s, bs[0].limit, bs[0].reason);
      NarrowAllValueAndLog(s1, bs[1..]);
      var t := NarrowAll(s, bs);
      assert t == NarrowAll(s1, bs[1..]);
      forall k | 0 <= k < |bs| ensures t.value <= bs[k].limit {
        if k > 0 { assert bs[1..][k - 1] == bs[k]; }
      }
      if t.value != s.value && t.value != s1.value {
        var k :| 0 <= k < |bs[1..]| && t.value == bs[1..][k].limit;
        assert t.value == bs[k + 1].limit;
      }
    }
  }

  /**
   * The most-limiting reason after a chain is that of the FIRST bound that
   * reaches the final value, when the chain lowered the value at all;
   * otherwise it is unchanged.
   */
  lemma {:induction false} NarrowAllMostLimiting(s: CState, bs: seq<Bound>)
    decreases |bs|
    ensures var t := NarrowAll(s, bs);
            (t.value == s.value ==> t.mostLimiting == s.mostLimiting) &&
            (t.value < s.value ==> exists k :: 0 <= k < |bs| && bs[k].limit == t.value &&
                                    t.mostLimiting == [bs[k].reason] &&
                                    forall j :: 0 <= j < k ==> bs[j].limit > t.value)
  {
    if bs != [] {
      var s1 := IfSmaller(s, bs[0].limit, bs[0].reason);
      NarrowAllMostLimiting(s1, bs[1..]);
      NarrowAllValueAndLog(s1, bs[1..]);
      var t := NarrowAll(s, bs);
      assert t == NarrowAll(s1, bs[1..]);
      if t.value < s.value {
        if t.value == s1.value {
          assert bs[0].limit == t.value && t.mostLimiting == [bs[0].reason];
        } else {
          var k :| 0 <= k < |bs[1..]| && bs[1..][k].limit == t.value &&
                   t.mostLimiting == [bs[1..][k].reason] &&
                   forall j :: 0 <= j < k ==> bs[1..][j].limit > t.value;
          assert bs[0].limit > t.value;
          forall j | 0 <= j < k + 1 ensures bs[j].limit > t.value {
            if j > 0 { assert bs[j] == bs[1..][j - 1]; }
          }
          assert bs[k + 1] == bs[1..][k];
        }
      }
    }
  }

  /* ---------------- the accumulator object ---------------- */

  /** `ConstraintObject`: updated in place by the limiters. */
  class Constraint {
    var value: real
    var originalValue: real
    var reasons: seq<Reason>
    var mostLimiting: seq<Reason>

    constructor (v: real)
      ensures value == v && originalValue == v && reasons == [] && mostLimiting == []
    {
      value, originalValue, reasons, mostLimiting := v, v, [], [];
    }

    function State(): CState
      reads this
    {
      CState(value, originalValue, reasons, mostLimiting)
    }

    method SetIfSmaller(v: real, r: Reason)
      modifies this
      ensures State() == IfSmaller(old(State()), v, r)
    {
      if v < value {
        value := v;
        mostLimiting := [r];
      }
      if v < originalValue {
        reasons := reasons + [r];
      }
    }

    method SetIfGreater(v: real, r: Reason)
      modifies this
      ensures State() == IfGreater(old(State()), v, r)
    {
      if v > value {
        value := v;
        mostLimiting := [r];
      }
      if v > originalValue {
        reasons := reasons + [r];
      }
    }

    method SetIfDifferent(v: real, r: Reason)
      modifies this
      ensures State() == IfDifferent(old(State()), v, r)
    {
      if value != v {
        value := v;
        reasons := reasons + [r];
        mostLimiting := mostLimiting + [r];
      }
    }

    /** `addReason`: logs without touching the value or the most-limiting list. */
    method AddReason(r: Reason)
      modifies this
      ensures State() == old(State()).(reasons := old(reasons) + [r])
    {
      reasons := reasons + [r];
    }

    /** `copyReasons(another)`: appends the other constraint's log. */
    method CopyReasons(another: Constraint)
      requires another != this
      modifies this
      ensures State() == old(State()).(reasons := old(reasons) + another.reasons)
    {
      reasons := reasons + another.reasons;
    }
  }

  /** `Double.toInt()`: truncation toward zero, saturating at the Int range. */
  function DoubleToInt(x: real): (n: int)
    ensures INT_MIN <= n <= INT_MAX
    ensures 0.0 <= x <= INT_MAX as real ==> n as real <= x < n as real + 1.0
    ensures INT_MIN as real <= x < 0.0 ==> n as real - 1.0 < x <= n as real
    ensures x > INT_MAX as real ==> n == INT_MAX
    ensures x < INT_MIN as real ==> n == INT_MIN
  {
    var t := if x >= 0.0 then x.Floor else -((-x).Floor);
    if t > INT_MAX then INT_MAX else if t < INT_MIN then INT_MIN else t
  }

  /* ---------------- limiters ---------------- */

  /** A percent of the current basal, in U/h. */
  function PercentToAbsolute(currentBasal: real, percent: real): real
  {
    currentBasal * (percent / 100.0)
  }

  /** A rate in U/h as a percent of the current basal. */
  function AbsoluteToPercent(absolute: real, currentBasal: real): real
    requires currentBasal > 0.0
  {
    absolute / currentBasal * 100.0
  }

  /** The state SafetyPlugin `applyBasalConstraints` leaves behind. */
  function SafetyBasal(s: CState, hardMaxBasal: real): CState
  {
    IfSmaller(IfGreater(s, 0.0, Reason(Safety, Limiting(BasalRate, 0.0, MustBePositive))),
              hardMaxBasal, Reason(Safety, Limiting(BasalRate, hardMaxBasal, HardLimit)))
  }

  /** The state SafetyPlugin `applyBasalPercentConstraints` leaves behind. */
  function SafetyBasalPercent(s: CState, currentBasal: real, hardMaxBasal: real, pumpMaxPercent: int): CState
    requires currentBasal > 0.0
  {
    var absoluteRate := PercentToAbsolute(currentBasal, s.originalValue);
    var noted := s.(reasons := s.reasons + [Reason(Safety, Recalculated(s.originalValue, absoluteRate, currentBasal))]);
    var absolute := SafetyBasal(CState(absoluteRate, absoluteRate, [], []), hardMaxBasal);
    var copied := noted.(reasons := noted.reasons + absolute.reasons);
    var percent := DoubleToInt(AbsoluteToPercent(absolute.value, currentBasal)) as real;
    IfSmaller(IfDifferent(copied, percent, Reason(Safety, Limiting(PercentRate, percent, PumpLimit))),
              pumpMaxPercent as real, Reason(Safety, Limiting(BasalRate, pumpMaxPercent as real, PumpLimit)))
  }

  /**
   * The percent limiter never exceeds the pump's maximum, and within it the
   * result is the percent equivalent (truncated) of the safety-limited
   * absolute rate. The log gains the recalculation note, the absolute
   * limiter's reasons, the percent entry when the percent changed and the
   * pump entry when the pump maximum is below the requested percent; the
   * most-limiting reason is the pump entry when the pump maximum applied,
   * otherwise the percent entry is appended when the percent changed.
   */
  lemma SafetyBasalPercentBounds(s: CState, currentBasal: real, hardMaxBasal: real, pumpMaxPercent: int)
    requires currentBasal > 0.0 && hardMaxBasal >= 0.0 && pumpMaxPercent >= 0
    requires hardMaxBasal / currentBasal * 100.0 <= INT_MAX as real
    ensures var t := SafetyBasalPercent(s, currentBasal, hardMaxBasal, pumpMaxPercent);
            0.0 <= t.value <= pumpMaxPercent as real &&
            t.value <= hardMaxBasal / currentBasal * 100.0
    ensures var t := SafetyBasalPercent(s, currentBasal, hardMaxBasal, pumpMaxPercent);
            var a := PercentToAbsolute(currentBasal, s.originalValue);
            var absolute := SafetyBasal(CState(a, a, [], []), hardMaxBasal);
            var p := DoubleToInt(AbsoluteToPercent(absolute.value, currentBasal)) as real;
            var percentEntry := Reason(Safety, Limiting(PercentRate, p, PumpLimit));
            var pumpEntry := Reason(Safety, Limiting(BasalRate, pumpMaxPercent as real, PumpLimit));
            t.value == Min(p, pumpMaxPercent as real) &&
            t.originalValue == s.originalValue &&
            t.reasons == s.reasons + [Reason(Safety, Recalculated(s.originalValue, a, currentBasal))] + absolute.reasons +
                         (if p != s.value then [percentEntry] else []) +
                         (if pumpMaxPercent as real < s.originalValue then [pumpEntry] else []) &&
            (pumpMaxPercent as real < p ==> t.mostLimiting == [pumpEntry]) &&
            (p <= pumpMaxPercent as real && p != s.value ==> t.mostLimiting == s.mostLimiting + [percentEntry]) &&
            (p <= pumpMaxPercent as real && p == s.value ==> t.mostLimiting == s.mostLimiting)
  {
    var absoluteRate := PercentToAbsolute(currentBasal, s.originalValue);
    var absolute := SafetyBasal(CState(absoluteRate, absoluteRate, [], []), hardMaxBasal);
    assert 0.0 <= absolute.value <= hardMaxBasal;
    var x := AbsoluteToPercent(absolute.value, currentBasal);
    assert 0.0 <= x <= hardMaxBasal / currentBasal * 100.0 by {
      assert absolute.value / currentBasal <= hardMaxBasal / currentBasal;
    }
    assert x.Floor as real <= x;
  }

  /** SafetyPlugin `applyBasalConstraints`: at least 0, at most the age's hard maximum basal. */
  method SafetyApplyBasalConstraints(absoluteRate: Constraint, hardMaxBasal: real)
    modifies absoluteRate
    ensures absoluteRate.State() == SafetyBasal(old(absoluteRate.State()), hardMaxBasal)
    ensures hardMaxBasal >= 0.0 ==> 0.0 <= absoluteRate.value <= hardMaxBasal
  {
    absoluteRate.SetIfGreater(0.0, Reason(Safety, Limiting(BasalRate, 0.0, MustBePositive)));
    absoluteRate.SetIfSmaller(hardMaxBasal, Reason(Safety, Limiting(BasalRate, hardMaxBasal, HardLimit)));
  }

  /**
   * SafetyPlugin `applyBasalPercentConstraints`: note the recalculation, limit
   * the equivalent absolute rate with the basal limiter, copy its log, take the
   * resulting percent (truncated) if it differs, then apply the pump's percent
   * maximum.
   */
  method SafetyApplyBasalPercentConstraints(percentRate: Constraint, currentBasal: real, hardMaxBasal: real, pumpMaxPercent: int)
    requires currentBasal > 0.0
    modifies percentRate
    ensures percentRate.State() == SafetyBasalPercent(old(percentRate.State()), currentBasal, hardMaxBasal, pumpMaxPercent)
  {
    ghost var s := percentRate.State();
    var absoluteRate := PercentToAbsolute(currentBasal, percentRate.originalValue);
    percentRate.AddReason(Reason(Safety, Recalculated(percentRate.originalValue, absoluteRate, currentBasal)));
    ghost var noted := percentRate.State();
    var absoluteConstraint := new Constraint(absoluteRate);
    SafetyApplyBasalConstraints(absoluteConstraint, hardMaxBasal);
    ghost var absolute := absoluteConstraint.State();
    assert absolute == SafetyBasal(CState(absoluteRate, absoluteRate, [], []), hardMaxBasal);
    assert percentRate.State() == noted;
    percentRate.CopyReasons(absoluteConstraint);
    ghost var copied := percentRate.State();
    assert copied == noted.(reasons := noted.reasons + absolute.reasons);
    var percentRateAfterConst := DoubleToInt(AbsoluteToPercent(absoluteConstraint.value, currentBasal));
    percentRate.SetIfDifferent(percentRateAfterConst as real,
                               Reason(Safety, Limiting(PercentRate, percentRateAfterConst as real, PumpLimit)));
    percentRate.SetIfSmaller(pumpMaxPercent as real, Reason(Safety, Limiting(BasalRate, pumpMaxPercent as real, PumpLimit)));
  }

  /** SafetyPlugin `applyBolusConstraints`: at least 0, at most the preference, at most the hard limit. */
  method SafetyApplyBolusConstraints(insulin: Constraint, prefMaxBolus: real, hardMaxBolus: real) returns (r: Constraint)
    modifies insulin
    ensures r == insulin
    ensures insulin.State() ==
              IfSmaller(IfSmaller(IfGreater(old(insulin.State()), 0.0, Reason(Safety, Limiting(Bolus, 0.0, MustBePositive))),
                                  prefMaxBolus, Reason(Safety, Limiting(Bolus, prefMaxBolus, MaxValueInPreferences))),
                        hardMaxBolus, Reason(Safety, Limiting(Bolus, hardMaxBolus, HardLimit)))
    ensures prefMaxBolus >= 0.0 && hardMaxBolus >= 0.0 ==> 0.0 <= insulin.value <= Min(prefMaxBolus, hardMaxBolus)
  {
    insulin.SetIfGreater(0.0, Reason(Safety, Limiting(Bolus, 0.0, MustBePositive)));
    insulin.SetIfSmaller(prefMaxBolus, Reason(Safety, Limiting(Bolus, prefMaxBolus, MaxValueInPreferences)));
    insulin.SetIfSmaller(hardMaxBolus, Reason(Safety, Limiting(Bolus, hardMaxBolus, HardLimit)));
    r := insulin;
  }

  /** SafetyPlugin `applyCarbsConstraints`: at least 0, at most the max-carbs preference. */
  method SafetyApplyCarbsConstraints(carbs: Constraint, maxCarbs: int) returns (r: Constraint)
    modifies carbs
    ensures r == carbs
    ensures carbs.State() ==
              IfSmaller(IfGreater(old(carbs.State()), 0.0, Reason(Safety, Limiting(Carbs, 0.0, MustBePositive))),
                        maxCarbs as real, Reason(Safety, Limiting(Carbs, maxCarbs as real, MaxValueInPreferences)))
    ensures maxCarbs >= 0 ==> 0.0 <= carbs.value <= maxCarbs as real
  {
    carbs.SetIfGreater(0.0, Reason(Safety, Limiting(Carbs, 0.0, MustBePositive)));
    carbs.SetIfSmaller(maxCarbs as real, Reason(Safety, Limiting(Carbs, maxCarbs as real, MaxValueInPreferences)));
    r := carbs;
  }

  /** SafetyPlugin `applyMaxIOBConstraints`: in Low Glucose Suspend mode the IOB is capped at MAX_IOB_LGS. */
  method SafetyApplyMaxIOBConstraints(maxIob: Constraint, lgsMode: bool) returns (r: Constraint)
    modifies maxIob
    ensures r == maxIob
    ensures maxIob.State() ==
              if lgsMode then IfSmaller(old(maxIob.State()), MAX_IOB_LGS, Reason(Safety, Limiting(Iob, MAX_IOB_LGS, LowGlucoseSuspend)))
              else old(maxIob.State())
  {
    if lgsMode {
      maxIob.SetIfSmaller(MAX_IOB_LGS, Reason(Safety, Limiting(Iob, MAX_IOB_LGS, LowGlucoseSuspend)));
    }
    r := maxIob;
  }

  /** OpenAPSAMA / OpenAPSSMB `applyMaxIOBConstraints`: when enabled, cap by the preference, then by the hard limit. */
  method ApsApplyMaxIOBConstraints(from: Source, enabled: bool, maxIob: Constraint, prefMaxIob: real, hardMaxIob: real)
    returns (r: Constraint)
    modifies maxIob
    ensures r == maxIob
    ensures maxIob.State() ==
              if enabled then
                IfSmaller(IfSmaller(old(maxIob.State()), prefMaxIob, Reason(from, Limiting(Iob, prefMaxIob, MaxValueInPreferences))),
                          hardMaxIob, Reason(from, Limiting(Iob, hardMaxIob, HardLimit)))
              else old(maxIob.State())
  {
    if enabled {
      maxIob.SetIfSmaller(prefMaxIob, Reason(from, Limiting(Iob, prefMaxIob, MaxValueInPreferences)));
      maxIob.SetIfSmaller(hardMaxIob, Reason(from, Limiting(Iob, hardMaxIob, HardLimit)));
    }
    r := maxIob;
  }

  /** OpenAPSSMB `applyBasalConstraints`: preference maximum, multiple of the current basal, multiple of the day's maximum basal. */
  method SmbApplyBasalConstraints(enabled: bool, absoluteRate: Constraint, maxBasalPref: real,
                                  maxBasalMultiplier: real, currentBasal: real,
                                  maxDailyMultiplier: real, maxDailyBasal: real)
    modifies absoluteRate
    ensures absoluteRate.State() ==
              if enabled then
                IfSmaller(IfSmaller(IfSmaller(old(absoluteRate.State()),
                                              maxBasalPref, Reason(OpenAPSSMB, Limiting(BasalRate, maxBasalPref, MaxValueInPreferences))),
                                    maxBasalMultiplier * currentBasal,
                                    Reason(OpenAPSSMB, Limiting(BasalRate, maxBasalMultiplier * currentBasal, MaxBasalMultiplier))),
                          maxDailyMultiplier * maxDailyBasal,
                          Reason(OpenAPSSMB, Limiting(BasalRate, maxDailyMultiplier * maxDailyBasal, MaxDailyBasalMultiplier)))
              else old(absoluteRate.State())
  {
    if enabled {
      absoluteRate.SetIfSmaller(maxBasalPref, Reason(OpenAPSSMB, Limiting(BasalRate, maxBasalPref, MaxValueInPreferences)));
      absoluteRate.SetIfSmaller(maxBasalMultiplier * currentBasal,
                                Reason(OpenAPSSMB, Limiting(BasalRate, maxBasalMultiplier * currentBasal, MaxBasalMultiplier)));
      absoluteRate.SetIfSmaller(maxDailyMultiplier * maxDailyBasal,
                                Reason(OpenAPSSMB, Limiting(BasalRate, maxDailyMultiplier * maxDailyBasal, MaxDailyBasalMultiplier)));
    }
  }

  /** DanaRS `applyBasalConstraints`: capped by the pump's maximum basal. */
  method DanaRSApplyBasalConstraints(absoluteRate: Constraint, pumpMaxBasal: real)
    modifies absoluteRate
    ensures absoluteRate.State() ==
              IfSmaller(old(absoluteRate.State()), pumpMaxBasal, Reason(DanaRS, Limiting(BasalRate, pumpMaxBasal, PumpLimit)))
  {
    absoluteRate.SetIfSmaller(pumpMaxBasal, Reason(DanaRS, Limiting(BasalRate, pumpMaxBasal, PumpLimit)));
  }

  /** DanaRS `applyBasalPercentConstraints`: capped by the pump's maximum temporary percent. */
  method DanaRSApplyBasalPercentConstraints(percentRate: Constraint, pumpMaxPercent: int)
    modifies percentRate
    ensures percentRate.State() ==
              IfSmaller(old(percentRate.State()), pumpMaxPercent as real, Reason(DanaRS, Limiting(PercentRate, pumpMaxPercent as real, PumpLimit)))
  {
    percentRate.SetIfSmaller(pumpMaxPercent as real, Reason(DanaRS, Limiting(PercentRate, pumpMaxPercent as real, PumpLimit)));
  }

  /* ---------------- the test scenarios ---------------- */

  /** Hard limits of the "child" age group used by the tests. */
  const CHILD_MAX_BASAL: real := 2.0
  const CHILD_MAX_BOLUS: real := 5.0
  /** Hard IOB limits of the "teenage" age group used by the tests. */
  const TEENAGE_MAX_IOB_AMA: real := 5.0
  const TEENAGE_MAX_IOB_SMB: real := 13.0
  /** The virtual pump's maximum percent in the tests. */
  const VIRTUAL_PUMP_MAX_PERCENT: int := 500

  /** A basal of Double.MAX for a child ends at the 2.0 hard limit, one reason, which is also the most limiting. */
  method BasalRateShouldBeLimited() returns (value: real, reasons: seq<Reason>, mostLimiting: seq<Reason>)
    ensures value == 2.0
    ensures reasons == [Reason(Safety, Limiting(BasalRate, 2.0, HardLimit))]
    ensures mostLimiting == reasons
  {
    var c := new Constraint(DOUBLE_MAX);
    SafetyApplyBasalConstraints(c, CHILD_MAX_BASAL);
    value, reasons, mostLimiting := c.value, c.reasons, c.mostLimiting;
  }

  /** A basal of -0.5 ends at 0 with the single must-be-positive reason. */
  method DoNotAllowNegativeBasalRate() returns (value: real, reasons: seq<Reason>)
    ensures value == 0.0
    ensures reasons == [Reason(Safety, Limiting(BasalRate, 0.0, MustBePositive))]
  {
    var c := new Constraint(-0.5);
    SafetyApplyBasalConstraints(c, CHILD_MAX_BASAL);
    value, reasons := c.value, c.reasons;
  }

  /**
   * A percent of Int.MAX ends at 200 with four log entries in application
   * order; the most-limiting reason is the percent pump-limit entry.
   */
  method PercentBasalRateShouldBeLimited() returns (value: real, reasons: seq<Reason>, mostLimiting: seq<Reason>)
    ensures value == 200.0
    ensures reasons == [Reason(Safety, Recalculated(INT_MAX as real, 21474836.47, 1.0)),
                        Reason(Safety, Limiting(BasalRate, 2.0, HardLimit)),
                        Reason(Safety, Limiting(PercentRate, 200.0, PumpLimit)),
                        Reason(Safety, Limiting(BasalRate, 500.0, PumpLimit))]
    ensures mostLimiting == [Reason(Safety, Limiting(PercentRate, 200.0, PumpLimit))]
  {
    var c := new Constraint(INT_MAX as real);
    SafetyApplyBasalPercentConstraints(c, 1.0, CHILD_MAX_BASAL, VIRTUAL_PUMP_MAX_PERCENT);
    value, reasons, mostLimiting := c.value, c.reasons, c.mostLimiting;
  }

  /** With SMB enabled, a basal of Double.MAX ends at the 1.0 preference; the looser 4.0 and 3.0 bounds are still logged. */
  method PercentBasalShouldBeLimitedBySMB() returns (value: real, reasons: seq<Reason>, mostLimiting: seq<Reason>)
    ensures value == 1.0
    ensures reasons == [Reason(OpenAPSSMB, Limiting(BasalRate, 1.0, MaxValueInPreferences)),
                        Reason(OpenAPSSMB, Limiting(BasalRate, 4.0, MaxBasalMultiplier)),
                        Reason(OpenAPSSMB, Limiting(BasalRate, 3.0, MaxDailyBasalMultiplier))]
    ensures mostLimiting == [Reason(OpenAPSSMB, Limiting(BasalRate, 1.0, MaxValueInPreferences))]
  {
    var c := new Constraint(DOUBLE_MAX);
    SmbApplyBasalConstraints(true, c, 1.0, 4.0, 1.0, 3.0, 1.0);
    value, reasons, mostLimiting := c.value, c.reasons, c.mostLimiting;
  }

  /** A percent of -22 ends at 0; the most-limiting reason is the percent pump-limit entry, not the must-be-positive one. */
  method DoNotAllowNegativePercentBasalRate() returns (value: real, reasons: seq<Reason>, mostLimiting: seq<Reason>)
    ensures value == 0.0
    ensures reasons == [Reason(Safety, Recalculated(-22.0, -0.22, 1.0)),
                        Reason(Safety, Limiting(BasalRate, 0.0, MustBePositive)),
                        Reason(Safety, Limiting(PercentRate, 0.0, PumpLimit))]
    ensures mostLimiting == [Reason(Safety, Limiting(PercentRate, 0.0, PumpLimit))]
  {
    var c := new Constraint(-22.0);
    SafetyApplyBasalPercentConstraints(c, 1.0, CHILD_MAX_BASAL, VIRTUAL_PUMP_MAX_PERCENT);
    value, reasons, mostLimiting := c.value, c.reasons, c.mostLimiting;
  }

  /** A bolus of Double.MAX ends at the 3.0 preference; the looser 5.0 hard limit is still logged. */
  method BolusAmountShouldBeLimited() returns (value: real, reasons: seq<Reason>, mostLimiting: seq<Reason>)
    ensures value == 3.0
    ensures reasons == [Reason(Safety, Limiting(Bolus, 3.0, MaxValueInPreferences)),
                        Reason(Safety, Limiting(Bolus, 5.0, HardLimit))]
    ensures mostLimiting == [Reason(Safety, Limiting(Bolus, 3.0, MaxValueInPreferences))]
  {
    var c := new Constraint(DOUBLE_MAX);
    var d := SafetyApplyBolusConstraints(c, 3.0, CHILD_MAX_BOLUS);
    value, reasons, mostLimiting := d.value, d.reasons, d.mostLimiting;
  }

  /** A bolus of -22 ends at 0 with the single must-be-positive reason, also the most limiting. */
  method DoNotAllowNegativeBolusAmount() returns (value: real, reasons: seq<Reason>, mostLimiting: seq<Reason>)
    ensures value == 0.0
    ensures reasons == [Reason(Safety, Limiting(Bolus, 0.0, MustBePositive))]
    ensures mostLimiting == reasons
  {
    var c := new Constraint(-22.0);
    var d := SafetyApplyBolusConstraints(c, 3.0, CHILD_MAX_BOLUS);
    value, reasons, mostLimiting := d.value, d.reasons, d.mostLimiting;
  }

  /** Carbs of Int.MAX end at the 48 g preference with one reason. */
  method CarbsAmountShouldBeLimited() returns (value: real, reasons: seq<Reason>)
    ensures value == 48.0
    ensures reasons == [Reason(Safety, Limiting(Carbs, 48.0, MaxValueInPreferences))]
  {
    var c := new Constraint(INT_MAX as real);
    var i := SafetyApplyCarbsConstraints(c, 48);
    value, reasons := i.value, i.reasons;
  }

  /**
   * In Low Glucose Suspend mode the safety limiter gives MAX_IOB_LGS with one
   * reason; the AMA and SMB limiters, called directly on fresh constraints,
   * still give their preferences 1.5 and 3.0, logging the hard limits too,
   * and return the very constraint they were given.
   */
  method IobShouldBeLimited() returns (lgs: real, lgsReasons: seq<Reason>, ama: real, amaReasons: seq<Reason>,
                                       amaMost: seq<Reason>, smb: real, smbReasons: seq<Reason>, smbMost: seq<Reason>, sameObject: bool)
    ensures lgs == MAX_IOB_LGS && lgsReasons == [Reason(Safety, Limiting(Iob, 0.0, LowGlucoseSuspend))]
    ensures ama == 1.5
    ensures amaReasons == [Reason(OpenAPSAMA, Limiting(Iob, 1.5, MaxValueInPreferences)),
                           Reason(OpenAPSAMA, Limiting(Iob, 5.0, HardLimit))]
    ensures amaMost == [Reason(OpenAPSAMA, Limiting(Iob, 1.5, MaxValueInPreferences))]
    ensures smb == 3.0
    ensures smbReasons == [Reason(OpenAPSSMB, Limiting(Iob, 3.0, MaxValueInPreferences)),
                           Reason(OpenAPSSMB, Limiting(Iob, 13.0, HardLimit))]
    ensures smbMost == [Reason(OpenAPSSMB, Limiting(Iob, 3.0, MaxValueInPreferences))]
    ensures sameObject
  {
    var d := new Constraint(DOUBLE_MAX);
    d := SafetyApplyMaxIOBConstraints(d, true);
    lgs, lgsReasons := d.value, d.reasons;
    d := new Constraint(DOUBLE_MAX);
    var a := ApsApplyMaxIOBConstraints(OpenAPSAMA, true, d, 1.5, TEENAGE_MAX_IOB_AMA);
    ama, amaReasons, amaMost := a.value, d.reasons, d.mostLimiting;
    var first := a == d;
    d := new Constraint(DOUBLE_MAX);
    var s := ApsApplyMaxIOBConstraints(OpenAPSSMB, true, d, 3.0, TEENAGE_MAX_IOB_SMB);
    smb, smbReasons, smbMost := s.value, d.reasons, d.mostLimiting;
    sameObject := first && s == d;
  }

  /** The DanaRS pump plugin enabled twice still caps a Double.MAX basal at its 0.8 maximum, with one reason. */
  method DanaRSBasalRateShouldBeLimited() returns (value: real, reasons: seq<Reason>, mostLimiting: seq<Reason>, enabled: bool)
    ensures value == 0.8
    ensures reasons == [Reason(DanaRS, Limiting(BasalRate, 0.8, PumpLimit))]
    ensures mostLimiting == reasons
    ensures enabled
  {
    var pump := new PluginBase.Plugin(DanaRSDescription());
    var hook1 := pump.SetPluginEnabled(PluginBase.PUMP, true);
    var hook2 := pump.SetPluginEnabled(PluginBase.PUMP, true);
    enabled := pump.IsEnabled(PluginBase.PUMP) && hook2 == PluginBase.NoHook;
    var c := new Constraint(DOUBLE_MAX);
    DanaRSApplyBasalConstraints(c, 0.8);
    value, reasons, mostLimiting := c.value, c.reasons, c.mostLimiting;
  }

  /** The DanaRS pump plugin enabled twice caps an Int.MAX percent at its 200 maximum, with one reason. */
  method DanaRSPercentBasalRateShouldBeLimited() returns (value: real, reasons: seq<Reason>, mostLimiting: seq<Reason>, enabled: bool)
    ensures value == 200.0
    ensures reasons == [Reason(DanaRS, Limiting(PercentRate, 200.0, PumpLimit))]
    ensures mostLimiting == reasons
    ensures enabled
  {
    var pump := new PluginBase.Plugin(DanaRSDescription());
    var hook1 := pump.SetPluginEnabled(PluginBase.PUMP, true);
    var hook2 := pump.SetPluginEnabled(PluginBase.PUMP, true);
    enabled := pump.IsEnabled(PluginBase.PUMP) && hook2 == PluginBase.NoHook;
    var c := new Constraint(INT_MAX as real);
    DanaRSApplyBasalPercentConstraints(c, 200);
    value, reasons, mostLimiting := c.value, c.reasons, c.mostLimiting;
  }

  /** The DanaRS pump plugin's description, as far as enabling is concerned. */
  function DanaRSDescription(): PluginBase.PluginDescription
  {
    PluginBase.PluginDescription(PluginBase.PUMP, false, false, false, false, true, true, true, true,
                                 "DanaRS", "DanaRSPlugin", {PluginBase.PumpI})
  }
}
