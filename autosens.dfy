/**
 * The oref autosens/COB pass (`IobCobOrefWorker.doWorkAndLog`): it works on
 * a copy of the calculator's store, walks the bucketed glucose values from
 * the oldest usable one to the newest, computes one record per bucket that
 * has none yet (deltas, insulin impact, deviations, the slopes over the past
 * hour, carbs on board and the sensitivity tag), and puts the copy back only
 * when the walk completes.  Profile values, insulin activity, the carb
 * helpers and the sensitivity detector are inputs.
 */
module IobCobOref {
  import opened Wrappers
  import opened SparseTable

  /** A bucketed glucose value: its time and the recalculated value in mg/dL. */
  datatype Reading = Reading(timestamp: int, recalculated: real)

  /** A carb treatment found in the five minutes up to a bucket. */
  datatype CarbTreatment = CarbTreatment(timestamp: int, amount: real)

  /** An entry of a record's active-carbs list. */
  datatype Carb = Carb(time: int, carbs: real, remaining: real, min5minCarbImpact: real)

  /** One bucket's record; `autosensResult` is the detector's ratio, absent until it has run. */
  datatype AutosensData = AutosensData(
    time: int,
    bg: real,
    delta: real,
    avgDelta: real,
    bgi: real,
    deviation: real,
    avgDeviation: real,
    slopeFromMaxDeviation: real,
    slopeFromMinDeviation: real,
    sens: real,
    activeCarbsList: seq<Carb>,
    carbsFromBolus: real,
    cob: real,
    this5MinAbsorption: real,
    usedMinCarbsImpact: real,
    failOverToMinAbsorptionRate: bool,
    validDeviation: bool,
    pastSensitivity: string,
    autosensResult: Option<real>)

  type Table = seq<Entry<AutosensData>>

  /** The store as the calculator keeps it: keys increase, and every record sits under its own time. */
  predicate WellFormed(t: Table)
  {
    Ordered(t) && forall e :: e in t ==> e.value.time == e.key
  }

  /** The calculator's store: the bucketed glucose values (absent until loaded) and the record table. */
  datatype Ads = Ads(bucketedData: Option<seq<Reading>>, table: Table)

  /** The active-carbs list together with the COB it accounts for, as `removeOldCarbs` sees them. */
  datatype CarbState = CarbState(list: seq<Carb>, cob: real)

  /**
   * What the pass reads from outside: the clock, time rounding, the profile
   * (whether it is valid, whether one exists at a time, ISF and IC), insulin
   * activity, the stop request (by loop index), the store's own lookup of
   * the record an hour back, the carbs in the five minutes up to a bucket,
   * the sensitivity plugin's settings and helpers, and the detector.
   */
  datatype Env = Env(
    now: int,
    roundUpTime: int -> int,
    profileValid: bool,
    hasProfile: int -> bool,
    sens: int -> real,
    ic: int -> real,
    activity: int -> real,
    isStopped: int -> bool,
    autosensDataAtTime: (Table, int) -> Option<AutosensData>,
    recentCarbs: int -> seq<CarbTreatment>,
    minCarbsAbsorptionDynamic: bool,
    amaMin5MinCarbsImpact: real,
    fromCarbs: (CarbTreatment, bool, real, real) -> Carb,
    deductAbsorbedCarbs: (seq<Carb>, real) -> seq<Carb>,
    removeOldCarbs: (CarbState, int, bool) -> CarbState,
    carbsLabel: real -> string,
    deviationToBeEqual: real,
    detectionStart: int,
    detectSensitivity: (Table, int, int) -> real)

  /** Profiles in use are validated: the insulin sensitivity factor is positive. */
  ghost predicate ValidEnv(env: Env)
  {
    forall time :: env.sens(time) > 0.0
  }

  function MaxR(a: real, b: real): real
  {
    if a >= b then a else b
  }

  function MinR(a: real, b: real): real
  {
    if a <= b then a else b
  }

  function AbsR(a: real): real
  {
    if a < 0.0 then -a else a
  }

  /** `(x * 1000).roundToLong() / 1000.0`: to three decimals, halves rounded up. */
  function Round3(x: real): real
  {
    (x * 1000.0 + 0.5).Floor as real / 1000.0
  }

  /** Rounding to three decimals moves a value by at most half a thousandth. */
  lemma Round3Error(x: real)
    ensures x - 0.0005 < Round3(x) <= x + 0.0005
  {
    var n := (x * 1000.0 + 0.5).Floor;
    assert n as real <= x * 1000.0 + 0.5 < n as real + 1.0;
  }

  /* ---------------- per-bucket arithmetic ---------------- */

  datatype Deviations = Deviations(bg: real, delta: real, avgDelta: real, sens: real, bgi: real, deviation: real, avgDeviation: real)

  /** Bucket `i`'s deltas against the next value and the one three buckets on, its insulin impact and deviations. */
  function DeviationsAt(b: seq<Reading>, i: int, bgTime: int, env: Env): Deviations
    requires 0 <= i && i + 3 < |b|
  {
    var bg := b[i].recalculated;
    var delta := bg - b[i + 1].recalculated;
    var avgDelta := (bg - b[i + 3].recalculated) / 3.0;
    var sens := env.sens(bgTime);
    var bgi := -env.activity(bgTime) * sens * 5.0;
    Deviations(bg, delta, avgDelta, sens, bgi, delta - bgi, Round3(avgDelta - bgi))
  }

  /* ---------------- the slopes over the past hour ---------------- */

  /** The running state of the scan: the extreme deviations seen and the slopes from them. */
  datatype Window = Window(maxDeviation: real, minDeviation: real, slopeFromMax: real, slopeFromMin: real)

  /** Before any record is seen (and when none is looked at). */
  const NoWindow := Window(0.0, 999.0, 0.0, 999.0)

  /** The deviation slope per five minutes between an earlier record and this bucket. */
  function SlopeOf(ad: AutosensData, avgDeviation: real, bgTime: int): real
    requires ad.time != bgTime
  {
    (ad.avgDeviation - avgDeviation) / ((ad.time - bgTime) as real) * 1000.0 * 60.0 * 5.0
  }

  /** One record of the scan: a new maximum sets the (non-positive) max slope, a new minimum the (non-negative) min slope. */
  function Visit(w: Window, ad: AutosensData, slope: real): Window
  {
    var w1 := if ad.avgDeviation > w.maxDeviation then w.(slopeFromMax := MinR(0.0, slope), maxDeviation := ad.avgDeviation) else w;
    if ad.avgDeviation < w.minDeviation then w1.(slopeFromMin := MaxR(0.0, slope), minDeviation := ad.avgDeviation) else w1
  }

  /**
   * The records at positions `initialIndex + past` for `past` up to 11;
   * a position outside the table is a crash (`None`).
   */
  function Scan(t: Table, initialIndex: int, past: int, avgDeviation: real, bgTime: int, w: Window): Option<Window>
    requires 1 <= past <= 12
    requires forall j :: 0 <= j < |t| ==> t[j].value.time != bgTime
    decreases 12 - past
  {
    if past == 12 then Some(w)
    else
      var idx := initialIndex + past;
      if idx < 0 || idx >= |t| then None
      else
        var ad := t[idx].value;
        Scan(t, initialIndex, past + 1, avgDeviation, bgTime, Visit(w, ad, SlopeOf(ad, avgDeviation, bgTime)))
  }

  /** The scan keeps the max slope at or below 0 and the min slope at or above 0. */
  lemma {:induction false} ScanKeepsSigns(t: Table, initialIndex: int, past: int, avgDeviation: real, bgTime: int, w: Window)
    requires 1 <= past <= 12
    requires forall j :: 0 <= j < |t| ==> t[j].value.time != bgTime
    requires w.slopeFromMax <= 0.0 && w.slopeFromMin >= 0.0
    ensures var r := Scan(t, initialIndex, past, avgDeviation, bgTime, w);
            r.Some? ==> r.value.slopeFromMax <= 0.0 && r.value.slopeFromMin >= 0.0
    decreases 12 - past
  {
    var idx := initialIndex + past;
    if past < 12 && 0 <= idx < |t| {
      var ad := t[idx].value;
      ScanKeepsSigns(t, initialIndex, past + 1, avgDeviation, bgTime, Visit(w, ad, SlopeOf(ad, avgDeviation, bgTime)));
    }
  }

  /** The scan crashes exactly when one of the positions it reads lies outside the table. */
  lemma {:induction false} ScanDefinedWhen(t: Table, initialIndex: int, past: int, avgDeviation: real, bgTime: int, w: Window)
    requires 1 <= past <= 12
    requires forall j :: 0 <= j < |t| ==> t[j].value.time != bgTime
    ensures Scan(t, initialIndex, past, avgDeviation, bgTime, w).Some? <==>
            past == 12 || (0 <= initialIndex + past && initialIndex + 11 < |t|)
    decreases 12 - past
  {
    var idx := initialIndex + past;
    if past < 12 && 0 <= idx < |t| {
      var ad := t[idx].value;
      ScanDefinedWhen(t, initialIndex, past + 1, avgDeviation, bgTime, Visit(w, ad, SlopeOf(ad, avgDeviation, bgTime)));
    }
  }

  /**
   * The slopes of bucket `i` of `size`: scanned only when an hour of data
   * lies behind it and the store has a record an hour back.
   */
  function Slopes(i: int, size: int, t: Table, avgDeviation: real, bgTime: int, env: Env): Option<Window>
    requires WellFormed(t) && Find(t, bgTime).None?
  {
    FindMeaning(t, bgTime);
    if i < size - 16 then
      var hourAgoData := env.autosensDataAtTime(t, bgTime + 10 * 1000 - 60 * 60 * 1000);
      if hourAgoData.Some? then Scan(t, IndexOfKey(t, hourAgoData.value.time), 1, avgDeviation, bgTime, NoWindow)
      else Some(NoWindow)
    else Some(NoWindow)
  }

  /** The `while (past < 12)` loop. */
  method ScanPastHour(t: Table, initialIndex: int, avgDeviation: real, bgTime: int) returns (w: Option<Window>)
    requires forall j :: 0 <= j < |t| ==> t[j].value.time != bgTime
    ensures w == Scan(t, initialIndex, 1, avgDeviation, bgTime, NoWindow)
    ensures w.Some? ==> w.value.slopeFromMax <= 0.0 && w.value.slopeFromMin >= 0.0
  {
    ScanKeepsSigns(t, initialIndex, 1, avgDeviation, bgTime, NoWindow);
    var maxDeviation := 0.0;
    var minDeviation := 999.0;
    var slopeFromMax := 0.0;
    var slopeFromMin := 999.0;
    var past := 1;
    while past < 12
      invariant 1 <= past <= 12
      invariant Scan(t, initialIndex, past, avgDeviation, bgTime, Window(maxDeviation, minDeviation, slopeFromMax, slopeFromMin)) ==
                Scan(t, initialIndex, 1, avgDeviation, bgTime, NoWindow)
      decreases 12 - past
    {
      var idx := initialIndex + past;
      if idx < 0 || idx >= |t| {
        return None;
      }
      var ad := t[idx].value;
      var deviationSlope := SlopeOf(ad, avgDeviation, bgTime);
      var minBefore := minDeviation;
      if ad.avgDeviation > maxDeviation {
        slopeFromMax := MinR(0.0, deviationSlope);
        maxDeviation := ad.avgDeviation;
      }
      if ad.avgDeviation < minBefore {
        slopeFromMin := MaxR(0.0, deviationSlope);
        minDeviation := ad.avgDeviation;
      }
      past := past + 1;
    }
    w := Some(Window(maxDeviation, minDeviation, slopeFromMax, slopeFromMin));
  }

  /* ---------------- carbs ---------------- */

  /** What the recent-carbs loop accumulates on a new record. */
  datatype CarbsIn = CarbsIn(carbsFromBolus: real, list: seq<Carb>, pastSensitivity: string)

  /** One recent treatment: its amount counts, a positive amount joins the active list, and it is noted. */
  function AddOne(tr: CarbTreatment, acc: CarbsIn, env: Env): CarbsIn
  {
    var entry := env.fromCarbs(tr, env.minCarbsAbsorptionDynamic, env.sens(tr.timestamp), env.ic(tr.timestamp));
    CarbsIn(acc.carbsFromBolus + tr.amount,
            if tr.amount > 0.0 then acc.list + [entry] else acc.list,
            acc.pastSensitivity + "[" + env.carbsLabel(tr.amount) + "g]")
  }

  function AddCarbs(ts: seq<CarbTreatment>, acc: CarbsIn, env: Env): CarbsIn
    decreases |ts|
  {
    if ts == [] then acc else AddCarbs(ts[1..], AddOne(ts[0], acc, env), env)
  }

  function SumAmounts(ts: seq<CarbTreatment>): real
    decreases |ts|
  {
    if ts == [] then 0.0 else ts[0].amount + SumAmounts(ts[1..])
  }

  function CountPositive(ts: seq<CarbTreatment>): nat
    decreases |ts|
  {
    if ts == [] then 0 else (if ts[0].amount > 0.0 then 1 else 0) + CountPositive(ts[1..])
  }

  /**
   * The recent treatments add up to `carbsFromBolus`, each positive one
   * appends exactly one entry after the carried-over list, which is kept.
   */
  lemma {:induction false} AddCarbsTotals(ts: seq<CarbTreatment>, acc: CarbsIn, env: Env)
    ensures AddCarbs(ts, acc, env).carbsFromBolus == acc.carbsFromBolus + SumAmounts(ts)
    ensures |AddCarbs(ts, acc, env).list| == |acc.list| + CountPositive(ts)
    ensures AddCarbs(ts, acc, env).list[..|acc.list|] == acc.list
    decreases |ts|
  {
    if ts != [] {
      var next := AddOne(ts[0], acc, env);
      AddCarbsTotals(ts[1..], next, env);
      assert next.list[..|acc.list|] == acc.list;
      assert AddCarbs(ts, acc, env).list[..|next.list|][..|acc.list|] == AddCarbs(ts, acc, env).list[..|acc.list|];
    }
  }

  /** The `for (recentCarbTreatment in recentCarbTreatments)` loop. */
  method AddRecentCarbs(ts: seq<CarbTreatment>, carried: seq<Carb>, env: Env) returns (acc: CarbsIn)
    ensures acc == AddCarbs(ts, CarbsIn(0.0, carried, ""), env)
  {
    acc := CarbsIn(0.0, carried, "");
    var k := 0;
    while k < |ts|
      invariant 0 <= k <= |ts|
      invariant AddCarbs(ts[k..], acc, env) == AddCarbs(ts, CarbsIn(0.0, carried, ""), env)
    {
      var tr := ts[k];
      ghost var before := acc;
      var list := acc.list;
      if tr.amount > 0.0 {
        list := list + [env.fromCarbs(tr, env.minCarbsAbsorptionDynamic, env.sens(tr.timestamp), env.ic(tr.timestamp))];
      }
      acc := CarbsIn(acc.carbsFromBolus + tr.amount, list, acc.pastSensitivity + "[" + env.carbsLabel(tr.amount) + "g]");
      assert acc == AddOne(tr, before, env);
      assert ts[k..][0] == tr && ts[k..][1..] == ts[k + 1..];
      assert AddCarbs(ts[k..], before, env) == AddCarbs(ts[k + 1..], acc, env);
      k := k + 1;
    }
  }

  /** The sum of the entries' minimum 5-minute impacts. */
  function SumImpact(list: seq<Carb>): real
    decreases |list|
  {
    if list == [] then 0.0 else SumImpact(list[..|list| - 1]) + list[|list| - 1].min5minCarbImpact
  }

  /** With every entry's minimum impact at least `floor` (itself non-negative), the sum is at least `|list| * floor`. */
  lemma {:induction false} SumImpactAtLeast(list: seq<Carb>, floor: real)
    requires floor >= 0.0
    requires forall c :: c in list ==> c.min5minCarbImpact >= floor
    ensures SumImpact(list) >= (|list| as real) * floor
    decreases |list|
  {
    if list != [] {
      SumImpactAtLeast(list[..|list| - 1], floor);
    }
  }

  /** The `for (ii in activeCarbsList.indices)` loop. */
  method TotalMinCarbsImpact(list: seq<Carb>) returns (total: real)
    ensures total == SumImpact(list)
  {
    total := 0.0;
    for ii := 0 to |list|
      invariant total == SumImpact(list[..ii])
    {
      assert list[..ii + 1][..ii] == list[..ii];
      total := total + list[ii].min5minCarbImpact;
    }
    assert list[..|list|] == list;
  }

  /** The absorption step's results. */
  datatype Absorption = Absorption(list: seq<Carb>, cob: real, this5MinAbsorption: real, usedMinCarbsImpact: real, failOver: bool)

  /**
   * While the previous bucket still had carbs on board: the impact is the
   * deviation or, if larger, the minimum carb impact; converted to grams it
   * is taken off the previous COB, not below 0.  Otherwise nothing is absorbed.
   */
  function Absorb(previous: Option<AutosensData>, list: seq<Carb>, deviation: real, sens: real, bgTime: int, env: Env): Absorption
    requires sens > 0.0
  {
    if previous.Some? && previous.value.cob > 0.0 then
      var total := if env.minCarbsAbsorptionDynamic then SumImpact(list) else env.amaMin5MinCarbsImpact;
      var ci := MaxR(deviation, total);
      var absorbed := ci * env.ic(bgTime) / sens;
      Absorption(env.deductAbsorbedCarbs(list, absorbed), MaxR(previous.value.cob - absorbed, 0.0), absorbed, total, ci != deviation)
    else
      Absorption(list, 0.0, 0.0, 0.0, false)
  }

  /** The tag appended to `pastSensitivity`: with carbs on board "C", otherwise by the deviation's sign. */
  function Tag(cob: real, deviation: real, deviationToBeEqual: real): string
  {
    if cob > 0.0 then "C"
    else if AbsR(deviation) < deviationToBeEqual then "="
    else if deviation > 0.0 then "+"
    else "-"
  }

  /** The record for a bucket from its parts. */
  function Finish(bgTime: int, dv: Deviations, w: Window, carbs: CarbsIn, a: Absorption, env: Env): AutosensData
  {
    var removed := env.removeOldCarbs(CarbState(a.list, a.cob), bgTime, env.minCarbsAbsorptionDynamic);
    var cob := MaxR(removed.cob + carbs.carbsFromBolus, 0.0);
    AutosensData(
      time := bgTime, bg := dv.bg, delta := dv.delta, avgDelta := dv.avgDelta, bgi := dv.bgi,
      deviation := dv.deviation, avgDeviation := dv.avgDeviation,
      slopeFromMaxDeviation := w.slopeFromMax, slopeFromMinDeviation := w.slopeFromMin, sens := dv.sens,
      activeCarbsList := removed.list, carbsFromBolus := carbs.carbsFromBolus, cob := cob,
      this5MinAbsorption := a.this5MinAbsorption, usedMinCarbsImpact := a.usedMinCarbsImpact,
      failOverToMinAbsorptionRate := a.failOver, validDeviation := cob <= 0.0,
      pastSensitivity := carbs.pastSensitivity + Tag(cob, dv.deviation, env.deviationToBeEqual),
      autosensResult := None)
  }

  /* ---------------- one bucket ---------------- */

  /** The absorption step as the worker runs it, with the impact-sum loop. */
  method ComputeAbsorption(previous: Option<AutosensData>, list: seq<Carb>, deviation: real, sens: real, bgTime: int, env: Env)
    returns (a: Absorption)
    requires sens > 0.0
    ensures a == Absorb(previous, list, deviation, sens, bgTime, env)
  {
    a := Absorption(list, 0.0, 0.0, 0.0, false);
    if previous.Some? && previous.value.cob > 0.0 {
      var totalMinCarbsImpact: real;
      if env.minCarbsAbsorptionDynamic {
        totalMinCarbsImpact := TotalMinCarbsImpact(list);
      } else {
        totalMinCarbsImpact := env.amaMin5MinCarbsImpact;
      }
      var ci := MaxR(deviation, totalMinCarbsImpact);
      var this5MinAbsorption := ci * env.ic(bgTime) / sens;
      a := Absorption(env.deductAbsorbedCarbs(list, this5MinAbsorption), MaxR(previous.value.cob - this5MinAbsorption, 0.0),
                      this5MinAbsorption, totalMinCarbsImpact, ci != deviation);
      assert Absorb(previous, list, deviation, sens, bgTime, env).this5MinAbsorption == this5MinAbsorption;
    }
  }

  /** Absorbing never drives COB below 0; the fail-over flag is set exactly when absorbing and the minimum impact won. */
  lemma AbsorbFacts(previous: Option<AutosensData>, list: seq<Carb>, deviation: real, sens: real, bgTime: int, env: Env)
    requires sens > 0.0
    ensures var a := Absorb(previous, list, deviation, sens, bgTime, env);
            a.cob >= 0.0 &&
            (previous.Some? && previous.value.cob > 0.0 ==> a.cob <= previous.value.cob - a.this5MinAbsorption || a.cob == 0.0) &&
            a.failOver == (previous.Some? && previous.value.cob > 0.0 && MaxR(deviation, a.usedMinCarbsImpact) != deviation)
  {
  }

  /** The slope part of a bucket as the worker runs it. */
  method ComputeSlopes(i: int, size: int, t: Table, avgDeviation: real, bgTime: int, env: Env) returns (w: Option<Window>)
    requires WellFormed(t) && Find(t, bgTime).None?
    ensures w == Slopes(i, size, t, avgDeviation, bgTime, env)
  {
    w := Some(NoWindow);
    if i < size - 16 {
      var hourAgoData := env.autosensDataAtTime(t, bgTime + 10 * 1000 - 60 * 60 * 1000);
      if hourAgoData.Some? {
        FindMeaning(t, bgTime);
        var initialIndex := IndexOfKey(t, hourAgoData.value.time);
        w := ScanPastHour(t, initialIndex, avgDeviation, bgTime);
      }
    }
  }

  /** Where a scan happens its slopes keep their signs; without an hour of data behind they keep their defaults. */
  lemma SlopesFacts(i: int, size: int, t: Table, avgDeviation: real, bgTime: int, env: Env)
    requires WellFormed(t) && Find(t, bgTime).None?
    ensures var w := Slopes(i, size, t, avgDeviation, bgTime, env);
            (w.Some? ==> w.value.slopeFromMax <= 0.0 && w.value.slopeFromMin >= 0.0) &&
            (i >= size - 16 ==> w == Some(NoWindow))
  {
    FindMeaning(t, bgTime);
    if i < size - 16 {
      var hourAgoData := env.autosensDataAtTime(t, bgTime + 10 * 1000 - 60 * 60 * 1000);
      if hourAgoData.Some? {
        ScanKeepsSigns(t, IndexOfKey(t, hourAgoData.value.time), 1, avgDeviation, bgTime, NoWindow);
      }
    }
  }

  /** The last character of the tagged history. */
  lemma TagLast(prefix: string, cob: real, deviation: real, deviationToBeEqual: real)
    ensures var s := prefix + Tag(cob, deviation, deviationToBeEqual);
            |s| > 0 &&
            s[|s| - 1] == (if cob > 0.0 then 'C'
                           else if AbsR(deviation) < deviationToBeEqual then '='
                           else if deviation > 0.0 then '+' else '-')
  {
  }

  /** A bucket's record once the guards have passed; `None` is the crash of the slope scan. */
  function Fresh(i: int, b: seq<Reading>, bgTime: int, previous: Option<AutosensData>, t: Table, env: Env): Option<AutosensData>
    requires 0 <= i && i + 3 < |b| && WellFormed(t) && ValidEnv(env) && Find(t, bgTime).None?
  {
    var dv := DeviationsAt(b, i, bgTime, env);
    var w := Slopes(i, |b|, t, dv.avgDeviation, bgTime, env);
    if w.None? then None
    else
      var carbs := AddCarbs(env.recentCarbs(bgTime), CarbsIn(0.0, CarriedCarbs(previous), ""), env);
      var a := Absorb(previous, carbs.list, dv.deviation, dv.sens, bgTime, env);
      Some(Finish(bgTime, dv, w.value, carbs, a, env))
  }

  method ComputeFresh(i: int, b: seq<Reading>, bgTime: int, previous: Option<AutosensData>, t: Table, env: Env)
    returns (d: Option<AutosensData>)
    requires 0 <= i && i + 3 < |b| && WellFormed(t) && ValidEnv(env) && Find(t, bgTime).None?
    ensures d == Fresh(i, b, bgTime, previous, t, env)
  {
    var dv := DeviationsAt(b, i, bgTime, env);
    var w := ComputeSlopes(i, |b|, t, dv.avgDeviation, bgTime, env);
    if w.None? {
      return None;
    }
    var carbs := AddRecentCarbs(env.recentCarbs(bgTime), CarriedCarbs(previous), env);
    var a := ComputeAbsorption(previous, carbs.list, dv.deviation, dv.sens, bgTime, env);
    d := Some(Finish(bgTime, dv, w.value, carbs, a, env));
  }

  /** A bucket is skipped (and what `previous` becomes), gives a record, or crashes in the slope scan. */
  datatype BucketOutcome = Skip(previous: Option<AutosensData>) | Record(data: AutosensData) | Crash

  function CarriedCarbs(previous: Option<AutosensData>): seq<Carb>
  {
    if previous.Some? then previous.value.activeCarbsList else []
  }

  /** One turn of the `for (i in bucketedData.size - 4 downTo 0)` loop, before the record is stored. */
  function Bucket(i: int, b: seq<Reading>, previous: Option<AutosensData>, t: Table, env: Env): BucketOutcome
    requires 0 <= i && i + 3 < |b| && WellFormed(t) && ValidEnv(env)
  {
    var bgTime := env.roundUpTime(b[i].timestamp);
    if bgTime > env.roundUpTime(env.now) then Skip(previous)
    else if Find(t, bgTime).Some? then Skip(Find(t, bgTime))
    else if !env.hasProfile(bgTime) then Skip(previous)
    else if b[i].recalculated < 39.0 || b[i + 3].recalculated < 39.0 then Skip(previous)
    else
      match Fresh(i, b, bgTime, previous, t, env)
      case None => Crash
      case Some(d) => Record(d)
  }

  /** The buckets that give no record: future ones, already computed ones (which become `previous`), ones without a profile, low values. */
  lemma BucketSkips(i: int, b: seq<Reading>, previous: Option<AutosensData>, t: Table, env: Env)
    requires 0 <= i && i + 3 < |b| && WellFormed(t) && ValidEnv(env)
    ensures var bgTime := env.roundUpTime(b[i].timestamp);
            var o := Bucket(i, b, previous, t, env);
            (bgTime > env.roundUpTime(env.now) ==> o == Skip(previous)) &&
            (bgTime <= env.roundUpTime(env.now) && Find(t, bgTime).Some? ==> o == Skip(Find(t, bgTime))) &&
            (Find(t, bgTime).None? && !env.hasProfile(bgTime) ==> o.Skip?) &&
            (b[i].recalculated < 39.0 || b[i + 3].recalculated < 39.0 ==> o.Skip?)
  {
  }

  /** What a computed record always satisfies. */
  predicate Sound(d: AutosensData)
  {
    d.cob >= 0.0 && d.slopeFromMaxDeviation <= 0.0 && d.slopeFromMinDeviation >= 0.0 &&
    d.validDeviation == (d.cob <= 0.0) && d.bg >= 39.0
  }

  /**
   * A record comes from a bucket at or before now, with a profile, no record
   * yet and both values at least 39; its fields follow the per-bucket
   * arithmetic.
   */
  lemma BucketArithmetic(i: int, b: seq<Reading>, previous: Option<AutosensData>, t: Table, env: Env)
    requires 0 <= i && i + 3 < |b| && WellFormed(t) && ValidEnv(env)
    requires Bucket(i, b, previous, t, env).Record?
    ensures var bgTime := env.roundUpTime(b[i].timestamp);
            var d := Bucket(i, b, previous, t, env).data;
            d.time == bgTime && bgTime <= env.roundUpTime(env.now) && Find(t, bgTime).None? && env.hasProfile(bgTime) &&
            b[i].recalculated >= 39.0 && b[i + 3].recalculated >= 39.0 &&
            d.bg == b[i].recalculated &&
            d.delta == b[i].recalculated - b[i + 1].recalculated &&
            d.avgDelta == (b[i].recalculated - b[i + 3].recalculated) / 3.0 &&
            d.sens == env.sens(bgTime) &&
            d.bgi == -env.activity(bgTime) * env.sens(bgTime) * 5.0 &&
            d.deviation == d.delta - d.bgi &&
            d.avgDeviation == Round3(d.avgDelta - d.bgi)
  {
  }

  /**
   * A record is sound: COB is never negative, the slopes keep their signs
   * (and their defaults without an hour of data behind), and the deviation
   * counts exactly when no carbs are on board.
   */
  lemma BucketSound(i: int, b: seq<Reading>, previous: Option<AutosensData>, t: Table, env: Env)
    requires 0 <= i && i + 3 < |b| && WellFormed(t) && ValidEnv(env)
    requires Bucket(i, b, previous, t, env).Record?
    ensures Sound(Bucket(i, b, previous, t, env).data)
    ensures var d := Bucket(i, b, previous, t, env).data;
            i >= |b| - 16 ==> d.slopeFromMaxDeviation == 0.0 && d.slopeFromMinDeviation == 999.0
  {
    var bgTime := env.roundUpTime(b[i].timestamp);
    var dv := DeviationsAt(b, i, bgTime, env);
    SlopesFacts(i, |b|, t, dv.avgDeviation, bgTime, env);
  }

  /**
   * The fail-over flag is set exactly when the previous bucket had carbs on
   * board and the minimum carb impact exceeded the deviation, and the
   * history ends with the tag that COB and the deviation call for.
   */
  lemma BucketCarbs(i: int, b: seq<Reading>, previous: Option<AutosensData>, t: Table, env: Env)
    requires 0 <= i && i + 3 < |b| && WellFormed(t) && ValidEnv(env)
    requires Bucket(i, b, previous, t, env).Record?
    ensures var d := Bucket(i, b, previous, t, env).data;
            d.failOverToMinAbsorptionRate ==
              (previous.Some? && previous.value.cob > 0.0 && MaxR(d.deviation, d.usedMinCarbsImpact) != d.deviation)
    ensures var d := Bucket(i, b, previous, t, env).data;
            var s := d.pastSensitivity;
            |s| > 0 &&
            (d.cob > 0.0 ==> s[|s| - 1] == 'C') &&
            (d.cob <= 0.0 && AbsR(d.deviation) < env.deviationToBeEqual ==> s[|s| - 1] == '=') &&
            (d.cob <= 0.0 && AbsR(d.deviation) >= env.deviationToBeEqual && d.deviation > 0.0 ==> s[|s| - 1] == '+') &&
            (d.cob <= 0.0 && AbsR(d.deviation) >= env.deviationToBeEqual && d.deviation <= 0.0 ==> s[|s| - 1] == '-')
  {
    var bgTime := env.roundUpTime(b[i].timestamp);
    var dv := DeviationsAt(b, i, bgTime, env);
    var carbs := AddCarbs(env.recentCarbs(bgTime), CarbsIn(0.0, CarriedCarbs(previous), ""), env);
    var d := Bucket(i, b, previous, t, env).data;
    AbsorbFacts(previous, carbs.list, dv.deviation, dv.sens, bgTime, env);
    TagLast(carbs.pastSensitivity, d.cob, dv.deviation, env.deviationToBeEqual);
  }

  /** The one turn as the worker runs it: the same checks in the same order. */
  method ComputeBucket(i: int, b: seq<Reading>, previous: Option<AutosensData>, t: Table, env: Env) returns (o: BucketOutcome)
    requires 0 <= i && i + 3 < |b| && WellFormed(t) && ValidEnv(env)
    ensures o == Bucket(i, b, previous, t, env)
  {
    var bgTime := env.roundUpTime(b[i].timestamp);
    if bgTime > env.roundUpTime(env.now) {
      return Skip(previous);
    }
    var existing := Find(t, bgTime);
    if existing.Some? {
      return Skip(existing);
    }
    if !env.hasProfile(bgTime) {
      return Skip(previous);
    }
    if b[i].recalculated < 39.0 || b[i + 3].recalculated < 39.0 {
      return Skip(previous);
    }
    var d := ComputeFresh(i, b, bgTime, previous, t, env);
    if d.None? {
      return Crash;
    }
    o := Record(d.value);
  }

  /* ---------------- the pass ---------------- */

  datatype Committed = Committed(record: AutosensData, table: Table)

  /**
   * After a record is computed: it is stored only when its time is before
   * now; the detector runs on the store as it then is, and its ratio lands
   * on the record (the same object as the stored one and the new `previous`).
   */
  function Commit(d: AutosensData, t: Table, env: Env): Committed
  {
    var stored := d.time < env.now;
    var seen := if stored then Put(t, d.time, d) else t;
    var r := d.(autosensResult := Some(env.detectSensitivity(seen, env.detectionStart, d.time)));
    Committed(r, if stored then Put(t, d.time, r) else t)
  }

  /** Storing a record keeps the store well formed, touches only the record's own time, and only before now. */
  lemma CommitFacts(d: AutosensData, t: Table, env: Env)
    requires WellFormed(t)
    ensures var c := Commit(d, t, env);
            WellFormed(c.table) &&
            c.record.time == d.time && Sound(c.record) == Sound(d) &&
            (forall k :: k != d.time ==> Find(c.table, k) == Find(t, k)) &&
            Find(c.table, d.time) == (if d.time < env.now then Some(c.record) else Find(t, d.time))
  {
    var c := Commit(d, t, env);
    if d.time < env.now {
      PutSemantics(t, d.time, c.record);
    }
  }

  /** The rest of the loop from index `i` down to 0. */
  datatype PassResult = Completed(table: Table) | StopRequested | Crashed

  function Pass(b: seq<Reading>, i: int, previous: Option<AutosensData>, t: Table, env: Env): PassResult
    requires -1 <= i && i + 3 < |b| && WellFormed(t) && ValidEnv(env)
    decreases i + 1
  {
    if i < 0 then Completed(t)
    else if env.isStopped(i) then StopRequested
    else
      match Bucket(i, b, previous, t, env)
      case Crash => Crashed
      case Skip(p) => Pass(b, i - 1, p, t, env)
      case Record(d) =>
        CommitFacts(d, t, env);
        var c := Commit(d, t, env);
        Pass(b, i - 1, Some(c.record), c.table, env)
  }

  /** A record added by the pass: from a usable bucket at that time, before now, and sound. */
  predicate Produced(k: int, d: AutosensData, b: seq<Reading>, env: Env)
  {
    d.time == k && k < env.now && env.hasProfile(k) && Sound(d) &&
    exists j :: 0 <= j && j + 3 < |b| && env.roundUpTime(b[j].timestamp) == k &&
                b[j].recalculated >= 39.0 && b[j + 3].recalculated >= 39.0 && d.bg == b[j].recalculated
  }

  /**
   * A completed pass keeps every record the store already had, and every
   * record it adds comes from a usable bucket before now and is sound.
   */
  lemma {:induction false} PassProvenance(b: seq<Reading>, i: int, previous: Option<AutosensData>, t: Table, env: Env)
    requires -1 <= i && i + 3 < |b| && WellFormed(t) && ValidEnv(env)
    ensures var r := Pass(b, i, previous, t, env);
            r.Completed? ==>
              (forall k :: Find(t, k).Some? ==> Find(r.table, k) == Find(t, k)) &&
              (forall k :: Find(r.table, k).Some? && Find(t, k).None? ==> Produced(k, Find(r.table, k).value, b, env))
    decreases i + 1
  {
    if i >= 0 && !env.isStopped(i) {
      match Bucket(i, b, previous, t, env)
      case Crash =>
      case Skip(p) =>
        PassProvenance(b, i - 1, p, t, env);
      case Record(d) =>
        BucketArithmetic(i, b, previous, t, env);
        BucketSound(i, b, previous, t, env);
        CommitFacts(d, t, env);
        var c := Commit(d, t, env);
        PassProvenance(b, i - 1, Some(c.record), c.table, env);
        var r := Pass(b, i, previous, t, env);
        assert r == Pass(b, i - 1, Some(c.record), c.table, env);
        if r.Completed? {
          forall k | Find(r.table, k).Some? && Find(t, k).None?
            ensures Produced(k, Find(r.table, k).value, b, env)
          {
            if k == d.time && d.time < env.now {
              assert Find(r.table, k) == Some(c.record);
              assert env.roundUpTime(b[i].timestamp) == k;
            }
          }
        }
    }
  }

  /** Bucket `j` is one the pass must give a record for: at or before now as rounded, before now, with a profile, both values at least 39. */
  predicate Usable(j: int, b: seq<Reading>, env: Env)
  {
    0 <= j && j + 3 < |b| &&
    var bgTime := env.roundUpTime(b[j].timestamp);
    bgTime <= env.roundUpTime(env.now) && bgTime < env.now && env.hasProfile(bgTime) &&
    b[j].recalculated >= 39.0 && b[j + 3].recalculated >= 39.0
  }

  /** A completed pass keeps a record under every time the store had one. */
  lemma PassKeeps(b: seq<Reading>, i: int, previous: Option<AutosensData>, t: Table, env: Env, k: int)
    requires -1 <= i && i + 3 < |b| && WellFormed(t) && ValidEnv(env)
    requires Pass(b, i, previous, t, env).Completed? && Find(t, k).Some?
    ensures Find(Pass(b, i, previous, t, env).table, k).Some?
  {
    PassProvenance(b, i, previous, t, env);
  }

  /**
   * One turn of a completed walk: the rest of the walk starts from a well-formed
   * store, which has a record under the bucket's time when the bucket is usable.
   */
  lemma PassStep(b: seq<Reading>, i: int, previous: Option<AutosensData>, t: Table, env: Env)
    returns (nextPrevious: Option<AutosensData>, nextTable: Table)
    requires 0 <= i && i + 3 < |b| && WellFormed(t) && ValidEnv(env)
    requires Pass(b, i, previous, t, env).Completed?
    ensures WellFormed(nextTable)
    ensures Pass(b, i, previous, t, env) == Pass(b, i - 1, nextPrevious, nextTable, env)
    ensures Usable(i, b, env) ==> Find(nextTable, env.roundUpTime(b[i].timestamp)).Some?
  {
    var o := Bucket(i, b, previous, t, env);
    if o.Skip? {
      nextPrevious, nextTable := o.previous, t;
    } else {
      BucketArithmetic(i, b, previous, t, env);
      CommitFacts(o.data, t, env);
      var c := Commit(o.data, t, env);
      nextPrevious, nextTable := Some(c.record), c.table;
    }
  }

  /**
   * Conversely, a completed pass leaves a record under the time of every
   * usable bucket it walked: one the store already had, or the one it computed.
   */
  lemma {:induction false} PassCoverage(b: seq<Reading>, i: int, previous: Option<AutosensData>, t: Table, env: Env)
    requires -1 <= i && i + 3 < |b| && WellFormed(t) && ValidEnv(env)
    ensures var r := Pass(b, i, previous, t, env);
            r.Completed? ==>
              forall j :: 0 <= j <= i && Usable(j, b, env) ==> Find(r.table, env.roundUpTime(b[j].timestamp)).Some?
    decreases i + 1
  {
    if i >= 0 && Pass(b, i, previous, t, env).Completed? {
      var nextPrevious, nextTable := PassStep(b, i, previous, t, env);
      PassCoverage(b, i - 1, nextPrevious, nextTable, env);
      var rest := Pass(b, i - 1, nextPrevious, nextTable, env);
      forall j | 0 <= j <= i && Usable(j, b, env)
        ensures Find(rest.table, env.roundUpTime(b[j].timestamp)).Some?
      {
        if j == i {
          PassKeeps(b, i - 1, nextPrevious, nextTable, env, env.roundUpTime(b[i].timestamp));
        }
      }
    }
  }

  /* ---------------- the worker ---------------- */

  datatype WorkResult = Success | SuccessWithError(error: string) | Failure(error: string) | Thrown

  datatype WorkOutcome = WorkOutcome(result: WorkResult, ads: Ads)

  /** `doWorkAndLog` for a present input, as a function of the calculator's store. */
  function Work(ads: Ads, reason: string, env: Env): WorkOutcome
    requires WellFormed(ads.table) && ValidEnv(env)
  {
    if !env.profileValid then WorkOutcome(SuccessWithError("app still initializing"), ads)
    else if ads.bucketedData.None? || |ads.bucketedData.value| < 3 then
      WorkOutcome(SuccessWithError("Aborting calculation thread (No bucketed data available): " + reason), ads)
    else
      var b := ads.bucketedData.value;
      var previous := Find(ads.table, env.roundUpTime(b[|b| - 3].timestamp));
      match Pass(b, |b| - 4, previous, ads.table, env)
      case Completed(t) => WorkOutcome(Success, Ads(ads.bucketedData, t))
      case StopRequested => WorkOutcome(Failure("Aborting calculation thread (trigger): " + reason), ads)
      case Crashed => WorkOutcome(Thrown, ads)
  }

  /**
   * The store is replaced only by a run that completes; after one, every
   * record it had is still there, every new one comes from a usable
   * bucket before now, and every usable bucket has a record.
   */
  lemma WorkReplacesOnlyOnSuccess(ads: Ads, reason: string, env: Env)
    requires WellFormed(ads.table) && ValidEnv(env)
    ensures var w := Work(ads, reason, env);
            (w.result != Success ==> w.ads == ads) &&
            (w.result == Success ==>
               w.ads.bucketedData == ads.bucketedData &&
               (forall k :: Find(ads.table, k).Some? ==> Find(w.ads.table, k) == Find(ads.table, k)) &&
               (forall k :: Find(w.ads.table, k).Some? && Find(ads.table, k).None? ==>
                  Produced(k, Find(w.ads.table, k).value, ads.bucketedData.value, env)) &&
               (forall j :: Usable(j, ads.bucketedData.value, env) ==>
                  Find(w.ads.table, env.roundUpTime(ads.bucketedData.value[j].timestamp)).Some?))
  {
    if env.profileValid && ads.bucketedData.Some? && |ads.bucketedData.value| >= 3 {
      var b := ads.bucketedData.value;
      PassProvenance(b, |b| - 4, Find(ads.table, env.roundUpTime(b[|b| - 3].timestamp)), ads.table, env);
      PassCoverage(b, |b| - 4, Find(ads.table, env.roundUpTime(b[|b| - 3].timestamp)), ads.table, env);
    }
  }

  /** The calculator whose store the worker replaces. */
  class IobCobCalculator {
    var ads: Ads

    constructor (ads0: Ads)
      ensures ads == ads0
    {
      ads := ads0;
    }
  }

  /**
   * `doWorkAndLog`: without input data nothing happens; otherwise the result
   * and the calculator's store are those of `Work` — the store is touched
   * only when the pass completes.
   */
  method DoWorkAndLog(calculator: IobCobCalculator?, reason: string, env: Env) returns (r: WorkResult)
    requires ValidEnv(env)
    requires calculator != null ==> WellFormed(calculator.ads.table)
    modifies calculator
    ensures calculator == null ==> r == SuccessWithError("missing input data")
    ensures calculator != null ==> r == Work(old(calculator.ads), reason, env).result && calculator.ads == Work(old(calculator.ads), reason, env).ads
    ensures calculator != null && r != Success ==> calculator.ads == old(calculator.ads)
  {
    if calculator == null {
      return SuccessWithError("missing input data");
    }
    if !env.profileValid {
      return SuccessWithError("app still initializing");
    }
    var ads := calculator.ads;
    var bucketedData := ads.bucketedData;
    var table := ads.table;
    if bucketedData.None? || |bucketedData.value| < 3 {
      return SuccessWithError("Aborting calculation thread (No bucketed data available): " + reason);
    }
    var b := bucketedData.value;
    var prevDataTime := env.roundUpTime(b[|b| - 3].timestamp);
    var previous := Find(table, prevDataTime);
    var i := |b| - 4;
    while i >= 0
      invariant -1 <= i && i + 3 < |b|
      invariant WellFormed(table)
      invariant calculator.ads == old(calculator.ads)
      invariant Pass(b, i, previous, table, env) == Pass(b, |b| - 4, Find(ads.table, prevDataTime), ads.table, env)
      decreases i + 1
    {
      if env.isStopped(i) {
        return Failure("Aborting calculation thread (trigger): " + reason);
      }
      ghost var rest := Pass(b, i, previous, table, env);
      var o := ComputeBucket(i, b, previous, table, env);
      match o {
        case Crash =>
          return Thrown;
        case Skip(p) =>
          previous := p;
        case Record(d) =>
          CommitFacts(d, table, env);
          ghost var c := Commit(d, table, env);
          var stored := d.time < env.now;
          var seen := if stored then Put(table, d.time, d) else table;
          var sensitivity := env.detectSensitivity(seen, env.detectionStart, d.time);
          var record := d.(autosensResult := Some(sensitivity));
          previous := Some(record);
          if stored {
            table := Put(table, d.time, record);
          }
          assert record == c.record && table == c.table;
      }
      assert rest == Pass(b, i - 1, previous, table, env);
      i := i - 1;
    }
    calculator.ads := Ads(bucketedData, table);
    r := Success;
  }
}
