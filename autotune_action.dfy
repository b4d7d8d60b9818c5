/**
 * The automation action "run Autotune": its settings (profile to tune, number
 * of days, weekday filter), their JSON form, and the request it hands to the
 * Autotune plugin.
 */
module AutotuneAction {

  /** A JSON value as far as these objects use it. */
  datatype Json = JBool(b: bool) | JInt(n: int) | JString(s: string) | JObject(fields: map<string, Json>)

  type JsonObject = map<string, Json>

  /** `WeekDay.DayOfWeek.entries[i].name`. */
  function DayName(i: nat): string
    requires i < 7
  {
    ["MONDAY", "TUESDAY", "WEDNESDAY", "THURSDAY", "FRIDAY", "SATURDAY", "SUNDAY"][i]
  }

  lemma DayNamesDistinct(i: nat, j: nat)
    requires i < 7 && j < 7 && i != j
    ensures DayName(i) != DayName(j)
  {
  }

  lemma DayNamesAreNotSettingKeys(i: nat)
    requires i < 7
    ensures DayName(i) != "profileToTune" && DayName(i) != "tunedays"
  {
  }

  /** `JsonHelper.safeGetBoolean(o, key, default)`: a boolean under `key`, else the default. */
  function SafeGetBoolean(o: JsonObject, key: string, default: bool): bool
  {
    if key in o && o[key].JBool? then o[key].b else default
  }

  /** `JsonHelper.safeGetString(o, key, default)`. */
  function SafeGetString(o: JsonObject, key: string, default: string): string
  {
    if key in o && o[key].JString? then o[key].s else default
  }

  /** `JsonHelper.safeGetInt(o, key)`: 0 when absent. */
  function SafeGetInt(o: JsonObject, key: string): int
  {
    if key in o && o[key].JInt? then o[key].n else 0
  }

  /** The first `n` weekday flags put into `m` under their day names. */
  function PutDays(m: JsonObject, weekdays: seq<bool>, n: nat): JsonObject
    requires n <= |weekdays| && n <= 7
  {
    if n == 0 then m else PutDays(m, weekdays, n - 1)[DayName(n - 1) := JBool(weekdays[n - 1])]
  }

  /** The "data" object `toJSON` writes. */
  function DataObject(profileName: string, tuneDays: int, weekdays: seq<bool>): JsonObject
    requires |weekdays| == 7
  {
    PutDays(map["profileToTune" := JString(profileName), "tunedays" := JInt(tuneDays)], weekdays, 7)
  }

  lemma {:induction false} PutDaysLookup(m: JsonObject, weekdays: seq<bool>, n: nat)
    requires n <= |weekdays| && n <= 7
    ensures forall i :: 0 <= i < n ==> DayName(i) in PutDays(m, weekdays, n) && PutDays(m, weekdays, n)[DayName(i)] == JBool(weekdays[i])
    ensures forall k :: (forall i :: 0 <= i < n ==> k != DayName(i)) ==>
              (k in PutDays(m, weekdays, n) <==> k in m) && (k in m ==> PutDays(m, weekdays, n)[k] == m[k])
  {
    if n > 0 {
      PutDaysLookup(m, weekdays, n - 1);
      forall i | 0 <= i < n - 1 ensures DayName(i) != DayName(n - 1) {
        DayNamesDistinct(i, n - 1);
      }
    }
  }

  /**
   * The "data" object holds the profile name, the day count and one flag per
   * weekday under its name, and nothing else.
   */
  lemma DataObjectContents(profileName: string, tuneDays: int, weekdays: seq<bool>)
    requires |weekdays| == 7
    ensures var d := DataObject(profileName, tuneDays, weekdays);
            "profileToTune" in d && d["profileToTune"] == JString(profileName) &&
            "tunedays" in d && d["tunedays"] == JInt(tuneDays) &&
            (forall i :: 0 <= i < 7 ==> DayName(i) in d && d[DayName(i)] == JBool(weekdays[i])) &&
            forall k :: k in d ==> k == "profileToTune" || k == "tunedays" || exists i :: 0 <= i < 7 && k == DayName(i)
  {
    var base := map["profileToTune" := JString(profileName), "tunedays" := JInt(tuneDays)];
    PutDaysLookup(base, weekdays, 7);
    forall i | 0 <= i < 7 ensures DayName(i) != "profileToTune" && DayName(i) != "tunedays" {
      DayNamesAreNotSettingKeys(i);
    }
    var d := DataObject(profileName, tuneDays, weekdays);
    assert forall i :: 0 <= i < 7 ==> "profileToTune" != DayName(i);
    assert forall i :: 0 <= i < 7 ==> "tunedays" != DayName(i);
    assert "profileToTune" in d && d["profileToTune"] == JString(profileName);
    assert "tunedays" in d && d["tunedays"] == JInt(tuneDays);
  }

  /** The weekday filter `fromJSON` reads: each day's flag, true when missing. */
  function DecodedWeekdays(o: JsonObject): (w: seq<bool>)
    ensures |w| == 7
  {
    seq(7, i requires 0 <= i < 7 => SafeGetBoolean(o, DayName(i), true))
  }

  /** The day count `fromJSON` settles on: the stored one, or the preference when it is 0 or missing. */
  function DecodedTuneDays(o: JsonObject, defaultTuneDays: int): int
  {
    if SafeGetInt(o, "tunedays") == 0 then defaultTuneDays else SafeGetInt(o, "tunedays")
  }

  /**
   * Reading back what `toJSON` wrote restores the profile name and the weekday
   * flags, and the day count when it is nonzero (the preference otherwise).
   */
  lemma RoundTrip(profileName: string, tuneDays: int, weekdays: seq<bool>, defaultTuneDays: int)
    requires |weekdays| == 7
    ensures var d := DataObject(profileName, tuneDays, weekdays);
            DecodedWeekdays(d) == weekdays &&
            SafeGetString(d, "profileToTune", "") == profileName &&
            DecodedTuneDays(d, defaultTuneDays) == (if tuneDays == 0 then defaultTuneDays else tuneDays)
  {
    DataObjectContents(profileName, tuneDays, weekdays);
  }

  /** An empty object decodes to every weekday on, no profile name and the preferred day count. */
  lemma EmptyObjectDefaults(defaultTuneDays: int)
    ensures DecodedWeekdays(map[]) == [true, true, true, true, true, true, true]
    ensures SafeGetString(map[], "profileToTune", "") == ""
    ensures DecodedTuneDays(map[], defaultTuneDays) == defaultTuneDays
  {
  }

  /** What `doAction` does: skip when a calculation is running, otherwise request a run. */
  datatype RunRequest =
    | Cancelled
    | Run(daysBack: int, autoSwitch: bool, profileName: string, weekdays: seq<bool>)

  /** `isValid()`: `first()` on an empty plugin list throws. */
  datatype Validity = Valid(valid: bool) | NoSuchElement

  /** The profile name passed to Autotune: "" stands for the active profile. */
  function ProfileToTune(selected: string, activeLabel: string): (name: string)
    ensures selected == activeLabel ==> name == ""
    ensures selected != activeLabel ==> name == selected
  {
    if selected == activeLabel then "" else selected
  }

  /**
   * `isValid()`: a profile must exist and the first registered Autotune plugin
   * must be enabled; with a profile and no such plugin the lookup throws.
   */
  function IsValid(hasProfile: bool, autotunePluginsEnabled: seq<bool>): (r: Validity)
    ensures !hasProfile ==> r == Valid(false)
    ensures hasProfile && autotunePluginsEnabled == [] ==> r == NoSuchElement
    ensures hasProfile && autotunePluginsEnabled != [] ==> r == Valid(autotunePluginsEnabled[0])
  {
    if !hasProfile then Valid(false)
    else if autotunePluginsEnabled == [] then NoSuchElement
    else Valid(autotunePluginsEnabled[0])
  }

  class ActionRunAutotune {
    var defaultValue: int
    var profileName: string
    var daysBack: int
    const weekdays: array<bool>

    ghost predicate Valid()
      reads this
    {
      weekdays.Length == 7
    }

    constructor ()
      ensures Valid() && fresh(weekdays)
      ensures defaultValue == 0 && profileName == "" && daysBack == 0
      ensures weekdays[..] == [true, true, true, true, true, true, true]
    {
      defaultValue, profileName, daysBack := 0, "", 0;
      weekdays := new bool[7](_ => true);
    }

    /** `toJSON()`: the type name and the "data" object (as a JSON object rather than its text). */
    method ToJSON() returns (json: JsonObject)
      requires Valid()
      ensures json.Keys == {"type", "data"}
      ensures json["type"] == JString("ActionRunAutotune")
      ensures json["data"] == JObject(DataObject(profileName, daysBack, weekdays[..]))
    {
      var data := map["profileToTune" := JString(profileName), "tunedays" := JInt(daysBack)];
      ghost var base := data;
      var i := 0;
      while i < weekdays.Length
        invariant 0 <= i <= 7
        invariant data == PutDays(base, weekdays[..], i)
      {
        data := data[DayName(i) := JBool(weekdays[i])];
        i := i + 1;
      }
      json := map["type" := JString("ActionRunAutotune"), "data" := JObject(data)];
    }

    /**
     * `fromJSON(data)`: every weekday flag (true when missing), the profile
     * name ("" when missing) and the day count (the AutotuneDefaultTuneDays
     * preference when 0 or missing); returns the action itself.
     */
    method FromJSON(o: JsonObject, defaultTuneDays: int) returns (self: ActionRunAutotune)
      requires Valid()
      modifies this, weekdays
      ensures self == this && Valid()
      ensures weekdays[..] == DecodedWeekdays(o)
      ensures profileName == SafeGetString(o, "profileToTune", "")
      ensures defaultValue == DecodedTuneDays(o, defaultTuneDays) && daysBack == defaultValue
    {
      var i := 0;
      while i < weekdays.Length
        invariant 0 <= i <= 7
        invariant forall k :: 0 <= k < i ==> weekdays[k] == SafeGetBoolean(o, DayName(k), true)
      {
        weekdays[i] := SafeGetBoolean(o, DayName(i), true);
        i := i + 1;
      }
      profileName := SafeGetString(o, "profileToTune", "");
      defaultValue := SafeGetInt(o, "tunedays");
      if defaultValue == 0 {
        defaultValue := defaultTuneDays;
      }
      daysBack := defaultValue;
      self := this;
    }

    /** `doAction`: the request handed to Autotune (which runs on a background thread). */
    method DoAction(activeLabel: string, autoSwitch: bool, calculationRunning: bool) returns (request: RunRequest)
      requires Valid()
      ensures calculationRunning ==> request == Cancelled
      ensures !calculationRunning ==>
                request == Run(daysBack, autoSwitch, ProfileToTune(profileName, activeLabel), weekdays[..])
    {
      var name := if profileName == activeLabel then "" else profileName;
      if calculationRunning {
        request := Cancelled;
      } else {
        request := Run(daysBack, autoSwitch, name, weekdays[..]);
      }
    }
  }
}
