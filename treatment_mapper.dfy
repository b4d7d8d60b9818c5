/**
 * Conversion between the flat Nightscout v3 treatment record and the typed
 * treatments the app works with: an ordered decision tree for decoding and a
 * per-subtype encoder.  Enumerations that the source parses from text (units,
 * bolus type, target reason, basal type, meter type, offline reason) are kept
 * as their text; JSON payloads are kept as uninterpreted text.
 */
module TreatmentMapper {
  import opened Wrappers

  datatype EventType =
    | MEAL_BOLUS | CORRECTION_BOLUS | CARBS_CORRECTION | TEMPORARY_TARGET | TEMPORARY_BASAL
    | COMBO_BOLUS | NOTE | PROFILE_SWITCH | BOLUS_WIZARD | CANNULA_CHANGE | INSULIN_CHANGE
    | SENSOR_CHANGE | FINGER_STICK_BG_VALUE | NONE | ANNOUNCEMENT | QUESTION | EXERCISE
    | PUMP_BATTERY_CHANGE | APS_OFFLINE
    | OtherEvent(name: string)   // every other event type of the enumeration

  /** The event types decoded as therapy events. */
  predicate IsTherapyEventType(e: EventType)
  {
    e == CANNULA_CHANGE || e == INSULIN_CHANGE || e == SENSOR_CHANGE || e == FINGER_STICK_BG_VALUE ||
    e == NONE || e == ANNOUNCEMENT || e == QUESTION || e == EXERCISE || e == NOTE ||
    e == PUMP_BATTERY_CHANGE
  }

  /** Text of `NSTemporaryTarget.Reason.CUSTOM`. */
  const CUSTOM_REASON: string := "Custom"

  const MILLIS_PER_MINUTE: int := 60000

  /** The flat record exchanged with Nightscout; an absent field is `None`. */
  datatype RemoteTreatment = RemoteTreatment(
    date: Option<int>,
    fallbackTimestamp: int,   // what `timestamp()` falls back on when `date` is absent
    device: Option<string>, identifier: Option<string>, units: Option<string>,
    srvModified: Option<int>, srvCreated: Option<int>, utcOffset: Option<int>,
    subject: Option<string>, isReadOnly: Option<bool>, isValid: Option<bool>,
    eventType: Option<EventType>, notes: Option<string>,
    pumpId: Option<int>, endId: Option<int>, pumpType: Option<string>, pumpSerial: Option<string>,
    insulin: Option<real>, typeName: Option<string>, isBasalInsulin: Option<bool>,
    carbs: Option<real>, duration: Option<int>, durationInMilliseconds: Option<int>,
    targetBottom: Option<real>, targetTop: Option<real>, reason: Option<string>,
    extendedEmulated: Option<RemoteTreatment>,
    absolute: Option<real>, percent: Option<real>, rate: Option<real>,
    profileJson: Option<string>, originalProfileName: Option<string>,
    originalCustomizedName: Option<string>, originalTimeshift: Option<int>,
    originalPercentage: Option<int>, originalDuration: Option<int>, originalEnd: Option<int>,
    profile: Option<string>, timeshift: Option<int>, percentage: Option<int>,
    bolusCalculatorResult: Option<string>, glucose: Option<real>, enteredBy: Option<string>,
    glucoseType: Option<string>, enteredinsulin: Option<real>, isEmulatingTempBasal: Option<bool>,
    relative: Option<real>, splitNow: Option<int>, splitExt: Option<int>)

  /** A record with every field absent. */
  const Blank: RemoteTreatment := RemoteTreatment(
    None, 0, None, None, None, None, None, None, None, None, None, None, None, None, None, None, None,
    None, None, None, None, None, None, None, None, None, None, None, None, None, None, None, None,
    None, None, None, None, None, None, None, None, None, None, None, None, None, None, None, None)

  /** The fields every typed treatment shares. */
  datatype Header = Header(
    date: int, device: Option<string>, identifier: Option<string>, units: Option<string>,
    srvModified: Option<int>, srvCreated: Option<int>, utcOffset: int, subject: Option<string>,
    isReadOnly: bool, isValid: bool, eventType: EventType, notes: Option<string>,
    pumpId: Option<int>, endId: Option<int>, pumpType: Option<string>, pumpSerial: Option<string>)

  datatype ExtendedBolus = ExtendedBolus(
    header: Header, enteredinsulin: real, duration: int, isEmulatingTempBasal: Option<bool>, rate: Option<real>)

  datatype Treatment =
    | NSBolus(header: Header, insulin: real, bolusType: Option<string>, isBasalInsulin: bool)
    | NSCarbs(header: Header, carbs: real, carbsDuration: Option<int>)
    | NSTemporaryTarget(header: Header, duration: int, targetBottom: real, targetTop: real, reason: Option<string>)
    | NSTemporaryBasal(header: Header, duration: int, isAbsolute: bool, rate: real, basalType: Option<string>,
                       absolute: Option<real>, percent: Option<real>, extendedEmulated: Option<ExtendedBolus>)
    | NSExtendedBolus(bolus: ExtendedBolus)
    | NSEffectiveProfileSwitch(header: Header, profileJson: string, originalProfileName: string,
                               originalCustomizedName: string, originalTimeshift: int,
                               originalPercentage: int, originalDuration: int, originalEnd: int)
    | NSProfileSwitch(header: Header, switchJson: Option<string>, profile: string,
                      switchOriginalProfileName: Option<string>, switchOriginalDuration: Option<int>,
                      switchDuration: Option<int>, timeShift: Option<int>, percentage: Option<int>)
    | NSBolusWizard(header: Header, bolusCalculatorResult: string, glucose: Option<real>)
    | NSTherapyEvent(header: Header, duration: int, therapyGlucose: Option<real>, enteredBy: Option<string>,
                     glucoseType: Option<string>)
    | NSOfflineEvent(header: Header, duration: int, reason: Option<string>)
    | OtherTreatment(header: Header)   // any other implementation of the treatment interface
  {
    function Header(): Header
    {
      if NSExtendedBolus? then bolus.header else header
    }
  }

  /** `timestamp()`: the record's date, else its fallback. */
  function Timestamp(r: RemoteTreatment): int
  {
    if r.date.Some? then r.date.value else r.fallbackTimestamp
  }

  /** `durationInMilliseconds ?: duration?.let { MINUTES.toMillis(it) }`. */
  function DurationMillis(r: RemoteTreatment): (d: Option<int>)
    ensures r.durationInMilliseconds.Some? ==> d == r.durationInMilliseconds
    ensures r.durationInMilliseconds.None? && r.duration.Some? ==> d == Some(r.duration.value * MILLIS_PER_MINUTE)
    ensures d.None? <==> r.durationInMilliseconds.None? && r.duration.None?
  {
    if r.durationInMilliseconds.Some? then r.durationInMilliseconds
    else if r.duration.Some? then Some(r.duration.value * MILLIS_PER_MINUTE)
    else None
  }

  /** `MILLISECONDS.toMinutes`: division truncating toward zero. */
  function MillisToMinutes(ms: int): (m: int)
    ensures ms >= 0 ==> 0 <= m * MILLIS_PER_MINUTE <= ms < (m + 1) * MILLIS_PER_MINUTE
    ensures ms < 0 ==> (m - 1) * MILLIS_PER_MINUTE < ms <= m * MILLIS_PER_MINUTE <= 0
  {
    if ms >= 0 then ms / MILLIS_PER_MINUTE else -((-ms) / MILLIS_PER_MINUTE)
  }

  /** The shared fields of a decoded treatment: absent flags and offset take their defaults. */
  function DecodeHeader(r: RemoteTreatment, date: int, eventType: EventType): (h: Header)
    ensures h.isValid <==> r.isValid != Some(false)
    ensures h.isReadOnly <==> r.isReadOnly == Some(true)
    ensures h.utcOffset == r.utcOffset.GetOr(0)
    ensures h.date == date && h.eventType == eventType
  {
    Header(date, r.device, r.identifier, r.units, r.srvModified, r.srvCreated, r.utcOffset.GetOr(0),
           r.subject, r.isReadOnly == Some(true), r.isValid != Some(false), eventType, r.notes,
           r.pumpId, r.endId, r.pumpType, r.pumpSerial)
  }

  function DecodeTemporaryTarget(r: RemoteTreatment, ts: int): Option<Treatment>
  {
    if ts == 0 then None
    else if DurationMillis(r).None? then None
    else if DurationMillis(r).value == 0 then
      Some(NSTemporaryTarget(DecodeHeader(r, ts, TEMPORARY_TARGET), 0, 0.0, 0.0, Some(CUSTOM_REASON)))
    else if r.targetBottom.None? || r.targetTop.None? then None
    else
      Some(NSTemporaryTarget(DecodeHeader(r, ts, TEMPORARY_TARGET), DurationMillis(r).value,
                             r.targetBottom.value, r.targetTop.value, r.reason))
  }

  /** A temporary basal that carries an emulated extended bolus becomes that extended bolus. */
  function DecodeEmulated(r: RemoteTreatment, ts: int, e: RemoteTreatment): Treatment
  {
    var h := Header(ts, r.device, r.identifier, e.units, r.srvModified, r.srvCreated, r.utcOffset.GetOr(0),
                    r.subject, e.isReadOnly == Some(true), e.isValid != Some(false), COMBO_BOLUS, e.notes,
                    e.pumpId, e.endId, e.pumpType, e.pumpSerial);
    var duration := if e.durationInMilliseconds.Some? then e.durationInMilliseconds.value
                    else e.duration.GetOr(0) * MILLIS_PER_MINUTE;
    NSExtendedBolus(ExtendedBolus(h, e.enteredinsulin.GetOr(0.0), duration, e.isEmulatingTempBasal, r.rate))
  }

  function DecodeTemporaryBasal(r: RemoteTreatment, ts: int): Option<Treatment>
  {
    if ts == 0 then None
    else if r.absolute.None? && r.percent.None? then None
    else if DurationMillis(r).None? then None
    else if r.durationInMilliseconds == Some(0) then None
    else
      var rate := if r.absolute.Some? then r.absolute.value else r.percent.value + 100.0;
      Some(NSTemporaryBasal(DecodeHeader(r, ts, TEMPORARY_BASAL), DurationMillis(r).value,
                            r.absolute.Some?, rate, r.typeName, None, None, None))
  }

  function DecodeEffectiveProfileSwitch(r: RemoteTreatment, ts: int): Option<Treatment>
    requires r.originalProfileName.Some?
  {
    if ts == 0 || r.profileJson.None? || r.originalCustomizedName.None? || r.originalTimeshift.None? ||
       r.originalPercentage.None? || r.originalDuration.None? || r.originalEnd.None?
    then None
    else
      Some(NSEffectiveProfileSwitch(DecodeHeader(r, ts, NOTE), r.profileJson.value, r.originalProfileName.value,
                                    r.originalCustomizedName.value, r.originalTimeshift.value,
                                    r.originalPercentage.value, r.originalDuration.value, r.originalEnd.value))
  }

  /**
   * `RemoteTreatment.toTreatment()`: the first matching branch decides; a
   * record no branch accepts decodes to `None`.
   */
  function ToTreatment(r: RemoteTreatment): (t: Option<Treatment>)
    ensures r.insulin.Some? && r.insulin.value > 0.0 ==> t.Some? && t.value.NSBolus?
    ensures !(r.insulin.Some? && r.insulin.value > 0.0) && r.carbs.Some? && r.carbs.value != 0.0 ==>
              t.Some? && t.value.NSCarbs?
    ensures t.Some? && !t.value.NSExtendedBolus? ==>
              t.value.header.isValid == (r.isValid != Some(false)) &&
              t.value.header.isReadOnly == (r.isReadOnly == Some(true)) &&
              t.value.header.utcOffset == r.utcOffset.GetOr(0) &&
              t.value.header.date == Timestamp(r)
  {
    var ts := Timestamp(r);
    if r.insulin.Some? && r.insulin.value > 0.0 then
      Some(NSBolus(DecodeHeader(r, ts, r.eventType.GetOr(MEAL_BOLUS)), r.insulin.value, r.typeName,
                   r.isBasalInsulin == Some(true)))
    else if r.carbs.Some? && r.carbs.value != 0.0 then
      Some(NSCarbs(DecodeHeader(r, ts, r.eventType.GetOr(CARBS_CORRECTION)), r.carbs.value,
                   Some(DurationMillis(r).GetOr(0))))
    else if r.eventType == Some(TEMPORARY_TARGET) then
      DecodeTemporaryTarget(r, ts)
    else if r.eventType == Some(TEMPORARY_BASAL) && r.extendedEmulated.Some? then
      Some(DecodeEmulated(r, ts, r.extendedEmulated.value))
    else if r.eventType == Some(TEMPORARY_BASAL) then
      DecodeTemporaryBasal(r, ts)
    else if r.eventType == Some(NOTE) && r.originalProfileName.Some? then
      DecodeEffectiveProfileSwitch(r, ts)
    else if r.eventType == Some(PROFILE_SWITCH) then
      if ts == 0 || r.profile.None? then None
      else
        Some(NSProfileSwitch(DecodeHeader(r, ts, PROFILE_SWITCH), r.profileJson, r.profile.value,
                             r.originalProfileName, r.originalDuration, Some(DurationMillis(r).GetOr(0)),
                             r.timeshift, r.percentage))
    else if r.eventType == Some(BOLUS_WIZARD) then
      if ts == 0 || r.bolusCalculatorResult.None? then None
      else Some(NSBolusWizard(DecodeHeader(r, ts, BOLUS_WIZARD), r.bolusCalculatorResult.value, r.glucose))
    else if r.eventType.Some? && IsTherapyEventType(r.eventType.value) then
      if ts == 0 then None
      else Some(NSTherapyEvent(DecodeHeader(r, ts, r.eventType.value), DurationMillis(r).GetOr(0), r.glucose,
                               r.enteredBy, r.glucoseType))
    else if r.eventType == Some(APS_OFFLINE) then
      if ts == 0 then None
      else Some(NSOfflineEvent(DecodeHeader(r, ts, APS_OFFLINE), DurationMillis(r).GetOr(0), r.reason))
    else if r.eventType == Some(COMBO_BOLUS) then
      if ts == 0 || r.enteredinsulin.None? then None
      else Some(NSExtendedBolus(ExtendedBolus(DecodeHeader(r, ts, COMBO_BOLUS), r.enteredinsulin.value,
                                              DurationMillis(r).GetOr(0), r.isEmulatingTempBasal, r.rate)))
    else
      None
  }

  /** The shared fields written back; bolus and carbs records leave the server times out. */
  function EncodeHeader(h: Header, withServerTimes: bool): (r: RemoteTreatment)
    ensures r.date == Some(h.date) && r.eventType == Some(h.eventType)
    ensures withServerTimes ==> r.srvModified == h.srvModified && r.srvCreated == h.srvCreated
    ensures !withServerTimes ==> r.srvModified.None? && r.srvCreated.None?
  {
    Blank.(date := Some(h.date), device := h.device, identifier := h.identifier, units := h.units,
           srvModified := if withServerTimes then h.srvModified else None,
           srvCreated := if withServerTimes then h.srvCreated else None,
           utcOffset := Some(h.utcOffset), subject := h.subject, isReadOnly := Some(h.isReadOnly),
           isValid := Some(h.isValid), eventType := Some(h.eventType), notes := h.notes,
           pumpId := h.pumpId, endId := h.endId, pumpType := h.pumpType, pumpSerial := h.pumpSerial)
  }

  /** An extended bolus is written with its rate as `relative` and a 0/100 split. */
  function EncodeExtendedBolus(b: ExtendedBolus): (r: RemoteTreatment)
    ensures r.relative == b.rate && r.rate.None? && r.splitNow == Some(0) && r.splitExt == Some(100)
    ensures r.durationInMilliseconds == Some(b.duration)
  {
    EncodeHeader(b.header, true).(
      duration := Some(MillisToMinutes(b.duration)), durationInMilliseconds := Some(b.duration),
      splitNow := Some(0), splitExt := Some(100), enteredinsulin := Some(b.enteredinsulin),
      relative := b.rate, isEmulatingTempBasal := b.isEmulatingTempBasal)
  }

  /** `NSTreatment.toRemoteTreatment()`. */
  function ToRemoteTreatment(t: Treatment): (r: Option<RemoteTreatment>)
    ensures r.None? <==> t.OtherTreatment?
    ensures r.Some? ==> r.value.date == Some(t.Header().date) && r.value.eventType == Some(t.Header().eventType)
  {
    match t
    case NSBolus(h, insulin, bolusType, isBasalInsulin) =>
      Some(EncodeHeader(h, false).(insulin := Some(insulin), typeName := bolusType,
                                   isBasalInsulin := Some(isBasalInsulin)))
    case NSCarbs(h, carbs, duration) =>
      Some(EncodeHeader(h, false).(carbs := Some(carbs),
                                   duration := if duration.Some? then Some(MillisToMinutes(duration.value)) else None,
                                   durationInMilliseconds := duration))
    case NSTemporaryTarget(h, duration, bottom, top, reason) =>
      Some(EncodeHeader(h, true).(duration := Some(MillisToMinutes(duration)), durationInMilliseconds := Some(duration),
                                  targetBottom := Some(bottom), targetTop := Some(top), reason := reason))
    case NSTemporaryBasal(h, duration, _, rate, basalType, absolute, percent, emulated) =>
      Some(EncodeHeader(h, true).(duration := Some(MillisToMinutes(duration)), durationInMilliseconds := Some(duration),
                                  absolute := absolute, percent := percent, rate := Some(rate), typeName := basalType,
                                  extendedEmulated := if emulated.Some? then Some(EncodeExtendedBolus(emulated.value))
                                                      else None))
    case NSEffectiveProfileSwitch(h, json, name, customized, timeshift, pct, origDuration, origEnd) =>
      Some(EncodeHeader(h, true).(profileJson := Some(json), originalProfileName := Some(name),
                                  originalCustomizedName := Some(customized), originalTimeshift := Some(timeshift),
                                  originalPercentage := Some(pct), originalDuration := Some(origDuration),
                                  originalEnd := Some(origEnd)))
    case NSProfileSwitch(h, json, profile, origName, origDuration, duration, timeShift, percentage) =>
      // `profileJson.toString()` on an absent payload writes the text "null"
      Some(EncodeHeader(h, true).(profileJson := Some(json.GetOr("null")), profile := Some(profile),
                                  originalProfileName := origName, originalDuration := origDuration,
                                  duration := if duration.Some? then Some(MillisToMinutes(duration.value)) else None,
                                  durationInMilliseconds := duration, timeshift := timeShift,
                                  percentage := percentage))
    case NSBolusWizard(h, result, glucose) =>
      Some(EncodeHeader(h, true).(bolusCalculatorResult := Some(result), glucose := glucose))
    case NSTherapyEvent(h, duration, glucose, enteredBy, glucoseType) =>
      Some(EncodeHeader(h, true).(duration := Some(MillisToMinutes(duration)), durationInMilliseconds := Some(duration),
                                  glucose := glucose, enteredBy := enteredBy, glucoseType := glucoseType))
    case NSOfflineEvent(h, duration, reason) =>
      Some(EncodeHeader(h, true).(duration := Some(MillisToMinutes(duration)), durationInMilliseconds := Some(duration),
                                  reason := reason))
    case NSExtendedBolus(b) =>
      Some(EncodeExtendedBolus(b))
    case OtherTreatment(_) =>
      None
  }

  /** `convertToRemoteAndBack()`. */
  function ConvertToRemoteAndBack(t: Treatment): Option<Treatment>
  {
    var r := ToRemoteTreatment(t);
    if r.None? then None else ToTreatment(r.value)
  }

  // ---------------------------------------------------------------------
  // Decoding rules

  /** Both duration fields absent: 0 for carbs, therapy and offline events; no treatment for targets and basals. */
  lemma MissingDurationDefaults(r: RemoteTreatment)
    requires r.duration.None? && r.durationInMilliseconds.None?
    ensures ToTreatment(r).Some? && ToTreatment(r).value.NSCarbs? ==> ToTreatment(r).value.carbsDuration == Some(0)
    ensures ToTreatment(r).Some? && (ToTreatment(r).value.NSTherapyEvent? || ToTreatment(r).value.NSOfflineEvent?) ==>
              ToTreatment(r).value.duration == 0
    ensures !(r.insulin.Some? && r.insulin.value > 0.0) && !(r.carbs.Some? && r.carbs.value != 0.0) &&
            (r.eventType == Some(TEMPORARY_TARGET) || (r.eventType == Some(TEMPORARY_BASAL) && r.extendedEmulated.None?)) ==>
              ToTreatment(r).None?
  {
  }

  /** The duration is the millisecond field when present, else minutes times 60000. */
  lemma DurationPrefersMilliseconds(r: RemoteTreatment)
    requires !(r.insulin.Some? && r.insulin.value > 0.0) && r.carbs.Some? && r.carbs.value != 0.0
    ensures r.durationInMilliseconds.Some? ==> ToTreatment(r).value.carbsDuration == r.durationInMilliseconds
    ensures r.durationInMilliseconds.None? && r.duration.Some? ==>
              ToTreatment(r).value.carbsDuration == Some(r.duration.value * MILLIS_PER_MINUTE)
  {
  }

  /** Temporary targets: no date, no duration or a missing bound give nothing; a zero duration is a cancel. */
  lemma TemporaryTargetDecoding(r: RemoteTreatment)
    requires !(r.insulin.Some? && r.insulin.value > 0.0) && !(r.carbs.Some? && r.carbs.value != 0.0)
    requires r.eventType == Some(TEMPORARY_TARGET)
    ensures Timestamp(r) == 0 ==> ToTreatment(r).None?
    ensures Timestamp(r) != 0 && DurationMillis(r) == Some(0) ==>
              ToTreatment(r) == Some(NSTemporaryTarget(DecodeHeader(r, Timestamp(r), TEMPORARY_TARGET), 0, 0.0, 0.0,
                                                       Some(CUSTOM_REASON)))
    ensures DurationMillis(r) != Some(0) && (r.targetBottom.None? || r.targetTop.None?) ==> ToTreatment(r).None?
    ensures ToTreatment(r).Some? && DurationMillis(r) != Some(0) ==>
              var t := ToTreatment(r).value;
              t.NSTemporaryTarget? && t.targetBottom == r.targetBottom.value && t.targetTop == r.targetTop.value &&
              Some(t.duration) == DurationMillis(r)
  {
  }

  /** Temporary basals: the rate is the absolute value, else percent + 100. */
  lemma TemporaryBasalDecoding(r: RemoteTreatment)
    requires !(r.insulin.Some? && r.insulin.value > 0.0) && !(r.carbs.Some? && r.carbs.value != 0.0)
    requires r.eventType == Some(TEMPORARY_BASAL) && r.extendedEmulated.None?
    ensures ToTreatment(r).Some? <==>
              Timestamp(r) != 0 && (r.absolute.Some? || r.percent.Some?) && DurationMillis(r).Some? &&
              r.durationInMilliseconds != Some(0)
    ensures ToTreatment(r).Some? ==>
              var t := ToTreatment(r).value;
              t.NSTemporaryBasal? && t.isAbsolute == r.absolute.Some? &&
              t.rate == (if r.absolute.Some? then r.absolute.value else r.percent.value + 100.0) &&
              Some(t.duration) == DurationMillis(r)
  {
  }

  /** A temporary basal carrying an emulated extended bolus decodes to an extended bolus of type COMBO_BOLUS. */
  lemma EmulatedExtendedBolusDecoding(r: RemoteTreatment)
    requires !(r.insulin.Some? && r.insulin.value > 0.0) && !(r.carbs.Some? && r.carbs.value != 0.0)
    requires r.eventType == Some(TEMPORARY_BASAL) && r.extendedEmulated.Some?
    ensures ToTreatment(r).Some? && ToTreatment(r).value.NSExtendedBolus?
    ensures var b := ToTreatment(r).value.bolus;
            b.header.eventType == COMBO_BOLUS && b.rate == r.rate &&
            b.enteredinsulin == r.extendedEmulated.value.enteredinsulin.GetOr(0.0) &&
            b.header.isValid == (r.extendedEmulated.value.isValid != Some(false))
  {
  }

  /** A NOTE naming an original profile is an effective profile switch or nothing, never a therapy event. */
  lemma NoteWithProfileIsNotTherapy(r: RemoteTreatment)
    requires !(r.insulin.Some? && r.insulin.value > 0.0) && !(r.carbs.Some? && r.carbs.value != 0.0)
    requires r.eventType == Some(NOTE) && r.originalProfileName.Some?
    ensures ToTreatment(r).None? || ToTreatment(r).value.NSEffectiveProfileSwitch?
    ensures r.profileJson.None? ==> ToTreatment(r).None?
  {
  }

  /** Every branch after carbs rejects a record without a date. */
  lemma ZeroTimestampIsRejected(r: RemoteTreatment)
    requires !(r.insulin.Some? && r.insulin.value > 0.0) && !(r.carbs.Some? && r.carbs.value != 0.0)
    requires Timestamp(r) == 0
    requires !(r.eventType == Some(TEMPORARY_BASAL) && r.extendedEmulated.Some?)
    ensures ToTreatment(r).None?
  {
  }

  /** Without insulin or carbs, an event type no branch handles decodes to nothing. */
  lemma UnhandledEventIsNull(r: RemoteTreatment)
    requires !(r.insulin.Some? && r.insulin.value > 0.0) && !(r.carbs.Some? && r.carbs.value != 0.0)
    requires r.eventType.None? || r.eventType.value.OtherEvent? || r.eventType.value in
               {MEAL_BOLUS, CORRECTION_BOLUS, CARBS_CORRECTION}
    ensures ToTreatment(r).None?
  {
  }

  // ---------------------------------------------------------------------
  // Round trips

  /** A bolus comes back unchanged except that the server times are lost. */
  lemma BolusRoundTrip(h: Header, insulin: real, bolusType: Option<string>, isBasalInsulin: bool)
    requires insulin > 0.0
    ensures ConvertToRemoteAndBack(NSBolus(h, insulin, bolusType, isBasalInsulin)) ==
              Some(NSBolus(h.(srvModified := None, srvCreated := None), insulin, bolusType, isBasalInsulin))
  {
  }

  /**
   * Carbs come back with their amount, event type and a duration (0 when
   * there was none); the server times are lost.
   */
  lemma CarbsRoundTrip(h: Header, carbs: real, duration: Option<int>)
    requires carbs != 0.0
    ensures ConvertToRemoteAndBack(NSCarbs(h, carbs, duration)) ==
              Some(NSCarbs(h.(srvModified := None, srvCreated := None), carbs, Some(duration.GetOr(0))))
  {
  }

  /** A dated temporary target with nonzero duration comes back unchanged; a zero duration becomes a cancel. */
  lemma TemporaryTargetRoundTrip(h: Header, duration: int, bottom: real, top: real, reason: Option<string>)
    requires h.eventType == TEMPORARY_TARGET && h.date != 0
    ensures duration != 0 ==>
              ConvertToRemoteAndBack(NSTemporaryTarget(h, duration, bottom, top, reason)) ==
              Some(NSTemporaryTarget(h, duration, bottom, top, reason))
    ensures duration == 0 ==>
              ConvertToRemoteAndBack(NSTemporaryTarget(h, duration, bottom, top, reason)) ==
              Some(NSTemporaryTarget(h, 0, 0.0, 0.0, Some(CUSTOM_REASON)))
  {
  }

  /**
   * A temporary basal comes back only through its `absolute` or `percent`
   * field, as an absolute rate or as percent + 100.
   */
  lemma TemporaryBasalRoundTrip(h: Header, duration: int, isAbsolute: bool, rate: real, basalType: Option<string>,
                                absolute: Option<real>, percent: Option<real>)
    requires h.eventType == TEMPORARY_BASAL && h.date != 0 && duration != 0
    ensures absolute.Some? ==>
              ConvertToRemoteAndBack(NSTemporaryBasal(h, duration, isAbsolute, rate, basalType, absolute, percent, None)) ==
              Some(NSTemporaryBasal(h, duration, true, absolute.value, basalType, None, None, None))
    ensures absolute.None? && percent.Some? ==>
              ConvertToRemoteAndBack(NSTemporaryBasal(h, duration, isAbsolute, rate, basalType, absolute, percent, None)) ==
              Some(NSTemporaryBasal(h, duration, false, percent.value + 100.0, basalType, None, None, None))
    ensures absolute.None? && percent.None? ==>
              ConvertToRemoteAndBack(NSTemporaryBasal(h, duration, isAbsolute, rate, basalType, absolute, percent, None)).None?
  {
  }

  /** What the decoder builds for a temporary basal never survives a round trip. */
  lemma DecodedTemporaryBasalDoesNotRoundTrip(r: RemoteTreatment)
    requires ToTreatment(r).Some? && ToTreatment(r).value.NSTemporaryBasal?
    ensures ConvertToRemoteAndBack(ToTreatment(r).value).None?
  {
  }

  /**
   * An emulating temporary basal comes back as its extended bolus, dated and
   * identified by the basal, with the basal's rate.
   */
  lemma EmulatingBasalRoundTrip(h: Header, duration: int, isAbsolute: bool, rate: real, basalType: Option<string>,
                                absolute: Option<real>, percent: Option<real>, b: ExtendedBolus)
    requires h.eventType == TEMPORARY_BASAL
    ensures ConvertToRemoteAndBack(NSTemporaryBasal(h, duration, isAbsolute, rate, basalType, absolute, percent, Some(b))) ==
              Some(NSExtendedBolus(ExtendedBolus(
                b.header.(date := h.date, device := h.device, identifier := h.identifier, srvModified := h.srvModified,
                          srvCreated := h.srvCreated, utcOffset := h.utcOffset, subject := h.subject,
                          eventType := COMBO_BOLUS),
                b.enteredinsulin, b.duration, b.isEmulatingTempBasal, Some(rate))))
  {
  }

  /** An extended bolus comes back without its rate, which is written only as `relative`. */
  lemma ExtendedBolusRoundTrip(b: ExtendedBolus)
    requires b.header.eventType == COMBO_BOLUS && b.header.date != 0
    ensures ConvertToRemoteAndBack(NSExtendedBolus(b)) == Some(NSExtendedBolus(b.(rate := None)))
  {
  }

  /** Therapy events, offline events, bolus wizards and effective profile switches come back unchanged. */
  lemma EventRoundTrip(t: Treatment)
    requires t.Header().date != 0
    requires (t.NSTherapyEvent? && IsTherapyEventType(t.header.eventType)) ||
             (t.NSOfflineEvent? && t.header.eventType == APS_OFFLINE) ||
             (t.NSBolusWizard? && t.header.eventType == BOLUS_WIZARD) ||
             (t.NSEffectiveProfileSwitch? && t.header.eventType == NOTE)
    ensures ConvertToRemoteAndBack(t) == Some(t)
  {
  }

  /** A profile switch with a payload comes back with a duration (0 when there was none). */
  lemma ProfileSwitchRoundTrip(h: Header, json: string, profile: string, origName: Option<string>,
                               origDuration: Option<int>, duration: Option<int>, timeShift: Option<int>,
                               percentage: Option<int>)
    requires h.eventType == PROFILE_SWITCH && h.date != 0
    ensures ConvertToRemoteAndBack(NSProfileSwitch(h, Some(json), profile, origName, origDuration, duration, timeShift, percentage)) ==
            Some(NSProfileSwitch(h, Some(json), profile, origName, origDuration, Some(duration.GetOr(0)), timeShift, percentage))
  {
  }

  /** Only an unknown subtype has no remote form. */
  lemma UnknownSubtypeIsNull(h: Header)
    ensures ConvertToRemoteAndBack(OtherTreatment(h)).None?
    ensures ToRemoteTreatment(OtherTreatment(h)).None?
  {
  }
}
