/**
 The iQua softener sensors: one device snapshot (`IquaSoftenerData`) and the
 current time go in, and each of the nine sensors derives its reading, its
 unit tag and its icon from them. Every reading is recomputed from the
 snapshot on each access; nothing here keeps state.
 */
module Sensors {
  import opened Wrappers
  import opened Calendar
  import opened Text
  import opened WallClock

  /** `IquaSoftenerVolumeUnit`: the unit of every volume field of a snapshot. */
  datatype VolumeUnit = Liters | Gallons

  /** The device's operating state, given by the value of its enum member. */
  datatype DeviceState = DeviceState(value: string)

  /**
   One fetched device snapshot. Volumes are in the device's own unit: liters
   when `volumeUnit` is `Liters`, gallons otherwise; the flow is per minute.
   */
  datatype Snapshot = Snapshot(
    state: DeviceState,
    deviceDateTime: WallTime,
    daysSinceLastRegeneration: int,
    outOfSaltEstimatedDays: int,
    saltLevelPercent: Option<int>,
    volumeUnit: VolumeUnit,
    totalWaterAvailable: real,
    todayUse: real,
    averageDailyUse: real,
    currentWaterFlow: real)

  /** The nine sensor classes, in the order the platform registers them. */
  datatype SensorKind =
    | StateSensor
    | DeviceDateTimeSensor
    | LastRegenerationSensor
    | OutOfSaltEstimatedDaySensor
    | SaltLevelSensor
    | AvailableWaterSensor
    | WaterCurrentFlowSensor
    | WaterUsageTodaySensor
    | WaterUsageDailyAverageSensor

  /** The key of each sensor's entity description; each starts with an upper-case letter. */
  function Key(k: SensorKind): (key: string)
    ensures 5 <= |key| && IsUpper(key[0])
  {
    match k
    case StateSensor => "State"
    case DeviceDateTimeSensor => "DATE_TIME"
    case LastRegenerationSensor => "LAST_REGENERATION"
    case OutOfSaltEstimatedDaySensor => "OUT_OF_SALT_ESTIMATED_DAY"
    case SaltLevelSensor => "SALT_LEVEL"
    case AvailableWaterSensor => "AVAILABLE_WATER"
    case WaterCurrentFlowSensor => "WATER_CURRENT_FLOW"
    case WaterUsageTodaySensor => "WATER_USAGE_TODAY"
    case WaterUsageDailyAverageSensor => "WATER_USAGE_DAILY_AVERAGE"
  }

  predicate IsVolumeSensor(k: SensorKind) {
    k == AvailableWaterSensor || k == WaterUsageTodaySensor || k == WaterUsageDailyAverageSensor
  }

  // ---------------------------------------------------------------- unique id

  /** The entity's unique id: serial, underscore and description key, lower-cased. */
  function UniqueId(serial: string, key: string): (id: string)
    ensures IsLowercase(id)
    ensures id == Lower(serial) + "_" + Lower(key)
    ensures |id| == |serial| + 1 + |key|
  {
    LowerConcat(serial + "_", key);
    LowerConcat(serial, "_");
    LowerIsLowercase(serial + "_" + key);
    Lower(serial + "_" + key)
  }

  /** The nine description keys stay pairwise distinct after lower-casing. */
  lemma LowerKeysDistinct(a: SensorKind, b: SensorKind)
    requires a != b
    ensures Lower(Key(a)) != Lower(Key(b))
  {
    var ka, kb := Key(a), Key(b);
    if |ka| == |kb| {
      assert Lower(ka)[0] == LowerChar(ka[0]) && Lower(kb)[0] == LowerChar(kb[0]);
      assert ka[0] != kb[0] && IsUpper(ka[0]) && IsUpper(kb[0]);
    }
  }

  /** One device's nine sensors get pairwise distinct unique ids. */
  lemma UniqueIdsDistinct(serial: string, a: SensorKind, b: SensorKind)
    requires a != b
    ensures UniqueId(serial, Key(a)) != UniqueId(serial, Key(b))
  {
    var n := |serial| + 1;
    LowerKeysDistinct(a, b);
    assert UniqueId(serial, Key(a))[n..] == Lower(Key(a));
    assert UniqueId(serial, Key(b))[n..] == Lower(Key(b));
  }

  // ---------------------------------------------------------------- time readings

  /** `datetime.now(tz)` for the zone of the device's reported time, given the clock reading `now`. */
  function LocalNow(s: Snapshot, now: WallTime): (r: WallTime)
    ensures r.utcOffset == s.deviceDateTime.utcOffset
    ensures SameInstant(now, r)
    ensures AsZone(r, now.utcOffset) == now
  {
    AsZoneRoundTrip(now, s.deviceDateTime.utcOffset);
    AsZone(now, s.deviceDateTime.utcOffset)
  }

  /**
   The LAST_REGENERATION reading: the local day `daysSinceLastRegeneration`
   days before today, with hour, minute and second zeroed.
   */
  function LastRegeneration(s: Snapshot, now: WallTime): (r: WallTime)
    ensures ShiftDays(r.date, s.daysSinceLastRegeneration) == LocalNow(s, now).date
    ensures r.hour == 0 && r.minute == 0 && r.second == 0
    ensures r.microsecond == LocalNow(s, now).microsecond
    ensures r.utcOffset == s.deviceDateTime.utcOffset
  {
    ZeroHourMinuteSecond(ShiftBy(LocalNow(s, now), -s.daysSinceLastRegeneration))
  }

  /** The last regeneration day is before today exactly when the day count is positive. */
  lemma LastRegenerationDay(s: Snapshot, now: WallTime)
    ensures var today, d := LocalNow(s, now).date, LastRegeneration(s, now).date;
      && (Before(d, today) <==> s.daysSinceLastRegeneration > 0)
      && (d == today <==> s.daysSinceLastRegeneration == 0)
      && (Before(today, d) <==> s.daysSinceLastRegeneration < 0)
  {
    var today := LocalNow(s, now).date;
    ShiftDaysInverse(today, -s.daysSinceLastRegeneration);
    ShiftDaysDirection(today, -s.daysSinceLastRegeneration);
  }

  /**
   The OUT_OF_SALT_ESTIMATED_DAY reading: the local day
   `outOfSaltEstimatedDays` days after today (before it when negative, with
   no clamping), with hour, minute and second zeroed.
   */
  function OutOfSaltEstimatedDay(s: Snapshot, now: WallTime): (r: WallTime)
    ensures ShiftDays(r.date, -s.outOfSaltEstimatedDays) == LocalNow(s, now).date
    ensures r.hour == 0 && r.minute == 0 && r.second == 0
    ensures r.microsecond == LocalNow(s, now).microsecond
    ensures r.utcOffset == s.deviceDateTime.utcOffset
  {
    ZeroHourMinuteSecond(ShiftBy(LocalNow(s, now), s.outOfSaltEstimatedDays))
  }

  /** A negative estimate gives a day in the past, a positive one a day in the future. */
  lemma OutOfSaltEstimatedDayDirection(s: Snapshot, now: WallTime)
    ensures var today, d := LocalNow(s, now).date, OutOfSaltEstimatedDay(s, now).date;
      && (Before(d, today) <==> s.outOfSaltEstimatedDays < 0)
      && (d == today <==> s.outOfSaltEstimatedDays == 0)
      && (Before(today, d) <==> s.outOfSaltEstimatedDays > 0)
  {
    var today := LocalNow(s, now).date;
    ShiftDaysInverse(today, s.outOfSaltEstimatedDays);
    ShiftDaysDirection(today, s.outOfSaltEstimatedDays);
  }

  /**
   `last_reset` of the available-water sensor: the same day as the last
   regeneration reading, at the current local time of day.
   */
  function AvailableWaterLastReset(s: Snapshot, now: WallTime): (r: WallTime)
    ensures r.date == LastRegeneration(s, now).date
    ensures var t := LocalNow(s, now);
      (r.hour, r.minute, r.second, r.microsecond, r.utcOffset)
      == (t.hour, t.minute, t.second, t.microsecond, t.utcOffset)
  {
    var r := ShiftBy(LocalNow(s, now), -s.daysSinceLastRegeneration);
    ShiftDaysInverse(r.date, s.daysSinceLastRegeneration);
    ShiftDaysInverse(LastRegeneration(s, now).date, s.daysSinceLastRegeneration);
    r
  }

  // ---------------------------------------------------------------- volumes and units

  /** A volume field as a reading: liters become cubic meters, gallons stay as they are. */
  function VolumeReading(raw: real, unit: VolumeUnit): (v: real)
    ensures unit == Liters ==> v * 1000.0 == raw
    ensures unit == Gallons ==> v == raw
  {
    if unit == Liters then raw / 1000.0 else raw
  }

  /** The units the sensors report. */
  datatype UnitTag = CubicMeters | USGallons | LitersPerMinute | GallonsPerMinute | Percentage

  /** The unit of the three volume sensors. */
  function VolumeUnitTag(unit: VolumeUnit): (t: UnitTag)
    ensures t == CubicMeters <==> unit == Liters
    ensures t == USGallons <==> unit == Gallons
  {
    match unit
    case Liters => CubicMeters
    case Gallons => USGallons
  }

  /** The unit of the flow sensor. */
  function FlowUnitTag(unit: VolumeUnit): (t: UnitTag)
    ensures t == LitersPerMinute <==> unit == Liters
    ensures t == GallonsPerMinute <==> unit == Gallons
  {
    match unit
    case Liters => LitersPerMinute
    case Gallons => GallonsPerMinute
  }

  // ---------------------------------------------------------------- salt level icon

  const SignalUnknown := "mdi:signal"
  const SignalCellular3 := "mdi:signal-cellular-3"
  const SignalCellular2 := "mdi:signal-cellular-2"
  const SignalCellular1 := "mdi:signal-cellular-1"
  const SignalCellularOutline := "mdi:signal-cellular-outline"
  const SignalOff := "mdi:signal-off"

  /** The salt-level sensor's icon: five bands with strict lower thresholds, or unknown. */
  function SaltLevelIcon(level: Option<int>): (icon: string)
    ensures icon == SignalUnknown <==> level.None?
  {
    match level
    case None => SignalUnknown
    case Some(l) =>
      if l > 75 then SignalCellular3
      else if l > 50 then SignalCellular2
      else if l > 25 then SignalCellular1
      else if l > 5 then SignalCellularOutline
      else SignalOff
  }

  /** Each icon band holds exactly the levels above its threshold and up to the next one. */
  lemma SaltLevelIconBands(l: int)
    ensures SaltLevelIcon(Some(l)) == SignalCellular3 <==> 75 < l
    ensures SaltLevelIcon(Some(l)) == SignalCellular2 <==> 50 < l <= 75
    ensures SaltLevelIcon(Some(l)) == SignalCellular1 <==> 25 < l <= 50
    ensures SaltLevelIcon(Some(l)) == SignalCellularOutline <==> 5 < l <= 25
    ensures SaltLevelIcon(Some(l)) == SignalOff <==> l <= 5
  {
  }

  /** Each threshold itself belongs to the band below it. */
  lemma SaltLevelIconThresholds()
    ensures SaltLevelIcon(Some(75)) == SignalCellular2
    ensures SaltLevelIcon(Some(50)) == SignalCellular1
    ensures SaltLevelIcon(Some(25)) == SignalCellularOutline
    ensures SaltLevelIcon(Some(5)) == SignalOff
    ensures SaltLevelIcon(Some(0)) == SignalOff
  {
  }

  /** The position of a level icon from empty (0) to full (4); -1 for any string that is not a level icon. */
  function SaltIconRank(icon: string): int {
    if icon == SignalOff then 0
    else if icon == SignalCellularOutline then 1
    else if icon == SignalCellular1 then 2
    else if icon == SignalCellular2 then 3
    else if icon == SignalCellular3 then 4
    else -1
  }

  /** A higher salt level never shows a lower band. */
  lemma SaltLevelIconMonotone(a: int, b: int)
    requires a <= b
    ensures 0 <= SaltIconRank(SaltLevelIcon(Some(a))) <= SaltIconRank(SaltLevelIcon(Some(b)))
  {
  }

  // ---------------------------------------------------------------- the sensor table

  /** The values a sensor can report. */
  datatype Value = Text(text: string) | Timestamp(time: WallTime) | Amount(amount: real) | Whole(whole: int) | NoValue

  /** Each sensor's `native_value` for the snapshot `s` at clock reading `now`. */
  function NativeValue(k: SensorKind, s: Snapshot, now: WallTime): (v: Value)
    requires k == DeviceDateTimeSensor ==> FourDigitYear(s.deviceDateTime)
    ensures v.Timestamp? <==> k == LastRegenerationSensor || k == OutOfSaltEstimatedDaySensor
    ensures v.Text? <==> k == StateSensor || k == DeviceDateTimeSensor
    ensures v.Amount? <==> IsVolumeSensor(k) || k == WaterCurrentFlowSensor
    ensures v.NoValue? <==> k == SaltLevelSensor && s.saltLevelPercent.None?
    ensures k == DeviceDateTimeSensor ==> v == Text(DateTimeText(s.deviceDateTime))
    ensures k == LastRegenerationSensor ==> v == Timestamp(LastRegeneration(s, now))
    ensures k == OutOfSaltEstimatedDaySensor ==> v == Timestamp(OutOfSaltEstimatedDay(s, now))
  {
    match k
    case StateSensor => Text(s.state.value)
    case DeviceDateTimeSensor => Text(DateTimeText(s.deviceDateTime))
    case LastRegenerationSensor => Timestamp(LastRegeneration(s, now))
    case OutOfSaltEstimatedDaySensor => Timestamp(OutOfSaltEstimatedDay(s, now))
    case SaltLevelSensor =>
      (match s.saltLevelPercent case Some(l) => Whole(l) case None => NoValue)
    case AvailableWaterSensor => Amount(VolumeReading(s.totalWaterAvailable, s.volumeUnit))
    case WaterCurrentFlowSensor => Amount(s.currentWaterFlow)
    case WaterUsageTodaySensor => Amount(VolumeReading(s.todayUse, s.volumeUnit))
    case WaterUsageDailyAverageSensor => Amount(VolumeReading(s.averageDailyUse, s.volumeUnit))
  }

  /** The raw volume field behind each volume sensor. */
  function RawVolume(k: SensorKind, s: Snapshot): real
    requires IsVolumeSensor(k)
  {
    if k == AvailableWaterSensor then s.totalWaterAvailable
    else if k == WaterUsageTodaySensor then s.todayUse
    else s.averageDailyUse
  }

  /** State, salt level and flow are reported as the snapshot holds them. */
  lemma VerbatimReadings(s: Snapshot, now: WallTime)
    ensures NativeValue(StateSensor, s, now) == Text(s.state.value)
    ensures s.saltLevelPercent.Some? ==> NativeValue(SaltLevelSensor, s, now) == Whole(s.saltLevelPercent.value)
    ensures NativeValue(WaterCurrentFlowSensor, s, now) == Amount(s.currentWaterFlow)
  {
  }

  /** Volume readings are the raw field divided by 1000 for liters and the raw field otherwise. */
  lemma VolumeReadingsByUnit(k: SensorKind, s: Snapshot, now: WallTime)
    requires IsVolumeSensor(k)
    ensures s.volumeUnit == Liters ==> NativeValue(k, s, now) == Amount(RawVolume(k, s) / 1000.0)
    ensures s.volumeUnit == Gallons ==> NativeValue(k, s, now) == Amount(RawVolume(k, s))
  {
  }

  /** Each sensor's `native_unit_of_measurement`, from its class or its description. */
  function NativeUnit(k: SensorKind, s: Snapshot): (u: Option<UnitTag>)
    ensures u.Some? <==> IsVolumeSensor(k) || k == WaterCurrentFlowSensor || k == SaltLevelSensor
    ensures IsVolumeSensor(k) ==> u == Some(VolumeUnitTag(s.volumeUnit))
    ensures k == WaterCurrentFlowSensor ==> u == Some(FlowUnitTag(s.volumeUnit))
    ensures k == SaltLevelSensor ==> u == Some(Percentage)
  {
    match k
    case SaltLevelSensor => Some(Percentage)
    case AvailableWaterSensor => Some(VolumeUnitTag(s.volumeUnit))
    case WaterCurrentFlowSensor => Some(FlowUnitTag(s.volumeUnit))
    case WaterUsageTodaySensor => Some(VolumeUnitTag(s.volumeUnit))
    case WaterUsageDailyAverageSensor => Some(VolumeUnitTag(s.volumeUnit))
    case _ => None
  }

  /**
   Unit tags depend on the volume unit alone; the three volume sensors agree,
   and the flow is per liter exactly when the volumes are in cubic meters.
   */
  lemma UnitTagsFollowVolumeUnit(k: SensorKind, s: Snapshot, s': Snapshot)
    requires s.volumeUnit == s'.volumeUnit
    ensures NativeUnit(k, s) == NativeUnit(k, s')
    ensures NativeUnit(AvailableWaterSensor, s) == NativeUnit(WaterUsageTodaySensor, s)
         == NativeUnit(WaterUsageDailyAverageSensor, s)
    ensures NativeUnit(AvailableWaterSensor, s) == Some(CubicMeters)
        <==> NativeUnit(WaterCurrentFlowSensor, s) == Some(LitersPerMinute)
  {
  }

  /** A volume reading in cubic meters is the liter field over 1000; in gallons it is the field itself. */
  lemma VolumeReadingMatchesUnit(k: SensorKind, s: Snapshot, now: WallTime)
    requires IsVolumeSensor(k)
    ensures NativeUnit(k, s) == Some(CubicMeters) ==> NativeValue(k, s, now).amount * 1000.0 == RawVolume(k, s)
    ensures NativeUnit(k, s) == Some(USGallons) ==> NativeValue(k, s, now).amount == RawVolume(k, s)
  {
  }

  /** Each sensor's icon: the salt level's is computed, the others come from the description. */
  function Icon(k: SensorKind, s: Snapshot): (icon: Option<string>)
    ensures k == SaltLevelSensor ==> icon == Some(SaltLevelIcon(s.saltLevelPercent))
    ensures k == DeviceDateTimeSensor ==> icon == Some("mdi:clock")
    ensures k == AvailableWaterSensor ==> icon == Some("mdi:water")
    ensures k == WaterCurrentFlowSensor ==> icon == Some("mdi:water-pump")
    ensures k == WaterUsageTodaySensor ==> icon == Some("mdi:water-minus")
    ensures icon.None? <==> k in {StateSensor, LastRegenerationSensor, OutOfSaltEstimatedDaySensor, WaterUsageDailyAverageSensor}
  {
    match k
    case DeviceDateTimeSensor => Some("mdi:clock")
    case SaltLevelSensor => Some(SaltLevelIcon(s.saltLevelPercent))
    case AvailableWaterSensor => Some("mdi:water")
    case WaterCurrentFlowSensor => Some("mdi:water-pump")
    case WaterUsageTodaySensor => Some("mdi:water-minus")
    case _ => None
  }

  /** Only the salt-level icon depends on the snapshot; the others are fixed by the description. */
  lemma IconsOtherThanSaltAreFixed(k: SensorKind, s: Snapshot, s': Snapshot)
    requires k != SaltLevelSensor
    ensures Icon(k, s) == Icon(k, s')
  {
  }

  /** Liters: 45000 available liters read as 45 cubic meters. */
  lemma AvailableWaterExample(s: Snapshot, now: WallTime)
    requires s.volumeUnit == Liters && s.totalWaterAvailable == 45000.0
    ensures NativeValue(AvailableWaterSensor, s, now) == Amount(45.0)
    ensures NativeUnit(AvailableWaterSensor, s) == Some(CubicMeters)
  {
  }

  /**
   An estimate three days overdue, read at 09:00 on 12 June 2024 in the
   device's +02:00 zone (07:00 UTC), gives midnight of 9 June in that zone.
   */
  lemma OutOfSaltOverdueExample(s: Snapshot)
    requires s.outOfSaltEstimatedDays == -3
    requires s.deviceDateTime == WallTime(CivilDate(2024, 6, 10), 8, 0, 0, 0, 7200)
    ensures OutOfSaltEstimatedDay(s, WallTime(CivilDate(2024, 6, 12), 7, 0, 0, 0, 0))
         == WallTime(CivilDate(2024, 6, 9), 0, 0, 0, 0, 7200)
  {
    var now := WallTime(CivilDate(2024, 6, 12), 7, 0, 0, 0, 0);
    assert LocalNow(s, now) == WallTime(CivilDate(2024, 6, 12), 9, 0, 0, 0, 7200);
    assert ShiftDays(CivilDate(2024, 6, 12), -3) == CivilDate(2024, 6, 9);
  }
}
