# iQua water softener sensors in Dafny

This project models the sensor logic of the Home Assistant integration for
iQua water softeners (`custom_components/iqua_water_softener/sensor.py`).
The update coordinator polls the vendor cloud for one device snapshot
(`IquaSoftenerData`). Nine sensor entities then derive their readings from
that snapshot:

- the device state;
- the device's own date and time as text;
- the last regeneration day and the estimated out-of-salt day;
- the salt level and its icon;
- the available water, today's use and the daily average use, each with a volume unit;
- the current flow, with a flow unit.

Every reading is a pure function of the snapshot and the current time. The
model therefore takes both as parameters:

- `now` is a clock reading, a wall-clock time in any fixed-offset zone.
- `datetime.now(tz)` is the conversion of that reading to the zone of the
  device's reported time (`WallClock.AsZone`).
- `± timedelta(days=n)` moves the local calendar date by `n` days and keeps
  the time of day and the zone (`Calendar.ShiftDays`, `WallClock.ShiftBy`).
- `.replace(hour=0, minute=0, second=0)` zeroes those three fields only.
  Microseconds are kept (`WallClock.ZeroHourMinuteSecond`).
- Volumes are exact reals. "Divide by 1000" is exact division.

Modules:

- `Calendar` (calendar.dfy): proleptic Gregorian dates and day shifting.
- `Text` (text.dfy): zero-padded decimal fields and ASCII lower-casing.
- `WallClock` (wall_clock.dfy): aware wall-clock times, zone conversion and
  the `strftime` rendering.
- `Sensors` (sensors.dfy): the snapshot, the sensor table and every
  reading, unit tag, icon and unique id.
- `Coordinator` (coordinator.dfy): the coordinator's error mapping.
- `Wrappers` (wrappers.dfy): `Option`.

Three details of the code that the model keeps as written:

- LAST_REGENERATION and OUT_OF_SALT_ESTIMATED_DAY keep microseconds, because
  only hour, minute and second are zeroed.
- `days_since_last_regeneration` is not checked, so any integer is accepted.
- `_async_update_data` catches only `IquaSoftenerException`. Other exceptions
  come back as `Uncaught` (`Coordinator.UpdateData`).

## Model

| member | source | states |
|---|---|---|
| Sensors.Key | custom_components/iqua_water_softener/sensor.py:59-67 | each description key is at least five characters and starts with an upper-case letter; the nine strings are those of the description table |
| Sensors.UniqueId | custom_components/iqua_water_softener/sensor.py:95 | the unique id has no upper-case letter and is the lower-cased serial, "_" and the lower-cased key, one character per input character |
| Sensors.LowerKeysDistinct | custom_components/iqua_water_softener/sensor.py:59-67 | the nine description keys are pairwise distinct after lower-casing |
| Sensors.UniqueIdsDistinct | custom_components/iqua_water_softener/sensor.py:58-73 | the nine sensors of one device get pairwise distinct unique ids |
| Sensors.LocalNow | custom_components/iqua_water_softener/sensor.py:110-111 | "now" read in the zone of the device time has that zone and names the same instant as the clock reading (SameInstant), and converting back gives that reading |
| Sensors.LastRegeneration | custom_components/iqua_water_softener/sensor.py:107-111 | the reading's day, moved forward by the days since regeneration, is today's local date; hour, minute and second are 0; microseconds and zone are local now's |
| Sensors.LastRegenerationDay | custom_components/iqua_water_softener/sensor.py:110-111 | the last regeneration day is before, equal to or after today exactly as the day count is positive, zero or negative |
| Sensors.OutOfSaltEstimatedDay | custom_components/iqua_water_softener/sensor.py:113-117 | the reading's day, moved back by the estimate, is today's local date; hour, minute and second are 0; microseconds and zone are local now's |
| Sensors.OutOfSaltEstimatedDayDirection | custom_components/iqua_water_softener/sensor.py:116-117 | the estimated day is in the past exactly when the estimate is negative (no clamping), today when zero, in the future when positive |
| Sensors.AvailableWaterLastReset | custom_components/iqua_water_softener/sensor.py:149-151 | last_reset has the last regeneration reading's day and local now's time of day, microseconds and zone |
| Sensors.VolumeReading | custom_components/iqua_water_softener/sensor.py:142-143 | for liters the reading times 1000 is the raw field; for gallons the reading is the raw field |
| Sensors.VolumeReadingsByUnit | custom_components/iqua_water_softener/sensor.py:139-176 | available water, today's use and daily average are raw/1000 for liters and the raw field for gallons |
| Sensors.VolumeUnitTag | custom_components/iqua_water_softener/sensor.py:145-147 | the volume unit is cubic meters iff the device unit is liters, gallons iff it is gallons |
| Sensors.FlowUnitTag | custom_components/iqua_water_softener/sensor.py:158-160 | the flow unit is liters per minute iff the device unit is liters, gallons per minute iff it is gallons |
| Sensors.NativeUnit | custom_components/iqua_water_softener/sensor.py:145-180 | exactly the salt, flow and three volume sensors have a unit; the volume sensors' unit is the volume unit tag, the flow sensor's the flow unit tag, the salt sensor's Percentage |
| Sensors.UnitTagsFollowVolumeUnit | custom_components/iqua_water_softener/sensor.py:145-180 | unit tags depend only on the volume unit; the three volume sensors agree; the volumes are in cubic meters iff the flow is in liters per minute |
| Sensors.VolumeReadingMatchesUnit | custom_components/iqua_water_softener/sensor.py:139-147 | a volume reading tagged cubic meters is the liter field over 1000; one tagged gallons is the field itself |
| Sensors.SaltLevelIcon | custom_components/iqua_water_softener/sensor.py:124-137 | the icon is "mdi:signal" exactly when the level is absent |
| Sensors.SaltLevelIconBands | custom_components/iqua_water_softener/sensor.py:129-137 | each icon holds exactly the levels strictly above its threshold and up to the next: >75, (50,75], (25,50], (5,25], <=5 |
| Sensors.SaltLevelIconThresholds | custom_components/iqua_water_softener/sensor.py:129-137 | the levels 75, 50, 25 and 5 fall into the band below; a level of 0 (present, not absent) shows "mdi:signal-off" |
| Sensors.SaltLevelIconMonotone | custom_components/iqua_water_softener/sensor.py:129-137 | a higher salt level never shows a lower band |
| Sensors.NativeValue | custom_components/iqua_water_softener/sensor.py:97-176 | the two timestamp sensors give LastRegeneration and OutOfSaltEstimatedDay, date/time gives DateTimeText of the device time, state gives text, the volume and flow sensors give amounts; there is no value exactly when the salt level is absent |
| Sensors.VerbatimReadings | custom_components/iqua_water_softener/sensor.py:97-156 | state, salt level and flow are reported as the snapshot holds them |
| Sensors.Icon | custom_components/iqua_water_softener/sensor.py:59-137 | the salt-level sensor shows SaltLevelIcon of the level; date/time, available water, flow and today's use show mdi:clock, mdi:water, mdi:water-pump and mdi:water-minus; exactly the other four have none |
| Sensors.IconsOtherThanSaltAreFixed | custom_components/iqua_water_softener/sensor.py:59-67 | every icon except the salt level's is independent of the snapshot |
| Sensors.AvailableWaterExample | custom_components/iqua_water_softener/sensor.py:141-147 | 45000 liters available reads as 45 cubic meters |
| Sensors.OutOfSaltOverdueExample | custom_components/iqua_water_softener/sensor.py:116-117 | an estimate of -3 days read at 2024-06-12 07:00 UTC for a +02:00 device gives 2024-06-09 00:00:00+02:00 |
| WallClock.AsZone | custom_components/iqua_water_softener/sensor.py:110-111 | the converted time has the target zone and names the same instant (SameInstant: same microseconds, and its date some q days on with q days plus its time of day back in UTC equal to the original's), and nothing changes when the zone is already the target |
| WallClock.AsZoneRoundTrip | custom_components/iqua_water_softener/sensor.py:110-111 | converting to another zone and back restores the wall-clock time |
| WallClock.ShiftBy | custom_components/iqua_water_softener/sensor.py:111 | adding n days moves only the date, and moving it back by n days restores it |
| WallClock.ZeroHourMinuteSecond | custom_components/iqua_water_softener/sensor.py:111 | hour, minute and second become 0; date, microseconds and zone are kept |
| WallClock.DateTimeText | custom_components/iqua_water_softener/sensor.py:105 | the device date/time text is 19 characters long |
| WallClock.DateTimeTextFields | custom_components/iqua_water_softener/sensor.py:105 | the text has "-", "-", " ", ":", ":" in place and each field reads back as the time's year, month, day, hour, minute, second |
| Calendar.ShiftDays | custom_components/iqua_water_softener/sensor.py:111 | shifting by a positive, zero or negative number of days gives a later, the same or an earlier valid date |
| Calendar.ShiftDaysAdd | custom_components/iqua_water_softener/sensor.py:117 | shifting by a days and then by b days is shifting by a + b days |
| Calendar.ShiftDaysInverse | custom_components/iqua_water_softener/sensor.py:111 | shifting by n and then by -n restores the date |
| Calendar.ShiftDaysMonotone | custom_components/iqua_water_softener/sensor.py:117 | a larger day offset gives a strictly later date |
| Calendar.NextPrevInverse | custom_components/iqua_water_softener/sensor.py:111 | the day after the day before, and the day before the day after, are the date itself |
| Calendar.NextDayAdjacent | custom_components/iqua_water_softener/sensor.py:111 | no valid date lies strictly between a date and the day after it, so NextDay is exactly one calendar day |
| Calendar.PrevDayAdjacent | custom_components/iqua_water_softener/sensor.py:111 | no valid date lies strictly between the day before a date and that date |
| Calendar.ShiftDaysStep | custom_components/iqua_water_softener/sensor.py:117 | raising the offset by one moves the shifted date to the next calendar day, lowering it by one to the previous one |
| Text.DigitsRoundTrip | custom_components/iqua_water_softener/sensor.py:105 | a zero-padded decimal field reads back as the number written |
| Text.Lower | custom_components/iqua_water_softener/sensor.py:95 | lower-casing keeps the length and maps each character by itself |
| Text.LowerConcat | custom_components/iqua_water_softener/sensor.py:95 | lower-casing distributes over concatenation |
| Coordinator.UpdateData | custom_components/iqua_water_softener/sensor.py:85-89 | a fetched snapshot is returned unchanged; an IquaSoftenerException becomes UpdateFailed whose message is the fixed prefix followed by the error text; any other exception passes through unchanged |
| Coordinator.FailureCause | custom_components/iqua_water_softener/sensor.py:89 | the error text is recovered from a failure message exactly when the message starts with the coordinator's prefix |
| Coordinator.FailureMessagesDistinct | custom_components/iqua_water_softener/sensor.py:89 | different client error texts give different failure messages |

## Left out

- Setup and lifecycle (`async_setup_entry`, the options merge, entity
  registration, reload and unload in `__init__.py`) are host-framework
  plumbing with no logic of their own.
- The coordinator's schedule, its single-flight de-duplication of
  refreshes and its keeping of the last good snapshot are inherited from Home
  Assistant's `DataUpdateCoordinator`. That code is not part of this model.
  `Coordinator.UpdateData` models only the one update it delegates.
- The device client's `get_data` and the executor offloading are network I/O
  and threading. Their outcome is a parameter (`Coordinator.FetchOutcome`).
- `datetime.now()` is an input, not a clock read. Zones are fixed UTC
  offsets. Named zones with daylight-saving rules are not modelled.
- Years are unbounded in the model. Python's datetime range is years 1 to
  9999. A day shift past that range raises `OverflowError` in the source,
  which the model does not capture.
- WallClock.DateTimeText: renders only years 1000 to 9999. `%Y` of smaller
  years depends on the C library.
- Sensors.NativeValue: requires a four-digit device year for the date/time
  sensor only, for the same reason as WallClock.DateTimeText.
- Python float rounding of `value / 1000` is not modelled. Readings are
  exact reals.
- The unit constants are modelled as the tags of `Sensors.UnitTag`, not as
  their strings. The flow-rate unit strings come from `const.py`, and
  `const.py` is not part of this model.
- Text.Lower: lower-cases ASCII letters only. Python's `str.lower` also maps
  non-ASCII letters.
- The device state is modelled by the value of its enum member, as a string
  (`str(state.value)`). The library's enum is not part of this model.
- Entity descriptions' names, device and state classes are metadata with no
  behaviour. Of the descriptions, only the keys, icons and the salt level's
  percentage unit are modelled.
