# Tank display: power state machine and tank-state presentation

This project models two parts of the firmware for the touchscreen tank display (the "CYD" board) and proves properties about them in Dafny.

1. **Display activity and power** (`firmware/src/display/CYD/main.cpp`). Four globals hold the state: the inactivity timeout, the time of the last activity, the sleep flag and the backlight duty to restore on wake. Four handlers change them:
   - the idle check from the main loop, which uses wrapping 32-bit subtraction;
   - the touch read, which wakes the display; the one read that wakes it reports Released rather than a press;
   - the timeout dropdown;
   - the brightness slider.

   `DisplayPower` writes these handlers as pure transitions on a `PowerState` value. The class `ActivityMonitor` has the four fields, and each of its methods is proved equal to the matching transition. Lemmas then state what the source promises over a whole run of the main loop.
2. **Tank-state presentation** (`firmware/src/display/CYD/cyd_state.c` and `cyd_state.h`). `TankRecords` holds the two tank records and their enumerations. "Unset" is marked by the sentinels 0xFF, 0xFFFF and the empty string. `TankScreens` holds two things:
   - the module's globals, as the class `CydGlobals`: static zero initialisation, `cyd_state_init_defaults` and the units flag;
   - for every screen, a function giving what each widget receives: label text, arc or bar value, dropdown options and selected index, switch state.

   Each label function's contract says when it shows `"--"` (both directions). It also says that a shown number decodes back to the stored value. `Decimal` supplies these renderings: printf's `%u`, `%d` and `%02u`, each with its read-back.

`now` is passed in where the source reads `millis()`. Each power handler returns the backlight level it writes (`lcd.setBrightness`) and the pointer state it reports. The fresh and waste screens run the same code in the source, so each is one function applied to `s.freshTank` or `s.wasteTank`. So are the faults screens, settings screens and diagnostics overlays. A widget that does not exist takes nothing from its screen's record. The boot screen and the display-settings screen both show `FirmwareLabel(s)`, which is the stored firmware version.

Going to sleep only turns the backlight off and sets the flag: `handle_inactivity` (main.cpp:178-186) does not change the screen.

## Model

| member | source | states |
|---|---|---|
| `Decimal.Digits` | firmware/src/display/CYD/cyd_state.c:228 | `%u`: a canonical numeral (at least one digit, and a leading '0' only in "0" itself) that reads back as exactly n |
| `Decimal.TwoDigits` | firmware/src/display/CYD/cyd_state.c:371 | `%02lu` for a value below 100: exactly two digits that read back as n |
| `Decimal.SignedDigits` | firmware/src/display/CYD/cyd_state.c:376 | `%d`: a '-' exactly when i < 0, then a canonical numeral (never "0" after the sign), reading back as i |
| `TankRecords.StatusOfCode` | firmware/src/display/CYD/cyd_state.h:17-22 | a stored status code names an enumerator exactly when it is 0..3, and that enumerator has that code |
| `TankRecords.EnumCodes` | firmware/src/display/CYD/cyd_state.h:11-22 | every status enumerator's code maps back to it; roles are NONE=0, FRESH=1, WASTE=2 |
| `TankScreens.CydGlobals.constructor` | firmware/src/display/CYD/cyd_state.c:85 | static initialisation: the tank state is all zero (cyd_state.c:9) and units are metric |
| `TankScreens.CydGlobals.InitDefaults` | firmware/src/display/CYD/cyd_state.c:16-73 | afterwards: both tanks are unpaired with status OK; roles are FRESH and WASTE; names are "Fresh Tank" and "Waste Tank"; level and stop level are 0xFF; fault code and both voltages are 0xFFFF; temperature is unset; every string is empty; uptime and signal are 0; firmware is "V 0.0.1"; setup_complete is false; the record passes the documented ranges; the units flag is untouched |
| `TankScreens.CydGlobals.SetUnitsMetric` | firmware/src/display/CYD/cyd_state.c:87-93 | the getter then returns the value just set; the tank state is unchanged |
| `TankScreens.PercentText` | firmware/src/display/CYD/cyd_state.c:102 | `"%u%%"`: a canonical numeral that reads back as p, followed by '%' |
| `TankScreens.StatusText` | firmware/src/display/CYD/cyd_state.c:75-83 | "Fill", "Drain" and "Fault" exactly for codes FILL, DRAIN and FAULT; "OK" exactly for every other code, OK included |
| `TankScreens.LevelGauge` | firmware/src/display/CYD/cyd_state.c:96-99 | the arc or bar gets the level when the tank is paired and the level is not 0xFF, and 0 otherwise |
| `TankScreens.LevelLabel` | firmware/src/display/CYD/cyd_state.c:101-104 | "--" exactly when the tank is unpaired or the level is 0xFF; otherwise "<level>%" |
| `TankScreens.TempLabel` | firmware/src/display/CYD/cyd_state.c:105-114 | a reading is shown exactly when the tank is paired and the temperature is set; the unit is C or F by the units flag; converting the reading back gives the stored Celsius value |
| `TankScreens.StatusLabel` | firmware/src/display/CYD/cyd_state.c:115-118 | "--" exactly when unpaired; otherwise the status word |
| `TankScreens.LeakLabel` | firmware/src/display/CYD/cyd_state.c:166-169 | "--" exactly when unpaired; "Leak" or "No Leak" by the leak flag otherwise |
| `TankScreens.FreezeLabel` | firmware/src/display/CYD/cyd_state.c:170-173 | "--" exactly when unpaired; "Freeze On" or "Freeze Off" by the flag otherwise |
| `TankScreens.FaultButtonLabel` | firmware/src/display/CYD/cyd_state.c:174-180 | "Fault --" exactly when unpaired or the code is 0xFFFF; otherwise "Fault " followed by a canonical numeral that reads back as the code |
| `TankScreens.FaultCodeLabel` | firmware/src/display/CYD/cyd_state.c:224-230 | "--" exactly when unpaired or the code is 0xFFFF; otherwise a canonical numeral that reads back as the code |
| `TankScreens.FaultDescription` | firmware/src/display/CYD/cyd_state.c:231-239 | three cases in priority order: unpaired gives "No Controller Connected"; code 0xFFFF or status not FAULT gives "No Active Fault"; otherwise the stored description |
| `TankScreens.StopSlider` | firmware/src/display/CYD/cyd_state.c:262-264 | the stop-level slider is 0 for 0xFF and the stored value otherwise |
| `TankScreens.StopPercentText` | firmware/src/display/CYD/cyd_state.c:265-268 | the overlay percentage is "--" exactly for 0xFF; otherwise "<p>%" |
| `TankScreens.StopLevelLabel` | firmware/src/display/CYD/cyd_state.c:304-310 | the stop-level label is "--" exactly when the level is 0xFF or the tank is unpaired; otherwise "<p>%" |
| `TankScreens.VoltageLabel` | firmware/src/display/CYD/cyd_state.c:271-275 | dashes exactly for 0xFFFF; otherwise the stored millivolts |
| `TankScreens.FahrenheitRounded` | firmware/src/display/CYD/cyd_state.c:289-293 | the integer nearest to c·9/5+32, with halves rounded up (away from zero for these non-negative values) |
| `TankScreens.FreezeOptionList` | firmware/src/display/CYD/cyd_state.c:286-295 | six options: "Off", then entries 1..5 that read back as c in metric units and as round(c·9/5+32) in imperial units |
| `TankScreens.MetricOptionsText` | firmware/src/display/CYD/cyd_state.c:287 | the metric option string is "Off\n1\n2\n3\n4\n5" |
| `TankScreens.ImperialOptionList` | firmware/src/display/CYD/cyd_state.c:289-293 | the imperial options are Off, 34, 36, 37, 39, 41 |
| `TankScreens.ImperialOptionsText` | firmware/src/display/CYD/cyd_state.c:294 | the imperial option string is "Off\n34\n36\n37\n39\n41" |
| `TankScreens.SplitJoin` | firmware/src/display/CYD/cyd_state.c:286-296 | options without newlines, joined one per line (`JoinLines`), cut back at the newlines into exactly the same options |
| `TankScreens.OptionsTextSplits` | firmware/src/display/CYD/cyd_state.c:286-296 | `FreezeOptionsText`, the string handed to `lv_dropdown_set_options` cuts at its newlines into exactly the six options of `FreezeOptionList` |
| `TankScreens.FreezeSelection` | firmware/src/display/CYD/cyd_state.c:297-299 | the selected index is always a valid option; it equals the setting for 0..5, and is 0 (Off) for anything above 5, 0xFF included |
| `TankScreens.OrDashes` | firmware/src/display/CYD/cyd_state.c:360 | an empty diagnostics string shows "--"; any other shows itself |
| `TankScreens.UptimeLabel` | firmware/src/display/CYD/cyd_state.c:365-373 | "--" exactly for uptime 0; otherwise "<m>m <ss>s" where ss < 60 and m·60 + ss equals the uptime |
| `TankScreens.SignalLabel` | firmware/src/display/CYD/cyd_state.c:374-377 | "--" exactly for 0 dBm; otherwise a signed number that reads back as the signal, followed by " dBm" |
| `TankScreens.HomeTank` | firmware/src/display/CYD/cyd_state.c:96-118 | a home-screen arc is 0 whenever its label is "--", and otherwise holds the number its label shows; an unpaired tank shows dashes everywhere |
| `TankScreens.HomeScreen` | firmware/src/display/CYD/cyd_state.c:95-141 | each half shows its own record (the fresh half the fresh tank, the grey half the waste tank): the arc holds the level and the label reads it back when the tank is paired and the level is set, and both are "--"/0 otherwise; a temperature exactly when paired and set, in the selected unit, converting back to the stored value; the status word when paired and "--" exactly when unpaired |
| `TankScreens.TankScreen` | firmware/src/display/CYD/cyd_state.c:143-181 | the bar, level, temperature and status satisfy `ShowsTank` for the screen's own record (level from `level_percent` when paired and set, "--"/0 otherwise; temperature when paired and set; status word when paired); leak "--"/"Leak"/"No Leak" and freeze "--"/"Freeze On"/"Freeze Off" exactly by `paired` and their flags; fault button "Fault --" exactly when unpaired or 0xFFFF, otherwise "Fault " and a canonical numeral reading back as the code; an unpaired tank shows the all-dashes view |
| `TankScreens.FaultsScreen` | firmware/src/display/CYD/cyd_state.c:223-240 | the code label is "--" exactly when unpaired or 0xFFFF, otherwise a canonical numeral reading back as the code; the description follows the three cases in order: unpaired gives "No Controller Connected", code 0xFFFF or status not FAULT gives "No Active Fault", otherwise the stored description |
| `TankScreens.SettingsScreen` | firmware/src/display/CYD/cyd_state.c:302-316 | percentage "--" exactly for stop level 0xFF, otherwise "<p>%" with the slider at the stored level (0 when unset); stop label "--" exactly when 0xFF or unpaired, otherwise that percentage; each voltage dashed exactly for 0xFFFF and otherwise its stored millivolts; the freeze options are the option string for the units, the selection is the setting for 0..5 and Off above; the two override switches mirror their flags |
| `TankScreens.FirmwareLabel` | firmware/src/display/CYD/cyd_state.c:334-344 | the cydsettings and boot firmware labels show the stored version string, which on a well-formed state fits its 16-byte field |
| `TankScreens.DiagOverlay` | firmware/src/display/CYD/cyd_state.c:346-379 | unpaired: IP and status read "Not connected" and every other field "--"; paired: each text field is its string or "--" when empty, and uptime and signal use their labels |
| `TankScreens.DefaultsShowNoData` | firmware/src/display/CYD/cyd_state.c:16-73 | the defaults pass the documented ranges, and every screen of both tanks is its whole no-data view: home and tank screens all "--" with empty gauges and "Fault --"; faults screens "--" with "No Controller Connected"; settings screens with slider 0, "--" percentages and voltages, freeze selection Off and both switches off; diagnostics overlays "Not connected" and "--"; firmware "V 0.0.1" |
| `TankScreens.ShownLevelInRange` | firmware/src/display/CYD/cyd_state.h:28 | on a record within the documented ranges, a shown level label reads back as at most 100 and is at most four characters ("100%") |
| `DisplayPower.Elapsed` | firmware/src/display/CYD/main.cpp:181 | `now - last_activity_ms` on uint32: the plain difference, or the difference plus 2^32 when the clock has wrapped |
| `DisplayPower.ElapsedAcrossWrap` | firmware/src/display/CYD/main.cpp:181 | d ms after any start time, the elapsed time is d, even when the clock wraps in between |
| `DisplayPower.BootState` | firmware/src/display/CYD/main.cpp:102-105 | at boot: awake, duty 255, timeout 0 (Never), last activity equal to the boot time |
| `DisplayPower.IdleCheck` | firmware/src/display/CYD/main.cpp:178-186 | asleep afterwards exactly when already asleep, or when the timeout is non-zero and the wrapped elapsed time is at least the timeout; backlight 0 is written exactly on that transition; nothing else changes |
| `DisplayPower.Touch` | firmware/src/display/CYD/main.cpp:134-157 | Pressed(x, y) is reported exactly for a touch while awake, so the read that wakes the display reports Released; any touch wakes the display and sets last activity to now; no touch changes nothing; the duty restored on wake is the stored one |
| `DisplayPower.TimeoutForSelection` | firmware/src/display/CYD/main.cpp:166-173 | 1→30000, 2→60000 and 3→120000 ms; every other index, 0 included, gives 0 |
| `DisplayPower.SelectTimeout` | firmware/src/display/CYD/main.cpp:164-176 | timeout as mapped above and last activity = now; sleep flag and duty unchanged |
| `DisplayPower.ClampPercent` | firmware/src/display/CYD/main.cpp:108-110 | the slider value clamped into 0..100 |
| `DisplayPower.ApplyBrightness` | firmware/src/display/CYD/main.cpp:107-118 | the duty written and stored is the mapping of the clamped value; last activity = now; sleep flag and timeout unchanged |
| `DisplayPower.AfterSetup` | firmware/src/display/CYD/main.cpp:188-236 | after setup: awake, last activity = boot time; duty is the mapping of 100 % when the brightness slider exists, 255 otherwise; timeout comes from the dropdown's selection when the dropdown exists, 0 otherwise |
| `DisplayPower.RunIdle` | firmware/src/display/CYD/main.cpp:239-243 | the state after `loop()` runs the idle check at each given time: only the sleep flag can change (timeout, last activity and duty survive) |
| `DisplayPower.NeverSleepsWithoutTimeout` | firmware/src/display/CYD/main.cpp:179 | with timeout 0 an awake display stays awake through any run of idle checks |
| `DisplayPower.SleepIsSticky` | firmware/src/display/CYD/main.cpp:179 | a sleeping display stays asleep through any run of idle checks |
| `DisplayPower.RunIdleSleepsIff` | firmware/src/display/CYD/main.cpp:178-186 | after a run of idle checks the display is asleep exactly when it was already, or when the timeout is non-zero and some check saw elapsed ≥ timeout |
| `DisplayPower.WakeRestoresBrightness` | firmware/src/display/CYD/main.cpp:139-146 | the first touch read after idling, from any starting state, leaves the display awake with last activity = now; if the display had gone to sleep, that read restores the duty chosen before sleep and reports Released; otherwise it reports Pressed |
| `DisplayPower.HeldWakeTouchPresses` | firmware/src/display/CYD/main.cpp:139-156 | only the waking read is hidden: a finger still down at the next read is reported as Pressed at the touch point and refreshes last activity |
| `DisplayPower.ThirtySecondBoundary` | firmware/src/display/CYD/main.cpp:181-184 | with a 30000 ms timeout the display is awake 29999 ms after the last activity and asleep at 30000 ms, also across a clock wrap |
| `DisplayPower.ActivityMonitor.Boot` | firmware/src/display/CYD/main.cpp:191-193 | the globals after static initialisation and the first lines of setup equal `BootState(now)` |
| `DisplayPower.ActivityMonitor.ApplyBrightnessFromSlider` | firmware/src/display/CYD/main.cpp:107-118 | the fields become `ApplyBrightness` of the old ones, and the duty written is returned |
| `DisplayPower.ActivityMonitor.TouchRead` | firmware/src/display/CYD/main.cpp:134-157 | the fields, the report and the backlight write are those of `Touch` on the old fields |
| `DisplayPower.ActivityMonitor.TimeoutSelected` | firmware/src/display/CYD/main.cpp:164-176 | the fields become `SelectTimeout` of the old ones |
| `DisplayPower.ActivityMonitor.HandleInactivity` | firmware/src/display/CYD/main.cpp:178-186 | the fields and the backlight write are those of `IdleCheck` on the old fields |
| `DisplayPower.Setup` | firmware/src/display/CYD/main.cpp:188-237 | builds the globals in `AfterSetup`'s state; the backlight writes are 255, then the slider's duty when the slider exists |

## Left out

- ApplyBrightness: the float formula that maps 0..100 % to a duty of 10..100 % (main.cpp:111-113) is the parameter `dutyOf`. Float rounding is not modelled, so the contract names the mapping instead of its values.
- TempLabel: temperatures are exact reals, not single-precision floats. The `%.1f°C` text is not built; the label is the number and its unit.
- VoltageLabel: the `%.2fV` text (cyd_state.c:274) is not built; the label is the millivolt value.
- FahrenheitRounded: uses integer arithmetic for `lroundf` of a float. For the five values used (33.8, 35.6, 37.4, 39.2, 41.0) no float rounding is near a half, so the results are the same.
- Hardware and toolkit wiring is not modelled: the panel, bus, touch and backlight configuration (main.cpp:15-96), display, flush, tick-timer and input-device setup, and serial logging. The touch controller's reading comes in as the parameters `touched`, `touchX` and `touchY`.
- `millis()` is the parameter `now`. `Setup` uses one `now` for the whole of setup, while the source reads the clock again in each handler.
- The settings switches (`apply_toggle`) are the booleans in `SettingsView`. Whether the widget's "checked" state was already set is not modelled.
- Widget null checks are not modelled. A missing widget simply does not receive its record field; the source has no error path.
- Also not modelled: the fixed-size `snprintf` buffers. The texts built here all fit them.
- `strncpy` truncation is not modelled either. The default name and version are shorter than their fields, which `InitDefaults` proves through `WellFormed`.
