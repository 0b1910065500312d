# BSF gas simulator — control and mass-balance core in Dafny

`BSF_GasSim_v52.py` simulates the CO2 and NH3 concentrations in the two storage
zones of a black-soldier-fly larvae rearing hall. It also simulates the fans that
ventilate the zones. This project models the part of the program that computes
something. It leaves out the web page, the charts and the PDF report around it.

- **Airflow** (`airflow.dfy`):
  - fan percentage to m³/h, with a 1 m³/h infiltration floor;
  - the Zone 02 display airflow;
  - air changes per hour;
  - the sidebar conversion of an absolute m³/h slider value into an integer fan percentage.
- **Mass balance** (`mass_balance.dfy`):
  - the steady-state concentration `ambient + (mass·rate/1000/ρ)/Q·10⁶`;
  - its CO2 and NH3 wrappers, with 1.842 kg/m³ and 420 ppm for CO2, and 0.769 kg/m³ and 0.02 ppm for NH3;
  - the micro-climate factor;
  - the linear start of the NH3 emission curve.
- **Staging** (`staging.dfy`). There are two families of threshold classifiers:
  - the control family (`autopilot_flow`, `fan_stage`, `get_stufe`) escalates only when a reading is strictly above a threshold, and either gas can escalate;
  - the display family (`status_txt`, the chart step curves, the NH3 stage bar) escalates already when a reading equals a threshold.

  The thresholds are parameters, because the sidebar overwrites the module-level defaults on every run.
- **History** (`history.dfy`). There are six parallel lists: time, CO2 and NH3 of both zones, and the Zone 01 airflow. Each list is appended to and then cut back to its newest 200 entries.
- **Session** (`session.dfy`). This is the session state and one script run:
  - the START, STOP or RESET button;
  - then either an autopilot tick (while the simulation is active) or a sample of the manual settings.

  `Runs` applies n script runs without a button. While the simulation is active, this is what the page's automatic rerun loop does (BSF_GasSim_v52.py:2211-2213). From an inactive state it is a series of manual samples, which that loop never produces.

Some behaviour of the code is easy to misread. The model follows what the code does:

- **The tick decides at the airflow floor.** The tick decides each zone's airflow on readings computed at 0 % fan, which is the 1 m³/h floor (BSF_GasSim_v52.py:1406-1411). It does not use the previous airflow (`DecideZ1AtFloor`, `DecideZ2AtFloor`, `TickUsesDecision`). Only then does it compute the readings it records, at the chosen airflow (BSF_GasSim_v52.py:1415-1418, `Tick`).
- **Control is strict, display is inclusive.** The control family escalates only strictly above a threshold (`>`, BSF_GasSim_v52.py:1163-1177). The display family escalates at equality (`>=`, BSF_GasSim_v52.py:877-881 and 1688-1692). The two agree except at a threshold value (`FamiliesDisagreeExactlyAtThresholds`).
- **Strictly lower concentration only above the floor.** Because of the 1 m³/h floor (BSF_GasSim_v52.py:732), more fan lowers the concentration strictly only once the higher airflow is above the floor (`CalcPpmStrictlyAntitoneInFlow`). Below the floor the concentration does not change.
- **Zone 01 volume.** The comment at BSF_GasSim_v52.py:712 gives the Zone 01 volume as 790.7 m³. The code computes the exact product 21.359 × 9.750 × 3.800 = 791.35095 m³. The model uses the exact product. At a constant CO2 rate of 0.125 g/kg/h (the average that the day's sine curve scales, BSF_GasSim_v52.py:1117-1121), a fully loaded Zone 01 at 20 % fan is then between 4125 and 4126.5 ppm CO2 (`Zone1Co2Example`). With the commented 790.7 m³ it would be about 4129 ppm.
- **Pressing START, then STOP.** The START handler followed by the STOP handler gives exactly the RESET handler's state (`StopAfterStartIsReset`). Whole script runs differ. The run that handles START goes on into the simulation section and ticks (BSF_GasSim_v52.py:1293-1299, then 1400-1426). So STOP on a later run leaves step 1 and a history of three samples (`StartThenStopRuns`).

The concentration always takes six air changes per hour as 100 %, because the mass balance calls `fan_m3h` without a maximum. The Zone 02 display takes 60000 m³/h as 100 % instead. Above the floor, the display therefore shows more air than the concentration is computed with (`Zone2DisplayExceedsBalanceAirflow`). The model keeps both, as written.

Emission curves are parameters of the model (`Plant.co2Rate`, `Plant.nh3Rate`, and the `takeoff` of `Nh3Rate`). `CurvePlant` builds a plant whose NH3 rate is the program's NH3 curve `Nh3Rate`. The substrate masses in `Plant` are in kg; the source multiplies its tonne sliders by 1000 before the call.

## Model

| member | source | states |
|---|---|---|
| Airflow.FanM3h | BSF_GasSim_v52.py:728-732 | airflow is at least 1 m³/h; it is pct/100 of the capacity (the given maximum, else six air changes of the volume) whenever that is at least 1, and exactly the 1 m³/h floor otherwise |
| Airflow.FanM3hZ2 | BSF_GasSim_v52.py:734-736 | Zone 02 display airflow is pct × 600 m³/h when that is at least 1, otherwise 1 m³/h |
| Airflow.AchVal | BSF_GasSim_v52.py:738-740 | air changes per hour are positive and, times the volume, give back the fan airflow (at least 1 m³/h) |
| Airflow.ManualPercent | BSF_GasSim_v52.py:1245 | the manual percentage is at least 1, is 1 below 1200 m³/h, is at most 100 up to 60000 m³/h, and from 600 m³/h on is the whole number of 600 m³/h steps in the slider value (same formula for Zone 02 at line 1262) |
| Airflow.FanM3hMonotone | BSF_GasSim_v52.py:728-732 | for a non-negative capacity, more percent never gives less airflow |
| Airflow.FanM3hStrictlyMonotone | BSF_GasSim_v52.py:728-732 | for a positive capacity, once the higher percentage is above the floor the airflow is strictly larger |
| Airflow.ManualPercentRoundTrip | BSF_GasSim_v52.py:1243-1245 | turning the manual percentage back into m³/h against the 60000 m³/h maximum lands within one 600 m³/h step at or below the slider value |
| Airflow.Zone2DisplayExceedsBalanceAirflow | BSF_GasSim_v52.py:734-736 | above the floor, the Zone 02 display airflow is strictly more than the airflow the mass balance uses for the same percentage |
| MassBalance.CalcPpm | BSF_GasSim_v52.py:1131-1143 | for non-negative mass and rate the concentration is at least the ambient value, and strictly above it for positive mass and rate |
| MassBalance.CalcPpmBalance | BSF_GasSim_v52.py:1140-1143 | excess concentration × airflow × density equals mass × rate × 1000: the steady-state balance the formula solves |
| MassBalance.CalcPpmAtFloor | BSF_GasSim_v52.py:1140-1143 | at the 1 m³/h floor the whole emission appears as excess concentration: ambient + mass·rate·1000/ρ |
| MassBalance.CalcPpmAntitoneInFlow | BSF_GasSim_v52.py:1131-1143 | for non-negative mass and rate, raising the fan percentage never raises the concentration |
| MassBalance.CalcPpmStrictlyAntitoneInFlow | BSF_GasSim_v52.py:1131-1143 | for positive mass and rate, raising the fan percentage strictly lowers the concentration once the higher airflow is above the floor |
| MassBalance.CalcPpmMonotoneInMass | BSF_GasSim_v52.py:1140-1143 | for a non-negative rate, more substrate never lowers the concentration |
| MassBalance.CalcPpmMonotoneInRate | BSF_GasSim_v52.py:1140-1143 | for non-negative mass, a higher emission rate never lowers the concentration |
| MassBalance.MacroCo2 | BSF_GasSim_v52.py:1146-1148 | the CO2 reading with CO2 density and 420 ppm outside air is never below 420 ppm for non-negative mass and rate |
| MassBalance.MacroNh3 | BSF_GasSim_v52.py:1150-1152 | the NH3 reading with NH3 density and 0.02 ppm outside air is never below 0.02 ppm for non-negative mass and rate |
| MassBalance.MicroFactor | BSF_GasSim_v52.py:1154-1155 | the factor is 1.4 on day 1 and 2.4 on day 8, stays within [1.4, 2.4] over the cycle, and lies on the line 7·f = day + 8.8 |
| MassBalance.MicroFactorIncreasing | BSF_GasSim_v52.py:1154-1155 | a later day has a strictly larger factor |
| MassBalance.Nh3Rate | BSF_GasSim_v52.py:1123-1129 | before 45 % of the cycle the rate lies between the base rate and 1.5 times it (strictly below for a positive base); from 45 % on it is 1.5 × base × the take-off curve |
| MassBalance.Nh3LinearBounds | BSF_GasSim_v52.py:1127-1128 | below 0.45 of the cycle the linear formula stays under 1.5 times a positive base rate, and from 0 on it is at least the base rate |
| MassBalance.Nh3RateNonNegative | BSF_GasSim_v52.py:1123-1129 | with a non-negative base rate and take-off value the NH3 rate is never negative from day 0 on |
| MassBalance.Nh3LinearBranchRises | BSF_GasSim_v52.py:1127-1128 | within the linear branch the NH3 rate never falls as the days pass |
| MassBalance.Nh3BranchesMeet | BSF_GasSim_v52.py:1126-1129 | at day 3.6 the linear formula reaches 1.5 × base, the exponential branch's starting value, so the curve is continuous |
| MassBalance.Zone1Co2Example | BSF_GasSim_v52.py:1140-1148 | a fully loaded Zone 01 (51858 kg) at 20 % fan and 0.125 g/kg/h reaches between 4125 and 4126.5 ppm CO2 |
| Staging.StrictLevel | BSF_GasSim_v52.py:1163-1165 | one gas's strict level is 3, at least 2, or at least 1 exactly when the reading is above the corresponding threshold (or a higher one) |
| Staging.AutopilotFlow | BSF_GasSim_v52.py:1161-1166 | the autopilot returns 100, 70 or 40 % for the worst strict level of the two gases and the idle floor otherwise |
| Staging.FanStage | BSF_GasSim_v52.py:1168-1172 | the fan stage index is the worst strict level of the two gases and comes paired with 20/40/70/100 % |
| Staging.AlertStage | BSF_GasSim_v52.py:1174-1178 | the alert stage is the worst strict level of the two gases |
| Staging.StatusStage | BSF_GasSim_v52.py:877-881 | the status is 3, at least 2, or at least 1 exactly when the reading reaches the corresponding threshold (or a higher one) |
| Staging.StepCurve | BSF_GasSim_v52.py:1687-1692 | the step curve's value is the edited percentage of the inclusive stage the reading reaches |
| Staging.Nh3ActiveStage | BSF_GasSim_v52.py:1887 | the NH3 bar stage is at most 3 and, for ordered thresholds, equals the inclusive status stage |
| Staging.EitherGasEscalates | BSF_GasSim_v52.py:1163-1165 | the stage is never below either gas's own level and equals one of them (OR over the gases) |
| Staging.FanStageAgreesWithAlertStage | BSF_GasSim_v52.py:1168-1178 | fan stage and alert stage give the same index for the same readings |
| Staging.AutopilotMatchesFanStage | BSF_GasSim_v52.py:1161-1172 | with a 20 % idle floor the autopilot percentage is the fan stage's percentage |
| Staging.AutopilotIgnoresDay | BSF_GasSim_v52.py:1161-1166 | the day argument never changes the autopilot's result |
| Staging.StrictLevelMonotone | BSF_GasSim_v52.py:1163-1165 | a higher reading never lowers one gas's strict level, for any thresholds |
| Staging.StatusStageMonotone | BSF_GasSim_v52.py:877-881 | a higher reading never lowers the inclusive status stage, for any thresholds |
| Staging.FanStageMonotone | BSF_GasSim_v52.py:1168-1178 | raising either reading never lowers the stage index or the fan percentage |
| Staging.AutopilotFlowMonotone | BSF_GasSim_v52.py:1161-1166 | with an idle floor of at most 40 %, raising either reading never lowers the autopilot's airflow |
| Staging.StepCurveMonotone | BSF_GasSim_v52.py:1763-1767 | a step curve with non-decreasing percentages never falls as the reading rises |
| Staging.StatusNeverBelowStrict | BSF_GasSim_v52.py:877-881 | the inclusive status is never below the strict level of the same reading |
| Staging.FamiliesAgreeOffThresholds | BSF_GasSim_v52.py:1169-1171 | for a reading equal to no threshold, the strict and inclusive ladders agree |
| Staging.FamiliesDisagreeExactlyAtThresholds | BSF_GasSim_v52.py:1163-1165 | for ordered thresholds, the strict and inclusive ladders disagree if and only if the reading equals a threshold |
| Staging.ExactThresholdStages | BSF_GasSim_v52.py:1175-1177 | for strictly ordered thresholds, a reading equal to threshold k is stage k for display and stage k − 1 for control |
| Staging.DefaultThresholdExamples | BSF_GasSim_v52.py:753-754 | with the default thresholds 4000 ppm CO2 is stage 1, 60 ppm NH3 is the alarm, and readings exactly at the stage 1 thresholds stay at stage 0 for control but reach stage 1 for display |
| History.Window | BSF_GasSim_v52.py:1425-1426 | the window keeps at most 200 entries, all of a shorter list, and is the list's own tail |
| History.Push | BSF_GasSim_v52.py:1424-1426 | after an append the list has between 1 and 200 entries, one more than before up to 200, and ends with the new value |
| History.PushKeepsRecent | BSF_GasSim_v52.py:1424-1426 | the entries kept besides the new value are the newest entries of the old list, in their order |
| History.PushAllKeepsLatest | BSF_GasSim_v52.py:1421-1426 | appending any number of values one at a time keeps exactly the newest 200 values of the whole stream, oldest evicted first |
| History.Record | BSF_GasSim_v52.py:1421-1426 | recording a sample keeps the six lists at equal length within 1..200, grows them by one up to 200, and makes the sample the newest entry of each list |
| History.EvictionExample | BSF_GasSim_v52.py:1425-1426 | 250 appends to a one-entry list keep exactly the last 200 appended values |
| Session.MastDay | BSF_GasSim_v52.py:1401-1403 | the day lies in [1, 8], is 1 at step 0, and is 8 exactly from step 120 on |
| Session.Start | BSF_GasSim_v52.py:1293-1299 | START runs the simulation from step 0, day 1, airflows 30/25 % and single-sample histories holding the defaults |
| Session.Stop | BSF_GasSim_v52.py:1300-1301 | STOP clears the running flag and changes nothing else |
| Session.Reset | BSF_GasSim_v52.py:1302-1304 | RESET restores the session defaults with the simulation stopped |
| Session.Tick | BSF_GasSim_v52.py:1400-1426 | a tick advances the step by one and ties the day to it, picks each zone's airflow from its stage table, and records the readings at the chosen airflows with time stamp step·0.25/60 |
| Session.ManualSample | BSF_GasSim_v52.py:1427-1442 | without the autopilot, a run records the readings of the slider day and the manual percentages with a time stamp counting the stored samples, and leaves step, day and airflows alone |
| Session.Simulate | BSF_GasSim_v52.py:1400-1442 | the simulation section keeps the session valid, ticks when active and leaves step and day alone otherwise |
| Session.ScriptRun | BSF_GasSim_v52.py:1293-1304 | a run keeps the session valid; after RESET it is at the defaults; after START it has ticked once; after STOP it is stopped at the same step |
| Session.MastDayMonotone | BSF_GasSim_v52.py:1403 | the day never goes back as the step grows |
| Session.TickAdvancesDay | BSF_GasSim_v52.py:1401-1403 | a tick never lowers the day, and from step 119 on the next tick reaches day 8 |
| Session.ActiveRunTicks | BSF_GasSim_v52.py:1400-1426 | a run without a button while the simulation is active is exactly one tick |
| Session.ActiveRunAdvances | BSF_GasSim_v52.py:1400-1426 | such a run keeps the session valid and running, advances the step by one and records one sample up to the capacity |
| Session.RunsWhileActive | BSF_GasSim_v52.py:1400-1426 | n runs of an active session keep it valid and running, advance the step by n (so the day follows the step) and grow the history by n samples up to 200 |
| Session.DayEightAfterStart | BSF_GasSim_v52.py:1293-1299 | 120 runs after START (START's own run plus 119) the day is 8, and it stays 8 |
| Session.DecideZ1AtFloor | BSF_GasSim_v52.py:1406-1408 | Zone 01's decision uses the readings at the 1 m³/h floor, whatever fan setting was in place |
| Session.DecideZ2AtFloor | BSF_GasSim_v52.py:1409-1411 | Zone 02's decision, with its 22 % idle floor, likewise uses the readings at the 1 m³/h floor of its own volume, whatever fan setting was in place |
| Session.TickUsesDecision | BSF_GasSim_v52.py:1406-1413 | the tick's airflows are the new day's decisions, independent of the previous airflows |
| Session.ZoneDecisionConservative | BSF_GasSim_v52.py:1406-1418 | for one zone with non-negative mass and rates and an idle floor between 0 % and 40 %, the airflow decided at 0 % fan gives readings whose stage is never above the stage decided on, and re-deciding on them never asks for more air |
| Session.TickDecisionConservative | BSF_GasSim_v52.py:1406-1418 | with non-negative masses and rates, in both Zone 01 and Zone 02 the stage of the readings recorded at the chosen airflow is never above the stage that zone decided on, and re-deciding on them never asks for more air |
| Session.StopAfterStartIsReset | BSF_GasSim_v52.py:1293-1303 | the START handler followed by the STOP handler gives the RESET handler's state |
| Session.StartThenStopRuns | BSF_GasSim_v52.py:1293-1301 | a START run followed by a STOP run leaves the session stopped at step 1 and the first tick's day, with three aligned samples. This differs from RESET because START's run ticks (lines 1400-1426) |
| Session.CurvePlantTickConservative | BSF_GasSim_v52.py:1123-1129 | with the program's NH3 curve as the plant's NH3 rate, that rate is non-negative on the tick's day and the tick's decisions in both zones are conservative: each stage at the chosen airflow is never above the stage decided on |
| Session.ResetIdempotent | BSF_GasSim_v52.py:1302-1304 | RESET is idempotent and forgets the state it started from |

## Left out

- MassBalance.CalcPpm: the result is not rounded to one decimal. The contracts hold for the unrounded value. Downstream, the source decides the autopilot stage on the rounded value with a strict `>`. So `Session.Tick`'s decision and the recorded samples can differ from the source for readings within 0.05 ppm above a threshold: a floor reading of 3000.04 ppm is 28 % in the source but 40 % in the model. The model also requires a positive gas density. The source only ever passes the two positive constants; a zero density would raise an error there.
- Airflow.AchVal: the value is not rounded to two decimals. The model also requires a positive volume, since the source divides by it.
- Airflow.ManualPercent: computed in exact integer arithmetic. The source computes `int(q/60000*100)` in floating point, which can land one below the exact quotient when the product falls just under a whole number.
- MassBalance.Nh3Rate: the exponential branch `exp(2.6·(x − 0.45))` is the parameter `takeoff`. Transcendental floating point is outside the model.
- The CO2 emission curve `co2_rate_g_kg_h` (a sine curve) is a parameter of `Plant`. So is the full NH3 curve the tick uses. This is for the same reason.
- The colour and label strings returned with stage indices, and the alias `ach`, are left out. They are cosmetic.
- The Streamlit page, CSS, the sidebar widgets (their ranges and steps), `time.sleep` and the real-time `st.rerun` loop are left out. This is UI plumbing. A rerun is modelled as one application of `Session.ScriptRun`.
- The Plotly charts and the 3-D airflow view are left out. So are the PDF report functions, with their own copies of the rate and ppm formulas, and the logo/image file lookups. These are rendering and file I/O.
- The session's initialisation of missing keys is modelled only as the default state `Session.Initial`. Streamlit's widget state is not modelled.
