/**
 Fan staging. Two families of classifiers compare gas readings with a three-step
 threshold ladder per gas:
 - the control family (autopilot airflow, fan stage, alert stage) escalates only
   when a reading is strictly above a threshold, and combines CO2 and NH3 with OR;
 - the display family (status text, chart step curves, NH3 stage bar) escalates
   already when a reading equals a threshold, one gas at a time.
 Thresholds are explicit parameters because the sidebar overwrites the defaults.
 */
module Staging {

  /** Stage 1, 2 and 3 thresholds of one gas, in ppm. */
  datatype Ladder = Ladder(s1: real, s2: real, s3: real)

  datatype Thresholds = Thresholds(co2: Ladder, nh3: Ladder)

  /** A stage index with the fan percentage the stage table pairs it with. */
  datatype StageResult = StageResult(index: nat, fanPct: int)

  const DefaultThresholds: Thresholds :=
    Thresholds(Ladder(3000.0, 5000.0, 10000.0), Ladder(12.0, 25.0, 50.0))

  predicate Ordered(l: Ladder)
  {
    l.s1 <= l.s2 <= l.s3
  }

  predicate StrictlyOrdered(l: Ladder)
  {
    l.s1 < l.s2 < l.s3
  }

  // ---------------------------------------------------------------------------
  // Reference definitions

  /** Stage one gas alone demands under strict comparison: the highest threshold exceeded. */
  function StrictLevel(x: real, l: Ladder): (k: nat)
    ensures k <= 3
    ensures k == 3 <==> x > l.s3
    ensures k >= 2 <==> x > l.s2 || x > l.s3
    ensures k >= 1 <==> x > l.s1 || x > l.s2 || x > l.s3
  {
    if x > l.s3 then 3 else if x > l.s2 then 2 else if x > l.s1 then 1 else 0
  }

  function Max(a: nat, b: nat): nat
  {
    if a >= b then a else b
  }

  /** Worst case over both gases. */
  function WorstStage(co2: real, nh3: real, th: Thresholds): nat
  {
    Max(StrictLevel(co2, th.co2), StrictLevel(nh3, th.nh3))
  }

  /** Fan percentage of the fixed stage table: ECO 20, stage 1 40, stage 2 70, alarm 100. */
  function StageFanPercent(k: nat): int
    requires k <= 3
  {
    [20, 40, 70, 100][k]
  }

  /** Autopilot percentage for a stage: the stage table above ECO, the caller's idle floor at ECO. */
  function AutopilotPercent(k: nat, basePct: real): real
  {
    if k == 3 then 100.0 else if k == 2 then 70.0 else if k == 1 then 40.0 else basePct
  }

  // ---------------------------------------------------------------------------
  // Control family (strict comparison, both gases OR-combined)

  /** Fan percentage the autopilot chooses; the day argument is not used. */
  function AutopilotFlow(co2: real, nh3: real, day: real, basePct: real, th: Thresholds): (f: real)
    ensures f == AutopilotPercent(WorstStage(co2, nh3, th), basePct)
    ensures f == 100.0 || f == 70.0 || f == 40.0 || f == basePct
  {
    if co2 > th.co2.s3 || nh3 > th.nh3.s3 then 100.0
    else if co2 > th.co2.s2 || nh3 > th.nh3.s2 then 70.0
    else if co2 > th.co2.s1 || nh3 > th.nh3.s1 then 40.0
    else basePct
  }

  /** Fan stage shown for Zone 01: index and fan percentage. */
  function FanStage(co2: real, nh3: real, th: Thresholds): (r: StageResult)
    ensures r.index == WorstStage(co2, nh3, th)
    ensures r.index <= 3 && r.fanPct == StageFanPercent(r.index)
  {
    if co2 > th.co2.s3 || nh3 > th.nh3.s3 then StageResult(3, 100)
    else if co2 > th.co2.s2 || nh3 > th.nh3.s2 then StageResult(2, 70)
    else if co2 > th.co2.s1 || nh3 > th.nh3.s1 then StageResult(1, 40)
    else StageResult(0, 20)
  }

  /** Alert stage of a zone (standby, operation, warning, evacuation alarm). */
  function AlertStage(co2: real, nh3: real, th: Thresholds): (k: nat)
    ensures k == WorstStage(co2, nh3, th)
  {
    if co2 > th.co2.s3 || nh3 > th.nh3.s3 then 3
    else if co2 > th.co2.s2 || nh3 > th.nh3.s2 then 2
    else if co2 > th.co2.s1 || nh3 > th.nh3.s1 then 1
    else 0
  }

  // ---------------------------------------------------------------------------
  // Display family (inclusive comparison, one gas)

  /** Status of one reading in the report: the highest threshold reached. */
  function StatusStage(x: real, l: Ladder): (k: nat)
    ensures k <= 3
    ensures k == 3 <==> x >= l.s3
    ensures k >= 2 <==> x >= l.s2 || x >= l.s3
    ensures k >= 1 <==> x >= l.s1 || x >= l.s2 || x >= l.s3
  {
    if x >= l.s3 then 3 else if x >= l.s2 then 2 else if x >= l.s1 then 1 else 0
  }

  /** Step curve of the charts: the user-edited fan percentage of the stage the reading reaches. */
  function StepCurve(x: real, l: Ladder, pcts: seq<int>): (p: int)
    requires |pcts| == 4
    ensures p == pcts[StatusStage(x, l)]
  {
    if x >= l.s3 then pcts[3]
    else if x >= l.s2 then pcts[2]
    else if x >= l.s1 then pcts[1]
    else pcts[0]
  }

  /** Stage of the NH3 bar chart, counted upwards from the lowest threshold. */
  function Nh3ActiveStage(x: real, l: Ladder): (k: nat)
    ensures k <= 3
    ensures Ordered(l) ==> k == StatusStage(x, l)
  {
    if x < l.s1 then 0 else if x < l.s2 then 1 else if x < l.s3 then 2 else 3
  }

  // ---------------------------------------------------------------------------
  // Properties

  /** Either gas alone can escalate the stage: the stage is never below either gas's own level. */
  lemma EitherGasEscalates(co2: real, nh3: real, th: Thresholds)
    ensures AlertStage(co2, nh3, th) >= StrictLevel(co2, th.co2)
    ensures AlertStage(co2, nh3, th) >= StrictLevel(nh3, th.nh3)
    ensures AlertStage(co2, nh3, th) == StrictLevel(co2, th.co2) || AlertStage(co2, nh3, th) == StrictLevel(nh3, th.nh3)
  {
  }

  /** The fan stage and the alert stage name the same index for the same readings. */
  lemma FanStageAgreesWithAlertStage(co2: real, nh3: real, th: Thresholds)
    ensures FanStage(co2, nh3, th).index == AlertStage(co2, nh3, th)
  {
  }

  /** With the ECO floor of the stage table, the autopilot and the fan stage choose the same percentage. */
  lemma AutopilotMatchesFanStage(co2: real, nh3: real, day: real, th: Thresholds)
    ensures AutopilotFlow(co2, nh3, day, 20.0, th) == FanStage(co2, nh3, th).fanPct as real
  {
  }

  /** The autopilot's decision does not depend on the day. */
  lemma AutopilotIgnoresDay(co2: real, nh3: real, d1: real, d2: real, basePct: real, th: Thresholds)
    ensures AutopilotFlow(co2, nh3, d1, basePct, th) == AutopilotFlow(co2, nh3, d2, basePct, th)
  {
  }

  /** A higher reading never lowers one gas's strict level (no ordering of thresholds needed). */
  lemma StrictLevelMonotone(x: real, y: real, l: Ladder)
    requires x <= y
    ensures StrictLevel(x, l) <= StrictLevel(y, l)
  {
  }

  /** A higher reading never lowers one gas's inclusive level (no ordering of thresholds needed). */
  lemma StatusStageMonotone(x: real, y: real, l: Ladder)
    requires x <= y
    ensures StatusStage(x, l) <= StatusStage(y, l)
  {
  }

  /** Raising either reading never lowers the stage index or the fan percentage. */
  lemma FanStageMonotone(co2: real, nh3: real, co2': real, nh3': real, th: Thresholds)
    requires co2 <= co2' && nh3 <= nh3'
    ensures AlertStage(co2, nh3, th) <= AlertStage(co2', nh3', th)
    ensures FanStage(co2, nh3, th).fanPct <= FanStage(co2', nh3', th).fanPct
  {
    StrictLevelMonotone(co2, co2', th.co2);
    StrictLevelMonotone(nh3, nh3', th.nh3);
  }

  /** Raising either reading never lowers the autopilot's airflow, as long as the idle floor is at most stage 1's 40 %. */
  lemma AutopilotFlowMonotone(co2: real, nh3: real, co2': real, nh3': real, day: real, basePct: real, th: Thresholds)
    requires co2 <= co2' && nh3 <= nh3'
    requires basePct <= 40.0
    ensures AutopilotFlow(co2, nh3, day, basePct, th) <= AutopilotFlow(co2', nh3', day, basePct, th)
  {
    StrictLevelMonotone(co2, co2', th.co2);
    StrictLevelMonotone(nh3, nh3', th.nh3);
  }

  /** A step curve with non-decreasing percentages never falls as the reading rises. */
  lemma StepCurveMonotone(x: real, y: real, l: Ladder, pcts: seq<int>)
    requires x <= y
    requires |pcts| == 4 && pcts[0] <= pcts[1] <= pcts[2] <= pcts[3]
    ensures StepCurve(x, l, pcts) <= StepCurve(y, l, pcts)
  {
    StatusStageMonotone(x, y, l);
  }

  /** Inclusive comparison never yields a lower level than strict comparison. */
  lemma StatusNeverBelowStrict(x: real, l: Ladder)
    ensures StrictLevel(x, l) <= StatusStage(x, l)
  {
  }

  /** Away from the thresholds the two families agree. */
  lemma FamiliesAgreeOffThresholds(x: real, l: Ladder)
    requires x != l.s1 && x != l.s2 && x != l.s3
    ensures StrictLevel(x, l) == StatusStage(x, l)
  {
  }

  /** For ordered thresholds, the two families disagree exactly when the reading equals a threshold. */
  lemma FamiliesDisagreeExactlyAtThresholds(x: real, l: Ladder)
    requires Ordered(l)
    ensures StrictLevel(x, l) != StatusStage(x, l) <==> (x == l.s1 || x == l.s2 || x == l.s3)
  {
    if x == l.s1 || x == l.s2 || x == l.s3 {
      assert StrictLevel(x, l) < StatusStage(x, l);
    }
  }

  /** For strictly ordered thresholds, a reading equal to threshold k is stage k for display and k - 1 for control. */
  lemma ExactThresholdStages(l: Ladder)
    requires StrictlyOrdered(l)
    ensures StatusStage(l.s1, l) == 1 && StrictLevel(l.s1, l) == 0
    ensures StatusStage(l.s2, l) == 2 && StrictLevel(l.s2, l) == 1
    ensures StatusStage(l.s3, l) == 3 && StrictLevel(l.s3, l) == 2
  {
  }

  /** Default thresholds: CO2 alone reaches stage 1, NH3 alone reaches the alarm. */
  lemma DefaultThresholdExamples()
    ensures AlertStage(4000.0, 5.0, DefaultThresholds) == 1
    ensures AlertStage(100.0, 60.0, DefaultThresholds) == 3
    ensures AlertStage(3000.0, 12.0, DefaultThresholds) == 0
    ensures StatusStage(3000.0, DefaultThresholds.co2) == 1
  {
  }
}
