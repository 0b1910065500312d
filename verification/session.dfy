/**
 Session state of the simulator and what one script run does to it. A run
 first applies the button pressed (START, STOP or RESET), then either advances
 the autopilot by one tick (when the simulation is active) or records the
 readings of the manual settings. RESET restarts the script at once, so the run
 that handles it records nothing.
 */
module Session {
  import opened Airflow
  import opened MassBalance
  import opened Staging
  import History

  datatype State = State(active: bool, step: nat, mastDay: real, flowZ1: real, flowZ2: real,
                         hist: History.Buffers)

  /** The plant a run evaluates: substrate masses (kg), emission curves over the day (g/kg/h), thresholds. */
  datatype Plant = Plant(massZ1: real, massZ2: real, co2Rate: real -> real, nh3Rate: real -> real,
                         th: Thresholds)

  /** Manual settings from the sidebar: the day slider and both zones' airflow sliders in m³/h. */
  datatype Manual = Manual(day: real, q1: int, q2: int)

  datatype Command = NoCommand | StartCmd | StopCmd | ResetCmd

  const InitialHistory: History.Buffers :=
    History.Buffers([0.0], [420.0], [0.2], [420.0], [0.2], [30.0])

  /** Session defaults. */
  const Initial: State := State(false, 0, 1.0, 30.0, 25.0, InitialHistory)

  // Idle floors of the autopilot per zone.
  const BaseZ1: real := 28.0
  const BaseZ2: real := 22.0

  /** The mast day is tied to the step counter and the history lists are aligned. */
  predicate Valid(s: State)
  {
    History.Aligned(s.hist) && s.mastDay == MastDay(s.step)
  }

  /** Day of the cycle after a number of autopilot ticks: 7 days over 120 ticks, saturating at day 8. */
  function MastDay(step: nat): (d: real)
    ensures 1.0 <= d <= 8.0
    ensures step >= 120 <==> d == 8.0
    ensures step == 0 ==> d == 1.0
  {
    var raw := 1.0 + step as real * (7.0 / 120.0);
    if raw < 8.0 then raw else 8.0
  }

  /** START: back to the defaults with the simulation running. */
  function Start(s: State): (r: State)
    ensures r.active && Valid(r)
    ensures r.step == 0 && r.mastDay == 1.0 && r.flowZ1 == 30.0 && r.flowZ2 == 25.0
    ensures |r.hist.t| == 1 && History.Latest(r.hist) == History.Sample(0.0, 420.0, 0.2, 420.0, 0.2, 30.0)
  {
    Initial.(active := true)
  }

  /** STOP: only the running flag changes. */
  function Stop(s: State): (r: State)
    ensures !r.active
    ensures r.step == s.step && r.mastDay == s.mastDay
    ensures r.flowZ1 == s.flowZ1 && r.flowZ2 == s.flowZ2 && r.hist == s.hist
  {
    s.(active := false)
  }

  /** RESET: back to the defaults, simulation stopped. */
  function Reset(s: State): (r: State)
    ensures !r.active && Valid(r)
    ensures r.step == 0 && r.mastDay == 1.0 && r.flowZ1 == 30.0 && r.flowZ2 == 25.0
    ensures |r.hist.t| == 1 && History.Latest(r.hist) == History.Sample(0.0, 420.0, 0.2, 420.0, 0.2, 30.0)
  {
    Initial
  }

  /** Readings of both zones at the given airflows on the given day. */
  function Readings(p: Plant, day: real, f1: real, f2: real, t: real): History.Sample
  {
    History.Sample(t,
      MacroCo2(p.massZ1, f1, VolZ1, day, p.co2Rate), MacroNh3(p.massZ1, f1, VolZ1, day, p.nh3Rate),
      MacroCo2(p.massZ2, f2, VolZ2, day, p.co2Rate), MacroNh3(p.massZ2, f2, VolZ2, day, p.nh3Rate),
      f1)
  }

  /** Autopilot airflow of Zone 01, decided on the readings at 0 % fan. */
  function DecideZ1(p: Plant, day: real): real
  {
    AutopilotFlow(MacroCo2(p.massZ1, 0.0, VolZ1, day, p.co2Rate),
                  MacroNh3(p.massZ1, 0.0, VolZ1, day, p.nh3Rate), day, BaseZ1, p.th)
  }

  /** Autopilot airflow of Zone 02, decided on the readings at 0 % fan. */
  function DecideZ2(p: Plant, day: real): real
  {
    AutopilotFlow(MacroCo2(p.massZ2, 0.0, VolZ2, day, p.co2Rate),
                  MacroNh3(p.massZ2, 0.0, VolZ2, day, p.nh3Rate), day, BaseZ2, p.th)
  }

  /**
   One autopilot tick: advance the step and the day, choose both zones' airflow,
   and record the readings at the chosen airflows.
   */
  function Tick(s: State, p: Plant): (r: State)
    ensures r.step == s.step + 1 && r.active == s.active
    ensures r.mastDay == MastDay(r.step)
    ensures r.flowZ1 == 100.0 || r.flowZ1 == 70.0 || r.flowZ1 == 40.0 || r.flowZ1 == BaseZ1
    ensures r.flowZ2 == 100.0 || r.flowZ2 == 70.0 || r.flowZ2 == 40.0 || r.flowZ2 == BaseZ2
    ensures History.Aligned(s.hist) ==> Valid(r)
    ensures History.Aligned(s.hist) ==>
      History.Latest(r.hist) == Readings(p, r.mastDay, r.flowZ1, r.flowZ2, r.step as real * 0.25 / 60.0)
  {
    var step := s.step + 1;
    var day := MastDay(step);
    var f1 := DecideZ1(p, day);
    var f2 := DecideZ2(p, day);
    var sample := Readings(p, day, f1, f2, step as real * 0.25 / 60.0);
    State(s.active, step, day, f1, f2, History.Record(s.hist, sample))
  }

  /**
   A run without the autopilot: record the readings of the manual settings. The
   time stamp counts the samples already in the history.
   */
  function ManualSample(s: State, p: Plant, m: Manual): (r: State)
    ensures r.active == s.active && r.step == s.step && r.mastDay == s.mastDay
    ensures r.flowZ1 == s.flowZ1 && r.flowZ2 == s.flowZ2
    ensures History.Aligned(s.hist) ==> History.Aligned(r.hist)
    ensures Valid(s) ==> Valid(r)
    ensures History.Aligned(s.hist) ==>
      History.Latest(r.hist) == Readings(p, m.day, ManualPercent(m.q1) as real, ManualPercent(m.q2) as real,
                                         |s.hist.t| as real * 0.25 / 60.0)
  {
    var f1 := ManualPercent(m.q1) as real;
    var f2 := ManualPercent(m.q2) as real;
    var sample := Readings(p, m.day, f1, f2, |s.hist.t| as real * 0.25 / 60.0);
    s.(hist := History.Record(s.hist, sample))
  }

  /** The simulation section of a run: a tick when active, a manual sample otherwise. */
  function Simulate(s: State, p: Plant, m: Manual): (r: State)
    ensures Valid(s) ==> Valid(r)
    ensures r.active == s.active
    ensures s.active ==> r.step == s.step + 1
    ensures !s.active ==> r.step == s.step && r.mastDay == s.mastDay
  {
    if s.active then Tick(s, p) else ManualSample(s, p, m)
  }

  /** One whole script run: the button, then the simulation section (RESET restarts before it). */
  function ScriptRun(s: State, cmd: Command, p: Plant, m: Manual): (r: State)
    ensures Valid(s) ==> Valid(r)
    ensures cmd == ResetCmd ==> r == Initial
    ensures cmd == StartCmd ==> r.active && r.step == 1
    ensures cmd == StopCmd ==> !r.active && r.step == s.step
  {
    match cmd
    case NoCommand => Simulate(s, p, m)
    case StartCmd => Simulate(Start(s), p, m)
    case StopCmd => Simulate(Stop(s), p, m)
    case ResetCmd => Reset(s)
  }

  /** A number of script runs without any button pressed. */
  function Runs(s: State, p: Plant, m: Manual, n: nat): State
    decreases n
  {
    if n == 0 then s else Runs(ScriptRun(s, NoCommand, p, m), p, m, n - 1)
  }

  /** A plant whose NH3 emission follows the program's NH3 curve with the given base rate and take-off. */
  function CurvePlant(massZ1: real, massZ2: real, co2Rate: real -> real, nh3Base: real, takeoff: real -> real,
                      th: Thresholds): Plant
  {
    Plant(massZ1, massZ2, co2Rate, d => Nh3Rate(d, nh3Base, takeoff), th)
  }

  /** r is n autopilot ticks after s: still running, valid, n steps on, n more samples up to the capacity. */
  predicate TickedNFrom(s: State, r: State, n: nat)
  {
    && r.active && Valid(r) && r.step == s.step + n
    && |r.hist.t| == if |s.hist.t| + n <= History.Capacity then |s.hist.t| + n else History.Capacity
  }

  /** r is one autopilot tick after s: still running, valid, one step on. */
  predicate TickedFrom(s: State, r: State)
  {
    r.active && Valid(r) && r.step == s.step + 1
  }

  /** r holds one more sample than s, up to the capacity of the history. */
  predicate RecordedOnce(s: State, r: State)
  {
    |r.hist.t| == if |s.hist.t| < History.Capacity then |s.hist.t| + 1 else History.Capacity
  }

  // ---------------------------------------------------------------------------
  // Properties

  /** The day never goes back as the step counter grows. */
  lemma MastDayMonotone(a: nat, b: nat)
    requires a <= b
    ensures MastDay(a) <= MastDay(b)
  {
  }

  /** A tick never moves the day backwards, and from step 120 on the day stays at 8. */
  lemma TickAdvancesDay(s: State, p: Plant)
    requires Valid(s)
    ensures s.mastDay <= Tick(s, p).mastDay
    ensures s.step >= 119 ==> Tick(s, p).mastDay == 8.0
  {
    MastDayMonotone(s.step, s.step + 1);
  }

  /** A run without a button while the autopilot is active is exactly one tick. */
  lemma ActiveRunTicks(s: State, p: Plant, m: Manual)
    requires s.active
    ensures ScriptRun(s, NoCommand, p, m) == Tick(s, p)
  {
  }

  /** Each run without a button from a valid running state is one tick and records one sample. */
  lemma ActiveRunAdvances(s: State, p: Plant, m: Manual)
    requires Valid(s) && s.active
    ensures TickedFrom(s, ScriptRun(s, NoCommand, p, m)) && RecordedOnce(s, ScriptRun(s, NoCommand, p, m))
  {
    ActiveRunTicks(s, p, m);
  }

  /**
   While the autopilot runs, n runs advance the step by n, tie the day to the
   step, and grow the history by n samples up to its capacity.
   */
  lemma {:induction false} RunsWhileActive(s: State, p: Plant, m: Manual, n: nat)
    requires Valid(s) && s.active
    ensures TickedNFrom(s, Runs(s, p, m, n), n)
    decreases n
  {
    if n > 0 {
      var s1 := ScriptRun(s, NoCommand, p, m);
      ActiveRunAdvances(s, p, m);
      RunsWhileActive(s1, p, m, n - 1);
    }
  }

  /** 120 ticks after START the cycle has reached day 8, and it stays there. */
  lemma DayEightAfterStart(s: State, p: Plant, m: Manual, n: nat)
    requires n >= 119
    ensures Runs(ScriptRun(s, StartCmd, p, m), p, m, n).mastDay == 8.0
  {
    var s0 := ScriptRun(s, StartCmd, p, m);
    assert Valid(Start(s));
    RunsWhileActive(s0, p, m, n);
  }

  /**
   Zone 01's decision uses the readings at the 1 m³/h floor: outside air plus
   the whole emission per m³/h, independent of any fan setting.
   */
  lemma DecideZ1AtFloor(p: Plant, d: real)
    ensures DecideZ1(p, d) == AutopilotFlow(Co2Ambient + p.massZ1 * p.co2Rate(d) * 1000.0 / RhoCo2,
                                            Nh3Ambient + p.massZ1 * p.nh3Rate(d) * 1000.0 / RhoNh3,
                                            d, BaseZ1, p.th)
  {
    assert FanM3h(0.0, VolZ1, None) == 1.0;
    CalcPpmAtFloor(p.massZ1, p.co2Rate(d), RhoCo2, 0.0, VolZ1, Co2Ambient);
    CalcPpmAtFloor(p.massZ1, p.nh3Rate(d), RhoNh3, 0.0, VolZ1, Nh3Ambient);
  }

  /** Zone 02's decision likewise uses the readings at the 1 m³/h floor of its own volume. */
  lemma DecideZ2AtFloor(p: Plant, d: real)
    ensures DecideZ2(p, d) == AutopilotFlow(Co2Ambient + p.massZ2 * p.co2Rate(d) * 1000.0 / RhoCo2,
                                            Nh3Ambient + p.massZ2 * p.nh3Rate(d) * 1000.0 / RhoNh3,
                                            d, BaseZ2, p.th)
  {
    assert FanM3h(0.0, VolZ2, None) == 1.0;
    CalcPpmAtFloor(p.massZ2, p.co2Rate(d), RhoCo2, 0.0, VolZ2, Co2Ambient);
    CalcPpmAtFloor(p.massZ2, p.nh3Rate(d), RhoNh3, 0.0, VolZ2, Nh3Ambient);
  }

  /** The tick's airflows are the decisions for the new day, whatever the previous airflow was. */
  lemma TickUsesDecision(s: State, p: Plant)
    ensures Tick(s, p).flowZ1 == DecideZ1(p, MastDay(s.step + 1))
    ensures Tick(s, p).flowZ2 == DecideZ2(p, MastDay(s.step + 1))
  {
  }

  /**
   A zone's airflow f is conservative for a decision made at 0 % fan: the stage of
   the readings at f is never above the stage at 0 %, and re-deciding on the
   readings at f never asks for more than f.
   */
  predicate ZoneConservative(mass: real, vol: real, basePct: real, d: real, p: Plant, f: real)
  {
    && AlertStage(MacroCo2(mass, f, vol, d, p.co2Rate), MacroNh3(mass, f, vol, d, p.nh3Rate), p.th)
       <= AlertStage(MacroCo2(mass, 0.0, vol, d, p.co2Rate), MacroNh3(mass, 0.0, vol, d, p.nh3Rate), p.th)
    && AutopilotFlow(MacroCo2(mass, f, vol, d, p.co2Rate), MacroNh3(mass, f, vol, d, p.nh3Rate), d, basePct, p.th)
       <= f
  }

  /** The autopilot's decision at 0 % fan is conservative for any zone with an idle floor in [0, 40]. */
  lemma ZoneDecisionConservative(mass: real, vol: real, basePct: real, d: real, p: Plant)
    requires mass >= 0.0 && vol >= 0.0 && 0.0 <= basePct <= 40.0
    requires p.co2Rate(d) >= 0.0 && p.nh3Rate(d) >= 0.0
    ensures ZoneConservative(mass, vol, basePct, d, p,
              AutopilotFlow(MacroCo2(mass, 0.0, vol, d, p.co2Rate), MacroNh3(mass, 0.0, vol, d, p.nh3Rate), d, basePct, p.th))
  {
    var c0, a0 := MacroCo2(mass, 0.0, vol, d, p.co2Rate), MacroNh3(mass, 0.0, vol, d, p.nh3Rate);
    var f := AutopilotFlow(c0, a0, d, basePct, p.th);
    CalcPpmAntitoneInFlow(mass, p.co2Rate(d), RhoCo2, 0.0, f, vol, Co2Ambient);
    CalcPpmAntitoneInFlow(mass, p.nh3Rate(d), RhoNh3, 0.0, f, vol, Nh3Ambient);
    var c1, a1 := MacroCo2(mass, f, vol, d, p.co2Rate), MacroNh3(mass, f, vol, d, p.nh3Rate);
    FanStageMonotone(c1, a1, c0, a0, p.th);
    AutopilotFlowMonotone(c1, a1, c0, a0, d, basePct, p.th);
  }

  /**
   The tick's decisions are conservative in both zones: with non-negative masses
   and rates, the stage of the readings recorded at each chosen airflow is never
   above the stage that zone decided on, and re-deciding on those readings never
   asks for more air.
   */
  lemma TickDecisionConservative(s: State, p: Plant)
    requires p.massZ1 >= 0.0 && p.massZ2 >= 0.0
    requires p.co2Rate(MastDay(s.step + 1)) >= 0.0 && p.nh3Rate(MastDay(s.step + 1)) >= 0.0
    ensures ZoneConservative(p.massZ1, VolZ1, BaseZ1, MastDay(s.step + 1), p, Tick(s, p).flowZ1)
    ensures ZoneConservative(p.massZ2, VolZ2, BaseZ2, MastDay(s.step + 1), p, Tick(s, p).flowZ2)
  {
    var d := MastDay(s.step + 1);
    ZoneDecisionConservative(p.massZ1, VolZ1, BaseZ1, d, p);
    ZoneDecisionConservative(p.massZ2, VolZ2, BaseZ2, d, p);
  }

  /**
   The START handler followed by the STOP handler gives the RESET handler's
   state. Whole runs differ: START's run goes on to tick (see StartThenStopRuns).
   */
  lemma StopAfterStartIsReset(s: State)
    ensures Stop(Start(s)) == Reset(s)
  {
  }

  /**
   A run with START followed by a run with STOP: the first run ticked once, so the
   session stops at step 1 on the first tick's day, and the second run adds a
   manual sample to the three-sample history.
   */
  lemma StartThenStopRuns(s: State, p: Plant, m: Manual)
    ensures var r := ScriptRun(ScriptRun(s, StartCmd, p, m), StopCmd, p, m);
      && !r.active && r.step == 1 && r.mastDay == MastDay(1)
      && History.Aligned(r.hist) && |r.hist.t| == 3
      && r != Reset(s)
  {
    var r1 := ScriptRun(s, StartCmd, p, m);
    assert r1 == Tick(Start(s), p);
    assert |r1.hist.t| == 2;
  }

  /** RESET is idempotent and forgets the state it started from. */
  lemma ResetIdempotent(s: State, s': State)
    ensures Reset(Reset(s)) == Reset(s) == Reset(s')
  {
  }

  /**
   With the program's NH3 curve (non-negative base rate and take-off), the tick's
   decisions in both zones are conservative whenever the substrate masses and the
   CO2 rate of the tick's day are non-negative.
   */
  lemma CurvePlantTickConservative(s: State, massZ1: real, massZ2: real, co2Rate: real -> real, nh3Base: real,
                                   takeoff: real -> real, th: Thresholds)
    requires massZ1 >= 0.0 && massZ2 >= 0.0 && co2Rate(MastDay(s.step + 1)) >= 0.0
    requires nh3Base >= 0.0 && takeoff(MastDay(s.step + 1) / CycleDays - 0.45) >= 0.0
    ensures var p := CurvePlant(massZ1, massZ2, co2Rate, nh3Base, takeoff, th);
      var d := MastDay(s.step + 1);
      && p.nh3Rate(d) >= 0.0
      && ZoneConservative(massZ1, VolZ1, BaseZ1, d, p, Tick(s, p).flowZ1)
      && ZoneConservative(massZ2, VolZ2, BaseZ2, d, p, Tick(s, p).flowZ2)
  {
    var p := CurvePlant(massZ1, massZ2, co2Rate, nh3Base, takeoff, th);
    var d := MastDay(s.step + 1);
    Nh3RateNonNegative(d, nh3Base, takeoff);
    assert p.nh3Rate(d) == Nh3Rate(d, nh3Base, takeoff);
    TickDecisionConservative(s, p);
  }
}
