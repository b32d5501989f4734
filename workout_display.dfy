/**
 * The plan view (components/WorkoutDisplay.tsx): the log record written
 * when a day is marked finished, the set of day titles finished in the
 * current week, and the adjustment panel's guard and state.
 */
module Display {
  import opened Wrappers
  import opened Text
  import opened Types
  import opened Random
  import opened Generator
  import opened Adjuster
  import opened AppState
  import opened Phrases

  /** The duration recorded when the weekly division holds no digit. */
  const DefaultDuration: nat := 45

  // ---------------------------------------------------------------------
  // The log record of a finished day
  // ---------------------------------------------------------------------

  /** `(ex.sets || "").match(/\d+/)`, parsed, or 0 when the text holds no digit. */
  function SetsCount(ex: Exercise): nat {
    match FirstNumber(ex.sets)
    case Some(n) => n
    case None => 0
  }

  /** The `reduce` over the day's exercises: the sets counts summed left to right from 0. */
  function TotalSets(exercises: seq<Exercise>): nat
    decreases |exercises|
  {
    if exercises == [] then 0
    else TotalSets(exercises[..|exercises| - 1]) + SetsCount(exercises[|exercises| - 1])
  }

  /** The total over two lists laid end to end is the sum of their totals. */
  lemma {:induction false} TotalSetsAppend(a: seq<Exercise>, b: seq<Exercise>)
    ensures TotalSets(a + b) == TotalSets(a) + TotalSets(b)
    decreases |b|
  {
    if b == [] {
      assert a + b == a;
    } else {
      var c := b[..|b| - 1];
      assert (a + b)[..|a + b| - 1] == a + c;
      assert (a + b)[|a + b| - 1] == b[|b| - 1];
      TotalSetsAppend(a, c);
    }
  }

  lemma MultiplyStep(n: nat, m: nat)
    ensures n * (m + 1) == n * m + n
  {
  }

  /** When every `sets` text starts with the number `n`, the total is `n` per exercise. */
  lemma {:induction false} TotalSetsUniform(exercises: seq<Exercise>, n: nat)
    requires forall k :: 0 <= k < |exercises| ==> FirstNumber(exercises[k].sets) == Some(n)
    ensures TotalSets(exercises) == n * |exercises|
    decreases |exercises|
  {
    if exercises != [] {
      var init := exercises[..|exercises| - 1];
      assert forall k :: 0 <= k < |init| ==> init[k] == exercises[k];
      TotalSetsUniform(init, n);
      var last := exercises[|exercises| - 1];
      assert FirstNumber(last.sets) == Some(n);
      assert SetsCount(last) == n;
      assert TotalSets(exercises) == TotalSets(init) + n;
      MultiplyStep(n, |init|);
    }
  }

  /** `weeklyDivision.match(/\d+/)?.[0] || "45"`, parsed. */
  function Duration(plan: WorkoutPlan): nat {
    match FirstNumber(plan.weeklyDivision)
    case Some(n) => n
    case None => DefaultDuration
  }

  /**
   * `handleFinishDay`'s log record for `day` of `plan`; `id` and `date`
   * stand for `crypto.randomUUID()` and the current ISO timestamp.
   */
  function LogFor(plan: WorkoutPlan, day: DayWorkout, id: string, date: string): (log: WorkoutLog)
    ensures log.id == id && log.date == date
    ensures log.planName == plan.planName && log.dayTitle == day.dayTitle
    ensures |log.exercises| == |day.exercises|
    ensures forall k :: 0 <= k < |day.exercises| ==> log.exercises[k] == day.exercises[k].name
    ensures log.durationMinutes == Duration(plan) && log.totalSets == TotalSets(day.exercises)
  {
    WorkoutLog(id, date, plan.planName, day.dayTitle,
               seq(|day.exercises|, k requires 0 <= k < |day.exercises| => day.exercises[k].name),
               Duration(plan), TotalSets(day.exercises))
  }

  /**
   * A plan the engine generated logs its day count, not a number of
   * minutes: its weekly division starts with the requested number of days.
   */
  lemma EngineLogRecordsDays(level: Level, goal: Goal, days: int, priorities: string, time: string,
                             limitations: string, planId: string, now: string, draw: nat -> real, start: nat,
                             day: DayWorkout, id: string, date: string)
    requires UnitDraws(draw)
    ensures var plan := Generated(level, goal, days, priorities, time, limitations, planId, now, draw, start).0;
            LogFor(plan, day, id, date).durationMinutes == Abs(days)
  {
    DivisionNamesDays(level, goal, days, priorities, time, limitations, planId, now, draw, start);
  }

  /** An adjustment keeps the weekly division, so it keeps the recorded duration. */
  lemma AdjustedKeepsDuration(plan: WorkoutPlan, instruction: string, planId: string, now: string,
                              draw: nat -> real, start: nat, day: DayWorkout, id: string, date: string)
    requires UnitDraws(draw)
    ensures LogFor(Adjusted(plan, instruction, planId, now, draw, start).0, day, id, date).durationMinutes
            == LogFor(plan, day, id, date).durationMinutes
  {
    var r := Adjusted(plan, instruction, planId, now, draw, start).0;
    assert r.weeklyDivision == plan.weeklyDivision;
  }

  /** After a heavier adjustment every exercise of a day counts 4 sets. */
  lemma HeavierLogSets(plan: WorkoutPlan, instruction: string, planId: string, now: string,
                       draw: nat -> real, start: nat, d: nat, id: string, date: string)
    requires UnitDraws(draw) && d < |plan.workouts|
    requires IntensityOf(Normalize(instruction)) == Heavier
    ensures var r := Adjusted(plan, instruction, planId, now, draw, start).0;
            && |r.workouts| == |plan.workouts|
            && LogFor(r, r.workouts[d], id, date).totalSets == 4 * |plan.workouts[d].exercises|
  {
    var r := Adjusted(plan, instruction, planId, now, draw, start).0;
    AdjustedStructure(plan, instruction, planId, now, draw, start, d);
    var exs := r.workouts[d].exercises;
    IntensitySetsNumbers();
    forall k | 0 <= k < |exs| ensures FirstNumber(exs[k].sets) == Some(4) {
      AdjustedExercise(plan, instruction, planId, now, draw, start, d, k);
    }
    TotalSetsUniform(exs, 4);
  }

  /** After a lighter adjustment every exercise counts 2 sets: "2-3" parses as its first number. */
  lemma LighterLogSets(plan: WorkoutPlan, instruction: string, planId: string, now: string,
                       draw: nat -> real, start: nat, d: nat, id: string, date: string)
    requires UnitDraws(draw) && d < |plan.workouts|
    requires IntensityOf(Normalize(instruction)) == Lighter
    ensures var r := Adjusted(plan, instruction, planId, now, draw, start).0;
            && |r.workouts| == |plan.workouts|
            && LogFor(r, r.workouts[d], id, date).totalSets == 2 * |plan.workouts[d].exercises|
  {
    var r := Adjusted(plan, instruction, planId, now, draw, start).0;
    AdjustedStructure(plan, instruction, planId, now, draw, start, d);
    var exs := r.workouts[d].exercises;
    IntensitySetsNumbers();
    forall k | 0 <= k < |exs| ensures FirstNumber(exs[k].sets) == Some(2) {
      AdjustedExercise(plan, instruction, planId, now, draw, start, d, k);
    }
    TotalSetsUniform(exs, 2);
  }

  // ---------------------------------------------------------------------
  // The days finished this week
  // ---------------------------------------------------------------------

  /**
   * The log belongs to the plan on display and is dated in the current
   * week; `inWeek` stands for `new Date(log.date) >= startOfThisWeek`.
   */
  predicate CountsThisWeek(log: WorkoutLog, planName: string, inWeek: string -> bool) {
    log.planName == planName && inWeek(log.date)
  }

  /** The day titles of the logs that count this week. */
  function FinishedSet(logs: seq<WorkoutLog>, planName: string, inWeek: string -> bool): set<string> {
    set i | 0 <= i < |logs| && CountsThisWeek(logs[i], planName, inWeek) :: logs[i].dayTitle
  }

  /** `finishedDays`: the `forEach` over the logs that adds each counting log's day title. */
  method FinishedDays(logs: seq<WorkoutLog>, planName: string, inWeek: string -> bool)
    returns (finished: set<string>)
    ensures finished == FinishedSet(logs, planName, inWeek)
    ensures forall t :: t in finished <==>
              exists i :: 0 <= i < |logs| && CountsThisWeek(logs[i], planName, inWeek) && logs[i].dayTitle == t
  {
    finished := {};
    var k := 0;
    while k < |logs|
      invariant 0 <= k <= |logs|
      invariant forall t :: t in finished <==>
                  exists i :: 0 <= i < k && CountsThisWeek(logs[i], planName, inWeek) && logs[i].dayTitle == t
    {
      var log := logs[k];
      if log.planName == planName && inWeek(log.date) {
        finished := finished + {log.dayTitle};
      }
      k := k + 1;
    }
  }

  /** A day just logged, with a date in the current week, shows as finished. */
  lemma LoggedDayIsFinished(logs: seq<WorkoutLog>, plan: WorkoutPlan, day: DayWorkout, id: string,
                            date: string, inWeek: string -> bool)
    requires inWeek(date)
    ensures day.dayTitle in FinishedSet(WithLog(logs, LogFor(plan, day, id, date)), plan.planName, inWeek)
  {
    var w := WithLog(logs, LogFor(plan, day, id, date));
    assert CountsThisWeek(w[0], plan.planName, inWeek);
  }

  // ---------------------------------------------------------------------
  // The adjustment panel
  // ---------------------------------------------------------------------

  /** `handleAdjust` goes ahead: the text does not trim to empty and no adjustment is running. */
  predicate Requests(text: string, busy: bool) {
    Trim(text) != "" && !busy
  }

  /** A request goes ahead exactly when the text holds a non-white character and the panel is idle. */
  lemma RequestsIff(text: string, busy: bool)
    ensures Requests(text, busy) <==> !busy && !AllWhite(text)
  {
    TrimEmptyIffWhite(text);
  }

  /** The panel's three state fields. */
  class AdjustPanel {
    var adjustmentText: string
    var isAdjusting: bool
    var adjustError: Option<string>

    constructor ()
      ensures adjustmentText == "" && !isAdjusting && adjustError == None
    {
      adjustmentText := "";
      isAdjusting := false;
      adjustError := None;
    }

    /** The text field's `onChange`; the field is disabled while an adjustment runs. */
    method Edit(text: string)
      requires !isAdjusting
      modifies this
      ensures adjustmentText == text && isAdjusting == old(isAdjusting) && adjustError == old(adjustError)
    {
      adjustmentText := text;
    }

    /**
     * The part of `handleAdjust` before its `await`: the guard, then the
     * busy flag and the cleared error.  While one adjustment runs, a
     * second one does not start.
     */
    method Begin() returns (started: bool)
      modifies this
      ensures started == Requests(old(adjustmentText), old(isAdjusting))
      ensures started ==> isAdjusting && adjustError == None && adjustmentText == old(adjustmentText)
      ensures !started ==> adjustmentText == old(adjustmentText) && isAdjusting == old(isAdjusting)
                           && adjustError == old(adjustError)
    {
      if Trim(adjustmentText) == "" || isAdjusting {
        return false;
      }
      isAdjusting := true;
      adjustError := None;
      started := true;
    }

    /**
     * The part of `handleAdjust` after its `await`: the adjusted plan goes
     * to the shell's `handleUpdatePlan` when there is one, which also clears
     * the text; the busy flag drops in every case.  `id` and `now` stand for
     * the adjustment's UUID and timestamp.
     */
    method Finish(plan: WorkoutPlan, app: App?, id: string, now: string, rng: RandomSource)
      returns (updated: WorkoutPlan)
      requires isAdjusting && rng.Valid() && (app != null ==> app.Valid())
      modifies this, rng, app
      ensures (updated, rng.used) == Adjusted(plan, old(adjustmentText), id, now, rng.draw, old(rng.used))
      ensures !isAdjusting && adjustError == old(adjustError)
      ensures app == null ==> adjustmentText == old(adjustmentText)
      ensures app != null ==> adjustmentText == "" && app.Valid()
                              && app.workoutPlan == Some(updated)
                              && app.history == WithUpdatedPlan(old(app.history), updated)
                              && app.workoutLogs == old(app.workoutLogs)
                              && app.profileGender == old(app.profileGender)
    {
      updated := AdjustWorkout(plan, adjustmentText, id, now, rng);
      if app != null {
        app.UpdatePlan(updated);
        adjustmentText := "";
      }
      isAdjusting := false;
    }
  }
}
