/**
 * `generateIntelligentWorkout` (core/workoutEngine.ts).  A day-count
 * template fixes each day's title and the (group, count) slots drawn for
 * it; a priority pass then appends at most one exercise per (day, token).
 * The pure functions below say what the method computes from the draw
 * stream; the lemmas state the template shapes and the append-only boost.
 */
module Generator {
  import opened Wrappers
  import opened Text
  import opened Types
  import opened Catalog
  import opened Random
  import opened Shuffle
  import opened Selector
  import opened Titles

  /** One `getExercisesByMuscle(group, level, count)` call of a template. */
  datatype Slot = Slot(group: string, count: nat)

  datatype DayTemplate = DayTemplate(title: string, slots: seq<Slot>)

  /** A full-body day: one exercise from each group, in fixed order. */
  const FullBodySlots: seq<Slot> := [
    Slot("Peito", 1), Slot("Costas", 1), Slot("Pernas", 1), Slot("Ombros", 1),
    Slot("Bíceps", 1), Slot("Tríceps", 1), Slot("Abdômen", 1)
  ]

  const DayA: DayTemplate :=
    DayTemplate("Treino A - Peito, Ombros e Tríceps", [Slot("Peito", 2), Slot("Ombros", 2), Slot("Tríceps", 2)])
  const DayB: DayTemplate :=
    DayTemplate("Treino B - Costas e Bíceps", [Slot("Costas", 3), Slot("Bíceps", 2), Slot("Abdômen", 1)])
  const DayC: DayTemplate :=
    DayTemplate("Treino C - Pernas Completo", [Slot("Pernas", 5)])

  function Max0(n: int): (r: nat)
    ensures r >= n && (r == n || r == 0)
  {
    if n < 0 then 0 else n
  }

  /** `muscles = group.split('/')`: 3 from the first, 2 from a non-empty second. */
  function SplitSlots(group: string): (slots: seq<Slot>)
    ensures 1 <= |slots| <= 2 && slots[0].count == 3
    ensures |slots| == 2 ==> slots[1].count == 2
  {
    var muscles := Split(group, "/");
    [Slot(muscles[0], 3)] + (if |muscles| > 1 && muscles[1] != "" then [Slot(muscles[1], 2)] else [])
  }

  /** The one-or-two-days branch: `days` full-body days. */
  function FullBodyTemplate(days: nat): (t: seq<DayTemplate>)
    ensures |t| == days
  {
    seq(days, i requires 0 <= i < days => DayTemplate(FullBodyTitle(i), FullBodySlots))
  }

  /** The four-or-more-days branch: day `i` follows entry `i mod 4` of the rotation. */
  function SplitTemplate(days: nat): (t: seq<DayTemplate>)
    ensures |t| == days
  {
    seq(days, i requires 0 <= i < days => DayTemplate(SplitTitle(i), SplitSlots(SplitGroups[i % 4])))
  }

  /** The days the three branches of the template switch push, in order. */
  function Template(days: int): (t: seq<DayTemplate>)
    ensures |t| == Max0(days)
  {
    if days <= 2 then FullBodyTemplate(Max0(days))
    else if days == 3 then [DayA, DayB, DayC]
    else SplitTemplate(days)
  }

  // ---------------------------------------------------------------------
  // Drawing the template
  // ---------------------------------------------------------------------

  /** How many exercises the slot list yields at level `l`: `min(count, |pool|)` per slot. */
  function SlotTotal(slots: seq<Slot>, l: Level): nat
    decreases |slots|
  {
    if slots == [] then 0
    else
      var last := slots[|slots| - 1];
      SlotTotal(slots[..|slots| - 1], l) + Min(last.count, |Pool(last.group, l)|)
  }

  /**
   * `ex` is the slots' draws one after the other: for each slot a block of
   * `min(count, |pool|)` exercises of that slot's pool, without repeated names.
   */
  ghost predicate FromSlots(ex: seq<Exercise>, slots: seq<Slot>, l: Level)
    decreases |slots|
  {
    if slots == [] then ex == []
    else
      var last := slots[|slots| - 1];
      var n := Min(last.count, |Pool(last.group, l)|);
      && n <= |ex|
      && FromSlots(ex[..|ex| - n], slots[..|slots| - 1], l)
      && (forall x :: x in ex[|ex| - n..] ==> x in Pool(last.group, l))
      && DistinctNames(ex[|ex| - n..])
  }

  /** The spread of the slots' `getExercisesByMuscle` calls, with the draw cursor after them. */
  function DrawSlots(slots: seq<Slot>, l: Level, draw: nat -> real, start: nat): (r: (seq<Exercise>, nat))
    requires UnitDraws(draw)
    ensures |r.0| == SlotTotal(slots, l)
    ensures FromSlots(r.0, slots, l)
    ensures r.1 >= start
    decreases |slots|
  {
    if slots == [] then ([], start)
    else
      var last := slots[|slots| - 1];
      var prev := DrawSlots(slots[..|slots| - 1], l, draw, start);
      var t := Take(last.group, l, last.count, draw, prev.1);
      var ex := prev.0 + t.0;
      assert ex[..|ex| - |t.0|] == prev.0 && ex[|ex| - |t.0|..] == t.0;
      (ex, t.1)
  }

  /** The template's days drawn in order, with the draw cursor after them. */
  function DrawDays(ts: seq<DayTemplate>, l: Level, draw: nat -> real, start: nat): (r: (seq<DayWorkout>, nat))
    requires UnitDraws(draw)
    ensures |r.0| == |ts|
    ensures forall i :: 0 <= i < |ts| ==> r.0[i].dayTitle == ts[i].title
    ensures r.1 >= start
    decreases |ts|
  {
    if ts == [] then ([], start)
    else
      var init := ts[..|ts| - 1];
      var prev := DrawDays(init, l, draw, start);
      var ex := DrawSlots(ts[|ts| - 1].slots, l, draw, prev.1);
      (prev.0 + [DayWorkout(ts[|ts| - 1].title, ex.0)], ex.1)
  }

  /** Day `i` of the drawn days is drawn from day `i`'s slots. */
  lemma {:induction false} DrawDaysFromSlots(ts: seq<DayTemplate>, l: Level, draw: nat -> real, start: nat, i: nat)
    requires UnitDraws(draw) && i < |ts|
    ensures FromSlots(DrawDays(ts, l, draw, start).0[i].exercises, ts[i].slots, l)
    decreases |ts|
  {
    var init := ts[..|ts| - 1];
    var prev := DrawDays(init, l, draw, start);
    var ex := DrawSlots(ts[|ts| - 1].slots, l, draw, prev.1);
    assert DrawDays(ts, l, draw, start).0 == prev.0 + [DayWorkout(ts[|ts| - 1].title, ex.0)];
    if i < |init| {
      DrawDaysFromSlots(init, l, draw, start, i);
      assert init[i] == ts[i];
    }
  }

  lemma DrawDaysAllFromSlots(ts: seq<DayTemplate>, l: Level, draw: nat -> real, start: nat)
    requires UnitDraws(draw)
    ensures forall i :: 0 <= i < |ts| ==> FromSlots(DrawDays(ts, l, draw, start).0[i].exercises, ts[i].slots, l)
  {
    forall i | 0 <= i < |ts| ensures FromSlots(DrawDays(ts, l, draw, start).0[i].exercises, ts[i].slots, l) {
      DrawDaysFromSlots(ts, l, draw, start, i);
    }
  }

  // ---------------------------------------------------------------------
  // Priority boost
  // ---------------------------------------------------------------------

  /** `musclesPrioritarios.split(',').map(m => normalize(m.trim()))`. */
  function PriorityTokens(text: string): (tokens: seq<string>)
    ensures |tokens| == |Split(text, ",")|
    ensures forall k :: 0 <= k < |tokens| ==> IsNormal(tokens[k])
  {
    var parts := Split(text, ",");
    var tokens := seq(|parts|, k requires 0 <= k < |parts| => Normalize(Trim(parts[k])));
    assert forall k :: 0 <= k < |tokens| ==> IsNormal(tokens[k]) by {
      forall k | 0 <= k < |tokens| ensures IsNormal(tokens[k]) {
        NormalizeIsNormal(Trim(parts[k]));
      }
    }
    tokens
  }

  /** The group a priority token names, by the first keyword it contains; `""` for none. */
  function GroupKeyOf(p: string): (key: string)
    ensures key == "" || key in BoostKeys
    ensures Contains(p, "peito") ==> key == "Peito"
    ensures !Contains(p, "peito") && (Contains(p, "costas") || Contains(p, "dorsal")) ==> key == "Costas"
    ensures (!Contains(p, "peito") && !Contains(p, "costas") && !Contains(p, "dorsal")
             && Contains(p, "perna")) ==> key == "Pernas"
    ensures (!Contains(p, "peito") && !Contains(p, "costas") && !Contains(p, "dorsal")
             && !Contains(p, "perna") && Contains(p, "ombro")) ==> key == "Ombros"
    ensures (!Contains(p, "peito") && !Contains(p, "costas") && !Contains(p, "dorsal")
             && !Contains(p, "perna") && !Contains(p, "ombro") && Contains(p, "bicep")) ==> key == "Bíceps"
    ensures (!Contains(p, "peito") && !Contains(p, "costas") && !Contains(p, "dorsal")
             && !Contains(p, "perna") && !Contains(p, "ombro") && !Contains(p, "bicep")
             && Contains(p, "tricep")) ==> key == "Tríceps"
    ensures key == "" <==> !Contains(p, "peito") && !Contains(p, "costas") && !Contains(p, "dorsal")
                            && !Contains(p, "perna") && !Contains(p, "ombro") && !Contains(p, "bicep")
                            && !Contains(p, "tricep")
  {
    if Contains(p, "peito") then "Peito"
    else if Contains(p, "costas") || Contains(p, "dorsal") then "Costas"
    else if Contains(p, "perna") then "Pernas"
    else if Contains(p, "ombro") then "Ombros"
    else if Contains(p, "bicep") then "Bíceps"
    else if Contains(p, "tricep") then "Tríceps"
    else ""
  }

  /** The token's group is named by the day: `groupKey && normalize(title).includes(normalize(groupKey))`. */
  predicate Targets(title: string, p: string) {
    var key := GroupKeyOf(p);
    key != "" && Contains(Normalize(title), Normalize(key))
  }

  /** The exercises `after` has beyond `before`: each is new to the list at the time it is added. */
  ghost predicate AppendsNew(before: seq<Exercise>, after: seq<Exercise>) {
    && |before| <= |after| && after[..|before|] == before
    && forall k :: |before| <= k < |after| ==> !HasName(after[..k], after[k].name)
  }

  /** Every exercise `after` adds beyond `before` comes from the pool of a token that targets the day. */
  ghost predicate AddedFromTargets(title: string, before: seq<Exercise>, after: seq<Exercise>, tokens: seq<string>, l: Level)
    requires |before| <= |after|
  {
    forall k :: |before| <= k < |after| ==>
      exists t :: t in tokens && Targets(title, t) && after[k] in Pool(GroupKeyOf(t), l)
  }

  /**
   * What the priority pass may do to a day: keep its title, append only
   * new-named exercises from targeting tokens' pools, at most one per token,
   * and leave a day that no token targets as it was.
   */
  ghost predicate BoostedFrom(before: DayWorkout, after: DayWorkout, tokens: seq<string>, l: Level) {
    && after.dayTitle == before.dayTitle
    && AppendsNew(before.exercises, after.exercises)
    && |after.exercises| <= |before.exercises| + |tokens|
    && AddedFromTargets(before.dayTitle, before.exercises, after.exercises, tokens, l)
    && ((forall k :: 0 <= k < |tokens| ==> !Targets(before.dayTitle, tokens[k])) ==> after == before)
  }

  /** One token of the boost pass over one day. */
  function BoostToken(day: DayWorkout, p: string, l: Level, draw: nat -> real, start: nat): (DayWorkout, nat)
    requires UnitDraws(draw)
  {
    if Targets(day.dayTitle, p) then
      var key := GroupKeyOf(p);
      var extra := Take(key, l, 1, draw, start);
      if |extra.0| > 0 && !HasName(day.exercises, extra.0[0].name) then
        (day.(exercises := day.exercises + [extra.0[0]]), extra.1)
      else (day, extra.1)
    else (day, start)
  }

  /** `priorities.forEach(...)` over one day, tokens in order. */
  function BoostDay(day: DayWorkout, tokens: seq<string>, l: Level, draw: nat -> real, start: nat): (DayWorkout, nat)
    requires UnitDraws(draw)
    decreases |tokens|
  {
    if tokens == [] then (day, start)
    else
      var first := BoostToken(day, tokens[0], l, draw, start);
      BoostDay(first.0, tokens[1..], l, draw, first.1)
  }

  /** The pass over `tokens[k..]` is token `k` followed by the pass over the rest. */
  lemma BoostDayStep(day: DayWorkout, tokens: seq<string>, k: nat, l: Level, draw: nat -> real, start: nat)
    requires UnitDraws(draw) && k < |tokens|
    ensures var first := BoostToken(day, tokens[k], l, draw, start);
            BoostDay(day, tokens[k..], l, draw, start) == BoostDay(first.0, tokens[k + 1..], l, draw, first.1)
  {
    assert tokens[k..][0] == tokens[k] && tokens[k..][1..] == tokens[k + 1..];
  }

  /** `workouts.forEach(day => ...)`: every day boosted in order. */
  function BoostDays(days: seq<DayWorkout>, tokens: seq<string>, l: Level, draw: nat -> real, start: nat): (seq<DayWorkout>, nat)
    requires UnitDraws(draw)
    decreases |days|
  {
    if days == [] then ([], start)
    else
      var prev := BoostDays(days[..|days| - 1], tokens, l, draw, start);
      var last := BoostDay(days[|days| - 1], tokens, l, draw, prev.1);
      (prev.0 + [last.0], last.1)
  }

  /** A single token appends at most one exercise, new to the day and from the targeted group's pool. */
  lemma BoostTokenAppends(day: DayWorkout, p: string, l: Level, draw: nat -> real, start: nat)
    requires UnitDraws(draw)
    ensures BoostedFrom(day, BoostToken(day, p, l, draw, start).0, [p], l)
    ensures !Targets(day.dayTitle, p) ==> BoostToken(day, p, l, draw, start) == (day, start)
  {
    var r := BoostToken(day, p, l, draw, start).0;
    if |r.exercises| > |day.exercises| {
      var extra := Take(GroupKeyOf(p), l, 1, draw, start);
      assert r.exercises == day.exercises + [extra.0[0]];
      assert r.exercises[..|day.exercises|] == day.exercises;
      assert r.exercises[|day.exercises|] in Pool(GroupKeyOf(p), l);
    }
  }

  lemma AppendsNewTrans(a: seq<Exercise>, b: seq<Exercise>, c: seq<Exercise>)
    requires AppendsNew(a, b) && AppendsNew(b, c)
    ensures AppendsNew(a, c)
  {
    forall k | |a| <= k < |c| ensures !HasName(c[..k], c[k].name) {
      if k < |b| {
        assert c[..k] == b[..k] && c[k] == b[k];
      }
    }
  }

  /** A day's tokens in order append at most one new-named exercise each. */
  lemma {:induction false} BoostDayAppends(day: DayWorkout, tokens: seq<string>, l: Level, draw: nat -> real, start: nat)
    requires UnitDraws(draw)
    ensures BoostedFrom(day, BoostDay(day, tokens, l, draw, start).0, tokens, l)
    decreases |tokens|
  {
    if tokens != [] {
      var first := BoostToken(day, tokens[0], l, draw, start);
      BoostTokenAppends(day, tokens[0], l, draw, start);
      BoostDayAppends(first.0, tokens[1..], l, draw, first.1);
      var r := BoostDay(first.0, tokens[1..], l, draw, first.1).0;
      AppendsNewTrans(day.exercises, first.0.exercises, r.exercises);
      assert forall t :: t in tokens[1..] ==> t in tokens;
      forall k | |day.exercises| <= k < |r.exercises|
        ensures exists t :: t in tokens && Targets(day.dayTitle, t) && r.exercises[k] in Pool(GroupKeyOf(t), l)
      {
        if k < |first.0.exercises| {
          assert r.exercises[k] == first.0.exercises[k];
          assert tokens[0] in tokens;
        }
      }
    }
  }

  /** The pass keeps the number of days. */
  lemma {:induction false} BoostDaysLength(days: seq<DayWorkout>, tokens: seq<string>, l: Level, draw: nat -> real, start: nat)
    requires UnitDraws(draw)
    ensures |BoostDays(days, tokens, l, draw, start).0| == |days|
    decreases |days|
  {
    if days != [] {
      BoostDaysLength(days[..|days| - 1], tokens, l, draw, start);
    }
  }

  /** Day `i` of the pass's result is day `i` boosted as `BoostedFrom` allows. */
  lemma {:induction false} BoostDaysAt(days: seq<DayWorkout>, tokens: seq<string>, l: Level, draw: nat -> real, start: nat, i: nat)
    requires UnitDraws(draw) && i < |days|
    ensures |BoostDays(days, tokens, l, draw, start).0| == |days|
    ensures BoostedFrom(days[i], BoostDays(days, tokens, l, draw, start).0[i], tokens, l)
    decreases |days|
  {
    BoostDaysLength(days, tokens, l, draw, start);
    var init := days[..|days| - 1];
    var prev := BoostDays(init, tokens, l, draw, start);
    BoostDaysLength(init, tokens, l, draw, start);
    if i == |days| - 1 {
      BoostDayAppends(days[i], tokens, l, draw, prev.1);
    } else {
      BoostDaysAt(init, tokens, l, draw, start, i);
      assert days[i] == init[i];
    }
  }

  // ---------------------------------------------------------------------
  // The plan
  // ---------------------------------------------------------------------

  /** The record `generateIntelligentWorkout` returns around the days. */
  function PlanOf(workouts: seq<DayWorkout>, level: Level, goal: Goal, days: int, time: string,
                  limitations: string, id: string, now: string): (plan: WorkoutPlan)
    ensures plan.workouts == workouts && plan.daysPerWeek == days
    ensures plan.id == id && plan.generatedAt == now && plan.isOffline
    ensures |plan.warmup| == 2 && |plan.stretching| == 1 && |plan.safetyTips| == 3
  {
    WorkoutPlan(
      id,
      "Plano Inteligente " + GoalName(goal),
      "Estratégia personalizada para " + LevelName(level) + ".",
      IntToString(days) + " dias por semana - " + time,
      workouts,
      ["5 min Cardio leve", "Mobilidade articular"],
      ["Alongamento estático leve pós-treino"],
      ["Foque na execução", "Mantenha a hidratação",
       if limitations != "" then "Cuidado: " + limitations else "Respeite seus limites"],
      now,
      true,
      days)
  }

  /**
   * What `generateIntelligentWorkout` returns when its draws begin at
   * `start`; the second component is the next draw.
   */
  function Generated(level: Level, goal: Goal, days: int, priorities: string, time: string,
                     limitations: string, id: string, now: string, draw: nat -> real, start: nat): (WorkoutPlan, nat)
    requires UnitDraws(draw)
  {
    var base := DrawDays(Template(days), level, draw, start);
    var boosted := if priorities != "" then BoostDays(base.0, PriorityTokens(priorities), level, draw, base.1)
                   else base;
    (PlanOf(boosted.0, level, goal, days, time, limitations, id, now), boosted.1)
  }

  // ---------------------------------------------------------------------
  // Properties of the generated plan
  // ---------------------------------------------------------------------

  /** The template's days as drawn, before the priority pass. */
  function BaseDays(level: Level, days: int, draw: nat -> real, start: nat): (base: seq<DayWorkout>)
    requires UnitDraws(draw)
    ensures |base| == Max0(days)
    ensures forall i :: 0 <= i < |base| ==> base[i].dayTitle == Template(days)[i].title
    ensures forall i :: 0 <= i < |base| ==> FromSlots(base[i].exercises, Template(days)[i].slots, level)
  {
    DrawDaysAllFromSlots(Template(days), level, draw, start);
    DrawDays(Template(days), level, draw, start).0
  }

  /**
   * The plan has one day per template day, with the template's title; each
   * day is its drawn slots, boosted as `BoostedFrom` allows (unchanged
   * without priorities); the record fields are as the source builds them.
   */
  lemma GeneratedDay(level: Level, goal: Goal, days: int, priorities: string, time: string,
                     limitations: string, id: string, now: string, draw: nat -> real, start: nat, i: nat)
    requires UnitDraws(draw) && i < Max0(days)
    ensures var plan := Generated(level, goal, days, priorities, time, limitations, id, now, draw, start).0;
            var base := BaseDays(level, days, draw, start);
            && |plan.workouts| == Max0(days)
            && plan.workouts[i].dayTitle == Template(days)[i].title
            && FromSlots(base[i].exercises, Template(days)[i].slots, level)
            && (priorities == "" ==> plan.workouts[i] == base[i])
            && (priorities != "" ==> BoostedFrom(base[i], plan.workouts[i], PriorityTokens(priorities), level))
  {
    var base := DrawDays(Template(days), level, draw, start);
    if priorities != "" {
      BoostDaysAt(base.0, PriorityTokens(priorities), level, draw, base.1, i);
    }
  }

  /** The record around the days: name, description, division, warm-up, one stretching step, tips. */
  lemma GeneratedFields(level: Level, goal: Goal, days: int, priorities: string, time: string,
                        limitations: string, id: string, now: string, draw: nat -> real, start: nat)
    requires UnitDraws(draw)
    ensures var plan := Generated(level, goal, days, priorities, time, limitations, id, now, draw, start).0;
            && |plan.workouts| == Max0(days)
            && plan.daysPerWeek == days && plan.id == id && plan.generatedAt == now && plan.isOffline
            && plan.planName == "Plano Inteligente " + GoalName(goal)
            && plan.description == "Estratégia personalizada para " + LevelName(level) + "."
            && plan.weeklyDivision == IntToString(days) + " dias por semana - " + time
            && plan.warmup == ["5 min Cardio leve", "Mobilidade articular"]
            && plan.stretching == ["Alongamento estático leve pós-treino"]
            && plan.safetyTips == ["Foque na execução", "Mantenha a hidratação",
                                   if limitations == "" then "Respeite seus limites" else "Cuidado: " + limitations]
  {
    var base := DrawDays(Template(days), level, draw, start);
    var boosted := if priorities != "" then BoostDays(base.0, PriorityTokens(priorities), level, draw, base.1)
                   else base;
    if priorities != "" {
      BoostDaysLength(base.0, PriorityTokens(priorities), level, draw, base.1);
    }
    PlanOfFields(boosted.0, level, goal, days, time, limitations, id, now);
  }

  /** The fields `PlanOf` writes, for any days. */
  lemma PlanOfFields(workouts: seq<DayWorkout>, level: Level, goal: Goal, days: int, time: string,
                     limitations: string, id: string, now: string)
    ensures var plan := PlanOf(workouts, level, goal, days, time, limitations, id, now);
            && plan.planName == "Plano Inteligente " + GoalName(goal)
            && plan.description == "Estratégia personalizada para " + LevelName(level) + "."
            && plan.weeklyDivision == IntToString(days) + " dias por semana - " + time
            && plan.warmup == ["5 min Cardio leve", "Mobilidade articular"]
            && plan.stretching == ["Alongamento estático leve pós-treino"]
            && plan.safetyTips == ["Foque na execução", "Mantenha a hidratação",
                                   if limitations == "" then "Respeite seus limites" else "Cuidado: " + limitations]
  {
  }

  /** No priority token targets a full-body day: its title names no group. */
  lemma FullBodyUntargeted(i: nat, p: string)
    ensures !Targets(FullBodyTitle(i), p)
  {
    var key := GroupKeyOf(p);
    if key != "" {
      FullBodyTitleNamesNoGroup(i, key);
    }
  }

  lemma FullBodyTemplateDay(days: int, i: nat)
    requires days <= 2 && i < Max0(days)
    ensures Template(days)[i] == DayTemplate(FullBodyTitle(i), FullBodySlots)
  {
    assert Template(days)[i] == FullBodyTemplate(Max0(days))[i];
  }

  /**
   * With one or two days every day is a full-body day: titled
   * "Treino N - Full Body", one draw from each of the seven groups in fixed
   * order, and never boosted.
   */
  lemma FullBodyPlan(level: Level, goal: Goal, days: int, priorities: string, time: string,
                     limitations: string, id: string, now: string, draw: nat -> real, start: nat, i: nat)
    requires UnitDraws(draw) && days <= 2 && i < Max0(days)
    ensures var plan := Generated(level, goal, days, priorities, time, limitations, id, now, draw, start).0;
            var base := BaseDays(level, days, draw, start);
            && |plan.workouts| == Max0(days)
            && plan.workouts[i] == base[i]
            && plan.workouts[i].dayTitle == FullBodyTitle(i)
            && FromSlots(plan.workouts[i].exercises, FullBodySlots, level)
  {
    GeneratedDay(level, goal, days, priorities, time, limitations, id, now, draw, start, i);
    FullBodyTemplateDay(days, i);
    var tokens := PriorityTokens(priorities);
    forall k | 0 <= k < |tokens| ensures !Targets(FullBodyTitle(i), tokens[k]) {
      FullBodyUntargeted(i, tokens[k]);
    }
  }

  /** A day drawn from its slots has `SlotTotal` exercises. */
  lemma {:induction false} FromSlotsLength(ex: seq<Exercise>, slots: seq<Slot>, l: Level)
    requires FromSlots(ex, slots, l)
    ensures |ex| == SlotTotal(slots, l)
    decreases |slots|
  {
    if slots != [] {
      var last := slots[|slots| - 1];
      var n := Min(last.count, |Pool(last.group, l)|);
      FromSlotsLength(ex[..|ex| - n], slots[..|slots| - 1], l);
    }
  }

  /** Slots of count one over non-empty pools yield one exercise each. */
  lemma {:induction false} SlotTotalOnes(slots: seq<Slot>, l: Level)
    requires forall k :: 0 <= k < |slots| ==> slots[k].count == 1 && |Pool(slots[k].group, l)| >= 1
    ensures SlotTotal(slots, l) == |slots|
    decreases |slots|
  {
    if slots != [] {
      SlotTotalOnes(slots[..|slots| - 1], l);
    }
  }

  /** The full-body slots name the catalog's groups in catalog order. */
  lemma FullBodyGroups()
    ensures |FullBodySlots| == |Database|
    ensures forall k :: 0 <= k < |FullBodySlots| ==> FullBodySlots[k] == Slot(Database[k].key, 1)
  {
  }

  /** At every level a full-body day draws seven exercises, one per group. */
  lemma FullBodySlotTotal(l: Level)
    ensures SlotTotal(FullBodySlots, l) == 7
  {
    FullBodyGroups();
    forall k | 0 <= k < |FullBodySlots| ensures |Pool(FullBodySlots[k].group, l)| >= 1 {
      PoolNonEmpty(k, l);
    }
    SlotTotalOnes(FullBodySlots, l);
  }

  /** So with one or two days per week every day has exactly seven exercises. */
  lemma FullBodyDaySize(level: Level, goal: Goal, days: int, priorities: string, time: string,
                        limitations: string, id: string, now: string, draw: nat -> real, start: nat, i: nat)
    requires UnitDraws(draw) && days <= 2 && i < Max0(days)
    ensures var plan := Generated(level, goal, days, priorities, time, limitations, id, now, draw, start).0;
            |plan.workouts| == Max0(days) && |plan.workouts[i].exercises| == 7
  {
    FullBodyPlan(level, goal, days, priorities, time, limitations, id, now, draw, start, i);
    var plan := Generated(level, goal, days, priorities, time, limitations, id, now, draw, start).0;
    FromSlotsLength(plan.workouts[i].exercises, FullBodySlots, level);
    FullBodySlotTotal(level);
  }

  lemma SlotTotalOfOne(a: Slot, l: Level)
    ensures SlotTotal([a], l) == Min(a.count, |Pool(a.group, l)|)
  {
    assert [a][..0] == [];
  }

  lemma SlotTotalOfTwo(a: Slot, b: Slot, l: Level)
    ensures SlotTotal([a, b], l) == SlotTotal([a], l) + Min(b.count, |Pool(b.group, l)|)
  {
    assert [a, b][..1] == [a];
  }

  lemma SlotTotalOfThree(a: Slot, b: Slot, c: Slot, l: Level)
    ensures SlotTotal([a, b, c], l) == Min(a.count, |Pool(a.group, l)|) + Min(b.count, |Pool(b.group, l)|)
                                       + Min(c.count, |Pool(c.group, l)|)
  {
    SlotTotalOfThreeStep(a, b, c, l);
    SlotTotalOfTwo(a, b, l);
    SlotTotalOfOne(a, l);
  }

  lemma SlotTotalOfThreeStep(a: Slot, b: Slot, c: Slot, l: Level)
    ensures SlotTotal([a, b, c], l) == SlotTotal([a, b], l) + Min(c.count, |Pool(c.group, l)|)
  {
    SlotTotalSnoc([a, b], c, l);
    assert [a, b] + [c] == [a, b, c];
  }

  lemma SlotTotalSnoc(s: seq<Slot>, x: Slot, l: Level)
    ensures SlotTotal(s + [x], l) == SlotTotal(s, l) + Min(x.count, |Pool(x.group, l)|)
  {
    assert (s + [x])[..|s|] == s;
  }

  /** The three-day template at beginner level: 2 + 2 + 2, 2 + 2 + 1 and 4 exercises. */
  lemma BeginnerThreeDayTotals()
    ensures SlotTotal(DayA.slots, Beginner) == 6
    ensures SlotTotal(DayB.slots, Beginner) == 5
    ensures SlotTotal(DayC.slots, Beginner) == 4
  {
    BeginnerDayATotal();
    BeginnerDayBTotal();
    BeginnerDayCTotal();
  }

  lemma BeginnerDayATotal()
    ensures SlotTotal(DayA.slots, Beginner) == 6
  {
    BeginnerPeito();
    BeginnerOmbros();
    BeginnerTriceps();
    SlotTotalOfThree(Slot("Peito", 2), Slot("Ombros", 2), Slot("Tríceps", 2), Beginner);
  }

  lemma BeginnerDayBTotal()
    ensures SlotTotal(DayB.slots, Beginner) == 5
  {
    BeginnerCostas();
    BeginnerBiceps();
    BeginnerAbdomen();
    SlotTotalOfThree(Slot("Costas", 3), Slot("Bíceps", 2), Slot("Abdômen", 1), Beginner);
  }

  lemma BeginnerDayCTotal()
    ensures SlotTotal(DayC.slots, Beginner) == 4
  {
    BeginnerPernas();
    SlotTotalOfOne(Slot("Pernas", 5), Beginner);
  }

  /**
   * A beginner's three-day plan without priorities has days of 6, 5 and 4
   * exercises: each slot yields `min(count, |pool|)` and the beginner Costas
   * and Pernas pools are smaller than their slots.
   */
  lemma BeginnerThreeDaySizes(goal: Goal, time: string, limitations: string, id: string, now: string,
                              draw: nat -> real, start: nat)
    requires UnitDraws(draw)
    ensures DaySizes(Generated(Beginner, goal, 3, "", time, limitations, id, now, draw, start).0.workouts) == [6, 5, 4]
  {
    var plan := Generated(Beginner, goal, 3, "", time, limitations, id, now, draw, start).0;
    var t := Template(3);
    ThreeDayTemplate();
    assert t[0].slots == DayA.slots && t[1].slots == DayB.slots && t[2].slots == DayC.slots;
    UnboostedDaySize(Beginner, goal, 3, time, limitations, id, now, draw, start, 0);
    UnboostedDaySize(Beginner, goal, 3, time, limitations, id, now, draw, start, 1);
    UnboostedDaySize(Beginner, goal, 3, time, limitations, id, now, draw, start, 2);
    BeginnerThreeDayTotals();
    DaySizesOfThree(plan.workouts);
  }

  lemma DaySizesOfThree(ws: seq<DayWorkout>)
    requires |ws| == 3
    ensures DaySizes(ws) == [|ws[0].exercises|, |ws[1].exercises|, |ws[2].exercises|]
  {
  }

  lemma ThreeDayTemplate()
    ensures Template(3) == [DayA, DayB, DayC]
  {
  }

  /** Without priorities, day `i` has as many exercises as its slots yield. */
  lemma UnboostedDaySize(level: Level, goal: Goal, days: int, time: string, limitations: string, id: string,
                         now: string, draw: nat -> real, start: nat, i: nat)
    requires UnitDraws(draw) && i < Max0(days)
    ensures var plan := Generated(level, goal, days, "", time, limitations, id, now, draw, start).0;
            |plan.workouts| == Max0(days) && |plan.workouts[i].exercises| == SlotTotal(Template(days)[i].slots, level)
  {
    GeneratedDay(level, goal, days, "", time, limitations, id, now, draw, start, i);
    var base := BaseDays(level, days, draw, start);
    FromSlotsLength(base[i].exercises, Template(days)[i].slots, level);
  }

  /** The division text starts with the day count: its first number is `|days|`. */
  lemma DivisionNamesDays(level: Level, goal: Goal, days: int, priorities: string, time: string,
                          limitations: string, id: string, now: string, draw: nat -> real, start: nat)
    requires UnitDraws(draw)
    ensures FirstNumber(Generated(level, goal, days, priorities, time, limitations, id, now, draw, start).0.weeklyDivision)
            == Some(Abs(days))
  {
    GeneratedFields(level, goal, days, priorities, time, limitations, id, now, draw, start);
    DivisionText(days, time);
  }

  lemma DivisionText(days: int, time: string)
    ensures FirstNumber(IntToString(days) + " dias por semana - " + time) == Some(Abs(days))
  {
    var rest := " dias por semana - " + time;
    assert rest[0] == ' ';
    FirstNumberOfInt(days, rest);
    assert IntToString(days) + " dias por semana - " + time == IntToString(days) + rest;
  }

  /** The four-or-more-days rotation: day `i` draws 3 then 2 from the pair `i mod 4`. */
  lemma SplitTemplateAt(days: int, i: nat)
    requires days >= 4 && i < days
    ensures Template(days)[i].title == SplitTitle(i)
    ensures i % 4 == 0 ==> Template(days)[i].slots == [Slot("Peito", 3), Slot("Tríceps", 2)]
    ensures i % 4 == 1 ==> Template(days)[i].slots == [Slot("Costas", 3), Slot("Bíceps", 2)]
    ensures i % 4 == 2 ==> Template(days)[i].slots == [Slot("Pernas", 3)]
    ensures i % 4 == 3 ==> Template(days)[i].slots == [Slot("Ombros", 3), Slot("Abdômen", 2)]
  {
    SplitTemplateDay(days, i);
    RotationSlots();
  }

  lemma SplitTemplateDay(days: int, i: nat)
    requires days >= 4 && i < days
    ensures Template(days)[i] == DayTemplate(SplitTitle(i), SplitSlots(SplitGroups[i % 4]))
  {
    assert Template(days)[i] == SplitTemplate(days)[i];
  }

  /** The slots of each rotation entry. */
  lemma RotationSlots()
    ensures SplitSlots(SplitGroups[0]) == [Slot("Peito", 3), Slot("Tríceps", 2)]
    ensures SplitSlots(SplitGroups[1]) == [Slot("Costas", 3), Slot("Bíceps", 2)]
    ensures SplitSlots(SplitGroups[2]) == [Slot("Pernas", 3)]
    ensures SplitSlots(SplitGroups[3]) == [Slot("Ombros", 3), Slot("Abdômen", 2)]
  {
    RotationSlotsFirst();
    RotationSlotsSecond();
    RotationSlotsThird();
    RotationSlotsFourth();
  }

  lemma RotationSlotsFirst()
    ensures SplitSlots(SplitGroups[0]) == [Slot("Peito", 3), Slot("Tríceps", 2)]
  {
    SplitFirstGroup();
  }

  lemma RotationSlotsSecond()
    ensures SplitSlots(SplitGroups[1]) == [Slot("Costas", 3), Slot("Bíceps", 2)]
  {
    SplitSecondGroup();
  }

  lemma RotationSlotsThird()
    ensures SplitSlots(SplitGroups[2]) == [Slot("Pernas", 3)]
  {
    SplitWithoutChar("Pernas", '/');
  }

  lemma RotationSlotsFourth()
    ensures SplitSlots(SplitGroups[3]) == [Slot("Ombros", 3), Slot("Abdômen", 2)]
  {
    SplitFourthGroup();
  }

  // ---------------------------------------------------------------------
  // The generator
  // ---------------------------------------------------------------------

  /** The spread `[...getExercisesByMuscle(g1, level, k1), ...]` of a slot list. */
  method CollectSlots(slots: seq<Slot>, level: Level, rng: RandomSource) returns (ex: seq<Exercise>)
    requires rng.Valid()
    modifies rng
    ensures (ex, rng.used) == DrawSlots(slots, level, rng.draw, old(rng.used))
  {
    ex := [];
    var k := 0;
    while k < |slots|
      invariant 0 <= k <= |slots|
      invariant (ex, rng.used) == DrawSlots(slots[..k], level, rng.draw, old(rng.used))
    {
      var t := ExercisesByMuscle(slots[k].group, level, slots[k].count, rng);
      assert slots[..k + 1][..k] == slots[..k];
      ex := ex + t;
      k := k + 1;
    }
    assert slots[..|slots|] == slots;
  }

  /**
   * The template switch: pushes the days of `Template(days)` in order, each
   * as the spread of its slots' calls.
   */
  method DrawTemplate(level: Level, days: int, rng: RandomSource) returns (workouts: seq<DayWorkout>)
    requires rng.Valid()
    modifies rng
    ensures (workouts, rng.used) == DrawDays(Template(days), level, rng.draw, old(rng.used))
  {
    workouts := DrawEach(Template(days), level, rng);
  }

  /** `workouts.push(...)` for each day template in turn. */
  method DrawEach(t: seq<DayTemplate>, level: Level, rng: RandomSource) returns (workouts: seq<DayWorkout>)
    requires rng.Valid()
    modifies rng
    ensures (workouts, rng.used) == DrawDays(t, level, rng.draw, old(rng.used))
  {
    workouts := [];
    var i := 0;
    while i < |t|
      invariant 0 <= i <= |t|
      invariant (workouts, rng.used) == DrawDays(t[..i], level, rng.draw, old(rng.used))
    {
      var ex := CollectSlots(t[i].slots, level, rng);
      assert t[..i + 1][..i] == t[..i];
      workouts := workouts + [DayWorkout(t[i].title, ex)];
      i := i + 1;
    }
    assert t[..i] == t;
  }

  /** One token of the pass: `getExercisesByMuscle(groupKey, level, 1)` and the guarded push. */
  method BoostStep(day: DayWorkout, p: string, level: Level, rng: RandomSource) returns (out: DayWorkout)
    requires rng.Valid()
    modifies rng
    ensures (out, rng.used) == BoostToken(day, p, level, rng.draw, old(rng.used))
  {
    out := day;
    var key := GroupKeyOf(p);
    assert Targets(day.dayTitle, p) <==> key != "" && Contains(Normalize(day.dayTitle), Normalize(key));
    if key != "" && Contains(Normalize(day.dayTitle), Normalize(key)) {
      var extra := ExercisesByMuscle(key, level, 1, rng);
      if |extra| > 0 && !HasName(day.exercises, extra[0].name) {
        out := day.(exercises := day.exercises + [extra[0]]);
      }
    }
  }

  /** The priority pass over one day (`priorities.forEach`). */
  method BoostOneDay(day: DayWorkout, tokens: seq<string>, level: Level, rng: RandomSource) returns (out: DayWorkout)
    requires rng.Valid()
    modifies rng
    ensures (out, rng.used) == BoostDay(day, tokens, level, rng.draw, old(rng.used))
  {
    out := day;
    var k := 0;
    while k < |tokens|
      invariant 0 <= k <= |tokens|
      invariant BoostDay(day, tokens, level, rng.draw, old(rng.used)) == BoostDay(out, tokens[k..], level, rng.draw, rng.used)
    {
      BoostDayStep(out, tokens, k, level, rng.draw, rng.used);
      out := BoostStep(out, tokens[k], level, rng);
      k := k + 1;
    }
  }

  lemma BoostDaysSnoc(days: seq<DayWorkout>, x: DayWorkout, tokens: seq<string>, l: Level,
                      draw: nat -> real, start: nat)
    requires UnitDraws(draw)
    ensures var prev := BoostDays(days, tokens, l, draw, start);
            var last := BoostDay(x, tokens, l, draw, prev.1);
            BoostDays(days + [x], tokens, l, draw, start) == (prev.0 + [last.0], last.1)
  {
    assert (days + [x])[..|days|] == days;
  }

  /** `workouts.forEach(day => ...)`: each day boosted in turn, in place. */
  method BoostAllDays(workouts: seq<DayWorkout>, tokens: seq<string>, level: Level, rng: RandomSource)
    returns (out: seq<DayWorkout>)
    requires rng.Valid()
    modifies rng
    ensures (out, rng.used) == BoostDays(workouts, tokens, level, rng.draw, old(rng.used))
  {
    out := workouts;
    var d := 0;
    while d < |out|
      invariant 0 <= d <= |out| == |workouts|
      invariant out[d..] == workouts[d..]
      invariant (out[..d], rng.used) == BoostDays(workouts[..d], tokens, level, rng.draw, old(rng.used))
    {
      assert out[d] == workouts[d] && workouts[..d] + [workouts[d]] == workouts[..d + 1];
      BoostDaysSnoc(workouts[..d], workouts[d], tokens, level, rng.draw, old(rng.used));
      var day := BoostOneDay(out[d], tokens, level, rng);
      out := out[d := day];
      assert out[..d + 1] == out[..d] + [day];
      d := d + 1;
    }
    assert out[..d] == out && workouts[..d] == workouts;
  }

  /**
   * `generateIntelligentWorkout(gender, level, goal, days, musclesPrioritarios, time, limitations)`
   * with `crypto.randomUUID()` as `id` and `new Date().toISOString()` as `now`.
   * `gender` is not read by the source either.
   */
  method GenerateWorkout(gender: Gender, level: Level, goal: Goal, days: int, musclesPrioritarios: string,
                         time: string, limitations: string, id: string, now: string, rng: RandomSource)
    returns (plan: WorkoutPlan)
    requires rng.Valid()
    modifies rng
    ensures (plan, rng.used) == Generated(level, goal, days, musclesPrioritarios, time, limitations, id, now,
                                          rng.draw, old(rng.used))
  {
    var workouts := DrawTemplate(level, days, rng);
    if musclesPrioritarios != "" {
      var tokens := PriorityTokens(musclesPrioritarios);
      workouts := BoostAllDays(workouts, tokens, level, rng);
    }
    plan := PlanOf(workouts, level, goal, days, time, limitations, id, now);
  }
}
