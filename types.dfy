/**
 * The records the engine and the screens exchange (types.ts).  They are
 * plain values: the engine copies a plan before changing it and hands back
 * a new one, so none of them needs object identity.
 */
module Types {
  import opened Wrappers

  datatype Level = Beginner | Intermediate | Advanced
  datatype Goal = Mass | WeightLoss | Healthy
  datatype Gender = Male | Female
  datatype Category = Compound | Isolation | Cardio

  /** The string value of each `ExperienceLevel` member. */
  function LevelName(l: Level): string {
    match l
    case Beginner => "Iniciante"
    case Intermediate => "Intermediário"
    case Advanced => "Experiente"
  }

  /** The string value of each `WorkoutGoal` member. */
  function GoalName(g: Goal): string {
    match g
    case Mass => "Ganho de massa"
    case WeightLoss => "Emagrecer com saúde"
    case Healthy => "Se manter saudável"
  }

  /**
   * One movement.  `level` is `None` when the record carries no level list
   * (such a record suits every level); `id`, `target` and `category` are
   * optional in the source type.
   */
  datatype Exercise = Exercise(
    id: Option<string>,
    name: string,
    target: Option<string>,
    category: Option<Category>,
    level: Option<seq<Level>>,
    sets: string,
    reps: string,
    rest: string,
    tip: string)

  datatype DayWorkout = DayWorkout(dayTitle: string, exercises: seq<Exercise>)

  datatype WorkoutPlan = WorkoutPlan(
    id: string,
    planName: string,
    description: string,
    weeklyDivision: string,
    workouts: seq<DayWorkout>,
    warmup: seq<string>,
    stretching: seq<string>,
    safetyTips: seq<string>,
    generatedAt: string,
    isOffline: bool,
    daysPerWeek: int)

  datatype WorkoutHistoryEntry = WorkoutHistoryEntry(
    id: string,
    dataCriacao: string,
    genero: Gender,
    nivel: Level,
    objetivo: Goal,
    musculosPrioritarios: string,
    dias: int,
    tempo: string,
    treinoGerado: WorkoutPlan)

  datatype WorkoutLog = WorkoutLog(
    id: string,
    date: string,
    planName: string,
    dayTitle: string,
    exercises: seq<string>,
    durationMinutes: nat,
    totalSets: nat)

  /** Some exercise of the list has exactly this name (`exercises.some(e => e.name === name)`). */
  predicate HasName(exercises: seq<Exercise>, name: string) {
    exists i :: 0 <= i < |exercises| && exercises[i].name == name
  }

  /** No two exercises of the list share a name. */
  predicate DistinctNames(exercises: seq<Exercise>) {
    forall i, j :: 0 <= i < j < |exercises| ==> exercises[i].name != exercises[j].name
  }

  /** No exercise of `a` has the name of an exercise of `b`. */
  predicate NamesDisjoint(a: seq<Exercise>, b: seq<Exercise>) {
    forall i, j :: 0 <= i < |a| && 0 <= j < |b| ==> a[i].name != b[j].name
  }

  /** Two name-distinct lists with no name in common concatenate to a name-distinct list. */
  lemma {:induction false} DistinctNamesAppend(a: seq<Exercise>, b: seq<Exercise>)
    requires DistinctNames(a) && DistinctNames(b) && NamesDisjoint(a, b)
    ensures DistinctNames(a + b)
  {
    forall i, j | 0 <= i < j < |a + b|
      ensures (a + b)[i].name != (a + b)[j].name
    {
      if j < |a| {
      } else if i < |a| {
        assert (a + b)[j] == b[j - |a|];
      } else {
        assert (a + b)[i] == b[i - |a|] && (a + b)[j] == b[j - |a|];
      }
    }
  }

  /** The number of exercises of every day, in day order. */
  function DaySizes(days: seq<DayWorkout>): seq<nat> {
    seq(|days|, d requires 0 <= d < |days| => |days[d].exercises|)
  }

  /** The titles of every day, in day order. */
  function DayTitles(days: seq<DayWorkout>): seq<string> {
    seq(|days|, d requires 0 <= d < |days| => days[d].dayTitle)
  }
}
