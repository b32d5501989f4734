/**
 * The list updaters of the application shell (App.tsx): the workout log,
 * newest first and capped at 100 records; undoing one finished day; the
 * history of generated plans, newest first, without repeated ids and
 * capped at 20 entries; and the replacement of an updated plan inside that
 * history.  The shell keeps these lists in state fields that each handler
 * reassigns, so the shell is a class whose methods assign the new lists.
 */
module AppState {
  import opened Wrappers
  import opened Types
  import opened Random
  import opened Adjuster

  /** At most this many workout logs are kept. */
  const MaxLogs: nat := 100
  /** At most this many history entries are kept. */
  const MaxHistory: nat := 20

  /** `s.slice(0, n)`: the first `n` elements, or all of them when there are fewer. */
  function Truncated<T>(s: seq<T>, n: nat): (r: seq<T>)
    ensures |r| == if |s| <= n then |s| else n
    ensures r == s[..|r|]
  {
    if |s| <= n then s else s[..n]
  }

  // ---------------------------------------------------------------------
  // The workout log
  // ---------------------------------------------------------------------

  /**
   * `[log, ...prev].slice(0, 100)`: the new log first, then the previous
   * logs in their order, as many as fit.
   */
  function WithLog(logs: seq<WorkoutLog>, log: WorkoutLog): (r: seq<WorkoutLog>)
    ensures 1 <= |r| <= MaxLogs
    ensures |r| == if |logs| < MaxLogs then |logs| + 1 else MaxLogs
    ensures r[0] == log
    ensures forall i :: 1 <= i < |r| ==> r[i] == logs[i - 1]
  {
    Truncated([log] + logs, MaxLogs)
  }

  /** The log records a finished session of this day of this plan. */
  predicate IsDay(log: WorkoutLog, dayTitle: string, planName: string) {
    log.dayTitle == dayTitle && log.planName == planName
  }

  /**
   * `findIndex(log => log.dayTitle === dayTitle && log.planName === planName)`,
   * with `None` for -1.
   */
  function FindLog(logs: seq<WorkoutLog>, dayTitle: string, planName: string): (r: Option<nat>)
    ensures r.Some? ==> r.value < |logs| && IsDay(logs[r.value], dayTitle, planName)
                        && forall j :: 0 <= j < r.value ==> !IsDay(logs[j], dayTitle, planName)
    ensures r.None? <==> forall j :: 0 <= j < |logs| ==> !IsDay(logs[j], dayTitle, planName)
    decreases |logs|
  {
    if logs == [] then None
    else if IsDay(logs[0], dayTitle, planName) then Some(0)
    else
      var r := FindLog(logs[1..], dayTitle, planName);
      assert forall j :: 1 <= j < |logs| ==> logs[j] == logs[1..][j - 1];
      match r
      case None => None
      case Some(k) => Some(k + 1)
  }

  /** `filter((_, i) => i !== k)`: every element but the one at `k`, in order. */
  function WithoutIndex<T>(s: seq<T>, k: nat): (r: seq<T>)
    requires k < |s|
    ensures |r| == |s| - 1
    ensures forall i :: 0 <= i < k ==> r[i] == s[i]
    ensures forall i :: k <= i < |r| ==> r[i] == s[i + 1]
    ensures multiset(r) + multiset{s[k]} == multiset(s)
  {
    assert s == s[..k] + [s[k]] + s[k + 1..];
    s[..k] + s[k + 1..]
  }

  /** `handleUndoLog`'s new list: the logs without the first one of that day and plan. */
  function Undone(logs: seq<WorkoutLog>, dayTitle: string, planName: string): (r: seq<WorkoutLog>)
    ensures |r| <= |logs| && multiset(r) <= multiset(logs)
  {
    match FindLog(logs, dayTitle, planName)
    case None => logs
    case Some(k) => WithoutIndex(logs, k)
  }

  /**
   * Undo removes exactly the first log of that day and plan and keeps the
   * others in order; with no such log the list is returned as it was.
   */
  lemma UndoRemovesFirstMatch(logs: seq<WorkoutLog>, dayTitle: string, planName: string)
    ensures (forall j :: 0 <= j < |logs| ==> !IsDay(logs[j], dayTitle, planName)) ==>
              Undone(logs, dayTitle, planName) == logs
    ensures forall k :: 0 <= k < |logs| && IsDay(logs[k], dayTitle, planName)
                        && (forall j :: 0 <= j < k ==> !IsDay(logs[j], dayTitle, planName)) ==>
              Undone(logs, dayTitle, planName) == logs[..k] + logs[k + 1..]
              && multiset(Undone(logs, dayTitle, planName)) + multiset{logs[k]} == multiset(logs)
  {
    forall k | 0 <= k < |logs| && IsDay(logs[k], dayTitle, planName)
               && (forall j :: 0 <= j < k ==> !IsDay(logs[j], dayTitle, planName))
      ensures Undone(logs, dayTitle, planName) == logs[..k] + logs[k + 1..]
      ensures multiset(Undone(logs, dayTitle, planName)) + multiset{logs[k]} == multiset(logs)
    {
      var r := FindLog(logs, dayTitle, planName);
      assert r.Some?;
      assert r.value == k;
      var u := WithoutIndex(logs, k);
      assert u == logs[..k] + logs[k + 1..];
    }
  }

  /**
   * Undoing the day just logged gives back the previous logs, less the
   * oldest one when the cap pushed it out.
   */
  lemma UndoAfterLog(logs: seq<WorkoutLog>, log: WorkoutLog)
    ensures Undone(WithLog(logs, log), log.dayTitle, log.planName) == Truncated(logs, MaxLogs - 1)
  {
    var w := WithLog(logs, log);
    assert IsDay(w[0], log.dayTitle, log.planName);
    assert FindLog(w, log.dayTitle, log.planName) == Some(0);
    var u := WithoutIndex(w, 0);
    var t := Truncated(logs, MaxLogs - 1);
    assert |u| == |t|;
    forall i | 0 <= i < |u| ensures u[i] == t[i] {
      assert u[i] == w[i + 1] == logs[i];
    }
  }

  /** Below the cap, logging a day and undoing it restores the log list exactly. */
  lemma UndoAfterLogBelowCap(logs: seq<WorkoutLog>, log: WorkoutLog)
    requires |logs| < MaxLogs
    ensures Undone(WithLog(logs, log), log.dayTitle, log.planName) == logs
  {
    UndoAfterLog(logs, log);
  }

  // ---------------------------------------------------------------------
  // The plan history
  // ---------------------------------------------------------------------

  /** No two history entries share an id. */
  predicate DistinctIds(history: seq<WorkoutHistoryEntry>) {
    forall i, j :: 0 <= i < j < |history| ==> history[i].id != history[j].id
  }

  /** No history entry holds a plan with this id. */
  predicate NoPlanWithId(history: seq<WorkoutHistoryEntry>, planId: string) {
    forall i :: 0 <= i < |history| ==> history[i].treinoGerado.id != planId
  }

  /** `{ ...entry, treinoGerado: plan }` when the entry holds a plan with that id. */
  function Replaced(entry: WorkoutHistoryEntry, plan: WorkoutPlan): WorkoutHistoryEntry {
    if entry.treinoGerado.id == plan.id then entry.(treinoGerado := plan) else entry
  }

  /**
   * `handleUpdatePlan`'s new history: the entries in place, those holding a
   * plan with the updated plan's id now holding the updated plan.
   */
  function WithUpdatedPlan(history: seq<WorkoutHistoryEntry>, plan: WorkoutPlan): (r: seq<WorkoutHistoryEntry>)
    ensures |r| == |history|
    ensures forall i :: 0 <= i < |r| ==> r[i].(treinoGerado := history[i].treinoGerado) == history[i]
    ensures forall i :: 0 <= i < |r| && history[i].treinoGerado.id == plan.id ==> r[i].treinoGerado == plan
    ensures forall i :: 0 <= i < |r| && history[i].treinoGerado.id != plan.id ==> r[i] == history[i]
  {
    seq(|history|, i requires 0 <= i < |history| => Replaced(history[i], plan))
  }

  /** Updating a plan no entry holds leaves the history as it was. */
  lemma UpdateUnknownPlan(history: seq<WorkoutHistoryEntry>, plan: WorkoutPlan)
    requires NoPlanWithId(history, plan.id)
    ensures WithUpdatedPlan(history, plan) == history
  {
    var r := WithUpdatedPlan(history, plan);
    forall i | 0 <= i < |r| ensures r[i] == history[i] {
    }
  }

  /** Updating the same plan twice is updating it once. */
  lemma UpdateIdempotent(history: seq<WorkoutHistoryEntry>, plan: WorkoutPlan)
    ensures WithUpdatedPlan(WithUpdatedPlan(history, plan), plan) == WithUpdatedPlan(history, plan)
  {
    var once := WithUpdatedPlan(history, plan);
    var twice := WithUpdatedPlan(once, plan);
    forall i | 0 <= i < |twice| ensures twice[i] == once[i] {
      if history[i].treinoGerado.id == plan.id {
        assert once[i].treinoGerado.id == plan.id;
      }
    }
  }

  /** A plan update keeps every entry's id, so distinct ids stay distinct. */
  lemma UpdateKeepsIds(history: seq<WorkoutHistoryEntry>, plan: WorkoutPlan)
    requires DistinctIds(history)
    ensures DistinctIds(WithUpdatedPlan(history, plan))
  {
    var r := WithUpdatedPlan(history, plan);
    forall i, j | 0 <= i < j < |r| ensures r[i].id != r[j].id {
      assert r[i].id == history[i].id && r[j].id == history[j].id;
    }
  }

  /**
   * The adjustment always issues a fresh plan id, so when that id is new to
   * the history, handing the adjusted plan to the history update changes
   * no entry: the history keeps the plan as it was before the adjustment.
   */
  lemma AdjustedUpdateIsNoop(history: seq<WorkoutHistoryEntry>, plan: WorkoutPlan, instruction: string,
                             id: string, now: string, draw: nat -> real, start: nat)
    requires UnitDraws(draw) && NoPlanWithId(history, id)
    ensures WithUpdatedPlan(history, Adjusted(plan, instruction, id, now, draw, start).0) == history
  {
    var adjusted := Adjusted(plan, instruction, id, now, draw, start).0;
    assert adjusted.id == id;
    UpdateUnknownPlan(history, adjusted);
  }

  /** `prev.filter(item => item.id !== id)`. */
  function WithoutId(history: seq<WorkoutHistoryEntry>, id: string): (r: seq<WorkoutHistoryEntry>)
    ensures |r| <= |history|
    ensures forall i :: 0 <= i < |r| ==> r[i].id != id
    ensures forall e: WorkoutHistoryEntry {:trigger multiset(r)[e]} :: e.id != id ==> multiset(r)[e] == multiset(history)[e]
    ensures forall e :: e in r ==> e in history
    decreases |history|
  {
    if history == [] then []
    else
      var rest := WithoutId(history[1..], id);
      assert history == [history[0]] + history[1..];
      if history[0].id == id then rest else [history[0]] + rest
  }

  /**
   * The filter keeps the order of what it keeps: filtering two lists one
   * after the other is filtering each and concatenating.
   */
  lemma {:induction false} WithoutIdConcat(a: seq<WorkoutHistoryEntry>, b: seq<WorkoutHistoryEntry>, id: string)
    ensures WithoutId(a + b, id) == WithoutId(a, id) + WithoutId(b, id)
    decreases |a|
  {
    if a == [] {
      assert a + b == b;
    } else {
      var x, t := a[0], a[1..];
      assert a == [x] + t && a + b == [x] + (t + b);
      WithoutIdConcat(t, b, id);
      WithoutIdCons(x, t + b, id);
      WithoutIdCons(x, t, id);
    }
  }

  /** The filter's first step: the head stays exactly when its id differs. */
  lemma WithoutIdCons(x: WorkoutHistoryEntry, t: seq<WorkoutHistoryEntry>, id: string)
    ensures WithoutId([x] + t, id) == (if x.id == id then [] else [x]) + WithoutId(t, id)
  {
    assert ([x] + t)[1..] == t;
  }

  /** Dropping the entries with one id from a list without them changes nothing. */
  lemma {:induction false} WithoutAbsentId(history: seq<WorkoutHistoryEntry>, id: string)
    requires forall i :: 0 <= i < |history| ==> history[i].id != id
    ensures WithoutId(history, id) == history
    decreases |history|
  {
    if history != [] {
      assert forall i :: 0 <= i < |history[1..]| ==> history[1..][i] == history[i + 1];
      WithoutAbsentId(history[1..], id);
    }
  }

  /** Dropping the first entry keeps the remaining ids distinct. */
  lemma TailDistinct(history: seq<WorkoutHistoryEntry>)
    requires history != [] && DistinctIds(history)
    ensures DistinctIds(history[1..])
  {
    var tail := history[1..];
    forall i, j | 0 <= i < j < |tail| ensures tail[i].id != tail[j].id {
      assert tail[i] == history[i + 1] && tail[j] == history[j + 1];
    }
  }

  /** With distinct ids, no later entry shares the first entry's id. */
  lemma HeadIdUnique(history: seq<WorkoutHistoryEntry>, e: WorkoutHistoryEntry)
    requires history != [] && DistinctIds(history) && e in history[1..]
    ensures e.id != history[0].id
  {
    var k :| 0 <= k < |history[1..]| && history[1..][k] == e;
    assert history[k + 1] == e;
  }

  /** Filtering by id keeps the remaining ids distinct. */
  lemma {:induction false} WithoutIdDistinct(history: seq<WorkoutHistoryEntry>, id: string)
    requires DistinctIds(history)
    ensures DistinctIds(WithoutId(history, id))
    decreases |history|
  {
    if history != [] {
      var tail := history[1..];
      TailDistinct(history);
      WithoutIdDistinct(tail, id);
      var rest := WithoutId(tail, id);
      if history[0].id != id {
        var r := [history[0]] + rest;
        forall j | 0 <= j < |rest| ensures rest[j].id != history[0].id {
          HeadIdUnique(history, rest[j]);
        }
        forall i, j | 0 <= i < j < |r| ensures r[i].id != r[j].id {
          if i > 0 {
            assert r[i] == rest[i - 1];
          }
          assert r[j] == rest[j - 1];
        }
      }
    }
  }

  /**
   * `[newEntry, ...prev.filter(item => item.id !== newEntry.id)].slice(0, 20)`:
   * the new entry first, then the older entries with other ids, as many as fit.
   */
  function WithEntry(history: seq<WorkoutHistoryEntry>, entry: WorkoutHistoryEntry): (r: seq<WorkoutHistoryEntry>)
    ensures 1 <= |r| <= MaxHistory
    ensures |r| == if |WithoutId(history, entry.id)| < MaxHistory then |WithoutId(history, entry.id)| + 1
                   else MaxHistory
    ensures r[0] == entry
    ensures forall i :: 1 <= i < |r| ==> r[i] == WithoutId(history, entry.id)[i - 1]
    ensures forall i :: 1 <= i < |r| ==> r[i].id != entry.id && r[i] in history
  {
    var rest := WithoutId(history, entry.id);
    var r := Truncated([entry] + rest, MaxHistory);
    assert forall i :: 1 <= i < |r| ==> r[i] == rest[i - 1];
    r
  }

  /** Adding an entry keeps the history's ids distinct. */
  lemma WithEntryDistinct(history: seq<WorkoutHistoryEntry>, entry: WorkoutHistoryEntry)
    requires DistinctIds(history)
    ensures DistinctIds(WithEntry(history, entry))
  {
    var rest := WithoutId(history, entry.id);
    WithoutIdDistinct(history, entry.id);
    var full := [entry] + rest;
    var r := WithEntry(history, entry);
    assert r == full[..|r|];
    forall i, j | 0 <= i < j < |r| ensures r[i].id != r[j].id {
      if i > 0 {
        assert r[i] == rest[i - 1] && r[j] == rest[j - 1];
      }
    }
  }

  /** An entry with a new id, below the cap, is simply prepended. */
  lemma WithNewEntry(history: seq<WorkoutHistoryEntry>, entry: WorkoutHistoryEntry)
    requires |history| < MaxHistory
    requires forall i :: 0 <= i < |history| ==> history[i].id != entry.id
    ensures WithEntry(history, entry) == [entry] + history
  {
    WithoutAbsentId(history, entry.id);
  }

  /**
   * An entry with a new id goes first and the previous history follows in
   * its order, cut to the cap: at 20 entries the oldest one drops out.
   */
  lemma WithNewEntryAtCap(history: seq<WorkoutHistoryEntry>, entry: WorkoutHistoryEntry)
    requires forall i :: 0 <= i < |history| ==> history[i].id != entry.id
    ensures WithEntry(history, entry) == [entry] + Truncated(history, MaxHistory - 1)
  {
    WithoutAbsentId(history, entry.id);
    var r := WithEntry(history, entry);
    var t := [entry] + Truncated(history, MaxHistory - 1);
    assert |r| == |t|;
    forall i | 0 <= i < |r| ensures r[i] == t[i] {
      if i > 0 {
        assert r[i] == history[i - 1];
      }
    }
  }

  /** Adding an entry whose id is already present replaces it: the old one is gone. */
  lemma WithEntryReplaces(history: seq<WorkoutHistoryEntry>, entry: WorkoutHistoryEntry, k: nat)
    requires k < |history| && history[k].id == entry.id && history[k] != entry
    ensures history[k] !in WithEntry(history, entry)
  {
    var r := WithEntry(history, entry);
    forall i | 0 <= i < |r| ensures r[i] != history[k] {
      if i > 0 {
        assert r[i].id != entry.id;
      }
    }
  }

  /** `muscles || 'Geral'`: an empty muscles text is recorded as "Geral". */
  function PriorityText(muscles: string): (r: string)
    ensures r != []
    ensures muscles != [] ==> r == muscles
    ensures muscles == [] ==> r == "Geral"
  {
    if muscles == "" then "Geral" else muscles
  }

  /** The history entry `finalizeWorkout` records for a generated plan. */
  function NewHistoryEntry(id: string, now: string, gender: Gender, level: Level, goal: Goal,
                           muscles: string, days: int, time: string, plan: WorkoutPlan): (r: WorkoutHistoryEntry)
    ensures r.id == id && r.dataCriacao == now && r.treinoGerado == plan
    ensures r.musculosPrioritarios != [] && (muscles != [] ==> r.musculosPrioritarios == muscles)
    ensures r.genero == gender && r.nivel == level && r.objetivo == goal && r.dias == days && r.tempo == time
  {
    WorkoutHistoryEntry(id, now, gender, level, goal, PriorityText(muscles), days, time, plan)
  }

  // ---------------------------------------------------------------------
  // The shell's state
  // ---------------------------------------------------------------------

  /**
   * The state the shell's handlers update: the plan on display, the plan
   * history, the workout log and the profile's gender.
   */
  class App {
    var workoutPlan: Option<WorkoutPlan>
    var history: seq<WorkoutHistoryEntry>
    var workoutLogs: seq<WorkoutLog>
    var profileGender: Gender

    /** The caps hold and no two history entries share an id. */
    ghost predicate Valid()
      reads this
    {
      |workoutLogs| <= MaxLogs && |history| <= MaxHistory && DistinctIds(history)
    }

    /** A fresh shell: nothing generated or logged, the default profile. */
    constructor ()
      ensures Valid()
      ensures workoutPlan == None && history == [] && workoutLogs == [] && profileGender == Male
    {
      workoutPlan := None;
      history := [];
      workoutLogs := [];
      profileGender := Male;
    }

    /** `handleLogWorkout`. */
    method LogWorkout(log: WorkoutLog)
      requires Valid()
      modifies this
      ensures Valid()
      ensures workoutLogs == WithLog(old(workoutLogs), log)
      ensures workoutPlan == old(workoutPlan) && history == old(history) && profileGender == old(profileGender)
    {
      workoutLogs := WithLog(workoutLogs, log);
    }

    /** `handleUndoLog`. */
    method UndoLog(dayTitle: string, planName: string)
      requires Valid()
      modifies this
      ensures Valid()
      ensures workoutLogs == Undone(old(workoutLogs), dayTitle, planName)
      ensures workoutPlan == old(workoutPlan) && history == old(history) && profileGender == old(profileGender)
    {
      var index := FindLog(workoutLogs, dayTitle, planName);
      match index
      case None =>
      case Some(k) =>
        workoutLogs := WithoutIndex(workoutLogs, k);
    }

    /** `handleUpdatePlan`: the plan on display and the history entries holding a plan with its id. */
    method UpdatePlan(plan: WorkoutPlan)
      requires Valid()
      modifies this
      ensures Valid()
      ensures workoutPlan == Some(plan) && history == WithUpdatedPlan(old(history), plan)
      ensures workoutLogs == old(workoutLogs) && profileGender == old(profileGender)
    {
      workoutPlan := Some(plan);
      UpdateKeepsIds(history, plan);
      history := WithUpdatedPlan(history, plan);
    }

    /**
     * `finalizeWorkout`: shows the plan, records the chosen gender in the
     * profile and puts a new history entry first.  `id` and `now` stand for
     * `crypto.randomUUID()` and the formatted current date.
     */
    method FinalizeWorkout(plan: WorkoutPlan, gender: Gender, level: Level, goal: Goal, muscles: string,
                           days: int, time: string, id: string, now: string)
      requires Valid()
      modifies this
      ensures Valid()
      ensures workoutPlan == Some(plan) && profileGender == gender
      ensures history == WithEntry(old(history), NewHistoryEntry(id, now, gender, level, goal, muscles, days, time, plan))
      ensures workoutLogs == old(workoutLogs)
    {
      workoutPlan := Some(plan);
      if profileGender != gender {
        profileGender := gender;
      }
      var entry := NewHistoryEntry(id, now, gender, level, goal, muscles, days, time, plan);
      WithEntryDistinct(history, entry);
      history := WithEntry(history, entry);
    }
  }
}
