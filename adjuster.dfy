/**
 * `adjustWorkoutIntelligently` (core/workoutEngine.ts).  The plan is a
 * value (the source deep-copies it), so the method builds the new plan from
 * the old one: a fresh id and timestamp, the substitution rule when the
 * instruction asks for one, then the intensity rule over every exercise.
 * The functions say what the method computes from the draw stream; the
 * lemmas state what the rules promise about the result.
 */
module Adjuster {
  import opened Wrappers
  import opened Text
  import opened Types
  import opened Catalog
  import opened Random
  import opened Search
  import opened Phrases
  import opened CatalogNames

  // ---------------------------------------------------------------------
  // Reading the instruction
  // ---------------------------------------------------------------------

  /** `instr.includes('troque') || instr.includes('mude') || instr.includes('substitua')`. */
  predicate AsksSubstitution(instr: string) {
    Contains(instr, "troque") || Contains(instr, "mude") || Contains(instr, "substitua")
  }

  /**
   * What to replace and what to replace it with; an empty string stands for
   * the source's `null` and for an empty phrase, which it treats alike.
   */
  datatype Request = Request(target: string, replacement: string)

  /**
   * `parts = instr.split(' por ')`: the target is `parts[0]` with the
   * command regular expression removed, then trimmed; the replacement is
   * `parts[1]`, only trimmed.  Without `' por '` the whole instruction gives
   * the target and there is no replacement.
   */
  function ParseRequest(instr: string): (r: Request)
    ensures 'o' !in r.target && 'a' !in r.target
    ensures !Contains(instr, " por ") ==> r == Request(Trim(StripCommandWords(instr)), "")
    ensures Contains(instr, " por ") ==>
              var i := IndexOf(instr, " por ").value;
              var rest := instr[i + 5..];
              r.target == Trim(StripCommandWords(instr[..i])) &&
              r.replacement == Trim(UpToSeparator(rest, " por "))
  {
    if Contains(instr, " por ") then
      var parts := Split(instr, " por ");
      var i := IndexOf(instr, " por ").value;
      assert parts[0] == instr[..i] && parts[1] == Split(instr[i + 5..], " por ")[0];
      SplitHead(instr[i + 5..], " por ");
      var stripped := StripCommandWords(parts[0]);
      TrimKeepsOut(stripped, 'o');
      TrimKeepsOut(stripped, 'a');
      Request(Trim(stripped), Trim(parts[1]))
    else
      var stripped := StripCommandWords(instr);
      TrimKeepsOut(stripped, 'o');
      TrimKeepsOut(stripped, 'a');
      Request(Trim(stripped), "")
  }

  /** Trimming adds no character. */
  lemma TrimKeepsOut(s: string, c: char)
    requires c !in s
    ensures c !in Trim(s)
  {
    var i := TrimIsSlice(s);
    forall k | 0 <= k < |Trim(s)| ensures Trim(s)[k] != c {
      assert Trim(s)[k] == s[i + k];
    }
  }

  /**
   * The regular expression deletes every `o` and `a`, not only the words:
   * "troque supino por leg press" targets "supin" and asks for "leg press".
   */
  lemma ParseExample()
    ensures ParseRequest("troque supino por leg press") == Request("supin", "leg press")
  {
    ExampleTail();
    ExampleTrimReplacement();
    ExampleConcat();
    ParseSupinoPor("leg press");
  }

  /** "troque supino por peck deck" targets "supin" and asks for "peck deck". */
  lemma ParsePeckDeckExample()
    ensures ParseRequest("troque supino por peck deck") == Request("supin", "peck deck")
  {
    PeckDeckTail();
    PeckDeckTrim();
    ExampleConcat();
    ParseSupinoPor("peck deck");
  }

  /** "troque supino por " followed by a trimmed phrase without " por ". */
  lemma ParseSupinoPor(tail: string)
    requires !Contains(tail, " por ") && Trim(tail) == tail
    ensures ParseRequest("troque supino por " + tail) == Request("supin", tail)
  {
    ExampleSplit(tail);
    ExampleStrip();
    ExampleTrimTarget();
  }

  /** The intensity rule's three outcomes. */
  datatype Intensity = Heavier | Lighter | Unchanged

  /** The heavier words are tested first, so they win when both kinds appear. */
  function IntensityOf(instr: string): (i: Intensity)
    ensures i == Heavier <==> Contains(instr, "dificil") || Contains(instr, "pesado") || Contains(instr, "aumente")
    ensures i == Lighter ==> Contains(instr, "facil") || Contains(instr, "leve") || Contains(instr, "diminua")
    ensures i == Unchanged ==> !Contains(instr, "facil") && !Contains(instr, "leve") && !Contains(instr, "diminua")
  {
    if Contains(instr, "dificil") || Contains(instr, "pesado") || Contains(instr, "aumente") then Heavier
    else if Contains(instr, "facil") || Contains(instr, "leve") || Contains(instr, "diminua") then Lighter
    else Unchanged
  }

  // ---------------------------------------------------------------------
  // The substitution rule
  // ---------------------------------------------------------------------

  /** `targetToReplace && (normEx.includes(target) || target.includes(normEx))`. */
  predicate Matches(normEx: string, target: string) {
    target != "" && (Contains(normEx, target) || Contains(target, normEx))
  }

  /** Some entry of the list has exactly this normalized name. */
  predicate HasNormalizedName(exs: seq<Exercise>, normEx: string) {
    exists k :: 0 <= k < |exs| && Normalize(exs[k].name) == normEx
  }

  /** `Object.keys(...).find(key => group.some(e => normalize(e.name) === normEx))`. */
  function HomeKeyIn(groups: seq<Group>, normEx: string): (r: Option<string>)
    ensures r.Some? ==> exists g :: 0 <= g < |groups| && groups[g].key == r.value
                                    && HasNormalizedName(groups[g].exercises, normEx)
                                    && forall h :: 0 <= h < g ==> !HasNormalizedName(groups[h].exercises, normEx)
    ensures r.None? ==> forall g :: 0 <= g < |groups| ==> !HasNormalizedName(groups[g].exercises, normEx)
    decreases |groups|
  {
    if groups == [] then None
    else if HasNormalizedName(groups[0].exercises, normEx) then Some(groups[0].key)
    else
      var r := HomeKeyIn(groups[1..], normEx);
      assert forall g :: 1 <= g < |groups| ==> groups[g] == groups[1..][g - 1];
      r
  }

  /** The group searched for alternatives: the exercise's own group, else `'Peito'`. */
  function HomeGroup(normEx: string): string {
    match HomeKeyIn(Database, normEx)
    case Some(key) => if key != "" then key else "Peito"
    case None => "Peito"
  }

  /** `group.filter(e => normalize(e.name) !== normEx)`. */
  function Others(exs: seq<Exercise>, normEx: string): (r: seq<Exercise>)
    ensures |r| <= |exs|
    ensures forall x {:trigger x in r} :: x in r <==> x in exs && Normalize(x.name) != normEx
    decreases |exs|
  {
    if exs == [] then []
    else
      var rest := Others(exs[1..], normEx);
      assert forall x :: x in exs <==> x == exs[0] || x in exs[1..];
      if Normalize(exs[0].name) != normEx then [exs[0]] + rest else rest
  }

  /**
   * The filter keeps the order and the repetitions of what it keeps, so
   * the random index picks by position in the group's own order.
   */
  lemma {:induction false} OthersConcat(a: seq<Exercise>, b: seq<Exercise>, normEx: string)
    ensures Others(a + b, normEx) == Others(a, normEx) + Others(b, normEx)
    decreases |a|
  {
    if a == [] {
      assert a + b == b;
    } else {
      var x, t := a[0], a[1..];
      assert a == [x] + t && a + b == [x] + (t + b);
      OthersConcat(t, b, normEx);
      OthersCons(x, t + b, normEx);
      OthersCons(x, t, normEx);
    }
  }

  /** The filter's first step: the head stays exactly when its normalized name differs. */
  lemma OthersCons(x: Exercise, t: seq<Exercise>, normEx: string)
    ensures Others([x] + t, normEx) == (if Normalize(x.name) != normEx then [x] else []) + Others(t, normEx)
  {
    assert ([x] + t)[1..] == t;
  }

  /** The alternatives a matched exercise is drawn from. */
  function Alternatives(normEx: string): seq<Exercise> {
    Others(Lookup(HomeGroup(normEx)), normEx)
  }

  /** The catalog entry a non-empty replacement phrase names, if any. */
  function ReplacementFor(req: Request): Option<Exercise> {
    if req.replacement != "" then FirstContaining(AllExercises(), req.replacement) else None
  }

  /** `{ ...e, sets: ex.sets, reps: ex.reps }`. */
  function WithSetsOf(e: Exercise, ex: Exercise): Exercise {
    e.(sets := ex.sets, reps := ex.reps)
  }

  /**
   * The `exercises.map` callback for one exercise, with the next draw at
   * `cursor`: an unmatched exercise stays; a matched one becomes the named
   * replacement, else a random alternative from its group, else stays.
   */
  function Substitute(ex: Exercise, req: Request, draw: nat -> real, cursor: nat): (r: (Exercise, nat))
    requires UnitDraws(draw)
    ensures r.0.sets == ex.sets && r.0.reps == ex.reps
    ensures cursor <= r.1 <= cursor + 1
  {
    var normEx := Normalize(ex.name);
    if !Matches(normEx, req.target) then (ex, cursor)
    else match ReplacementFor(req)
      case Some(e) => (WithSetsOf(e, ex), cursor)
      case None => Pick(ex, Alternatives(normEx), draw, cursor)
  }

  /** `alternatives[Math.floor(Math.random() * alternatives.length)]`, when there is one. */
  function Pick(ex: Exercise, alts: seq<Exercise>, draw: nat -> real, cursor: nat): (r: (Exercise, nat))
    requires UnitDraws(draw)
    ensures r.0.sets == ex.sets && r.0.reps == ex.reps
    ensures cursor <= r.1 <= cursor + 1
    ensures alts == [] ==> r == (ex, cursor)
    ensures alts != [] ==> r.1 == cursor + 1 && exists j :: 0 <= j < |alts| && r.0 == WithSetsOf(alts[j], ex)
  {
    if |alts| > 0 then (WithSetsOf(alts[Scale(draw(cursor), |alts|)], ex), cursor + 1)
    else (ex, cursor)
  }

  /** `day.exercises.map(...)`, left to right. */
  function SubstituteAll(exs: seq<Exercise>, req: Request, draw: nat -> real, start: nat): (r: (seq<Exercise>, nat))
    requires UnitDraws(draw)
    ensures |r.0| == |exs|
    decreases |exs|
  {
    if exs == [] then ([], start)
    else
      var prev := SubstituteAll(exs[..|exs| - 1], req, draw, start);
      var last := Substitute(exs[|exs| - 1], req, draw, prev.1);
      (prev.0 + [last.0], last.1)
  }

  /** `newPlan.workouts.map(day => ({ ...day, exercises: ... }))`, day by day. */
  function SubstituteDays(days: seq<DayWorkout>, req: Request, draw: nat -> real, start: nat): (r: (seq<DayWorkout>, nat))
    requires UnitDraws(draw)
    ensures |r.0| == |days|
    decreases |days|
  {
    if days == [] then ([], start)
    else
      var prev := SubstituteDays(days[..|days| - 1], req, draw, start);
      var day := days[|days| - 1];
      var ex := SubstituteAll(day.exercises, req, draw, prev.1);
      (prev.0 + [day.(exercises := ex.0)], ex.1)
  }

  // ---------------------------------------------------------------------
  // The intensity rule
  // ---------------------------------------------------------------------

  /** What the intensity loop does to one exercise. */
  function Intensify(ex: Exercise, i: Intensity): Exercise {
    match i
    case Heavier => ex.(sets := "4", reps := "8-10", tip := ex.tip + " (Foco em carga)")
    case Lighter => ex.(sets := "2-3", reps := "12-15", tip := ex.tip + " (Foco em técnica)")
    case Unchanged => ex
  }

  function IntensifyDay(day: DayWorkout, i: Intensity): DayWorkout {
    day.(exercises := seq(|day.exercises|, k requires 0 <= k < |day.exercises| => Intensify(day.exercises[k], i)))
  }

  function IntensifyDays(days: seq<DayWorkout>, i: Intensity): seq<DayWorkout> {
    seq(|days|, d requires 0 <= d < |days| => IntensifyDay(days[d], i))
  }

  // ---------------------------------------------------------------------
  // The whole adjustment
  // ---------------------------------------------------------------------

  /**
   * What `adjustWorkoutIntelligently(plan, instruction)` returns, with
   * `crypto.randomUUID()` as `id`, the ISO time as `now` and the draws
   * beginning at `start`; the second component is the next draw.
   */
  function Adjusted(plan: WorkoutPlan, instruction: string, id: string, now: string,
                    draw: nat -> real, start: nat): (WorkoutPlan, nat)
    requires UnitDraws(draw)
  {
    var instr := Normalize(instruction);
    var substituted := if AsksSubstitution(instr) then SubstituteDays(plan.workouts, ParseRequest(instr), draw, start)
                       else (plan.workouts, start);
    (plan.(id := id, generatedAt := now, workouts := IntensifyDays(substituted.0, IntensityOf(instr))), substituted.1)
  }

  /** The exercises the substitution rule leaves for day `d` (before the intensity rule). */
  function SubstitutedDays(plan: WorkoutPlan, instruction: string, draw: nat -> real, start: nat): seq<DayWorkout>
    requires UnitDraws(draw)
  {
    var instr := Normalize(instruction);
    if AsksSubstitution(instr) then SubstituteDays(plan.workouts, ParseRequest(instr), draw, start).0
    else plan.workouts
  }

  // ---------------------------------------------------------------------
  // Properties
  // ---------------------------------------------------------------------

  /**
   * One exercise: sets and reps are kept; an unmatched exercise is kept
   * whole; a changed one is a catalog entry carrying the old sets and reps;
   * at most one draw is used.
   */
  lemma SubstituteSpec(ex: Exercise, req: Request, draw: nat -> real, cursor: nat)
    requires UnitDraws(draw)
    ensures var r := Substitute(ex, req, draw, cursor);
            && r.0.sets == ex.sets && r.0.reps == ex.reps
            && (!Matches(Normalize(ex.name), req.target) ==> r == (ex, cursor))
            && (r.0 == ex || exists e :: e in AllExercises() && r.0 == WithSetsOf(e, ex))
            && (r.1 == cursor || r.1 == cursor + 1)
  {
    var normEx := Normalize(ex.name);
    if Matches(normEx, req.target) {
      var found := ReplacementFor(req);
      if found.Some? {
        ReplacementInCatalog(req);
      } else {
        var alts := Alternatives(normEx);
        if |alts| > 0 {
          AlternativeInCatalog(normEx, Scale(draw(cursor), |alts|));
        }
      }
    }
  }

  /**
   * A matched exercise: the first catalog entry whose normalized name
   * contains the replacement phrase, with the old sets and reps, drawing
   * nothing; failing that, an entry of its home group under another
   * normalized name, drawing once; failing that, the exercise unchanged.
   */
  lemma SubstituteMatched(ex: Exercise, req: Request, draw: nat -> real, cursor: nat)
    requires UnitDraws(draw) && Matches(Normalize(ex.name), req.target)
    ensures var r := Substitute(ex, req, draw, cursor);
            var normEx := Normalize(ex.name);
            && (ReplacementFor(req).Some? ==> r == (WithSetsOf(ReplacementFor(req).value, ex), cursor))
            && (ReplacementFor(req).None? && Alternatives(normEx) == [] ==> r == (ex, cursor))
            && (ReplacementFor(req).None? && Alternatives(normEx) != [] ==>
                  && r.1 == cursor + 1
                  && exists a :: a in Lookup(HomeGroup(normEx)) && Normalize(a.name) != normEx
                                 && r.0 == WithSetsOf(a, ex))
  {
    var normEx := Normalize(ex.name);
    var alts := Alternatives(normEx);
    if ReplacementFor(req).None? && alts != [] {
      var r := Substitute(ex, req, draw, cursor);
      var j :| 0 <= j < |alts| && r.0 == WithSetsOf(alts[j], ex);
      assert alts[j] in alts;
    }
  }

  /**
   * "troque supino por peck deck": a matched exercise becomes "Crucifixo
   * Máquina (Peck Deck)", the first catalog entry naming a peck deck,
   * keeps its sets and reps, and uses no draw.
   */
  lemma SubstitutePeckDeck(ex: Exercise, target: string, draw: nat -> real, cursor: nat)
    requires UnitDraws(draw) && Matches(Normalize(ex.name), target)
    ensures Substitute(ex, Request(target, "peck deck"), draw, cursor) == (WithSetsOf(PeitoExercises[2], ex), cursor)
    ensures Contains(Substitute(ex, Request(target, "peck deck"), draw, cursor).0.name, "Peck Deck")
  {
    PeckDeckFound();
    SubstituteMatched(ex, Request(target, "peck deck"), draw, cursor);
    PeckDeckDisplayName();
  }

  /**
   * The whole instruction "troque supino por peck deck" applied to an
   * exercise whose normalized name matches "supin".
   */
  lemma SwapSupinoForPeckDeck(ex: Exercise, draw: nat -> real, cursor: nat)
    requires UnitDraws(draw) && Matches(Normalize(ex.name), "supin")
    ensures Substitute(ex, ParseRequest("troque supino por peck deck"), draw, cursor)
            == (WithSetsOf(PeitoExercises[2], ex), cursor)
    ensures Contains(Substitute(ex, ParseRequest("troque supino por peck deck"), draw, cursor).0.name, "Peck Deck")
  {
    ParsePeckDeckExample();
    SubstitutePeckDeck(ex, "supin", draw, cursor);
  }

  /** "Supino Reto (Barra)" is one of the exercises that instruction swaps. */
  lemma SupinoRetoSwapped(draw: nat -> real, cursor: nat)
    requires UnitDraws(draw)
    ensures Substitute(PeitoExercises[0], ParseRequest("troque supino por peck deck"), draw, cursor)
            == (WithSetsOf(PeitoExercises[2], PeitoExercises[0]), cursor)
  {
    SupinoRetoIncludesSupin();
    SwapSupinoForPeckDeck(PeitoExercises[0], draw, cursor);
  }

  /** The named replacement is a catalog entry. */
  lemma ReplacementInCatalog(req: Request)
    requires ReplacementFor(req).Some?
    ensures ReplacementFor(req).value in AllExercises()
  {
    FirstContainingIn(AllExercises(), req.replacement);
  }

  lemma FirstContainingIn(s: seq<Exercise>, q: string)
    requires FirstContaining(s, q).Some?
    ensures FirstContaining(s, q).value in s
  {
    var i :| 0 <= i < |s| && s[i] == FirstContaining(s, q).value && NameIncludes(s[i], q)
             && forall j :: 0 <= j < i ==> !NameIncludes(s[j], q);
  }

  /** Every alternative is a catalog entry. */
  lemma AlternativeInCatalog(normEx: string, j: nat)
    requires j < |Alternatives(normEx)|
    ensures Alternatives(normEx)[j] in AllExercises()
  {
    var e := Alternatives(normEx)[j];
    assert e in Others(Lookup(HomeGroup(normEx)), normEx);
    assert e in Lookup(HomeGroup(normEx));
    LookupInCatalog(HomeGroup(normEx), e);
  }

  /** Every entry of a looked-up group is a catalog entry. */
  lemma LookupInCatalog(key: string, e: Exercise)
    requires e in Lookup(key)
    ensures e in AllExercises()
  {
    var g :| 0 <= g < |Database| && Lookup(key) == Database[g].exercises;
    FlattenHas(Database, g, e);
  }

  lemma {:induction false} FlattenHas(groups: seq<Group>, g: nat, e: Exercise)
    requires g < |groups| && e in groups[g].exercises
    ensures e in Flatten(groups)
    decreases g
  {
    if g > 0 {
      FlattenHas(groups[1..], g - 1, e);
      assert groups[1..][g - 1] == groups[g];
    }
  }

  /** The list map keeps every index's sets and reps, and keeps each unmatched exercise. */
  lemma {:induction false} SubstituteAllAt(exs: seq<Exercise>, req: Request, draw: nat -> real, start: nat, k: nat)
    requires UnitDraws(draw) && k < |exs|
    ensures var r := SubstituteAll(exs, req, draw, start).0;
            && |r| == |exs|
            && r[k].sets == exs[k].sets && r[k].reps == exs[k].reps
            && (!Matches(Normalize(exs[k].name), req.target) ==> r[k] == exs[k])
            && (r[k] == exs[k] || exists e :: e in AllExercises() && r[k] == WithSetsOf(e, exs[k]))
            && exists s :: r[k] == Substitute(exs[k], req, draw, s).0
    decreases |exs|
  {
    var prev := SubstituteAll(exs[..|exs| - 1], req, draw, start);
    if k == |exs| - 1 {
      SubstituteSpec(exs[k], req, draw, prev.1);
      assert SubstituteAll(exs, req, draw, start).0[k] == Substitute(exs[k], req, draw, prev.1).0;
    } else {
      SubstituteAllAt(exs[..|exs| - 1], req, draw, start, k);
      assert exs[..|exs| - 1][k] == exs[k];
    }
  }

  /** The day map keeps every day's title and the number of its exercises. */
  lemma {:induction false} SubstituteDaysAt(days: seq<DayWorkout>, req: Request, draw: nat -> real, start: nat, d: nat)
    requires UnitDraws(draw) && d < |days|
    ensures var r := SubstituteDays(days, req, draw, start).0;
            && |r| == |days|
            && r[d].dayTitle == days[d].dayTitle
            && exists s :: r[d].exercises == SubstituteAll(days[d].exercises, req, draw, s).0
    decreases |days|
  {
    var prev := SubstituteDays(days[..|days| - 1], req, draw, start);
    if d < |days| - 1 {
      SubstituteDaysAt(days[..|days| - 1], req, draw, start, d);
      assert days[..|days| - 1][d] == days[d];
    } else {
      var r := SubstituteDays(days, req, draw, start).0;
      assert r[d].exercises == SubstituteAll(days[d].exercises, req, draw, prev.1).0;
    }
  }

  /** An empty target replaces nothing and draws nothing. */
  lemma {:induction false} EmptyTargetAll(exs: seq<Exercise>, req: Request, draw: nat -> real, start: nat)
    requires UnitDraws(draw) && req.target == ""
    ensures SubstituteAll(exs, req, draw, start) == (exs, start)
    decreases |exs|
  {
    if exs != [] {
      EmptyTargetAll(exs[..|exs| - 1], req, draw, start);
      assert exs[..|exs| - 1] + [exs[|exs| - 1]] == exs;
    }
  }

  lemma {:induction false} EmptyTargetDays(days: seq<DayWorkout>, req: Request, draw: nat -> real, start: nat)
    requires UnitDraws(draw) && req.target == ""
    ensures SubstituteDays(days, req, draw, start) == (days, start)
    decreases |days|
  {
    if days != [] {
      EmptyTargetDays(days[..|days| - 1], req, draw, start);
      EmptyTargetAll(days[|days| - 1].exercises, req, draw, start);
      assert days[..|days| - 1] + [days[|days| - 1]] == days;
    }
  }

  /** The intensity rule keeps the days, their titles and exercise counts, and rewrites each exercise alone. */
  lemma IntensifyDaysAt(days: seq<DayWorkout>, i: Intensity, d: nat, k: nat)
    requires d < |days| && k < |days[d].exercises|
    ensures var r := IntensifyDays(days, i);
            && |r| == |days| && r[d].dayTitle == days[d].dayTitle
            && |r[d].exercises| == |days[d].exercises|
            && r[d].exercises[k] == Intensify(days[d].exercises[k], i)
  {
  }

  /** Without an intensity word the rule leaves the days as they are. */
  lemma IntensifyUnchanged(days: seq<DayWorkout>)
    ensures IntensifyDays(days, Unchanged) == days
  {
    forall d | 0 <= d < |days| ensures IntensifyDay(days[d], Unchanged) == days[d] {
      assert IntensifyDay(days[d], Unchanged).exercises == days[d].exercises;
    }
  }

  /**
   * The adjusted plan has a new id and timestamp, every other plan field
   * as before, and the same days with the same titles and exercise counts.
   */
  lemma AdjustedStructure(plan: WorkoutPlan, instruction: string, id: string, now: string,
                          draw: nat -> real, start: nat, d: nat)
    requires UnitDraws(draw) && d < |plan.workouts|
    ensures var r := Adjusted(plan, instruction, id, now, draw, start).0;
            && r.id == id && r.generatedAt == now
            && r.(id := plan.id, generatedAt := plan.generatedAt, workouts := plan.workouts) == plan
            && |r.workouts| == |plan.workouts|
            && r.workouts[d].dayTitle == plan.workouts[d].dayTitle
            && |r.workouts[d].exercises| == |plan.workouts[d].exercises|
  {
    var instr := Normalize(instruction);
    var sub := SubstitutedDays(plan, instruction, draw, start);
    if AsksSubstitution(instr) {
      SubstituteDaysAt(plan.workouts, ParseRequest(instr), draw, start, d);
    }
    assert |IntensifyDays(sub, IntensityOf(instr))[d].exercises| == |sub[d].exercises|;
  }

  /**
   * Exercise `k` of day `d` after the adjustment: the intensity rule applied
   * to what the substitution rule left, which keeps the sets and reps, keeps
   * an exercise the target does not match (and everything when there is no
   * substitution request), and is otherwise a catalog entry.
   */
  lemma AdjustedExercise(plan: WorkoutPlan, instruction: string, id: string, now: string,
                         draw: nat -> real, start: nat, d: nat, k: nat)
    requires UnitDraws(draw) && d < |plan.workouts| && k < |plan.workouts[d].exercises|
    ensures var instr := Normalize(instruction);
            var ex := plan.workouts[d].exercises[k];
            var sub := SubstitutedDays(plan, instruction, draw, start);
            var r := Adjusted(plan, instruction, id, now, draw, start).0;
            && |sub| == |plan.workouts| && |sub[d].exercises| == |plan.workouts[d].exercises|
            && |r.workouts| == |plan.workouts| && |r.workouts[d].exercises| == |plan.workouts[d].exercises|
            && r.workouts[d].exercises[k] == Intensify(sub[d].exercises[k], IntensityOf(instr))
            && sub[d].exercises[k].sets == ex.sets && sub[d].exercises[k].reps == ex.reps
            && ((!AsksSubstitution(instr) || !Matches(Normalize(ex.name), ParseRequest(instr).target))
                  ==> sub[d].exercises[k] == ex)
            && (sub[d].exercises[k] == ex || exists e :: e in AllExercises() && sub[d].exercises[k] == WithSetsOf(e, ex))
            && (AsksSubstitution(instr) ==> exists s :: sub[d].exercises[k] == Substitute(ex, ParseRequest(instr), draw, s).0)
  {
    var instr := Normalize(instruction);
    var sub := SubstitutedDays(plan, instruction, draw, start);
    if AsksSubstitution(instr) {
      var req := ParseRequest(instr);
      SubstituteDaysAt(plan.workouts, req, draw, start, d);
      var s :| sub[d].exercises == SubstituteAll(plan.workouts[d].exercises, req, draw, s).0;
      SubstituteAllAt(plan.workouts[d].exercises, req, draw, s, k);
    }
    IntensifyDaysAt(sub, IntensityOf(instr), d, k);
  }

  /** An instruction whose target comes out empty changes no exercise by substitution and draws nothing. */
  lemma EmptyTargetReplacesNothing(plan: WorkoutPlan, instruction: string, id: string, now: string,
                                   draw: nat -> real, start: nat)
    requires UnitDraws(draw) && ParseRequest(Normalize(instruction)).target == ""
    ensures Adjusted(plan, instruction, id, now, draw, start)
            == (plan.(id := id, generatedAt := now, workouts := IntensifyDays(plan.workouts, IntensityOf(Normalize(instruction)))),
                start)
  {
    EmptyTargetDays(plan.workouts, ParseRequest(Normalize(instruction)), draw, start);
  }

  /**
   * A heavier instruction gives every exercise sets "4", reps "8-10" and
   * its tip followed by " (Foco em carga)", and renames none; the lighter
   * words then play no part.
   */
  lemma HeavierEverywhere(ex: Exercise, instr: string)
    requires Contains(instr, "dificil") || Contains(instr, "pesado") || Contains(instr, "aumente")
    ensures var r := Intensify(ex, IntensityOf(instr));
            r == ex.(sets := "4", reps := "8-10", tip := ex.tip + " (Foco em carga)")
            && r.name == ex.name
  {
  }

  /** A lighter instruction without heavier words gives "2-3", "12-15" and " (Foco em técnica)". */
  lemma LighterEverywhere(ex: Exercise, instr: string)
    requires !Contains(instr, "dificil") && !Contains(instr, "pesado") && !Contains(instr, "aumente")
    requires Contains(instr, "facil") || Contains(instr, "leve") || Contains(instr, "diminua")
    ensures var r := Intensify(ex, IntensityOf(instr));
            r == ex.(sets := "2-3", reps := "12-15", tip := ex.tip + " (Foco em técnica)")
            && r.name == ex.name
  {
  }

  // ---------------------------------------------------------------------
  // The adjuster
  // ---------------------------------------------------------------------

  /** The catalog search for the requested replacement, skipped for an empty phrase. */
  method FindReplacement(req: Request) returns (found: Option<Exercise>)
    ensures found == ReplacementFor(req)
  {
    found := None;
    if req.replacement != "" {
      found := FindFirstContaining(Database, req.replacement);
    }
  }

  /** The map callback for one exercise, drawing from `rng` only for a random alternative. */
  method SubstituteExercise(ex: Exercise, req: Request, rng: RandomSource) returns (out: Exercise)
    requires rng.Valid()
    modifies rng
    ensures (out, rng.used) == Substitute(ex, req, rng.draw, old(rng.used))
  {
    var normEx := Normalize(ex.name);
    if !Matches(normEx, req.target) {
      return ex;
    }
    var found := FindReplacement(req);
    if found.Some? {
      return WithSetsOf(found.value, ex);
    }
    out := PickAlternative(ex, Alternatives(normEx), rng);
  }

  /** The random alternative, drawing from `rng` only when there is one. */
  method PickAlternative(ex: Exercise, alts: seq<Exercise>, rng: RandomSource) returns (out: Exercise)
    requires rng.Valid()
    modifies rng
    ensures (out, rng.used) == Pick(ex, alts, rng.draw, old(rng.used))
  {
    if |alts| == 0 {
      return ex;
    }
    var j := rng.NextIndex(|alts|);
    out := WithSetsOf(alts[j], ex);
  }

  /** `day.exercises.map(...)`. */
  method SubstituteExercises(exs: seq<Exercise>, req: Request, rng: RandomSource) returns (out: seq<Exercise>)
    requires rng.Valid()
    modifies rng
    ensures (out, rng.used) == SubstituteAll(exs, req, rng.draw, old(rng.used))
  {
    out := [];
    var k := 0;
    while k < |exs|
      invariant 0 <= k <= |exs|
      invariant (out, rng.used) == SubstituteAll(exs[..k], req, rng.draw, old(rng.used))
    {
      var ex := SubstituteExercise(exs[k], req, rng);
      assert exs[..k + 1][..k] == exs[..k];
      out := out + [ex];
      k := k + 1;
    }
    assert exs[..k] == exs;
  }

  /** `newPlan.workouts = newPlan.workouts.map(day => ...)`. */
  method SubstituteWorkouts(days: seq<DayWorkout>, req: Request, rng: RandomSource) returns (out: seq<DayWorkout>)
    requires rng.Valid()
    modifies rng
    ensures (out, rng.used) == SubstituteDays(days, req, rng.draw, old(rng.used))
  {
    out := [];
    var d := 0;
    while d < |days|
      invariant 0 <= d <= |days|
      invariant (out, rng.used) == SubstituteDays(days[..d], req, rng.draw, old(rng.used))
    {
      var ex := SubstituteExercises(days[d].exercises, req, rng);
      assert days[..d + 1][..d] == days[..d];
      out := out + [days[d].(exercises := ex)];
      d := d + 1;
    }
    assert days[..d] == days;
  }

  /** The intensity rule's nested `forEach`, rewriting each exercise in place. */
  method ApplyIntensity(days: seq<DayWorkout>, i: Intensity) returns (out: seq<DayWorkout>)
    ensures out == IntensifyDays(days, i)
  {
    out := days;
    var d := 0;
    while d < |out|
      invariant 0 <= d <= |out| == |days|
      invariant forall e :: 0 <= e < d ==> out[e] == IntensifyDay(days[e], i)
      invariant forall e :: d <= e < |out| ==> out[e] == days[e]
    {
      var day := out[d];
      var k := 0;
      while k < |day.exercises|
        invariant 0 <= k <= |day.exercises| == |days[d].exercises|
        invariant day.dayTitle == days[d].dayTitle
        invariant forall j :: 0 <= j < k ==> day.exercises[j] == Intensify(days[d].exercises[j], i)
        invariant forall j :: k <= j < |day.exercises| ==> day.exercises[j] == days[d].exercises[j]
      {
        day := day.(exercises := day.exercises[k := Intensify(day.exercises[k], i)]);
        k := k + 1;
      }
      assert day == IntensifyDay(days[d], i);
      out := out[d := day];
      d := d + 1;
    }
  }

  /**
   * `adjustWorkoutIntelligently(currentPlan, instruction)` with `id` and
   * `now` standing for `crypto.randomUUID()` and `new Date().toISOString()`.
   */
  method AdjustWorkout(currentPlan: WorkoutPlan, instruction: string, id: string, now: string, rng: RandomSource)
    returns (newPlan: WorkoutPlan)
    requires rng.Valid()
    modifies rng
    ensures (newPlan, rng.used) == Adjusted(currentPlan, instruction, id, now, rng.draw, old(rng.used))
  {
    var instr := Normalize(instruction);
    newPlan := currentPlan.(id := id, generatedAt := now);
    if AsksSubstitution(instr) {
      var req := ParseRequest(instr);
      var workouts := SubstituteWorkouts(newPlan.workouts, req, rng);
      newPlan := newPlan.(workouts := workouts);
    }
    var intensity := IntensityOf(instr);
    if intensity != Unchanged {
      var workouts := ApplyIntensity(newPlan.workouts, intensity);
      newPlan := newPlan.(workouts := workouts);
    } else {
      IntensifyUnchanged(newPlan.workouts);
    }
  }
}
