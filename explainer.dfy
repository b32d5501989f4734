/**
 * `getExerciseExplanation` (core/workoutEngine.ts): the tip of the first
 * catalog entry whose normalized name includes the normalized query, under
 * a fixed execution text, or two fixed fallback texts when none does.
 */
module Explainer {
  import opened Wrappers
  import opened Text
  import opened Types
  import opened Catalog
  import opened Search

  datatype Explanation = Explanation(execution: string, tip: string)

  const FoundExecution: string :=
    "Realize o movimento com controle, mantendo a postura ereta e focando na musculatura alvo. Evite usar impulso."
  const FallbackExecution: string := "Execute o movimento com técnica apurada e amplitude total."
  const FallbackTip: string := "Consulte um profissional em caso de dúvidas sobre a postura."

  /** The answer for normalized query `q` over the entries `all`, searched in order. */
  function ExplainFrom(all: seq<Exercise>, q: string): Explanation {
    match FirstContaining(all, q)
    case Some(e) => Explanation(FoundExecution, e.tip)
    case None => Explanation(FallbackExecution, FallbackTip)
  }

  /** What `getExerciseExplanation(name)` returns. */
  function Explained(name: string): Explanation {
    ExplainFrom(AllExercises(), Normalize(name))
  }

  /** `getExerciseExplanation(name)`: the catalog search, then one of the two answers. */
  method ExerciseExplanation(name: string) returns (e: Explanation)
    ensures e == Explained(name)
  {
    var found := FindFirstContaining(Database, Normalize(name));
    match found
    case Some(x) =>
      e := Explanation(FoundExecution, x.tip);
    case None =>
      e := Explanation(FallbackExecution, FallbackTip);
  }

  /**
   * A query some entry matches gets that first entry's tip under the fixed
   * execution text; a query no entry matches gets both fallback texts.
   */
  lemma ExplainFromSpec(all: seq<Exercise>, q: string)
    ensures (exists i :: 0 <= i < |all| && NameIncludes(all[i], q)) ==>
              exists i :: 0 <= i < |all| && NameIncludes(all[i], q)
                          && (forall j :: 0 <= j < i ==> !NameIncludes(all[j], q))
                          && ExplainFrom(all, q) == Explanation(FoundExecution, all[i].tip)
    ensures (forall i :: 0 <= i < |all| ==> !NameIncludes(all[i], q)) ==>
              ExplainFrom(all, q) == Explanation(FallbackExecution, FallbackTip)
  {
    var r := FirstContaining(all, q);
    if r.Some? {
      var i :| 0 <= i < |all| && all[i] == r.value && NameIncludes(all[i], q)
               && forall j :: 0 <= j < i ==> !NameIncludes(all[j], q);
    }
  }

  /** A query that normalizes to nothing matches the first catalog entry, the barbell bench press. */
  lemma EmptyQueryExplainsFirstEntry(name: string)
    requires Normalize(name) == ""
    ensures Explained(name) == Explanation(FoundExecution, PeitoExercises[0].tip)
  {
    FlattenDatabase();
    var all := AllExercises();
    assert all[0] == PeitoExercises[0];
    assert IsPrefix("", Normalize(all[0].name));
    FirstContainingHit(all, [], "");
    assert all + [] == all;
  }
}
