/**
 * The catalog search shared by `getExerciseExplanation` and the
 * substitution rule of `adjustWorkoutIntelligently` (core/workoutEngine.ts):
 * `for (const group of Object.values(EXERCISE_DATABASE)) group.find(e =>
 * normalize(e.name).includes(q))`, returning the first hit.
 */
module Search {
  import opened Wrappers
  import opened Text
  import opened Types
  import opened Catalog

  /** The entry's normalized name includes `q`. */
  predicate NameIncludes(e: Exercise, q: string) {
    Contains(Normalize(e.name), q)
  }

  /** The first exercise of `s`, in order, whose normalized name includes `q`. */
  function FirstContaining(s: seq<Exercise>, q: string): (r: Option<Exercise>)
    ensures r.Some? ==> exists i :: 0 <= i < |s| && s[i] == r.value && NameIncludes(s[i], q)
                                    && forall j :: 0 <= j < i ==> !NameIncludes(s[j], q)
    ensures r.None? <==> forall i :: 0 <= i < |s| ==> !NameIncludes(s[i], q)
    decreases |s|
  {
    if s == [] then None
    else if NameIncludes(s[0], q) then Some(s[0])
    else
      var r := FirstContaining(s[1..], q);
      assert forall i :: 1 <= i < |s| ==> s[i] == s[1..][i - 1];
      assert r.Some? ==> exists i :: 0 <= i < |s| && s[i] == r.value && NameIncludes(s[i], q)
                                     && forall j :: 0 <= j < i ==> !NameIncludes(s[j], q) by {
        if r.Some? {
          var i :| 0 <= i < |s[1..]| && s[1..][i] == r.value && NameIncludes(s[1..][i], q)
                   && forall j :: 0 <= j < i ==> !NameIncludes(s[1..][j], q);
          assert s[i + 1] == r.value;
          forall j | 0 <= j < i + 1 ensures !NameIncludes(s[j], q) {
            if j > 0 {
              assert s[j] == s[1..][j - 1];
            }
          }
        }
      }
      r
  }

  /** Skipping a leading entry that does not match leaves the search result as it was. */
  lemma FirstContainingSkip(s: seq<Exercise>, t: seq<Exercise>, q: string)
    requires s != [] && !NameIncludes(s[0], q)
    ensures FirstContaining(s + t, q) == FirstContaining(s[1..] + t, q)
  {
    assert (s + t)[0] == s[0];
    assert (s + t)[1..] == s[1..] + t;
  }

  /** A leading entry that matches is the search result. */
  lemma FirstContainingHit(s: seq<Exercise>, t: seq<Exercise>, q: string)
    requires s != [] && NameIncludes(s[0], q)
    ensures FirstContaining(s + t, q) == Some(s[0])
  {
    assert (s + t)[0] == s[0];
  }

  lemma FlattenFrom(groups: seq<Group>, g: nat)
    requires g < |groups|
    ensures Flatten(groups[g..]) == groups[g].exercises + Flatten(groups[g + 1..])
  {
    assert groups[g..][1..] == groups[g + 1..];
  }

  /**
   * The two nested loops of the search with their early return: the first
   * entry, group by group and in list order, whose normalized name includes `q`.
   */
  method FindFirstContaining(groups: seq<Group>, q: string) returns (found: Option<Exercise>)
    ensures found == FirstContaining(Flatten(groups), q)
  {
    var g := 0;
    while g < |groups|
      invariant 0 <= g <= |groups|
      invariant FirstContaining(Flatten(groups), q) == FirstContaining(Flatten(groups[g..]), q)
    {
      var exs := groups[g].exercises;
      var rest := Flatten(groups[g + 1..]);
      FlattenFrom(groups, g);
      assert exs[0..] == exs;
      var k := 0;
      while k < |exs|
        invariant 0 <= k <= |exs|
        invariant FirstContaining(Flatten(groups), q) == FirstContaining(exs[k..] + rest, q)
      {
        if NameIncludes(exs[k], q) {
          FirstContainingHit(exs[k..], rest, q);
          return Some(exs[k]);
        }
        FirstContainingSkip(exs[k..], rest, q);
        assert exs[k..][1..] == exs[k + 1..];
        k := k + 1;
      }
      assert exs[k..] + rest == rest;
      g := g + 1;
    }
    assert Flatten(groups[g..]) == [];
    found := None;
  }
}
