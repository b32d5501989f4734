/**
 * `getExercisesByMuscle` (core/workoutEngine.ts): the group's entries that
 * suit the level, or the whole group when none does, shuffled and cut to
 * the requested count.
 */
module Selector {
  import opened Wrappers
  import opened Types
  import opened Catalog
  import opened Random
  import opened Shuffle

  /** `!ex.level || ex.level.includes(level)`: a record without a level list suits every level. */
  predicate Applicable(e: Exercise, l: Level) {
    e.level.None? || l in e.level.value
  }

  /** `available.filter(...)` with the level test. */
  function Filtered(s: seq<Exercise>, l: Level): (r: seq<Exercise>)
    ensures |r| <= |s|
    ensures forall x {:trigger x in r} :: x in r <==> x in s && Applicable(x, l)
    decreases |s|
  {
    if s == [] then []
    else
      var rest := Filtered(s[1..], l);
      assert forall x :: x in s <==> x == s[0] || x in s[1..];
      if Applicable(s[0], l) then [s[0]] + rest else rest
  }

  /**
   * The filter keeps the order and the repetitions of what it keeps:
   * filtering two lists one after the other is filtering each and
   * concatenating.
   */
  lemma {:induction false} FilteredConcat(a: seq<Exercise>, b: seq<Exercise>, l: Level)
    ensures Filtered(a + b, l) == Filtered(a, l) + Filtered(b, l)
    decreases |a|
  {
    if a == [] {
      assert a + b == b;
    } else {
      var x, t := a[0], a[1..];
      assert a == [x] + t && a + b == [x] + (t + b);
      FilteredConcat(t, b, l);
      FilteredCons(x, t + b, l);
      FilteredCons(x, t, l);
    }
  }

  /** The filter's first step: the head stays exactly when it suits the level. */
  lemma FilteredCons(x: Exercise, t: seq<Exercise>, l: Level)
    ensures Filtered([x] + t, l) == (if Applicable(x, l) then [x] else []) + Filtered(t, l)
  {
    assert ([x] + t)[1..] == t;
  }

  /** Filtering a name-distinct list keeps it name-distinct. */
  lemma {:induction false} FilteredDistinct(s: seq<Exercise>, l: Level)
    requires DistinctNames(s)
    ensures DistinctNames(Filtered(s, l))
    decreases |s|
  {
    if s != [] {
      var rest := Filtered(s[1..], l);
      assert DistinctNames(s[1..]) by {
        forall a, b | 0 <= a < b < |s[1..]| ensures s[1..][a].name != s[1..][b].name {
          assert s[1..][a] == s[a + 1] && s[1..][b] == s[b + 1];
        }
      }
      FilteredDistinct(s[1..], l);
      if Applicable(s[0], l) {
        forall x | x in rest ensures x.name != s[0].name {
          var k :| 1 <= k < |s| && s[k] == x;
        }
        assert NamesDisjoint([s[0]], rest);
        DistinctNamesAppend([s[0]], rest);
      }
    }
  }

  /** `filtered.length > 0 ? filtered : available`. */
  function PoolOf(available: seq<Exercise>, l: Level): (r: seq<Exercise>)
    ensures forall x :: x in r ==> x in available
    ensures r == [] <==> available == []
    ensures (exists x :: x in available && Applicable(x, l)) ==> forall x :: x in r ==> Applicable(x, l)
    ensures (forall x :: x in available ==> !Applicable(x, l)) ==> r == available
  {
    var filtered := Filtered(available, l);
    forall x | x in available && Applicable(x, l) ensures x in filtered {
    }
    assert filtered != [] ==> filtered[0] in filtered;
    if |filtered| > 0 then filtered else available
  }

  /** The pool `getExercisesByMuscle` shuffles for group `key`. */
  function Pool(key: string, l: Level): seq<Exercise> {
    PoolOf(Lookup(key), l)
  }

  function Min(a: nat, b: nat): (m: nat)
    ensures m <= a && m <= b && (m == a || m == b)
  {
    if a <= b then a else b
  }

  /** A group's lookup is empty or one of the catalog's lists, so it never repeats a name. */
  lemma LookupDistinct(key: string)
    ensures DistinctNames(Lookup(key))
  {
    var r := Lookup(key);
    if r != [] {
      var i :| 0 <= i < |Database| && r == Database[i].exercises;
      GroupNamesDistinct(i);
    }
  }

  /** Every pool, filtered or not, is free of repeated names. */
  lemma PoolDistinct(key: string, l: Level)
    ensures DistinctNames(PoolOf(Lookup(key), l))
  {
    LookupDistinct(key);
    FilteredDistinct(Lookup(key), l);
  }

  /**
   * `shuffleArray(pool).slice(0, count)` on the group list `available`:
   * `min(count, |pool|)` exercises of the pool, in shuffled order, and
   * where the next caller's draws begin.
   */
  function TakeFrom(available: seq<Exercise>, l: Level, count: nat, draw: nat -> real, start: nat): (r: (seq<Exercise>, nat))
    requires UnitDraws(draw) && DistinctNames(available)
    ensures |r.0| == Min(count, |PoolOf(available, l)|)
    ensures r.1 == start + Draws(|PoolOf(available, l)|)
    ensures forall x :: x in r.0 ==> x in PoolOf(available, l) && x in available
    ensures DistinctNames(r.0)
    ensures available == [] ==> r.0 == []
  {
    var pool := PoolOf(available, l);
    FilteredDistinct(available, l);
    ShuffledPrefix(pool, draw, start, Min(count, |pool|));
    (Shuffled(pool, draw, start)[..Min(count, |pool|)], start + Draws(|pool|))
  }

  /** The shuffle and cut of `getExercisesByMuscle`, on an array as the source does it. */
  method TakeShuffled(available: seq<Exercise>, l: Level, count: nat, rng: RandomSource) returns (r: seq<Exercise>)
    requires rng.Valid() && DistinctNames(available)
    modifies rng
    ensures (r, rng.used) == TakeFrom(available, l, count, rng.draw, old(rng.used))
  {
    var pool := PoolOf(available, l);
    var a := new Exercise[|pool|](k requires 0 <= k < |pool| => pool[k]);
    assert a[..] == pool;
    var b := ShuffleArray(a, rng);
    r := b[..Min(count, |pool|)];
  }

  /**
   * What `getExercisesByMuscle(key, l, count)` returns when its draws begin
   * at `start`, and where the next caller's draws begin.
   */
  function Take(key: string, l: Level, count: nat, draw: nat -> real, start: nat): (r: (seq<Exercise>, nat))
    requires UnitDraws(draw)
    ensures |r.0| == Min(count, |Pool(key, l)|)
    ensures r.1 == start + Draws(|Pool(key, l)|)
    ensures forall x :: x in r.0 ==> x in Pool(key, l) && x in Lookup(key)
    ensures DistinctNames(r.0)
    ensures Lookup(key) == [] ==> r.0 == []
  {
    LookupDistinct(key);
    TakeFrom(Lookup(key), l, count, draw, start)
  }

  /** A prefix of a shuffled name-distinct pool holds pool entries with distinct names. */
  lemma ShuffledPrefix(pool: seq<Exercise>, draw: nat -> real, start: nat, n: nat)
    requires UnitDraws(draw) && DistinctNames(pool) && n <= |pool|
    ensures forall x :: x in Shuffled(pool, draw, start)[..n] ==> x in pool
    ensures DistinctNames(Shuffled(pool, draw, start)[..n])
  {
    var shuffled := Shuffled(pool, draw, start);
    var r := shuffled[..n];
    forall x | x in r ensures x in pool {
      assert x in multiset(shuffled);
    }
    ShuffledKeepsDistinct(pool, draw, start, (e: Exercise) => e.name);
    forall i, j | 0 <= i < j < |r| ensures r[i].name != r[j].name {
      assert r[i] == shuffled[i] && r[j] == shuffled[j];
    }
  }

  /** `getExercisesByMuscle(key, l, count)`, drawing from `rng`. */
  method ExercisesByMuscle(key: string, l: Level, count: nat, rng: RandomSource) returns (r: seq<Exercise>)
    requires rng.Valid()
    modifies rng
    ensures (r, rng.used) == Take(key, l, count, rng.draw, old(rng.used))
  {
    LookupDistinct(key);
    r := TakeShuffled(Lookup(key), l, count, rng);
  }

  /** The position, in each group, of an entry listed for all three levels. */
  function UniversalEntry(i: nat): (k: nat)
    requires i < |Database|
    ensures k < |Database[i].exercises|
    ensures Database[i].exercises[k].level == Some([Beginner, Intermediate, Advanced])
  {
    if i == 0 then 0
    else if i == 1 then 1
    else if i == 2 then 3
    else if i == 3 then 0
    else if i == 4 then 0
    else if i == 5 then 0
    else 1
  }

  /** An entry listed for all three levels suits every level. */
  lemma AllLevelsApplicable(e: Exercise, l: Level)
    requires e.level == Some([Beginner, Intermediate, Advanced])
    ensures Applicable(e, l)
  {
    match l
    case Beginner =>
    case Intermediate =>
    case Advanced =>
  }

  /** Every level is listed by some entry of every group. */
  lemma EveryLevelInEveryGroup(i: nat, l: Level)
    requires i < |Database|
    ensures exists e :: e in Database[i].exercises && e.level.Some? && l in e.level.value
  {
    var e := Database[i].exercises[UniversalEntry(i)];
    AllLevelsApplicable(e, l);
  }

  /** So for every catalog group the level filter leaves something and the fallback never fires. */
  lemma FallbackNeverFires(i: nat, l: Level)
    requires i < |Database|
    ensures Filtered(Database[i].exercises, l) != []
    ensures Pool(Database[i].key, l) == Filtered(Database[i].exercises, l)
  {
    LookupKey(i);
    var e := Database[i].exercises[UniversalEntry(i)];
    AllLevelsApplicable(e, l);
    assert e in Filtered(Database[i].exercises, l);
  }

  /** How many of the flags are set. */
  function CountTrue(flags: seq<bool>): (n: nat)
    ensures n <= |flags|
    decreases |flags|
  {
    if flags == [] then 0 else (if flags[0] then 1 else 0) + CountTrue(flags[1..])
  }

  /** The filter keeps exactly the positions whose flag says the entry suits the level. */
  lemma {:induction false} FilteredCount(s: seq<Exercise>, l: Level, flags: seq<bool>)
    requires |flags| == |s|
    requires forall k :: 0 <= k < |s| ==> (flags[k] <==> Applicable(s[k], l))
    ensures |Filtered(s, l)| == CountTrue(flags)
    decreases |s|
  {
    if s != [] {
      FilteredCount(s[1..], l, flags[1..]);
    }
  }

  /** When the filter keeps something, the pool is the filtered list. */
  lemma PoolOfNonEmptyFilter(available: seq<Exercise>, l: Level)
    ensures Filtered(available, l) != [] ==> PoolOf(available, l) == Filtered(available, l)
  {
  }

  /** Every group's pool has at least one exercise, at every level. */
  lemma PoolNonEmpty(i: nat, l: Level)
    requires i < |Database|
    ensures |Pool(Database[i].key, l)| >= 1
  {
    FallbackNeverFires(i, l);
  }

  /**
   * The beginner pools: Peito 3, Costas 2, Pernas 4, Ombros 3, Bíceps 2,
   * Tríceps 2 and Abdômen 2 entries.
   */
  lemma BeginnerPools()
    ensures |Pool("Peito", Beginner)| == 3
    ensures |Pool("Costas", Beginner)| == 2
    ensures |Pool("Pernas", Beginner)| == 4
    ensures |Pool("Ombros", Beginner)| == 3
    ensures |Pool("Bíceps", Beginner)| == 2
    ensures |Pool("Tríceps", Beginner)| == 2
    ensures |Pool("Abdômen", Beginner)| == 2
  {
    BeginnerPeito();
    BeginnerCostas();
    BeginnerPernas();
    BeginnerOmbros();
    BeginnerBiceps();
    BeginnerTriceps();
    BeginnerAbdomen();
  }

  lemma BeginnerPeito()
    ensures |Pool("Peito", Beginner)| == 3
  {
    assert Lookup("Peito") == PeitoExercises by {
      LookupKey(0);
    }
    BeginnerPeitoFiltered();
    PoolOfNonEmptyFilter(PeitoExercises, Beginner);
  }

  lemma BeginnerPeitoFiltered()
    ensures |Filtered(PeitoExercises, Beginner)| == 3
  {
    var c := PeitoExercises;
    var flags := [true, false, true, true, false];
    assert forall k :: 0 <= k < |c| ==> (flags[k] <==> Applicable(c[k], Beginner)) by {
      assert Applicable(c[0], Beginner) && !Applicable(c[1], Beginner) && Applicable(c[2], Beginner);
      assert Applicable(c[3], Beginner) && !Applicable(c[4], Beginner);
    }
    FilteredCount(c, Beginner, flags);
  }

  lemma BeginnerCostas()
    ensures |Pool("Costas", Beginner)| == 2
  {
    assert Lookup("Costas") == CostasExercises by {
      LookupKey(1);
    }
    BeginnerCostasFiltered();
    PoolOfNonEmptyFilter(CostasExercises, Beginner);
  }

  lemma BeginnerCostasFiltered()
    ensures |Filtered(CostasExercises, Beginner)| == 2
  {
    var c := CostasExercises;
    var flags := [true, true, false, false, false];
    assert forall k :: 0 <= k < |c| ==> (flags[k] <==> Applicable(c[k], Beginner)) by {
      assert Applicable(c[0], Beginner) && Applicable(c[1], Beginner) && !Applicable(c[2], Beginner);
      assert !Applicable(c[3], Beginner) && !Applicable(c[4], Beginner);
    }
    FilteredCount(c, Beginner, flags);
  }

  lemma BeginnerPernas()
    ensures |Pool("Pernas", Beginner)| == 4
  {
    assert Lookup("Pernas") == PernasExercises by {
      LookupKey(2);
    }
    BeginnerPernasFiltered();
    PoolOfNonEmptyFilter(PernasExercises, Beginner);
  }

  lemma BeginnerPernasFiltered()
    ensures |Filtered(PernasExercises, Beginner)| == 4
  {
    var c := PernasExercises;
    var flags := [false, true, true, true, false, true];
    assert forall k :: 0 <= k < |c| ==> (flags[k] <==> Applicable(c[k], Beginner)) by {
      assert !Applicable(c[0], Beginner) && Applicable(c[1], Beginner) && Applicable(c[2], Beginner);
      assert Applicable(c[3], Beginner) && !Applicable(c[4], Beginner) && Applicable(c[5], Beginner);
    }
    FilteredCount(c, Beginner, flags);
  }

  lemma BeginnerOmbros()
    ensures |Pool("Ombros", Beginner)| == 3
  {
    assert Lookup("Ombros") == OmbrosExercises by {
      LookupKey(3);
    }
    BeginnerOmbrosFiltered();
    PoolOfNonEmptyFilter(OmbrosExercises, Beginner);
  }

  lemma BeginnerOmbrosFiltered()
    ensures |Filtered(OmbrosExercises, Beginner)| == 3
  {
    var c := OmbrosExercises;
    var flags := [true, true, true, false];
    assert forall k :: 0 <= k < |c| ==> (flags[k] <==> Applicable(c[k], Beginner)) by {
      assert Applicable(c[0], Beginner) && Applicable(c[1], Beginner) && Applicable(c[2], Beginner);
      assert !Applicable(c[3], Beginner);
    }
    FilteredCount(c, Beginner, flags);
  }

  lemma BeginnerBiceps()
    ensures |Pool("Bíceps", Beginner)| == 2
  {
    assert Lookup("Bíceps") == BicepsExercises by {
      LookupKey(4);
    }
    BeginnerBicepsFiltered();
    PoolOfNonEmptyFilter(BicepsExercises, Beginner);
  }

  lemma BeginnerBicepsFiltered()
    ensures |Filtered(BicepsExercises, Beginner)| == 2
  {
    var c := BicepsExercises;
    var flags := [true, true, false];
    assert forall k :: 0 <= k < |c| ==> (flags[k] <==> Applicable(c[k], Beginner)) by {
      assert Applicable(c[0], Beginner) && Applicable(c[1], Beginner) && !Applicable(c[2], Beginner);
    }
    FilteredCount(c, Beginner, flags);
  }

  lemma BeginnerTriceps()
    ensures |Pool("Tríceps", Beginner)| == 2
  {
    assert Lookup("Tríceps") == TricepsExercises by {
      LookupKey(5);
    }
    BeginnerTricepsFiltered();
    PoolOfNonEmptyFilter(TricepsExercises, Beginner);
  }

  lemma BeginnerTricepsFiltered()
    ensures |Filtered(TricepsExercises, Beginner)| == 2
  {
    var c := TricepsExercises;
    var flags := [true, false, false, true];
    assert forall k :: 0 <= k < |c| ==> (flags[k] <==> Applicable(c[k], Beginner)) by {
      assert Applicable(c[0], Beginner) && !Applicable(c[1], Beginner) && !Applicable(c[2], Beginner);
      assert Applicable(c[3], Beginner);
    }
    FilteredCount(c, Beginner, flags);
  }

  lemma BeginnerAbdomen()
    ensures |Pool("Abdômen", Beginner)| == 2
  {
    assert Lookup("Abdômen") == AbdomenExercises by {
      LookupKey(6);
    }
    BeginnerAbdomenFiltered();
    PoolOfNonEmptyFilter(AbdomenExercises, Beginner);
  }

  lemma BeginnerAbdomenFiltered()
    ensures |Filtered(AbdomenExercises, Beginner)| == 2
  {
    var c := AbdomenExercises;
    var flags := [true, true, false];
    assert forall k :: 0 <= k < |c| ==> (flags[k] <==> Applicable(c[k], Beginner)) by {
      assert Applicable(c[0], Beginner) && Applicable(c[1], Beginner) && !Applicable(c[2], Beginner);
    }
    FilteredCount(c, Beginner, flags);
  }
}
