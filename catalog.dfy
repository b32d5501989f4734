/**
 * EXERCISE_DATABASE of core/exerciseDb.ts: seven muscle groups, each an
 * ordered list of exercise records.  A JavaScript object literal keeps its
 * (non-numeric) keys in insertion order, so `Object.keys` and
 * `Object.values` visit the groups in the order of `Database` below.
 */
module Catalog {
  import opened Wrappers
  import opened Types

  datatype Group = Group(key: string, exercises: seq<Exercise>)

  /** A catalog record: every catalog entry has a target, a category and a level list, and no id. */
  function Entry(name: string, target: string, category: Category, levels: seq<Level>,
                 sets: string, reps: string, rest: string, tip: string): Exercise
  {
    Exercise(None, name, Some(target), Some(category), Some(levels), sets, reps, rest, tip)
  }

  const PeitoExercises: seq<Exercise> := [
    Entry("Supino Reto (Barra)", "Peito", Compound, [Beginner, Intermediate, Advanced], "3-4", "8-12", "90s",
          "Mantenha as escápulas aduzidas e os pés firmes no chão."),
    Entry("Supino Inclinado (Halteres)", "Peito Superior", Compound, [Intermediate, Advanced], "3", "10-12", "90s",
          "Foque na contração da parte superior do peito."),
    Entry("Crucifixo Máquina (Peck Deck)", "Peito", Isolation, [Beginner, Intermediate], "3", "12-15", "60s",
          "Mantenha os cotovelos levemente flexionados."),
    Entry("Flexão de Braços", "Peito", Compound, [Beginner], "3", "Falha", "60s",
          "Mantenha o core bem ativado."),
    Entry("Crossover Polia Alta", "Peito Inferior", Isolation, [Intermediate, Advanced], "3", "12-15", "60s",
          "Cruze as mãos à frente do corpo para maior contração.")
  ]

  const CostasExercises: seq<Exercise> := [
    Entry("Puxada Frontal (Pulley)", "Dorsal", Compound, [Beginner, Intermediate], "3-4", "10-12", "90s",
          "Puxe com os cotovelos, não apenas com as mãos."),
    Entry("Remada Baixa (Triângulo)", "Costas", Compound, [Beginner, Intermediate, Advanced], "3", "10-12", "90s",
          "Evite balançar o tronco excessivamente."),
    Entry("Remada Curvada (Barra)", "Costas", Compound, [Intermediate, Advanced], "4", "8-10", "120s",
          "Mantenha a coluna neutra e paralela ao chão."),
    Entry("Barra Fixa", "Dorsal", Compound, [Advanced], "3", "Máximo", "120s",
          "Controle bem a descida."),
    Entry("Pull Down (Corda)", "Dorsal", Isolation, [Intermediate, Advanced], "3", "12-15", "60s",
          "Mantenha os braços quase retos durante o movimento.")
  ]

  const PernasExercises: seq<Exercise> := [
    Entry("Agachamento Livre", "Quadríceps", Compound, [Intermediate, Advanced], "4", "8-12", "120s",
          "Desça até as coxas ficarem pelo menos paralelas ao chão."),
    Entry("Leg Press 45", "Pernas", Compound, [Beginner, Intermediate], "3", "12-15", "90s",
          "Não trave os joelhos na extensão máxima."),
    Entry("Cadeira Extensora", "Quadríceps", Isolation, [Beginner, Intermediate], "3", "12-15", "60s",
          "Foque na contração de pico no topo do movimento."),
    Entry("Mesa Flexora", "Posterior", Isolation, [Beginner, Intermediate, Advanced], "3", "12-15", "60s",
          "Evite levantar o quadril do banco."),
    Entry("Stiff (Halteres ou Barra)", "Posterior/Glúteo", Compound, [Intermediate, Advanced], "3", "10-12", "90s",
          "Mantenha a coluna reta e sinta o alongamento."),
    Entry("Elevação de Panturrilha em Pé", "Panturrilha", Isolation, [Beginner, Intermediate], "4", "15-20", "45s",
          "Amplitude máxima de movimento.")
  ]

  const OmbrosExercises: seq<Exercise> := [
    Entry("Desenvolvimento (Halteres)", "Deltóide", Compound, [Beginner, Intermediate, Advanced], "3", "10-12", "90s",
          "Não encoste os halteres no topo."),
    Entry("Elevação Lateral", "Deltóide Lateral", Isolation, [Beginner, Intermediate, Advanced], "3", "12-15", "60s",
          "Imagine que está derramando água de uma jarra."),
    Entry("Elevação Frontal", "Deltóide Frontal", Isolation, [Beginner], "3", "12", "60s",
          "Controle o peso, evite usar impulso."),
    Entry("Crucifixo Inverso", "Deltóide Posterior", Isolation, [Intermediate, Advanced], "3", "12-15", "60s",
          "Sinta as escápulas se moverem.")
  ]

  const BicepsExercises: seq<Exercise> := [
    Entry("Rosca Direta (Barra W)", "Bíceps", Isolation, [Beginner, Intermediate, Advanced], "3", "10-12", "60s",
          "Mantenha os cotovelos fixos ao lado do corpo."),
    Entry("Rosca Martelo (Halteres)", "Braquial", Isolation, [Beginner, Intermediate], "3", "12", "60s",
          "Pegada neutra (palmas viradas uma para a outra)."),
    Entry("Rosca Concentrada", "Bíceps", Isolation, [Intermediate, Advanced], "3", "12", "45s",
          "Excelente para o pico do bíceps.")
  ]

  const TricepsExercises: seq<Exercise> := [
    Entry("Tríceps Corda", "Tríceps", Isolation, [Beginner, Intermediate, Advanced], "3", "12-15", "60s",
          "Abra a corda no final do movimento."),
    Entry("Tríceps Testa (Barra)", "Tríceps", Compound, [Intermediate, Advanced], "3", "10-12", "90s",
          "Desça o peso em direção à testa."),
    Entry("Tríceps Coice (Halter)", "Tríceps", Isolation, [Intermediate], "3", "12", "60s",
          "Mantenha o braço paralelo ao chão."),
    Entry("Mergulho no Banco", "Tríceps", Compound, [Beginner], "3", "Falha", "60s",
          "Mantenha o tronco próximo ao banco.")
  ]

  const AbdomenExercises: seq<Exercise> := [
    Entry("Abdominal Supra", "Abdômen", Isolation, [Beginner, Intermediate], "3", "15-20", "45s",
          "Foque na contração, não em subir o pescoço."),
    Entry("Prancha Isométrica", "Core", Isolation, [Beginner, Intermediate, Advanced], "3", "30-60s", "60s",
          "Mantenha o corpo reto como uma prancha."),
    Entry("Elevação de Pernas", "Abdômen Inferior", Isolation, [Intermediate, Advanced], "3", "12-15", "45s",
          "Não encoste os pés no chão durante a série.")
  ]

  const Database: seq<Group> := [
    Group("Peito", PeitoExercises),
    Group("Costas", CostasExercises),
    Group("Pernas", PernasExercises),
    Group("Ombros", OmbrosExercises),
    Group("Bíceps", BicepsExercises),
    Group("Tríceps", TricepsExercises),
    Group("Abdômen", AbdomenExercises)
  ]

  /** `Object.keys(EXERCISE_DATABASE)`. */
  function Keys(): seq<string> {
    seq(|Database|, i requires 0 <= i < |Database| => Database[i].key)
  }

  /** The first group of `groups` stored under `key`, empty when there is none. */
  function LookupIn(groups: seq<Group>, key: string): (r: seq<Exercise>)
    ensures (forall i :: 0 <= i < |groups| ==> groups[i].key != key) ==> r == []
    ensures forall i :: 0 <= i < |groups| ==>
              (groups[i].key == key && forall j :: 0 <= j < i ==> groups[j].key != key) ==>
              r == groups[i].exercises
    ensures r == [] || exists i :: 0 <= i < |groups| && r == groups[i].exercises
    decreases |groups|
  {
    if groups == [] then []
    else if groups[0].key == key then groups[0].exercises
    else
      var r := LookupIn(groups[1..], key);
      assert forall i :: 1 <= i < |groups| ==> groups[i] == groups[1..][i - 1];
      assert r == [] || exists i :: 1 <= i < |groups| && r == groups[i].exercises by {
        if r != [] {
          var k :| 0 <= k < |groups[1..]| && r == groups[1..][k].exercises;
          assert r == groups[k + 1].exercises;
        }
      }
      r
  }

  /** `EXERCISE_DATABASE[key] || []`: the group stored under `key`, empty for an unknown key. */
  function Lookup(key: string): seq<Exercise> {
    LookupIn(Database, key)
  }

  /** The groups' lists one after the other, in `Object.values` order. */
  function Flatten(groups: seq<Group>): seq<Exercise>
    decreases |groups|
  {
    if groups == [] then [] else groups[0].exercises + Flatten(groups[1..])
  }

  /** Every catalog exercise, in group-then-list order. */
  function AllExercises(): seq<Exercise> {
    Flatten(Database)
  }

  /** The catalog has exactly seven groups, in this key order. */
  lemma GroupOrder()
    ensures Keys() == ["Peito", "Costas", "Pernas", "Ombros", "Bíceps", "Tríceps", "Abdômen"]
  {
  }

  /** The seven keys are pairwise different, so each key finds its own group. */
  lemma KeysDistinct()
    ensures forall i, j :: 0 <= i < j < |Database| ==> Database[i].key != Database[j].key
  {
    assert Database[0].key[1] == 'e' && Database[2].key[1] == 'e';
    assert Database[0].key[2] == 'i' && Database[2].key[2] == 'r';
  }

  /** `EXERCISE_DATABASE[key]` for each of the seven keys is that key's list. */
  lemma LookupKey(i: nat)
    requires i < |Database|
    ensures Lookup(Database[i].key) == Database[i].exercises
  {
    KeysDistinct();
  }

  /** Every group's size: 5, 5, 6, 4, 3, 4, 3 (none is empty). */
  lemma GroupSizes()
    ensures |Lookup("Peito")| == 5 && |Lookup("Costas")| == 5 && |Lookup("Pernas")| == 6
    ensures |Lookup("Ombros")| == 4 && |Lookup("Bíceps")| == 3 && |Lookup("Tríceps")| == 4
    ensures |Lookup("Abdômen")| == 3
  {
    LookupKey(0); LookupKey(1); LookupKey(2); LookupKey(3); LookupKey(4); LookupKey(5); LookupKey(6);
  }

  /** Within every group no two entries share a name. */
  lemma GroupNamesDistinct(i: nat)
    requires i < |Database|
    ensures DistinctNames(Database[i].exercises)
  {
  }

  /** `Object.values` of the catalog, flattened, is the seven lists in key order. */
  lemma FlattenDatabase()
    ensures AllExercises() == PeitoExercises + (CostasExercises + (PernasExercises + (OmbrosExercises
                              + (BicepsExercises + (TricepsExercises + AbdomenExercises)))))
  {
    var d := Database;
    assert Flatten(d[6..]) == AbdomenExercises;
    assert Flatten(d[5..]) == TricepsExercises + Flatten(d[6..]);
    assert Flatten(d[4..]) == BicepsExercises + Flatten(d[5..]);
    assert Flatten(d[3..]) == OmbrosExercises + Flatten(d[4..]);
    assert Flatten(d[2..]) == PernasExercises + Flatten(d[3..]);
    assert Flatten(d[1..]) == CostasExercises + Flatten(d[2..]);
    assert Flatten(d) == PeitoExercises + Flatten(d[1..]);
  }

  /** Each group shares no name with the groups after it. */
  lemma PeitoDisjoint()
    ensures NamesDisjoint(PeitoExercises, CostasExercises + (PernasExercises + (OmbrosExercises
                                          + (BicepsExercises + (TricepsExercises + AbdomenExercises)))))
  {
  }

  lemma CostasDisjoint()
    ensures NamesDisjoint(CostasExercises, PernasExercises + (OmbrosExercises + (BicepsExercises
                                           + (TricepsExercises + AbdomenExercises))))
  {
  }

  lemma PernasDisjoint()
    ensures NamesDisjoint(PernasExercises, OmbrosExercises + (BicepsExercises + (TricepsExercises + AbdomenExercises)))
  {
  }

  lemma OmbrosDisjoint()
    ensures NamesDisjoint(OmbrosExercises, BicepsExercises + (TricepsExercises + AbdomenExercises))
  {
  }

  lemma BicepsDisjoint()
    ensures NamesDisjoint(BicepsExercises, TricepsExercises + AbdomenExercises)
  {
  }

  lemma TricepsDisjoint()
    ensures NamesDisjoint(TricepsExercises, AbdomenExercises)
  {
  }

  /** No exercise name occurs twice in the whole catalog. */
  lemma NamesUnique()
    ensures DistinctNames(AllExercises())
  {
    FlattenDatabase();
    var s6 := AbdomenExercises;
    var s5 := TricepsExercises + s6;
    var s4 := BicepsExercises + s5;
    var s3 := OmbrosExercises + s4;
    var s2 := PernasExercises + s3;
    var s1 := CostasExercises + s2;
    GroupNamesDistinct(0); GroupNamesDistinct(1); GroupNamesDistinct(2); GroupNamesDistinct(3);
    GroupNamesDistinct(4); GroupNamesDistinct(5); GroupNamesDistinct(6);
    TricepsDisjoint();
    DistinctNamesAppend(TricepsExercises, s6);
    BicepsDisjoint();
    DistinctNamesAppend(BicepsExercises, s5);
    OmbrosDisjoint();
    DistinctNamesAppend(OmbrosExercises, s4);
    PernasDisjoint();
    DistinctNamesAppend(PernasExercises, s3);
    CostasDisjoint();
    DistinctNamesAppend(CostasExercises, s2);
    PeitoDisjoint();
    DistinctNamesAppend(PeitoExercises, s1);
  }

  /** A catalog entry carries a non-empty level list and a `sets` text that starts with a digit. */
  predicate WellFormedEntry(e: Exercise) {
    && e.level.Some? && e.level.value != []
    && e.sets != [] && '0' <= e.sets[0] <= '9'
  }

  lemma GroupWellFormed(i: nat)
    requires i < |Database|
    ensures forall e :: e in Database[i].exercises ==> WellFormedEntry(e)
  {
  }

  /** Every entry of the catalog is well formed. */
  lemma EntriesWellFormed()
    ensures forall e :: e in AllExercises() ==> WellFormedEntry(e)
  {
    FlattenDatabase();
    GroupWellFormed(0); GroupWellFormed(1); GroupWellFormed(2); GroupWellFormed(3);
    GroupWellFormed(4); GroupWellFormed(5); GroupWellFormed(6);
  }
}
