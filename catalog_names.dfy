/**
 * Facts about the normalized names of the first catalog entries, kept
 * apart so that the solver evaluates `normalize` on these literals
 * without the rest of the model in scope.  They settle which entry the
 * replacement phrase "peck deck" finds.
 */
module CatalogNames {
  import opened Wrappers
  import opened Text
  import opened Types
  import opened Catalog
  import opened Search

  lemma NormalizedSupinoReto()
    ensures Normalize("Supino Reto (Barra)") == "supino reto  barra "
  {
    NormalizedAs("Supino Reto (Barra)", "supino reto  barra ");
  }

  lemma NormalizedSupinoInclinado()
    ensures Normalize("Supino Inclinado (Halteres)") == "supino inclinado  halteres "
  {
    NormalizedAs("Supino Inclinado (Halteres)", "supino inclinado  halteres ");
  }

  lemma NormalizedPeckDeck()
    ensures Normalize("Crucifixo Máquina (Peck Deck)") == "crucifixo maquina  peck deck "
  {
    NormalizedAs("Crucifixo Máquina (Peck Deck)", "crucifixo maquina  peck deck ");
  }

  lemma SupinoRetoHasNoK()
    ensures 'k' !in "supino reto  barra "
  {
  }

  lemma SupinoInclinadoHasNoK()
    ensures 'k' !in "supino inclinado  halteres "
  {
  }

  lemma PeckDeckAt19()
    ensures "crucifixo maquina  peck deck "[19..28] == "peck deck"
  {
  }

  /** The names of the first three chest entries. */
  lemma ChestNames()
    ensures PeitoExercises[0].name == "Supino Reto (Barra)"
    ensures PeitoExercises[1].name == "Supino Inclinado (Halteres)"
    ensures PeitoExercises[2].name == "Crucifixo Máquina (Peck Deck)"
  {
  }

  /** A name whose normalized form lacks one of the phrase's characters does not include the phrase. */
  lemma MissesPhrase(e: Exercise, name: string, norm: string, q: string, k: nat)
    requires e.name == name && Normalize(name) == norm && k < |q| && q[k] !in norm
    ensures !NameIncludes(e, q)
  {
    MissingCharNotContained(norm, q, k);
  }

  /** A name whose normalized form has the phrase at position `i` includes it. */
  lemma HasPhrase(e: Exercise, name: string, norm: string, q: string, i: nat)
    requires e.name == name && Normalize(name) == norm
    requires i + |q| <= |norm| && norm[i..i + |q|] == q
    ensures NameIncludes(e, q)
  {
    ContainsSlice(norm, q, i);
  }

  /** Neither supino's normalized name has a `k`, so neither includes "peck deck". */
  lemma SupinosMissPeckDeck()
    ensures !NameIncludes(PeitoExercises[0], "peck deck")
    ensures !NameIncludes(PeitoExercises[1], "peck deck")
  {
    ChestNames();
    var e0, e1 := PeitoExercises[0], PeitoExercises[1];
    NormalizedSupinoReto();
    SupinoRetoHasNoK();
    MissesPhrase(e0, "Supino Reto (Barra)", "supino reto  barra ", "peck deck", 3);
    NormalizedSupinoInclinado();
    SupinoInclinadoHasNoK();
    MissesPhrase(e1, "Supino Inclinado (Halteres)", "supino inclinado  halteres ", "peck deck", 3);
  }

  /** The third chest entry's normalized name includes "peck deck". */
  lemma PeckDeckNamed()
    ensures NameIncludes(PeitoExercises[2], "peck deck")
  {
    ChestNames();
    var e2 := PeitoExercises[2];
    NormalizedPeckDeck();
    PeckDeckAt19();
    HasPhrase(e2, "Crucifixo Máquina (Peck Deck)", "crucifixo maquina  peck deck ", "peck deck", 19);
  }

  lemma SupinoRetoStartsSupin()
    ensures Contains("supino reto  barra ", "supin")
  {
    assert "supino reto  barra "[0..5] == "supin";
    ContainsSlice("supino reto  barra ", "supin", 0);
  }

  /** "Supino Reto (Barra)" normalizes to a name including "supin". */
  lemma SupinoRetoIncludesSupin()
    ensures NameIncludes(PeitoExercises[0], "supin")
  {
    ChestNames();
    var e0 := PeitoExercises[0];
    NormalizedSupinoReto();
    SupinoRetoStartsSupin();
    assert Contains(Normalize(e0.name), "supin");
  }

  /**
   * The catalog search for "peck deck" finds "Crucifixo Máquina (Peck
   * Deck)": the two supinos before it do not match.
   */
  lemma PeckDeckFound()
    ensures FirstContaining(AllExercises(), "peck deck") == Some(PeitoExercises[2])
  {
    FlattenDatabase();
    var p := PeitoExercises;
    var rest := CostasExercises + (PernasExercises + (OmbrosExercises
                + (BicepsExercises + (TricepsExercises + AbdomenExercises))));
    SupinosMissPeckDeck();
    PeckDeckNamed();
    assert p[1..][0] == p[1] && p[1..][1..] == p[2..] && p[2..][0] == p[2];
    FirstContainingSkip(p, rest, "peck deck");
    FirstContainingSkip(p[1..], rest, "peck deck");
    FirstContainingHit(p[2..], rest, "peck deck");
  }

  /** The entry found carries "Peck Deck" in its name, as the source displays it. */
  lemma PeckDeckDisplayName()
    ensures Contains(PeitoExercises[2].name, "Peck Deck")
  {
    var n := PeitoExercises[2].name;
    assert n[19..28] == "Peck Deck";
    ContainsSlice(n, "Peck Deck", 19);
  }
}
