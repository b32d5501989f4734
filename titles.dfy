/**
 * The day titles and group names of `generateIntelligentWorkout`
 * (core/workoutEngine.ts), and what `normalize` makes of them: the priority
 * pass compares a day's normalized title with a normalized group name.
 */
module Titles {
  import opened Text

  /** The rotation of the four-or-more-days plan. */
  const SplitGroups: seq<string> := ["Peito/Tríceps", "Costas/Bíceps", "Pernas", "Ombros/Abdômen"]

  /**
   * `String.fromCharCode(65 + i)`: the UTF-16 code unit `(65 + i) mod 2^16`;
   * a lone surrogate, which a Dafny `char` cannot hold, becomes U+FFFD.
   */
  function DayLetter(i: nat): (c: char)
    ensures i < 26 ==> c as int == 65 + i
  {
    var code := (65 + i) % 0x1_0000;
    if 0xD800 <= code < 0xE000 then '�' else code as char
  }

  function FullBodyTitle(i: nat): string {
    "Treino " + NatToString(i + 1) + " - Full Body"
  }

  function SplitTitle(i: nat): string {
    "Treino " + [DayLetter(i)] + " - " + SplitGroups[i % 4]
  }

  /** `split('/')` of each rotation entry. */
  lemma SplitGroupParts()
    ensures Split(SplitGroups[0], "/") == ["Peito", "Tríceps"]
    ensures Split(SplitGroups[1], "/") == ["Costas", "Bíceps"]
    ensures Split(SplitGroups[2], "/") == ["Pernas"]
    ensures Split(SplitGroups[3], "/") == ["Ombros", "Abdômen"]
  {
    SplitFirstGroup();
    SplitSecondGroup();
    SplitWithoutChar("Pernas", '/');
    SplitFourthGroup();
  }

  lemma SplitFirstGroup()
    ensures Split(SplitGroups[0], "/") == ["Peito", "Tríceps"]
  {
    assert SplitGroups[0] == "Peito" + "/" + "Tríceps";
    SplitPair("Peito", "Tríceps");
  }

  lemma SplitSecondGroup()
    ensures Split(SplitGroups[1], "/") == ["Costas", "Bíceps"]
  {
    assert SplitGroups[1] == "Costas" + "/" + "Bíceps";
    SplitPair("Costas", "Bíceps");
  }

  lemma SplitFourthGroup()
    ensures Split(SplitGroups[3], "/") == ["Ombros", "Abdômen"]
  {
    assert SplitGroups[3] == "Ombros" + "/" + "Abdômen";
    SplitPair("Ombros", "Abdômen");
  }

  lemma SplitPair(a: string, b: string)
    requires '/' !in a && '/' !in b
    ensures Split(a + "/" + b, "/") == [a, b]
  {
    SplitAtChar(a, '/', b);
  }

  /** The canonical group names as the priority pass compares them. */
  lemma NormalizedBoostKeys()
    ensures Normalize("Peito") == "peito" && Normalize("Costas") == "costas"
    ensures Normalize("Pernas") == "pernas" && Normalize("Ombros") == "ombros"
    ensures Normalize("Bíceps") == "biceps" && Normalize("Tríceps") == "triceps"
  {
    NormalizedPlainKeys();
    NormalizedAccentedKeys();
  }

  lemma NormalizedPlainKeys()
    ensures Normalize("Peito") == "peito" && Normalize("Costas") == "costas"
    ensures Normalize("Pernas") == "pernas" && Normalize("Ombros") == "ombros"
  {
    NormalizedPlain("Peito");
    NormalizedPlain("Costas");
    NormalizedPlain("Pernas");
    NormalizedPlain("Ombros");
  }

  /** A capitalised plain word normalizes to its lower-case spelling. */
  lemma NormalizedPlain(w: string)
    requires |w| > 0 && 'A' <= w[0] <= 'Z'
    requires forall k :: 1 <= k < |w| ==> 'a' <= w[k] <= 'z'
    ensures Normalize(w) == [(w[0] as int + 32) as char] + w[1..]
  {
    assert IsNormal(w[1..]) by {
      forall k | 0 <= k < |w[1..]| ensures IsNormalChar(w[1..][k]) {
        assert w[1..][k] == w[k + 1];
      }
    }
    NormalizeFixesNormal(w[1..]);
  }

  lemma NormalizedAccentedKeys()
    ensures Normalize("Bíceps") == "biceps" && Normalize("Tríceps") == "triceps"
  {
    NormalizedAs("Bíceps", "biceps");
    NormalizedAs("Tríceps", "triceps");
  }

  lemma NormalizedTitleHead()
    ensures Normalize("Treino ") == "treino "
  {
    NormalizedAs("Treino ", "treino ");
  }

  lemma NormalizedTitleTail()
    ensures Normalize(" - Full Body") == "   full body"
  {
    NormalizedAs(" - Full Body", "   full body");
  }

  /** `normalize("Treino N - Full Body")`. */
  lemma NormalizedFullBodyTitle(i: nat)
    ensures Normalize(FullBodyTitle(i)) == "treino " + NatToString(i + 1) + "   full body"
  {
    var n := NatToString(i + 1);
    NormalizeConcat("Treino " + n, " - Full Body");
    NormalizeConcat("Treino ", n);
    NormalizeFixesNormal(n);
    NormalizedTitleHead();
    NormalizedTitleTail();
  }

  /** The six groups a priority token can name (Abdômen is not one of them). */
  const BoostKeys: seq<string> := ["Peito", "Costas", "Pernas", "Ombros", "Bíceps", "Tríceps"]

  /** A full-body title contains none of the six group names, once both are normalized. */
  lemma FullBodyTitleNamesNoGroup(i: nat, key: string)
    requires key in BoostKeys
    ensures !Contains(Normalize(FullBodyTitle(i)), Normalize(key))
  {
    assert key == "Peito" || key == "Costas" || key == "Pernas" || key == "Ombros" || key == "Bíceps" || key == "Tríceps";
    if key == "Peito" {
      PlainKeyNotInTitle(i, "Peito", 0);
    } else if key == "Costas" {
      PlainKeyNotInTitle(i, "Costas", 0);
    } else if key == "Pernas" {
      PlainKeyNotInTitle(i, "Pernas", 0);
    } else if key == "Ombros" {
      PlainKeyNotInTitle(i, "Ombros", 1);
    } else {
      AccentedKeysNotInTitle(i);
    }
  }

  lemma AccentedKeysNotInTitle(i: nat)
    ensures !Contains(Normalize(FullBodyTitle(i)), Normalize("Bíceps"))
    ensures !Contains(Normalize(FullBodyTitle(i)), Normalize("Tríceps"))
  {
    NormalizedAccentedKeys();
    NoWordWithLetter(i, "biceps", 2);
    NoWordWithLetter(i, "triceps", 3);
  }

  lemma PlainKeyNotInTitle(i: nat, key: string, k: nat)
    requires |key| > 0 && 'A' <= key[0] <= 'Z'
    requires forall j :: 1 <= j < |key| ==> 'a' <= key[j] <= 'z'
    requires k < |key|
    requires (0 < k && (key[k] == 'p' || key[k] == 'c' || key[k] == 'm')) || (k == 0 && (key[0] == 'P' || key[0] == 'C' || key[0] == 'M'))
    ensures !Contains(Normalize(FullBodyTitle(i)), Normalize(key))
  {
    NormalizedPlain(key);
    NoWordWithLetter(i, Normalize(key), k);
  }

  /** A word with a p, c or m in it is not part of a normalized full-body title. */
  lemma NoWordWithLetter(i: nat, w: string, k: nat)
    requires k < |w| && (w[k] == 'p' || w[k] == 'c' || w[k] == 'm')
    ensures !Contains(Normalize(FullBodyTitle(i)), w)
  {
    FullBodyTitleLetters(i);
    MissingCharNotContained(Normalize(FullBodyTitle(i)), w, k);
  }

  /** A normalized full-body title has none of the letters p, c and m. */
  lemma FullBodyTitleLetters(i: nat)
    ensures var t := Normalize(FullBodyTitle(i));
            'p' !in t && 'c' !in t && 'm' !in t
  {
    NormalizedFullBodyTitle(i);
    var n := NatToString(i + 1);
    assert forall c :: c in n ==> IsDigit(c);
  }
}
