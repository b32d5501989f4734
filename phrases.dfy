/**
 * Facts about literal texts of the engine: the adjustment instructions
 * "troque supino por leg press" and "troque supino por peck deck", and the two `sets` texts the intensity
 * rule writes.  They are kept apart from the catalog so that the solver
 * evaluates the text functions on them without the rest of the model in
 * scope.
 */
module Phrases {
  import opened Wrappers
  import opened Text

  lemma ExampleNoEarlySeparator()
    ensures !Contains("troque supino por", " por ")
  {
    var t := "troque supino por";
    forall i | 0 <= i && i + 5 <= |t| ensures t[i] != ' ' || t[i + 1] != 'p' {
    }
    NoOccurrence(t, " por ");
  }

  lemma ExampleTail()
    ensures !Contains("leg press", " por ")
  {
    MissingCharNotContained("leg press", " por ", 2);
  }

  lemma PeckDeckTail()
    ensures !Contains("peck deck", " por ")
  {
    MissingCharNotContained("peck deck", " por ", 2);
  }

  lemma ExampleHead()
    ensures "troque supino" + " por "[..4] == "troque supino por"
  {
  }

  lemma ExampleJoined(tail: string)
    ensures "troque supino" + " por " + tail == "troque supino por " + tail
  {
  }

  lemma ExampleSplitParts(tail: string)
    requires !Contains(tail, " por ")
    ensures Split("troque supino" + " por " + tail, " por ") == ["troque supino", tail]
  {
    ExampleNoEarlySeparator();
    ExampleHead();
    SplitAtSeparator("troque supino", " por ", tail);
  }

  /** "troque supino por " followed by a text without " por " splits into the two. */
  lemma ExampleSplit(tail: string)
    requires !Contains(tail, " por ")
    ensures Contains("troque supino por " + tail, " por ")
    ensures Split("troque supino por " + tail, " por ") == ["troque supino", tail]
  {
    ExampleSplitParts(tail);
    ExampleJoined(tail);
    ContainsInfix("troque supino", " por ", tail);
  }

  lemma ExampleStrip()
    ensures StripCommandWords("troque supino") == " supin"
  {
    StripCommandPart();
    StripSupinoHead();
    StripSupinoTail();
    assert " s" + ("up" + "in") == " supin";
  }

  /** The command word goes first. */
  lemma StripCommandPart()
    ensures StripCommandWords("troque supino") == StripCommandWords(" supino")
  {
    StripTroque(" supino");
    assert "troque" + " supino" == "troque supino";
  }

  lemma StripSupinoHead()
    ensures StripCommandWords(" supino") == " s" + StripCommandWords("upino")
  {
    StripSupinoSpace();
    StripSupinoS();
  }

  lemma StripSupinoSpace()
    ensures StripCommandWords(" supino") == " " + StripCommandWords("supino")
  {
    StripKeeps(' ', "supino");
    assert [' '] + "supino" == " supino";
  }

  /** "supino" is too short to start with "substitua". */
  lemma StripSupinoS()
    ensures StripCommandWords("supino") == "s" + StripCommandWords("upino")
  {
    StripKeeps('s', "upino");
    assert ['s'] + "upino" == "supino";
  }

  lemma StripSupinoTail()
    ensures StripCommandWords("upino") == "up" + StripCommandWords("ino")
    ensures StripCommandWords("ino") == "in"
  {
    StripKeeps('u', "pino");
    assert ['u'] + "pino" == "upino";
    StripKeeps('p', "ino");
    assert ['p'] + "ino" == "pino";
    StripKeeps('i', "no");
    assert ['i'] + "no" == "ino";
    StripKeeps('n', "o");
    assert ['n'] + "o" == "no";
    StripDrops('o', "");
    assert ['o'] + "" == "o";
  }

  lemma ExampleTrimTarget()
    ensures Trim(" supin") == "supin"
  {
    TrimAfterWhite(' ', "supin");
  }

  lemma ExampleTrimReplacement()
    ensures Trim("leg press") == "leg press"
  {
    TrimUnpadded("leg press");
  }

  lemma PeckDeckTrim()
    ensures Trim("peck deck") == "peck deck"
  {
    TrimUnpadded("peck deck");
  }

  lemma ExampleConcat()
    ensures "troque supino por leg press" == "troque supino por " + "leg press"
    ensures "troque supino por peck deck" == "troque supino por " + "peck deck"
  {
  }

  /** The heavier rule's "4" parses as 4 sets; the lighter rule's "2-3" as 2. */
  lemma IntensitySetsNumbers()
    ensures FirstNumber("4") == Some(4)
    ensures FirstNumber("2-3") == Some(2)
  {
    FirstNumberOfNumeral(4, "");
    assert NatToString(4) + "" == "4";
    FirstNumberOfNumeral(2, "-3");
    assert NatToString(2) + "-3" == "2-3";
  }
}
