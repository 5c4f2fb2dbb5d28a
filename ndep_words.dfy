/**
 * The word test of the DO (Description Only) filter in index.js:209-211: a narrative
 * is lower-cased and split on spaces, every character outside a-z is deleted from
 * each word, and the narrative counts when some cleaned word starts with "dust" and
 * is not "dusting".
 */
module NdepWords {
  import opened JsText

  /** A cleaned word that counts as dust: it starts with "dust" and is not "dusting". */
  predicate IsDustWord(w: string)
  {
    |w| >= 4 && w[..4] == "dust" && w != "dusting"
  }

  /**
   * Some space-separated word of the lower-cased text, with every character
   * outside a-z deleted, is a dust word.
   */
  ghost predicate HasDustWord(text: string)
  {
    exists w :: w in SplitOn(Lower(text), ' ') && IsDustWord(KeepLetters(w))
  }

  /** A text without a space is a single word: it has a dust word exactly when, cleaned, it is one. */
  lemma SingleWordText(text: string)
    requires ' ' !in text
    ensures HasDustWord(text) <==> IsDustWord(KeepLetters(Lower(text)))
  {
    var lower := Lower(text);
    assert ' ' !in lower by {
      forall i | 0 <= i < |lower| ensures lower[i] != ' ' {
        assert text[i] in text;
      }
    }
    SplitWhole(lower, ' ');
  }

  /** A word made of "dust" and anything but three more letters counts. */
  lemma DustPrefix(rest: string)
    requires |rest| != 3
    ensures IsDustWord("dust" + rest)
  {
    assert ("dust" + rest)[..4] == "dust";
  }

  /** Punctuation next to a dust word is deleted before the test, so "Dust-storm," counts. */
  lemma DustStormWord()
    ensures IsDustWord(KeepLetters(Lower("Dust" + "-" + "storm" + ",")))
  {
    CleanDustStorm();
    DustPrefix("storm");
  }

  /** The same for a whole narrative that is that one word. */
  lemma DustStormExample()
    ensures HasDustWord("Dust" + "-" + "storm" + ",")
  {
    assert ' ' !in "Dust" + "-" + "storm" + ",";
    SingleWordText("Dust" + "-" + "storm" + ",");
    DustStormWord();
  }

  /** "dusting." cleans to "dusting", which does not count. */
  lemma DustingWord()
    ensures !IsDustWord(KeepLetters(Lower("dusting" + ".")))
  {
    CleanDusting();
  }

  /** A narrative that is the one word "dusting." has no dust word. */
  lemma DustingExample()
    ensures !HasDustWord("dusting" + ".")
  {
    assert ' ' !in "dusting" + ".";
    SingleWordText("dusting" + ".");
    DustingWord();
  }

  /** One word scan of `forEach(word => filters.DO |= ...)` over a narrative. */
  method ScanNarrative(text: string) returns (found: bool)
    ensures found == HasDustWord(text)
  {
    var words := SplitOn(Lower(text), ' ');
    found := false;
    for i := 0 to |words|
      invariant found <==> exists j :: 0 <= j < i && IsDustWord(KeepLetters(words[j]))
    {
      var word := KeepLetters(words[i]);
      found := found || (|word| >= 4 && word[..4] == "dust" && word != "dusting");
    }
    if found {
      var j :| 0 <= j < |words| && IsDustWord(KeepLetters(words[j]));
      assert words[j] in words;
    } else {
      forall w | w in words ensures !IsDustWord(KeepLetters(w)) {
        var j :| 0 <= j < |words| && words[j] == w;
      }
    }
  }
}
