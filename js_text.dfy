/**
 * The string built-ins the pipeline relies on: `toLowerCase`, `split` on one
 * character, `join`, the letter filter `replace(/[^a-z]/g, "")`, and decimal
 * digits in both directions.
 */
module JsText {

  predicate IsUpper(c: char) { 'A' <= c <= 'Z' }
  predicate IsLowerLetter(c: char) { 'a' <= c <= 'z' }
  predicate IsDigit(c: char) { '0' <= c <= '9' }
  predicate AllDigits(s: string) { forall i :: 0 <= i < |s| ==> IsDigit(s[i]) }

  function LowerChar(c: char): char
  {
    if IsUpper(c) then (c as int + 32) as char else c
  }

  /** `s.toLowerCase()`, for the ASCII letters. */
  function Lower(s: string): (r: string)
    ensures |r| == |s|
    ensures forall i :: 0 <= i < |s| ==> r[i] == LowerChar(s[i])
  {
    if s == [] then [] else Lower(s[..|s| - 1]) + [LowerChar(s[|s| - 1])]
  }

  lemma LowerAppend(a: string, b: string)
    ensures Lower(a + b) == Lower(a) + Lower(b)
  {
    assert Lower(a + b) == Lower(a) + Lower(b) by {
      forall i | 0 <= i < |a + b| ensures Lower(a + b)[i] == (Lower(a) + Lower(b))[i] {
        if i < |a| { assert (a + b)[i] == a[i]; } else { assert (a + b)[i] == b[i - |a|]; }
      }
    }
  }

  /** Text without a capital letter is already lower case, so lower-casing twice changes nothing more. */
  lemma LowerWithoutUpper(s: string)
    requires forall i :: 0 <= i < |s| ==> !IsUpper(s[i])
    ensures Lower(s) == s
    ensures Lower(Lower(s)) == Lower(s)
  {
    assert Lower(s) == s;
  }

  /** `s.split(sep)` for a one-character separator: the pieces between separators, empty ones included. */
  function SplitOn(s: string, sep: char): (r: seq<string>)
    ensures |r| >= 1
  {
    if s == [] then [""]
    else
      var rest := SplitOn(s[1..], sep);
      if s[0] == sep then [""] + rest
      else [[s[0]] + rest[0]] + rest[1..]
  }

  /** `parts.join(sep)` for a one-character separator. */
  function Join(parts: seq<string>, sep: char): string
  {
    if |parts| == 0 then ""
    else if |parts| == 1 then parts[0]
    else parts[0] + [sep] + Join(parts[1..], sep)
  }

  /** Splitting and joining again gives back the string. */
  lemma {:induction false} SplitJoin(s: string, sep: char)
    ensures Join(SplitOn(s, sep), sep) == s
  {
    if s != [] {
      var rest := SplitOn(s[1..], sep);
      SplitJoin(s[1..], sep);
      if s[0] == sep {
        assert SplitOn(s, sep) == [""] + rest;
        assert ([""] + rest)[1..] == rest;
      } else {
        var r := SplitOn(s, sep);
        assert r == [[s[0]] + rest[0]] + rest[1..];
        if |rest| == 1 {
          assert Join(rest, sep) == rest[0];
        } else {
          assert r[1..] == rest[1..];
          assert Join(rest, sep) == rest[0] + [sep] + Join(rest[1..], sep);
        }
      }
    }
  }

  /** Joining one more part adds the separator and the part at the end. */
  lemma {:induction false} JoinSnoc(parts: seq<string>, x: string, sep: char)
    requires |parts| >= 1
    ensures Join(parts + [x], sep) == Join(parts, sep) + [sep] + x
  {
    if |parts| == 1 {
      assert (parts + [x])[1..] == [x];
    } else {
      JoinSnoc(parts[1..], x, sep);
      assert (parts + [x])[1..] == parts[1..] + [x];
    }
  }

  /** No piece of a split contains the separator. */
  lemma {:induction false} SplitPiecesLackSep(s: string, sep: char)
    ensures forall i :: 0 <= i < |SplitOn(s, sep)| ==> sep !in SplitOn(s, sep)[i]
  {
    if s != [] {
      SplitPiecesLackSep(s[1..], sep);
      var rest := SplitOn(s[1..], sep);
      if s[0] != sep {
        var r := SplitOn(s, sep);
        forall i | 0 <= i < |r| ensures sep !in r[i] {
          if i == 0 {
            assert r[0] == [s[0]] + rest[0];
            assert sep !in rest[0];
          } else {
            assert r[i] == rest[i];
          }
        }
      }
    }
  }

  /** One step of `SplitOn` at a string with a first character. */
  lemma SplitCons(c: char, t: string, sep: char)
    ensures SplitOn([c] + t, sep) ==
      if c == sep then [""] + SplitOn(t, sep)
      else [[c] + SplitOn(t, sep)[0]] + SplitOn(t, sep)[1..]
  {
    assert ([c] + t)[1..] == t;
  }

  /** A separator in the middle splits the string into the pieces of either side. */
  lemma {:induction false} SplitAround(x: string, y: string, sep: char)
    ensures SplitOn(x + [sep] + y, sep) == SplitOn(x, sep) + SplitOn(y, sep)
  {
    if x == [] {
      assert x + [sep] + y == [sep] + y;
      SplitCons(sep, y, sep);
    } else {
      var t := x[1..] + [sep] + y;
      assert x + [sep] + y == [x[0]] + t;
      assert x == [x[0]] + x[1..];
      SplitAround(x[1..], y, sep);
      SplitCons(x[0], t, sep);
      SplitCons(x[0], x[1..], sep);
      ConsPiece(x[0], SplitOn(x[1..], sep), SplitOn(y, sep), sep);
    }
  }

  /** Adding a character in front of the pieces `rx + ry` only touches the pieces of `rx`. */
  lemma ConsPiece(c: char, rx: seq<string>, ry: seq<string>, sep: char)
    requires |rx| >= 1
    ensures (if c == sep then [""] + (rx + ry) else [[c] + (rx + ry)[0]] + (rx + ry)[1..]) ==
            (if c == sep then [""] + rx else [[c] + rx[0]] + rx[1..]) + ry
  {
    if c == sep {
      assert [""] + (rx + ry) == ([""] + rx) + ry;
    } else {
      assert (rx + ry)[0] == rx[0];
      assert (rx + ry)[1..] == rx[1..] + ry;
      assert [[c] + rx[0]] + (rx[1..] + ry) == ([[c] + rx[0]] + rx[1..]) + ry;
    }
  }

  /** A string without the separator is a single piece. */
  lemma {:induction false} SplitWhole(x: string, sep: char)
    requires sep !in x
    ensures SplitOn(x, sep) == [x]
  {
    if x != [] {
      SplitWhole(x[1..], sep);
      assert [x[0]] + x[1..] == x;
    }
  }

  /** `w.replace(/[^a-z]/g, "")`: only the lower-case ASCII letters are kept. */
  function KeepLetters(w: string): (r: string)
    ensures forall i :: 0 <= i < |r| ==> IsLowerLetter(r[i])
    ensures |r| <= |w|
  {
    if w == [] then []
    else KeepLetters(w[..|w| - 1]) + (if IsLowerLetter(w[|w| - 1]) then [w[|w| - 1]] else [])
  }

  /** The filter works character by character: a split of the word splits what it keeps. */
  lemma {:induction false} KeepLettersAppend(a: string, b: string)
    ensures KeepLetters(a + b) == KeepLetters(a) + KeepLetters(b)
  {
    if b != [] {
      assert (a + b)[..|a + b| - 1] == a + b[..|b| - 1];
      assert (a + b)[|a + b| - 1] == b[|b| - 1];
      KeepLettersAppend(a, b[..|b| - 1]);
    } else {
      assert a + b == a;
    }
  }

  /** A word of lower-case letters only is kept whole. */
  lemma {:induction false} KeepLettersOfLetters(w: string)
    requires forall i :: 0 <= i < |w| ==> IsLowerLetter(w[i])
    ensures KeepLetters(w) == w
  {
    if w != [] {
      KeepLettersOfLetters(w[..|w| - 1]);
    }
  }

  /** A word without a lower-case letter is deleted entirely. */
  lemma {:induction false} KeepLettersOfNonLetters(w: string)
    requires forall i :: 0 <= i < |w| ==> !IsLowerLetter(w[i])
    ensures KeepLetters(w) == []
  {
    if w != [] {
      KeepLettersOfNonLetters(w[..|w| - 1]);
    }
  }

  lemma LowerDustStorm()
    ensures Lower("Dust" + "-" + "storm" + ",") == "dust" + "-" + "storm" + ","
  {
    LowerAppend("Dust" + "-" + "storm", ",");
    LowerAppend("Dust" + "-", "storm");
    LowerAppend("Dust", "-");
    assert Lower("Dust") == "dust";
    LowerWithoutUpper("-");
    LowerWithoutUpper("storm");
    LowerWithoutUpper(",");
  }

  lemma KeepLettersDustStorm()
    ensures KeepLetters("dust" + "-" + "storm" + ",") == "dust" + "storm"
  {
    KeepLettersAppend("dust" + "-" + "storm", ",");
    KeepLettersAppend("dust" + "-", "storm");
    KeepLettersAppend("dust", "-");
    KeepLettersOfLetters("dust");
    KeepLettersOfLetters("storm");
    KeepLettersOfNonLetters("-");
    KeepLettersOfNonLetters(",");
  }

  /** "Dust-storm," lower-cases and loses its hyphen and its comma. */
  lemma CleanDustStorm()
    ensures KeepLetters(Lower("Dust" + "-" + "storm" + ",")) == "dust" + "storm"
  {
    LowerDustStorm();
    KeepLettersDustStorm();
  }

  /** "dusting." is lower case already and loses its full stop. */
  lemma CleanDusting()
    ensures KeepLetters(Lower("dusting" + ".")) == "dusting"
  {
    LowerAppend("dusting", ".");
    LowerWithoutUpper("dusting");
    LowerWithoutUpper(".");
    KeepLettersAppend("dusting", ".");
    KeepLettersOfLetters("dusting");
    KeepLettersOfNonLetters(".");
  }

  /** The characters `parseInt` and `parseFloat` skip before a numeral (and `isNaN` reads as 0). */
  predicate JsWhiteSpace(c: char)
  {
    if c <= ' ' then c == ' ' || '\t' <= c <= '\r'
    else
      '\U{00A0}' <= c &&
      (c == '\U{00A0}' || c == '\U{1680}' || '\U{2000}' <= c <= '\U{200A}' || c == '\U{2028}' ||
       c == '\U{2029}' || c == '\U{202F}' || c == '\U{205F}' || c == '\U{3000}' || c == '\U{FEFF}')
  }

  /** The text after its leading white space. */
  function TrimStart(s: string): (t: string)
    ensures |t| <= |s|
    ensures t != [] ==> !JsWhiteSpace(t[0])
  {
    if s != [] && JsWhiteSpace(s[0]) then TrimStart(s[1..]) else s
  }

  /** Trimming removes a prefix of white space and keeps the rest as it is. */
  lemma {:induction false} TrimStartSkipsSpace(s: string)
    ensures var t := TrimStart(s);
      t == s[|s| - |t|..] && forall i :: 0 <= i < |s| - |t| ==> JsWhiteSpace(s[i])
  {
    if s != [] && JsWhiteSpace(s[0]) {
      TrimStartSkipsSpace(s[1..]);
      var t := TrimStart(s);
      assert s[1..][|s| - 1 - |t|..] == s[|s| - |t|..];
      forall i | 0 <= i < |s| - |t| ensures JsWhiteSpace(s[i]) {
        if i > 0 {
          assert s[i] == s[1..][i - 1];
        }
      }
    }
  }

  /** White space in front of a text changes nothing after trimming. */
  lemma {:induction false} TrimStartAfterSpace(ws: string, s: string)
    requires forall i :: 0 <= i < |ws| ==> JsWhiteSpace(ws[i])
    ensures TrimStart(ws + s) == TrimStart(s)
  {
    if ws != [] {
      assert (ws + s)[0] == ws[0];
      assert (ws + s)[1..] == ws[1..] + s;
      TrimStartAfterSpace(ws[1..], s);
    } else {
      assert ws + s == s;
    }
  }

  function DigitValue(c: char): nat
    requires IsDigit(c)
  {
    c as int - '0' as int
  }

  function DigitChar(d: nat): (c: char)
    requires d < 10
    ensures IsDigit(c) && DigitValue(c) == d
  {
    ('0' as int + d) as char
  }

  /** The value of a string of decimal digits, most significant first. */
  function DigitsValue(ds: string): nat
    requires AllDigits(ds)
  {
    if ds == [] then 0 else DigitsValue(ds[..|ds| - 1]) * 10 + DigitValue(ds[|ds| - 1])
  }

  /** A decimal numeral as JavaScript prints a non-negative integer: no sign, no leading zero. */
  predicate Canonical(s: string)
  {
    |s| >= 1 && AllDigits(s) && (s[0] != '0' || |s| == 1)
  }

  /** `String(n)` for a non-negative integer. */
  function NatToString(n: nat): (s: string)
    ensures Canonical(s)
    ensures DigitsValue(s) == n
  {
    if n < 10 then [DigitChar(n)]
    else
      var s := NatToString(n / 10) + [DigitChar(n % 10)];
      assert s[..|s| - 1] == NatToString(n / 10);
      s
  }

  /** `String(i)` for an integer. */
  function IntToString(i: int): (s: string)
    ensures |s| >= 1
    ensures 'y' !in s && 'Y' !in s
  {
    if i < 0 then "-" + NatToString(-i) else NatToString(i)
  }

  lemma {:induction false} LeadingDigitPositive(s: string)
    requires Canonical(s) && s[0] != '0'
    ensures DigitsValue(s) >= 1
  {
    if |s| > 1 {
      LeadingDigitPositive(s[..|s| - 1]);
    }
  }

  /** A canonical numeral is what `String` prints for its value. */
  lemma {:induction false} CanonicalRoundTrip(s: string)
    requires Canonical(s)
    ensures NatToString(DigitsValue(s)) == s
  {
    if |s| > 1 {
      var p := s[..|s| - 1];
      var c := s[|s| - 1];
      assert Canonical(p);
      LeadingDigitPositive(p);
      CanonicalRoundTrip(p);
      var q := DigitsValue(p);
      var d := DigitValue(c);
      assert DigitsValue(s) == q * 10 + d;
      DivModTen(q, d);
      assert DigitChar(d) == c;
      assert NatToString(DigitsValue(s)) == NatToString(q) + [c];
      assert s == p + [c];
    }
  }

  /** The last decimal digit of `q * 10 + d` is `d`, and the others make `q`. */
  lemma DivModTen(q: nat, d: nat)
    requires d < 10
    ensures (q * 10 + d) / 10 == q && (q * 10 + d) % 10 == d
  {
  }
}
