/**
 * Aadhaar-number extraction from OCR text (`handleDocUpload` in
 * `Farmer.jsx`): the first match of
 * `\b\d{4}[-.\s]?\d{4}[-.\s]?\d{4}\b|\b\d{12}\b`, with every non-digit
 * removed from it.
 *
 * The second alternative never matches where the first does not: twelve
 * contiguous digits are the first alternative with both separators absent.
 * At a given start position the first alternative has at most one way to
 * match, since a separator is never a digit; so a match is fixed by its
 * start, and the regular-expression search returns the leftmost one.
 */
module Aadhaar {
  import opened Options
  import opened Text

  /** The class `[-.\s]`. */
  predicate IsSeparator(c: char) {
    c == '-' || c == '.' || IsSpace(c)
  }

  /** Four digits start at position `i`. */
  predicate Block(text: string, i: nat) {
    i + 4 <= |text| && forall j :: i <= j < i + 4 ==> IsDigit(text[j])
  }

  /** Where an optional separator at position `j` ends. */
  function SkipSeparator(text: string, j: nat): (k: nat)
    ensures k == j || k == j + 1
  {
    if j < |text| && IsSeparator(text[j]) then j + 1 else j
  }

  /** `\b` before a digit at position `i`. */
  predicate BoundaryBefore(text: string, i: nat)
    requires i <= |text|
  {
    i == 0 || !IsWordChar(text[i - 1])
  }

  /** `\b` after a digit ending at position `e`. */
  predicate BoundaryAfter(text: string, e: nat)
    requires e <= |text|
  {
    e == |text| || !IsWordChar(text[e])
  }

  /** The end of the pattern's match starting at position `i`, if it matches
      there. */
  function MatchAt(text: string, i: nat): (r: Option<nat>)
    ensures r.Some? ==> i + 12 <= r.value <= i + 14 && r.value <= |text|
  {
    if i > |text| || !Block(text, i) || !BoundaryBefore(text, i) then None
    else
      var b := SkipSeparator(text, i + 4);
      if !Block(text, b) then None
      else
        var c := SkipSeparator(text, b + 4);
        if !Block(text, c) || !BoundaryAfter(text, c + 4) then None
        else Some(c + 4)
  }

  /** A separator contributes no digit. */
  lemma SeparatorHasNoDigits(text: string, j: nat, k: nat)
    requires j <= k <= |text| && (k == j || (k == j + 1 && IsSeparator(text[j])))
    ensures DigitsOf(text[j..k]) == []
  {
    if k == j + 1 {
      assert text[j..k] == [text[j]];
    }
  }

  /** The four characters of a block are all digits. */
  lemma BlockIsDigits(text: string, i: nat)
    requires Block(text, i)
    ensures AllDigits(text[i..i + 4])
  {
    var d := text[i..i + 4];
    forall k | 0 <= k < |d|
      ensures IsDigit(d[k])
    {
      assert d[k] == text[i + k];
    }
  }

  /** A match holds exactly twelve digits. */
  lemma MatchHasTwelveDigits(text: string, i: nat)
    requires MatchAt(text, i).Some?
    ensures |DigitsOf(text[i..MatchAt(text, i).value])| == 12
  {
    var b := SkipSeparator(text, i + 4);
    var c := SkipSeparator(text, b + 4);
    var e := c + 4;
    assert e == MatchAt(text, i).value;
    var d1, s1, d2, s2, d3 := text[i..i + 4], text[i + 4..b], text[b..b + 4], text[b + 4..c], text[c..e];
    assert text[i..e] == text[i..c] + d3;
    assert text[i..c] == text[i..b + 4] + s2;
    assert text[i..b + 4] == text[i..b] + d2;
    assert text[i..b] == d1 + s1;
    DigitsOfAppend(text[i..c], d3);
    DigitsOfAppend(text[i..b + 4], s2);
    DigitsOfAppend(text[i..b], d2);
    DigitsOfAppend(d1, s1);
    SeparatorHasNoDigits(text, i + 4, b);
    SeparatorHasNoDigits(text, b + 4, c);
    BlockIsDigits(text, i);
    BlockIsDigits(text, b);
    BlockIsDigits(text, c);
    DigitsOfDigits(d1);
    DigitsOfDigits(d2);
    DigitsOfDigits(d3);
  }

  /** The leftmost start position, from `from` on, where the pattern matches. */
  function FirstMatchFrom(text: string, from: nat): (r: Option<nat>)
    ensures r.Some? ==> from <= r.value < |text| && MatchAt(text, r.value).Some?
    ensures r.Some? ==> forall j :: from <= j < r.value ==> MatchAt(text, j).None?
    ensures r.None? <==> forall j :: from <= j < |text| ==> MatchAt(text, j).None?
    decreases |text| - from
  {
    if from >= |text| then None
    else if MatchAt(text, from).Some? then Some(from)
    else FirstMatchFrom(text, from + 1)
  }

  /** `text.match(pattern)` followed by `replace(/[^0-9]/g, '')`: the Aadhaar
      number found in the OCR text, if any. */
  function Extract(text: string): (r: Option<string>)
    ensures r.Some? ==> |r.value| == 12 && AllDigits(r.value)
    ensures r.None? <==> forall i :: 0 <= i < |text| ==> MatchAt(text, i).None?
    ensures r.Some? ==> exists i :: 0 <= i < |text| && MatchAt(text, i).Some?
                          && (forall j :: 0 <= j < i ==> MatchAt(text, j).None?)
                          && r.value == DigitsOf(text[i..MatchAt(text, i).value])
  {
    match FirstMatchFrom(text, 0)
    case None => None
    case Some(i) =>
      MatchHasTwelveDigits(text, i);
      Some(DigitsOf(text[i..MatchAt(text, i).value]))
  }

  /** Separators of different kinds may be mixed; the match then spans all
      fourteen characters. */
  lemma SeparatedExample()
    ensures MatchAt("1234-5678.9012", 0) == Some(14)
    ensures Extract("1234-5678.9012").Some?
  {
    var t := "1234-5678.9012";
    assert Block(t, 0) && Block(t, 5) && Block(t, 10);
    assert SkipSeparator(t, 4) == 5 && SkipSeparator(t, 9) == 10;
  }

  /** Twelve digits standing alone are returned as they are. */
  lemma ContiguousExample()
    ensures Extract("123456789012") == Some("123456789012")
  {
    var t := "123456789012";
    assert Block(t, 0) && Block(t, 4) && Block(t, 8);
    assert SkipSeparator(t, 4) == 4 && SkipSeparator(t, 8) == 8;
    assert MatchAt(t, 0) == Some(12);
    assert t[0..12] == t;
    DigitsOfDigits(t);
  }

  /** Thirteen digits in a row hold no match: the twelfth digit is followed
      by a word character, and every later start follows one. */
  lemma TooLongExample()
    ensures Extract("1234567890123") == None
  {
    var t := "1234567890123";
    assert Block(t, 0) && Block(t, 4) && Block(t, 8);
    assert SkipSeparator(t, 4) == 4 && SkipSeparator(t, 8) == 8;
    assert !BoundaryAfter(t, 12);
    assert MatchAt(t, 0).None?;
    forall i | 1 <= i < |t|
      ensures MatchAt(t, i).None?
    {
      assert IsDigit(t[i - 1]);
      assert !BoundaryBefore(t, i);
    }
  }
}
