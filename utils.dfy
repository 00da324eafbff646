/** `truncateText` of src/lib/utils.ts: cut a string to a length and mark
    the cut with an ellipsis. */
module TextUtils {
  import opened Js

  const Ellipsis: string := "..."

  /** `truncateText(text, maxLength)`: text that fits is returned as is;
      longer text keeps its first `maxLength` characters (the slice rule
      counts a negative length from the end), trimmed, then "...". */
  function TruncateText(text: string, maxLength: int): (r: string)
    ensures |text| <= maxLength ==> r == text
    ensures |text| > maxLength ==>
      |r| >= 3 && r[|r| - 3..] == Ellipsis && |r| - 3 <= RelativeIndex(maxLength, |text|)
  {
    if |text| <= maxLength then text
    else
      var kept := Slice(text, 0, maxLength);
      assert |kept| == RelativeIndex(maxLength, |text|);
      var r := Trim(kept) + Ellipsis;
      assert r[|r| - 3..] == Ellipsis;
      r
  }

  /** What a truncation keeps before the ellipsis is the trimmed run of
      the first `maxLength` characters (see `TrimmedRun`). */
  lemma TruncatedCore(text: string, maxLength: int)
    requires |text| > maxLength
    ensures var r := TruncateText(text, maxLength);
      r[..|r| - 3] == Trim(text[..RelativeIndex(maxLength, |text|)])
  {
    var cut := RelativeIndex(maxLength, |text|);
    assert Slice(text, 0, maxLength) == text[..cut];
  }

  /** `s.trim()` is the run of `s` from its first to its last
      non-whitespace character: an infix with only whitespace dropped on
      either side, bounded by non-whitespace, and empty exactly when `s` is
      all whitespace. */
  lemma TrimmedRun(s: string)
    ensures var core, off := Trim(s), TrimOffset(s);
      && off + |core| <= |s|
      && core == s[off..off + |core|]
      && (forall i :: 0 <= i < off ==> IsWhitespace(s[i]))
      && (forall i :: off + |core| <= i < |s| ==> IsWhitespace(s[i]))
      && (core != [] ==> !IsWhitespace(s[off]) && !IsWhitespace(s[off + |core| - 1]))
  {
    TrimInfix(s);
    TrimDropsWhitespace(s);
  }

  /** `s.trim()` is empty exactly when `s` is all whitespace. */
  lemma TrimEmpty(s: string)
    ensures Trim(s) == [] <==> forall i :: 0 <= i < |s| ==> IsWhitespace(s[i])
  {
    TrimmedRun(s);
    var core, off := Trim(s), TrimOffset(s);
    if core != [] {
      assert !IsWhitespace(s[off]);
    }
  }

  /** A cut inside a word keeps the word's start; a cut after a space drops
      the space. */
  lemma TruncateExamples()
    ensures TruncateText("Bhilai", 6) == "Bhilai"
    ensures TruncateText("Go on", 4) == "Go o..."
    ensures TruncateText("Go on", 3) == "Go..."
  {
    assert Slice("Go on", 0, 4) == "Go o";
    assert TrimStart("Go o") == "Go o";
    assert TrimEnd("Go o") == "Go o";
    assert Slice("Go on", 0, 3) == "Go ";
    assert TrimStart("Go ") == "Go ";
    assert TrimEnd("Go ") == TrimEnd("Go");
    assert TrimEnd("Go") == "Go";
  }
}
