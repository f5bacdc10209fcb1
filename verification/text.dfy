/**
  Field-name normalisation for detail-page labels:
  `name.lower().replace(' ', '_').replace('/', '_')`.
  Case folding is restricted to ASCII letters.
 */
module Text {

  predicate IsAsciiUpper(c: char)
  {
    'A' <= c <= 'Z'
  }

  /** `str.lower()` on one character, ASCII letters only. */
  function LowerChar(c: char): (r: char)
    ensures !IsAsciiUpper(r)
    ensures IsAsciiUpper(c) ==> r as int == c as int + 32
    ensures !IsAsciiUpper(c) ==> r == c
  {
    if IsAsciiUpper(c) then (c as int + 32) as char else c
  }

  /** `s.lower()`: every character folded, length kept. */
  function Lower(s: string): (r: string)
    ensures |r| == |s|
    ensures forall i :: 0 <= i < |s| ==> r[i] == LowerChar(s[i])
  {
    if s == [] then [] else [LowerChar(s[0])] + Lower(s[1..])
  }

  /** `s.replace(from, to)` for single-character arguments. */
  function Replace(s: string, from: char, to: char): (r: string)
    ensures |r| == |s|
    ensures forall i :: 0 <= i < |s| ==> r[i] == (if s[i] == from then to else s[i])
  {
    if s == [] then [] else [if s[0] == from then to else s[0]] + Replace(s[1..], from, to)
  }

  /** A key as the detail extractor stores it: no upper-case ASCII letter, no space, no slash. */
  predicate IsNormalKey(k: string)
  {
    forall i :: 0 <= i < |k| ==> k[i] != ' ' && k[i] != '/' && !IsAsciiUpper(k[i])
  }

  /** What normalisation does to one character of a label. */
  function NormalChar(c: char): char
  {
    if c == ' ' || c == '/' then '_' else LowerChar(c)
  }

  /** `name.lower().replace(' ', '_').replace('/', '_')` */
  function NormalizeKey(name: string): (k: string)
    ensures |k| == |name|
    ensures IsNormalKey(k)
  {
    Replace(Replace(Lower(name), ' ', '_'), '/', '_')
  }

  /** The three passes act character by character. */
  lemma NormalizeKeyPointwise(name: string)
    ensures forall i :: 0 <= i < |name| ==> NormalizeKey(name)[i] == NormalChar(name[i])
  {
  }

  /** Normalising an already normalised key changes nothing. */
  lemma NormalizeKeyIdempotent(name: string)
    ensures NormalizeKey(NormalizeKey(name)) == NormalizeKey(name)
  {
    NormalizeKeyFixesNormalKeys(NormalizeKey(name));
  }

  /** The normal keys are exactly the fixed points of normalisation. */
  lemma NormalizeKeyFixesNormalKeys(k: string)
    ensures NormalizeKey(k) == k <==> IsNormalKey(k)
  {
    if IsNormalKey(k) {
      assert forall i :: 0 <= i < |k| ==> NormalizeKey(k)[i] == k[i];
    }
  }
}
