/** Text helpers used by the classifier and the medicine lookup: ASCII
    lower-casing (Python's `str.lower` restricted to ASCII) and substring
    search (Python's `word in text`). */
module Text {

  predicate IsUpper(c: char) {
    'A' <= c <= 'Z'
  }

  /** Lower-cases one ASCII letter and leaves every other character alone. */
  function LowerChar(c: char): (r: char)
    ensures !IsUpper(r)
    ensures !IsUpper(c) ==> r == c
    ensures IsUpper(c) ==> 'a' <= r <= 'z' && r as int - 'a' as int == c as int - 'A' as int
  {
    if IsUpper(c) then (c as int - 'A' as int + 'a' as int) as char else c
  }

  /** Lower-cases a whole string, character by character. */
  function Lower(s: string): (r: string)
    ensures |r| == |s|
    ensures forall i :: 0 <= i < |s| ==> r[i] == LowerChar(s[i])
    ensures forall i :: 0 <= i < |r| ==> !IsUpper(r[i])
  {
    if s == [] then [] else [LowerChar(s[0])] + Lower(s[1..])
  }

  /** Lower-casing twice is lower-casing once. */
  lemma LowerIdempotent(s: string)
    ensures Lower(Lower(s)) == Lower(s)
  {
  }

  /** `word` occurs in `text` starting at position `i`. */
  ghost predicate OccursAt(text: string, word: string, i: int) {
    0 <= i && i + |word| <= |text| && text[i..i + |word|] == word
  }

  /** Reference meaning of Python's `word in text`: some window of `text` equals `word`. */
  ghost predicate Occurs(text: string, word: string) {
    exists i :: OccursAt(text, word, i)
  }

  /** Substring search: is `word` a prefix of `text` or of one of its suffixes? */
  function Contains(text: string, word: string): bool
  {
    if word <= text then true
    else if text == [] then false
    else Contains(text[1..], word)
  }

  /** The search finds `word` exactly when it occurs in `text`; the empty word
      occurs in every text, the empty text holds only the empty word. */
  lemma {:induction false} ContainsIsOccurs(text: string, word: string)
    ensures Contains(text, word) <==> Occurs(text, word)
    decreases |text|
  {
    if word <= text {
      assert text[0..|word|] == word;
      assert OccursAt(text, word, 0);
    } else if text == [] {
    } else {
      ContainsIsOccurs(text[1..], word);
      if Occurs(text[1..], word) {
        var i :| OccursAt(text[1..], word, i);
        assert text[1..][i..i + |word|] == text[i + 1..i + 1 + |word|];
        assert OccursAt(text, word, i + 1);
      }
      if Occurs(text, word) {
        var i :| OccursAt(text, word, i);
        assert !OccursAt(text, word, 0);
        assert text[1..][i - 1..i - 1 + |word|] == text[i..i + |word|];
        assert OccursAt(text[1..], word, i - 1);
      }
    }
  }

  /** Reference meaning of `any(word in text for word in words)`. */
  ghost predicate AnyOccurs(text: string, words: seq<string>) {
    exists w :: w in words && Occurs(text, w)
  }

  /** Python's `any(word in text for word in words)`. */
  function AnyContained(text: string, words: seq<string>): (r: bool)
    ensures r == AnyOccurs(text, words)
  {
    if words == [] then false
    else
      ContainsIsOccurs(text, words[0]);
      Contains(text, words[0]) || AnyContained(text, words[1..])
  }

  /** A keyword of a concatenated list occurs exactly when a keyword of one of the parts does. */
  lemma AnyOccursAppend(text: string, a: seq<string>, b: seq<string>)
    ensures AnyOccurs(text, a + b) <==> AnyOccurs(text, a) || AnyOccurs(text, b)
  {
  }

  /** A word holding a character that the text lacks cannot occur in the text. */
  lemma MissingCharNotOccurs(text: string, word: string, c: char)
    requires c in word && c !in text
    ensures !Occurs(text, word)
  {
  }
}
