/**
 * The command normalisation `s.replace(/\s/g, "").toLowerCase()` that
 * receivedMessage and receivedPostback apply before matching.
 */
module Normalization {

  /** The characters of the JavaScript class `\s`: WhiteSpace and LineTerminator. */
  predicate IsWhitespace(c: char)
  {
    || c == '\t' || c == '\n' || c == '\U{000B}' || c == '\U{000C}' || c == '\r'
    || c == ' ' || c == '\U{00A0}' || c == '\U{1680}'
    || ('\U{2000}' <= c <= '\U{200A}')
    || c == '\U{2028}' || c == '\U{2029}' || c == '\U{202F}' || c == '\U{205F}'
    || c == '\U{3000}' || c == '\U{FEFF}'
  }

  predicate IsUpper(c: char)
  {
    'A' <= c <= 'Z'
  }

  const UpperLetters := "ABCDEFGHIJKLMNOPQRSTUVWXYZ"
  const LowerLetters := "abcdefghijklmnopqrstuvwxyz"

  predicate IsLower(c: char)
  {
    'a' <= c <= 'z'
  }

  /** One character of `toLowerCase()`: only upper-case ASCII letters change. */
  function ToLowerChar(c: char): (d: char)
    ensures !IsUpper(d)
    ensures IsWhitespace(d) == IsWhitespace(c)
    ensures IsUpper(c) ==> IsLower(d)
    ensures !IsUpper(c) ==> d == c
  {
    if IsUpper(c) then (c as int + 32) as char else c
  }

  /**
   * An upper-case ASCII letter becomes the lower-case letter at the same
   * place in the alphabet, read off the two alphabets.
   */
  lemma LowerCharTable(c: char)
    requires IsUpper(c)
    ensures ToLowerChar(c) == LowerLetters[c as int - 'A' as int]
    ensures c == UpperLetters[c as int - 'A' as int]
  {
  }

  /** `replace(/\s/g, "")`: the non-whitespace characters of `s`, in order. */
  function StripWhitespace(s: string): (r: string)
    ensures |r| <= |s|
    ensures forall i | 0 <= i < |r| :: !IsWhitespace(r[i])
    ensures forall c | c in r :: c in s
  {
    if s == [] then []
    else (if IsWhitespace(s[0]) then [] else [s[0]]) + StripWhitespace(s[1..])
  }

  /** The reverse direction, for stating case-blindness: a lower-case ASCII letter is raised. */
  function ToUpperChar(c: char): (d: char)
    ensures IsLower(c) ==> IsUpper(d)
    ensures !IsLower(c) ==> d == c
  {
    if IsLower(c) then (c as int - 32) as char else c
  }

  /** `toUpperCase()`, for the ASCII letters. */
  function ToUpperCase(s: string): (r: string)
    ensures |r| == |s|
    ensures forall i | 0 <= i < |s| :: r[i] == ToUpperChar(s[i])
  {
    if s == [] then [] else [ToUpperChar(s[0])] + ToUpperCase(s[1..])
  }

  /** `toLowerCase()`, for the ASCII letters. */
  function ToLowerCase(s: string): (r: string)
    ensures |r| == |s|
    ensures forall i | 0 <= i < |s| :: r[i] == ToLowerChar(s[i])
  {
    if s == [] then [] else [ToLowerChar(s[0])] + ToLowerCase(s[1..])
  }

  /** Stripping keeps a string that has no whitespace. */
  lemma {:induction false} StripWhitespaceKeeps(s: string)
    requires forall i | 0 <= i < |s| :: !IsWhitespace(s[i])
    ensures StripWhitespace(s) == s
  {
    if s != [] {
      assert forall i | 0 <= i < |s[1..]| :: s[1..][i] == s[i + 1];
      StripWhitespaceKeeps(s[1..]);
    }
  }

  /** A command key: free of whitespace and of upper-case letters. */
  predicate IsNormal(s: string)
  {
    forall i | 0 <= i < |s| :: !IsWhitespace(s[i]) && !IsUpper(s[i])
  }

  function Normalize(s: string): (r: string)
    ensures IsNormal(r)
    ensures |r| <= |s|
  {
    ToLowerCase(StripWhitespace(s))
  }

  /** A string that is already a command key is left as it is. */
  lemma {:induction false} NormalizeKeepsNormal(s: string)
    requires IsNormal(s)
    ensures Normalize(s) == s
  {
    if s != [] {
      assert IsNormal(s[1..]) by {
        forall i | 0 <= i < |s[1..]| ensures !IsWhitespace(s[1..][i]) && !IsUpper(s[1..][i]) {
          assert s[1..][i] == s[i + 1];
        }
      }
      NormalizeKeepsNormal(s[1..]);
      assert StripWhitespace(s) == [s[0]] + StripWhitespace(s[1..]);
    }
  }

  lemma NormalizeIdempotent(s: string)
    ensures Normalize(Normalize(s)) == Normalize(s)
  {
    NormalizeKeepsNormal(Normalize(s));
  }

  /** Removing whitespace works character by character, so it distributes over `+`. */
  lemma {:induction false} StripConcat(a: string, b: string)
    ensures StripWhitespace(a + b) == StripWhitespace(a) + StripWhitespace(b)
  {
    if a == [] {
      assert a + b == b;
    } else {
      assert (a + b)[0] == a[0] && (a + b)[1..] == a[1..] + b;
      StripConcat(a[1..], b);
    }
  }

  /** Normalisation works character by character, so it distributes over `+`. */
  lemma NormalizeConcat(a: string, b: string)
    ensures Normalize(a + b) == Normalize(a) + Normalize(b)
  {
    StripConcat(a, b);
    LowerConcat(StripWhitespace(a), StripWhitespace(b));
  }

  /** A single character's key: nothing for whitespace, the lowered character otherwise. */
  lemma NormalizeChar(c: char)
    ensures Normalize([c]) == if IsWhitespace(c) then [] else [ToLowerChar(c)]
  {
    assert [c][1..] == [];
  }

  lemma LowerOfUpper(c: char)
    ensures IsWhitespace(ToUpperChar(c)) == IsWhitespace(c)
    ensures ToLowerChar(ToUpperChar(c)) == ToLowerChar(c)
  {
  }

  /**
   * Matching is blind to ASCII case: raising every letter of a text does
   * not change its key.
   */
  lemma {:induction false} NormalizeIgnoresCase(s: string)
    ensures Normalize(ToUpperCase(s)) == Normalize(s)
  {
    if s != [] {
      var c := s[0];
      var up := ToUpperCase(s);
      assert up == [ToUpperChar(c)] + ToUpperCase(s[1..]);
      assert s == [c] + s[1..];
      NormalizeConcat([ToUpperChar(c)], ToUpperCase(s[1..]));
      NormalizeConcat([c], s[1..]);
      NormalizeChar(c);
      NormalizeChar(ToUpperChar(c));
      LowerOfUpper(c);
      NormalizeIgnoresCase(s[1..]);
    }
  }

  lemma LowerConcat(a: string, b: string)
    ensures ToLowerCase(a + b) == ToLowerCase(a) + ToLowerCase(b)
  {
  }

  /** Whitespace around a word is dropped and the word is lowered. */
  lemma NormalizePadded(before: string, word: string, after: string)
    requires forall i | 0 <= i < |before| :: IsWhitespace(before[i])
    requires forall i | 0 <= i < |after| :: IsWhitespace(after[i])
    requires forall i | 0 <= i < |word| :: !IsWhitespace(word[i])
    ensures Normalize(before + word + after) == ToLowerCase(word)
  {
    BlankKey(before);
    BlankKey(after);
    WordKey(word);
    PaddedKey(before, word, after);
  }

  lemma BlankKey(s: string)
    requires forall i | 0 <= i < |s| :: IsWhitespace(s[i])
    ensures Normalize(s) == []
  {
    NormalizeEmptyIffBlank(s);
  }

  lemma WordKey(word: string)
    requires forall i | 0 <= i < |word| :: !IsWhitespace(word[i])
    ensures Normalize(word) == ToLowerCase(word)
  {
    StripWhitespaceKeeps(word);
  }

  lemma PaddedKey(before: string, word: string, after: string)
    requires Normalize(before) == [] && Normalize(after) == []
    ensures Normalize(before + word + after) == Normalize(word)
  {
    NormalizeConcat(before, word);
    NormalizeConcat(before + word, after);
  }

  /** The key is empty exactly when the input is blank. */
  lemma {:induction false} NormalizeEmptyIffBlank(s: string)
    ensures Normalize(s) == [] <==> forall i | 0 <= i < |s| :: IsWhitespace(s[i])
  {
    if s != [] {
      NormalizeEmptyIffBlank(s[1..]);
      assert forall i | 1 <= i < |s| :: s[i] == s[1..][i - 1];
    }
  }
}
