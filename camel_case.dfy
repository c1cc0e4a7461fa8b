/**
 * A stand-in for the `to_camel_case` conversion the registry applies to
 * message names: words are separated by `_`, and the first letter of
 * each word is capitalised (`transfer_funds` becomes `TransferFunds`).
 */
module CamelCase {

  function ToUpper(c: char): char
  {
    if 'a' <= c <= 'z' then (c as int - 32) as char else c
  }

  /** Camel-cases `s`; `wordStart` says whether `s` begins a new word. */
  function CamelFrom(s: string, wordStart: bool): string
  {
    if s == [] then []
    else if s[0] == '_' then CamelFrom(s[1..], true)
    else [if wordStart then ToUpper(s[0]) else s[0]] + CamelFrom(s[1..], false)
  }

  function ToCamelCase(s: string): (r: string)
    ensures '_' !in r
  {
    NoUnderscore(s, true);
    CamelFrom(s, true)
  }

  lemma {:induction false} NoUnderscore(s: string, wordStart: bool)
    ensures '_' !in CamelFrom(s, wordStart)
  {
    if s != [] {
      if s[0] == '_' {
        NoUnderscore(s[1..], true);
      } else {
        NoUnderscore(s[1..], false);
      }
    }
  }

  /** Within a word that has already started, an underscore-free text is left as it is. */
  lemma {:induction false} CamelFromInsideWord(s: string)
    requires '_' !in s
    ensures CamelFrom(s, false) == s
  {
    if s != [] {
      assert '_' !in s[1..] by { assert forall k :: 0 <= k < |s[1..]| ==> s[1..][k] == s[k + 1]; }
      CamelFromInsideWord(s[1..]);
    }
  }

  predicate IsAsciiUpper(c: char) { 'A' <= c <= 'Z' }

  predicate IsAsciiLower(c: char) { 'a' <= c <= 'z' }

  /**
   * A name made of capitalised words such as `OnTransfer`: ASCII letters
   * only, an upper-case initial, and never two upper-case letters in a row
   * (heck would rewrite a run such as `HTTP` to `Http`, so such names are
   * excluded).
   */
  predicate IsCapitalisedWords(s: string)
  {
    && |s| > 0 && IsAsciiUpper(s[0])
    && (forall i :: 0 <= i < |s| ==> IsAsciiUpper(s[i]) || IsAsciiLower(s[i]))
    && (forall i :: 0 < i < |s| && IsAsciiUpper(s[i]) ==> IsAsciiLower(s[i - 1]))
  }

  /** A name that is already in capitalised-word form is left unchanged. */
  lemma AlreadyCamelCase(s: string)
    requires IsCapitalisedWords(s)
    ensures ToCamelCase(s) == s
  {
    assert forall k :: 0 <= k < |s[1..]| ==> s[1..][k] == s[k + 1];
    assert '_' !in s[1..];
    CamelFromInsideWord(s[1..]);
  }

  /** A word followed by more text: the word keeps its letters, only its initial may be raised. */
  lemma {:induction false} WordThenRest(w: string, rest: string, wordStart: bool)
    requires |w| > 0 && '_' !in w
    ensures CamelFrom(w + rest, wordStart)
         == [if wordStart then ToUpper(w[0]) else w[0]] + w[1..] + CamelFrom(rest, false)
  {
    assert (w + rest)[0] == w[0];
    assert (w + rest)[1..] == w[1..] + rest;
    if |w| > 1 {
      assert '_' !in w[1..] by { assert forall k :: 0 <= k < |w[1..]| ==> w[1..][k] == w[k + 1]; }
      WordThenRest(w[1..], rest, false);
    }
  }

  /** Camel-cases `first_second`, both words free of `_`. */
  lemma TwoWords(first: string, second: string)
    requires |first| > 0 && '_' !in first
    requires |second| > 0 && '_' !in second
    ensures ToCamelCase(first + "_" + second)
         == [ToUpper(first[0])] + first[1..] + [ToUpper(second[0])] + second[1..]
  {
    WordThenRest(first, "_" + second, true);
    assert first + "_" + second == first + ("_" + second);
    assert CamelFrom("_" + second, false) == CamelFrom(second, true) by {
      assert ("_" + second)[1..] == second;
    }
    WordThenRest(second, "", true);
    assert second + "" == second;
  }

  /** A snake-cased message name becomes one capitalised word per part. */
  lemma SnakeCaseExample()
    ensures ToCamelCase("on_transfer") == "OnTransfer"
  {
    TwoWords("on", "transfer");
    assert "on" + "_" + "transfer" == "on_transfer";
  }

  /** A single lower-case word only has its initial raised. */
  lemma SingleWordExample()
    ensures ToCamelCase("mint") == "Mint"
  {
    WordThenRest("mint", "", true);
    assert "mint" + "" == "mint";
  }

  /** Two different message names can map to the same registry name. */
  lemma NamesCanCollide()
    ensures "get_value" != "getValue"
    ensures ToCamelCase("get_value") == ToCamelCase("getValue") == "GetValue"
  {
    TwoWords("get", "value");
    assert "get" + "_" + "value" == "get_value";
    WordThenRest("getValue", "", true);
    assert "getValue" + "" == "getValue";
  }
}
