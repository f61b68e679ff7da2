/**
 * The identifier-casing helpers of the type generator. A string is a sequence of Unicode
 * characters, so the pattern's `.` matches one code point; case mapping covers the ASCII letters
 * only.
 */
module Casing {

  function ToLower(c: char): (r: char)
    ensures 'A' <= c <= 'Z' ==> r as int == c as int + 32
    ensures !('A' <= c <= 'Z') ==> r == c
  {
    if 'A' <= c <= 'Z' then (c as int + 32) as char else c
  }

  function ToUpper(c: char): (r: char)
    ensures 'a' <= c <= 'z' ==> r as int == c as int - 32
    ensures !('a' <= c <= 'z') ==> r == c
  {
    if 'a' <= c <= 'z' then (c as int - 32) as char else c
  }

  /** The characters the regular-expression `.` does not match. */
  predicate IsLineTerminator(c: char) {
    c == '\n' || c == '\r' || c == '\U{2028}' || c == '\U{2029}'
  }

  predicate IsSeparator(c: char) {
    c == '-' || c == '_'
  }

  /** `/[-_](.)/` matches at position `i` of `s`. */
  predicate MatchAt(s: string, i: int) {
    0 <= i && i + 1 < |s| && IsSeparator(s[i]) && !IsLineTerminator(s[i + 1])
  }

  /**
   * `s.replace(/[-_](.)/g, (match, group1) => group1.toUpperCase())`: scan left to right; a
   * separator followed by a matchable character becomes that character upper-cased, and the
   * scan resumes after it.
   */
  function ReplaceSeparators(s: string): (r: string)
    ensures |r| <= |s|
    ensures |r| == 0 <==> |s| == 0
    decreases |s|
  {
    if |s| == 0 then ""
    else if MatchAt(s, 0) then [ToUpper(s[1])] + ReplaceSeparators(s[2..])
    else [s[0]] + ReplaceSeparators(s[1..])
  }

  /** `camelCase`: lower-case the first character, then fold every separator into the next character. */
  function CamelCase(s: string): (r: string)
    ensures |r| <= |s|
    ensures |r| == 0 <==> |s| == 0
  {
    var lowered := if |s| == 0 then "" else [ToLower(s[0])] + s[1..];
    ReplaceSeparators(lowered)
  }

  /** `pascalCase`: `camelCase`, then upper-case the first character. */
  function PascalCase(s: string): (r: string)
    ensures |r| == |CamelCase(s)| && |r| <= |s|
    ensures |r| == 0 <==> |s| == 0
  {
    var camel := CamelCase(s);
    if |camel| == 0 then "" else [ToUpper(camel[0])] + camel[1..]
  }

  /** `isKebabCase`: the string contains a hyphen. */
  function IsKebabCase(s: string): (r: bool)
    ensures r <==> exists i :: 0 <= i < |s| && s[i] == '-'
  {
    '-' in s
  }

  /** The scan changes the string exactly when the pattern matches somewhere in it. */
  lemma {:induction false} ReplaceSeparatorsIdentity(s: string)
    ensures ReplaceSeparators(s) == s <==> forall i :: 0 <= i < |s| ==> !MatchAt(s, i)
    decreases |s|
  {
    if |s| > 0 {
      if MatchAt(s, 0) {
        ReplaceShortens(s, 0);
      } else {
        ReplaceSeparatorsIdentity(s[1..]);
        forall i | 0 < i < |s| ensures MatchAt(s, i) <==> MatchAt(s[1..], i - 1) {
        }
        if forall i :: 0 <= i < |s| ==> !MatchAt(s, i) {
          forall i | 0 <= i < |s[1..]| ensures !MatchAt(s[1..], i) {
            assert !MatchAt(s, i + 1);
          }
        } else {
          var i :| 0 <= i < |s| && MatchAt(s, i);
          ReplaceShortens(s, i);
        }
      }
    }
  }

  /** A match anywhere shortens the string. */
  lemma {:induction false} ReplaceShortens(s: string, i: nat)
    requires MatchAt(s, i)
    ensures |ReplaceSeparators(s)| < |s|
    decreases |s|
  {
    if !MatchAt(s, 0) {
      assert i > 0;
      assert MatchAt(s[1..], i - 1);
      ReplaceShortens(s[1..], i - 1);
    }
  }

  /** On a string without separators, `camelCase` only lower-cases the first character. */
  lemma CamelCaseWithoutSeparators(s: string)
    requires forall i :: 0 <= i < |s| ==> !IsSeparator(s[i])
    ensures |CamelCase(s)| == |s|
    ensures |s| > 0 ==> CamelCase(s) == [ToLower(s[0])] + s[1..]
  {
    if |s| > 0 {
      var lowered := [ToLower(s[0])] + s[1..];
      assert forall i :: 0 <= i < |lowered| ==> !MatchAt(lowered, i);
      ReplaceSeparatorsIdentity(lowered);
    }
  }

  /** On a string without separators, `pascalCase` only upper-cases the first character. */
  lemma PascalCaseWithoutSeparators(s: string)
    requires forall i :: 0 <= i < |s| ==> !IsSeparator(s[i])
    ensures |PascalCase(s)| == |s|
    ensures |s| > 0 ==> PascalCase(s) == [ToUpper(s[0])] + s[1..]
  {
    CamelCaseWithoutSeparators(s);
  }

  /**
   * Behind a prefix without separators, a separator and the character after it become that
   * character upper-cased.
   */
  lemma {:induction false} ReplaceFoldsSeparator(p: string, sep: char, c: char, rest: string)
    requires forall i :: 0 <= i < |p| ==> !IsSeparator(p[i])
    requires IsSeparator(sep) && !IsLineTerminator(c)
    ensures ReplaceSeparators(p + [sep, c] + rest) == p + [ToUpper(c)] + ReplaceSeparators(rest)
    decreases |p|
  {
    var s := p + [sep, c] + rest;
    if |p| == 0 {
      assert s[2..] == rest;
    } else {
      assert !MatchAt(s, 0);
      assert s[1..] == p[1..] + [sep, c] + rest;
      ReplaceFoldsSeparator(p[1..], sep, c, rest);
    }
  }

  /** `camelCase("rich-editor")`: the hyphen folds into the next letter. */
  lemma CamelCaseKebabStep()
    ensures CamelCase("rich-editor") == "richEditor"
  {
    var s := "rich-editor";
    assert [ToLower(s[0])] + s[1..] == "rich" + ['-', 'e'] + "ditor";
    ReplaceFoldsSeparator("rich", '-', 'e', "ditor");
    ReplaceSeparatorsIdentity("ditor");
  }

  /** A hyphen before a letter disappears and the letter is upper-cased. */
  lemma PascalCaseKebabExample()
    ensures PascalCase("rich-editor") == "RichEditor"
  {
    CamelCaseKebabStep();
    var camel := "richEditor";
    assert [ToUpper(camel[0])] + camel[1..] == "RichEditor";
  }

  /**
   * A separator before a line terminator is no match and stays, while a later separator in the
   * same string still folds.
   */
  lemma LineTerminatorExample()
    ensures PascalCase("a-\nb_c") == "A-\nbC"
  {
    var s := "a-\nb_c";
    assert [ToLower(s[0])] + s[1..] == s;
    ReplaceFoldsSeparator("b", '_', 'c', "");
    assert "b" + ['_', 'c'] + "" == "b_c";
    assert ReplaceSeparators("b_c") == "bC";
    assert s[1..][1..] == "\nb_c" && s[1..][1..][1..] == "b_c";
    assert ReplaceSeparators("\nb_c") == "\nbC";
    assert !MatchAt(s[1..], 0);
    assert ReplaceSeparators(s[1..]) == "-\nbC";
    assert CamelCase(s) == "a-\nbC";
  }

  /** A doubled separator: the second one is the character the first folds, so one survives. */
  lemma DoubledSeparatorExample()
    ensures PascalCase("a--b") == "A-b"
  {
    var s := "a--b";
    assert [ToLower(s[0])] + s[1..] == "a" + ['-', '-'] + "b";
    ReplaceFoldsSeparator("a", '-', '-', "b");
    ReplaceSeparatorsIdentity("b");
    assert CamelCase(s) == "a-b";
  }
}
