/**
 * The text rules of the local-point manager: `str.upper`, the snake_case to
 * camelCase rewrite of `re.sub(r"_(\w)", ...)` and the literal `re.search`
 * of the type dispatch, on ASCII text.
 */
module Naming {

  predicate IsLower(c: char) { 'a' <= c <= 'z' }
  predicate IsUpper(c: char) { 'A' <= c <= 'Z' }
  predicate IsDigit(c: char) { '0' <= c <= '9' }

  /** What `\w` matches, for ASCII text. */
  predicate IsWordChar(c: char) { IsLower(c) || IsUpper(c) || IsDigit(c) || c == '_' }

  function UpperChar(c: char): char { if IsLower(c) then (c as int - 32) as char else c }
  function LowerChar(c: char): char { if IsUpper(c) then (c as int + 32) as char else c }

  /** `str.upper` on ASCII text. */
  function Upper(s: string): string
  {
    seq(|s|, i requires 0 <= i < |s| => UpperChar(s[i]))
  }

  /**
   * `re.sub(r"_(\w)", lambda x: x[1].upper(), s)`: scanning left to right,
   * each underscore followed by a word character is replaced by that
   * character in upper case; matches do not overlap.
   */
  function CamelCase(s: string): string
  {
    if |s| >= 2 && s[0] == '_' && IsWordChar(s[1]) then [UpperChar(s[1])] + CamelCase(s[2..])
    else if s == [] then []
    else [s[0]] + CamelCase(s[1..])
  }

  /** The inverse rewrite: every capital becomes an underscore and its lower case. */
  function SnakeCase(s: string): string
  {
    if s == [] then []
    else (if IsUpper(s[0]) then ['_', LowerChar(s[0])] else [s[0]]) + SnakeCase(s[1..])
  }

  /**
   * A snake_case name: lower-case letters and digits, every underscore
   * followed by a lower-case letter.
   */
  predicate IsSnakeName(s: string)
  {
    forall i :: 0 <= i < |s| ==> SnakeCharAt(s, i)
  }

  predicate SnakeCharAt(s: string, i: nat)
    requires i < |s|
  {
    IsLower(s[i]) || IsDigit(s[i]) || (s[i] == '_' && i + 1 < |s| && IsLower(s[i + 1]))
  }

  /**
   * On snake_case names the rewrite loses nothing: it leaves no underscore,
   * and turning every capital back into `_` plus its lower case restores
   * the name.
   */
  lemma {:induction false} CamelCaseRoundTrip(s: string)
    requires IsSnakeName(s)
    ensures '_' !in CamelCase(s)
    ensures SnakeCase(CamelCase(s)) == s
    decreases |s|
  {
    if s == [] {
    } else if s[0] == '_' {
      assert SnakeCharAt(s, 0);
      assert 1 < |s| && IsLower(s[1]);
      assert IsSnakeName(s[2..]) by {
        forall i | 0 <= i < |s[2..]| ensures SnakeCharAt(s[2..], i) {
          assert SnakeCharAt(s, i + 2);
          assert s[2..][i] == s[i + 2];
          assert i + 1 < |s[2..]| ==> s[2..][i + 1] == s[i + 3];
        }
      }
      CamelCaseRoundTrip(s[2..]);
      assert CamelCase(s) == [UpperChar(s[1])] + CamelCase(s[2..]);
      assert SnakeCase(CamelCase(s)) == ['_', s[1]] + SnakeCase(CamelCase(s[2..]));
      assert s == ['_', s[1]] + s[2..];
    } else {
      assert SnakeCharAt(s, 0);
      assert IsSnakeName(s[1..]) by {
        forall i | 0 <= i < |s[1..]| ensures SnakeCharAt(s[1..], i) {
          assert SnakeCharAt(s, i + 1);
          assert s[1..][i] == s[i + 1];
          assert i + 1 < |s[1..]| ==> s[1..][i + 1] == s[i + 2];
        }
      }
      CamelCaseRoundTrip(s[1..]);
      assert CamelCase(s) == [s[0]] + CamelCase(s[1..]);
      assert s == [s[0]] + s[1..];
    }
  }

  /** A name without underscores is left as it is. */
  lemma {:induction false} CamelCaseNoUnderscore(s: string)
    requires '_' !in s
    ensures CamelCase(s) == s
    decreases |s|
  {
    if s != [] {
      assert '_' !in s[1..];
      CamelCaseNoUnderscore(s[1..]);
      assert s == [s[0]] + s[1..];
    }
  }

  /** A stretch without underscores passes through unchanged. */
  lemma {:induction false} CamelCasePrefix(a: string, s: string)
    requires '_' !in a
    ensures CamelCase(a + s) == a + CamelCase(s)
    decreases |a|
  {
    if a != [] {
      assert a[0] in a && '_' !in a[1..];
      assert (a + s)[0] == a[0] != '_';
      assert (a + s)[1..] == a[1..] + s;
      calc {
        CamelCase(a + s);
        [a[0]] + CamelCase(a[1..] + s);
        { CamelCasePrefix(a[1..], s); }
        [a[0]] + (a[1..] + CamelCase(s));
        { assert a == [a[0]] + a[1..]; }
        a + CamelCase(s);
      }
    } else {
      assert a + s == s;
    }
  }

  lemma CamelCaseUnderscore(c: char, s: string)
    requires IsWordChar(c)
    ensures CamelCase(['_', c] + s) == [UpperChar(c)] + CamelCase(s)
  {
    assert (['_', c] + s)[2..] == s;
  }

  /** The worked example: `analog_input` becomes `analogInput`. */
  lemma CamelCaseExample()
    ensures CamelCase("analog_input") == "analogInput"
  {
    var s := "analog_input";
    var head, c, tail := s[..6], s[7], s[8..];
    assert s == head + (['_', c] + tail);
    assert '_' !in head && '_' !in tail && c == 'i';
    CamelCasePrefix(head, ['_', c] + tail);
    CamelCaseUnderscore(c, tail);
    CamelCaseNoUnderscore(tail);
  }

  /** `re.search(sub, s)` for a pattern without metacharacters. */
  predicate Contains(s: string, sub: string)
    decreases |s|
  {
    (|sub| <= |s| && s[..|sub|] == sub) || (s != [] && Contains(s[1..], sub))
  }

  /** `sub` occurs in `s` starting at position `i`. */
  predicate OccursAt(s: string, sub: string, i: nat)
  {
    i + |sub| <= |s| && s[i..i + |sub|] == sub
  }

  /** The search finds the pattern wherever it occurs. */
  lemma {:induction false} ContainsAt(s: string, sub: string, i: nat)
    requires OccursAt(s, sub, i)
    ensures Contains(s, sub)
    decreases i
  {
    if i > 0 {
      assert s[1..][i - 1..i - 1 + |sub|] == s[i..i + |sub|];
      ContainsAt(s[1..], sub, i - 1);
    }
  }

  /** Conversely, the search finds the pattern only where it occurs. */
  lemma {:induction false} ContainsSound(s: string, sub: string)
    requires Contains(s, sub)
    ensures exists i: nat :: OccursAt(s, sub, i)
    decreases |s|
  {
    if |sub| <= |s| && s[..|sub|] == sub {
      assert OccursAt(s, sub, 0);
    } else {
      ContainsSound(s[1..], sub);
      var i: nat :| OccursAt(s[1..], sub, i);
      assert s[i + 1..i + 1 + |sub|] == s[1..][i..i + |sub|];
      assert OccursAt(s, sub, i + 1);
    }
  }

  lemma {:induction false} MissingCharNotContained(s: string, sub: string, c: char)
    requires c in sub && c !in s
    ensures !Contains(s, sub)
    decreases |s|
  {
    if s != [] {
      assert c !in s[1..];
      MissingCharNotContained(s[1..], sub, c);
    }
    var k :| 0 <= k < |sub| && sub[k] == c;
    assert |sub| <= |s| ==> s[..|sub|][k] != c;
  }
}
