/** The string operations the engine and the automation form rely on: JavaScript truthiness of a
    string, `toLowerCase`, `includes`, `trim`, `split` on a one-character separator and `substring(0, n)`. */
module Text {

  /** A JavaScript string is truthy exactly when it is not empty. */
  predicate Truthy(s: string) {
    s != ""
  }

  /** Lower-case mapping of one character (the ASCII letters; every other character is left as is). */
  function LowerChar(c: char): char {
    if 'A' <= c <= 'Z' then (c as int - 'A' as int + 'a' as int) as char else c
  }

  /** `s.toLowerCase()`, character by character. */
  function Lower(s: string): (r: string)
    ensures |r| == |s|
    ensures forall i :: 0 <= i < |s| ==> r[i] == LowerChar(s[i])
  {
    seq(|s|, i requires 0 <= i < |s| => LowerChar(s[i]))
  }

  /** Lower-casing twice is lower-casing once. */
  lemma LowerIdempotent(s: string)
    ensures Lower(Lower(s)) == Lower(s)
  {
  }

  /** Lower-casing distributes over concatenation. */
  lemma LowerAppend(a: string, b: string)
    ensures Lower(a + b) == Lower(a) + Lower(b)
  {
  }

  /** `sub` occurs in `s` starting at position `i`. */
  predicate OccursAt(s: string, sub: string, i: nat) {
    i + |sub| <= |s| && s[i..i + |sub|] == sub
  }

  /** `s.includes(sub)`: `sub` occurs in `s` at some position. */
  predicate Contains(s: string, sub: string) {
    exists i: nat | i <= |s| :: OccursAt(s, sub, i)
  }

  /** The empty string occurs in every string, so an empty keyword matches any text. */
  lemma ContainsEmpty(s: string)
    ensures Contains(s, "")
  {
    assert OccursAt(s, "", 0);
  }

  /** An occurrence survives lower-casing both sides: matching on lower-cased text ignores case. */
  lemma {:induction false} ContainsLower(s: string, sub: string)
    requires Contains(s, sub)
    ensures Contains(Lower(s), Lower(sub))
  {
    var i: nat :| i <= |s| && OccursAt(s, sub, i);
    assert Lower(s)[i..i + |sub|] == Lower(sub) by {
      forall k | 0 <= k < |sub|
        ensures Lower(s)[i..i + |sub|][k] == Lower(sub)[k]
      {
        assert s[i + k] == s[i..i + |sub|][k];
      }
    }
    assert OccursAt(Lower(s), Lower(sub), i);
  }

  /** A string in which the first character of `sub` never occurs does not contain `sub`. */
  lemma NotContainsWithout(s: string, sub: string)
    requires |sub| > 0 && forall k :: 0 <= k < |s| ==> s[k] != sub[0]
    ensures !Contains(s, sub)
  {
    forall i: nat | i <= |s|
      ensures !OccursAt(s, sub, i)
    {
      if i + |sub| <= |s| {
        assert s[i..i + |sub|][0] == s[i];
      }
    }
  }

  /** The characters `String.prototype.trim` removes: ECMAScript WhiteSpace and LineTerminator. */
  predicate IsWhitespace(c: char) {
    c == '\t' || c == '\n' || c == '\U{000B}' || c == '\U{000C}' || c == '\r' || c == ' ' ||
    c == '\U{00A0}' || c == '\U{1680}' || ('\U{2000}' <= c <= '\U{200A}') ||
    c == '\U{2028}' || c == '\U{2029}' || c == '\U{202F}' || c == '\U{205F}' ||
    c == '\U{3000}' || c == '\U{FEFF}'
  }

  /** Every character of `s` is whitespace. */
  predicate AllWhitespace(s: string) {
    forall k :: 0 <= k < |s| ==> IsWhitespace(s[k])
  }

  /** `s` without its leading whitespace. */
  function TrimStart(s: string): string {
    if s == [] || !IsWhitespace(s[0]) then s else TrimStart(s[1..])
  }

  /** `s` without its trailing whitespace. */
  function TrimEnd(s: string): string {
    if s == [] || !IsWhitespace(s[|s| - 1]) then s else TrimEnd(s[..|s| - 1])
  }

  /** `s.trim()`: `s` without its leading and trailing whitespace. */
  function Trim(s: string): string {
    TrimEnd(TrimStart(s))
  }

  /** Dropping leading whitespace keeps a suffix that does not start with whitespace. */
  lemma {:induction false} TrimStartShape(s: string)
    ensures var r := TrimStart(s);
      |r| <= |s| && r == s[|s| - |r|..] && (r == "" || !IsWhitespace(r[0])) && AllWhitespace(s[..|s| - |r|])
  {
    if s != [] && IsWhitespace(s[0]) {
      TrimStartShape(s[1..]);
      var r := TrimStart(s[1..]);
      assert s[..|s| - |r|] == [s[0]] + s[1..][..|s| - 1 - |r|];
    }
  }

  /** Dropping trailing whitespace keeps a prefix that does not end with whitespace. */
  lemma {:induction false} TrimEndShape(s: string)
    ensures var r := TrimEnd(s);
      |r| <= |s| && r == s[..|r|] && (r == "" || !IsWhitespace(r[|r| - 1])) && AllWhitespace(s[|r|..])
  {
    if s != [] && IsWhitespace(s[|s| - 1]) {
      TrimEndShape(s[..|s| - 1]);
      var r := TrimEnd(s[..|s| - 1]);
      assert s[|r|..] == s[..|s| - 1][|r|..] + [s[|s| - 1]];
    }
  }

  /** Trimming keeps a contiguous slice of `s` that neither starts nor ends with whitespace, and
      drops only whitespace. */
  lemma TrimShape(s: string)
    ensures var r := Trim(s);
      (r == "" || (!IsWhitespace(r[0]) && !IsWhitespace(r[|r| - 1]))) &&
      exists i, j :: 0 <= i <= j <= |s| && r == s[i..j] && AllWhitespace(s[..i]) && AllWhitespace(s[j..])
  {
    var a := TrimStart(s);
    var r := TrimEnd(a);
    TrimStartShape(s);
    TrimEndShape(a);
    var i := |s| - |a|;
    assert r != "" ==> r[0] == a[0];
    assert r == s[i..i + |r|] by {
      assert a == s[i..];
    }
    assert AllWhitespace(s[i + |r|..]) by {
      assert a[|r|..] == s[i + |r|..];
    }
  }

  /** `s.split(sep)` for a one-character separator: the pieces between occurrences of `sep`.
      The empty string yields one empty piece. */
  function Split(s: string, sep: char): (r: seq<string>)
    ensures |r| >= 1
  {
    if s == [] then [""]
    else
      var rest := Split(s[1..], sep);
      if s[0] == sep then [""] + rest
      else [[s[0]] + rest[0]] + rest[1..]
  }

  /** `parts.join(sep)`. */
  function Join(parts: seq<string>, sep: char): string {
    if |parts| == 0 then ""
    else if |parts| == 1 then parts[0]
    else parts[0] + [sep] + Join(parts[1..], sep)
  }

  /** Splitting and re-joining with the same separator gives back the original string. */
  lemma {:induction false} SplitJoin(s: string, sep: char)
    ensures Join(Split(s, sep), sep) == s
  {
    if s != [] {
      var rest := Split(s[1..], sep);
      SplitJoin(s[1..], sep);
      if s[0] == sep {
        assert Split(s, sep) == [""] + rest;
        assert ([""] + rest)[1..] == rest;
      } else {
        var r := Split(s, sep);
        assert r == [[s[0]] + rest[0]] + rest[1..];
        if |rest| > 1 {
          assert r[1..] == rest[1..];
          assert Join(rest, sep) == rest[0] + [sep] + Join(rest[1..], sep);
        }
      }
    }
  }

  /** No piece of a split contains the separator. */
  lemma {:induction false} SplitPiecesHaveNoSeparator(s: string, sep: char)
    ensures forall p :: p in Split(s, sep) ==> sep !in p
  {
    if s != [] {
      SplitPiecesHaveNoSeparator(s[1..], sep);
      var rest := Split(s[1..], sep);
      assert rest[0] in rest;
      if s[0] != sep {
        forall p | p in Split(s, sep)
          ensures sep !in p
        {
          if p != [s[0]] + rest[0] {
            assert p in rest[1..];
          }
        }
      }
    }
  }

  /** A string without the separator is a single piece. */
  lemma {:induction false} SplitWithoutSeparator(s: string, sep: char)
    requires sep !in s
    ensures Split(s, sep) == [s]
  {
    if s != [] {
      SplitWithoutSeparator(s[1..], sep);
      assert [s[0]] + s[1..] == s;
    }
  }

  /** The first piece ends at the first separator. */
  lemma {:induction false} SplitAtSeparator(a: string, sep: char, b: string)
    requires sep !in a
    ensures Split(a + [sep] + b, sep) == [a] + Split(b, sep)
  {
    if a == [] {
      assert a + [sep] + b == [sep] + b;
      assert ([sep] + b)[1..] == b;
    } else {
      SplitAtSeparator(a[1..], sep, b);
      var s := a + [sep] + b;
      assert s[0] == a[0] && s[1..] == a[1..] + [sep] + b;
      assert [a[0]] + a[1..] == a;
    }
  }

  /** A string that neither starts nor ends with whitespace is its own trim. */
  lemma TrimUnchanged(s: string)
    requires s == "" || (!IsWhitespace(s[0]) && !IsWhitespace(s[|s| - 1]))
    ensures Trim(s) == s
  {
  }

  /** The number of occurrences of `c` in `s`. */
  function Count(s: string, c: char): nat {
    if s == [] then 0 else (if s[0] == c then 1 else 0) + Count(s[1..], c)
  }

  /** A split has one more piece than there are separators. */
  lemma {:induction false} SplitLength(s: string, sep: char)
    ensures |Split(s, sep)| == Count(s, sep) + 1
  {
    if s != [] {
      SplitLength(s[1..], sep);
    }
  }

  /** `s.substring(0, n)` for `n >= 0`: the first `n` characters, or all of `s` when it is shorter. */
  function Prefix(s: string, n: nat): (r: string)
    ensures |r| <= n && |r| <= |s| && r == s[..|r|]
    ensures |s| >= n ==> |r| == n
  {
    if |s| <= n then s else s[..n]
  }
}
