/**
 * The JavaScript string built-ins the core relies on: the `\d` and `\s` character classes,
 * `includes`, `startsWith`, `indexOf`, `replace` of a first occurrence, `replace(/\s/g, '')`,
 * `trim` and `split`. JavaScript strings are sequences of UTF-16 code units; the model's
 * `string` is a sequence of Unicode scalar values. This changes no result here: the digits, the
 * whitespace characters, the suffix 년생, the pig words and the comma are all in the Basic
 * Multilingual Plane, each one code unit, and no code unit of a surrogate pair equals any of them.
 */
module JsString {

  /** `\d` in a regular expression without the `u` flag: the ten ASCII digits and nothing else. */
  predicate IsAsciiDigit(c: char) {
    '0' <= c <= '9'
  }

  /**
   * `\s` in a regular expression, which is also the set `String.prototype.trim` strips: the
   * ECMAScript WhiteSpace code points (tab, vertical tab, form feed, no-break space, the byte
   * order mark and every space separator) and the LineTerminator code points.
   */
  predicate IsWhitespace(c: char) {
    || c == '\t' || c == '\n' || c == '\U{000B}' || c == '\U{000C}' || c == '\r'
    || c == ' ' || c == '\U{00A0}' || c == '\U{1680}' || ('\U{2000}' <= c <= '\U{200A}')
    || c == '\U{2028}' || c == '\U{2029}' || c == '\U{202F}' || c == '\U{205F}'
    || c == '\U{3000}' || c == '\U{FEFF}'
  }

  predicate AllWhitespace(s: string) {
    forall i :: 0 <= i < |s| ==> IsWhitespace(s[i])
  }

  /** `sub` occurs in `s` starting at index `k`. */
  ghost predicate OccursAt(s: string, sub: string, k: int) {
    0 <= k && k + |sub| <= |s| && s[k..k + |sub|] == sub
  }

  /** `sub` is a substring of `s`. */
  ghost predicate Occurs(s: string, sub: string) {
    exists k :: OccursAt(s, sub, k)
  }

  /** `s.startsWith(prefix)`. */
  predicate StartsWith(s: string, prefix: string) {
    |prefix| <= |s| && s[..|prefix|] == prefix
  }

  lemma OccursShift(s: string, sub: string, k: int)
    requires s != [] && k >= 0
    ensures OccursAt(s[1..], sub, k) <==> OccursAt(s, sub, k + 1)
  {
    if 0 <= k && k + |sub| <= |s| - 1 {
      assert s[1..][k..k + |sub|] == s[k + 1..k + 1 + |sub|];
    }
  }

  /** When `sub` is not a prefix of `s`, it occurs in `s` exactly when it occurs in `s[1..]`. */
  lemma OccursPastHead(s: string, sub: string)
    requires |sub| <= |s| && s[..|sub|] != sub
    ensures Occurs(s, sub) <==> Occurs(s[1..], sub)
    ensures forall k :: OccursAt(s, sub, k) ==> k > 0
  {
    if Occurs(s[1..], sub) {
      var k :| OccursAt(s[1..], sub, k);
      OccursShift(s, sub, k);
    }
    if Occurs(s, sub) {
      var k :| OccursAt(s, sub, k);
      OccursShift(s, sub, k - 1);
    }
  }

  /** `s.includes(sub)`: true exactly when `sub` is a substring of `s`. */
  function Includes(s: string, sub: string): (r: bool)
    ensures r <==> Occurs(s, sub)
  {
    if |sub| > |s| then
      false
    else if s[..|sub|] == sub then
      assert OccursAt(s, sub, 0);
      true
    else
      OccursPastHead(s, sub);
      Includes(s[1..], sub)
  }

  /** `s.indexOf(sub)`: the first index at which `sub` occurs, or -1 when it does not occur. */
  function IndexOf(s: string, sub: string): (r: int)
    ensures -1 <= r
    ensures r == -1 <==> !Occurs(s, sub)
    ensures r >= 0 ==> OccursAt(s, sub, r) && forall k :: 0 <= k < r ==> !OccursAt(s, sub, k)
  {
    if |sub| > |s| then
      -1
    else if s[..|sub|] == sub then
      assert OccursAt(s, sub, 0);
      0
    else
      OccursPastHead(s, sub);
      var j := IndexOf(s[1..], sub);
      if j == -1 then
        -1
      else
        OccursShift(s, sub, j);
        assert forall k :: 0 < k < j + 1 ==> !OccursAt(s, sub, k) by {
          forall k | 0 < k < j + 1 ensures !OccursAt(s, sub, k) {
            OccursShift(s, sub, k - 1);
          }
        }
        j + 1
  }

  /** `s.replace(pattern, replacement)` with a string pattern: only the first occurrence is replaced. */
  function ReplaceFirst(s: string, pattern: string, replacement: string): (r: string)
    ensures !Occurs(s, pattern) ==> r == s
    ensures Occurs(s, pattern) ==>
      var i := IndexOf(s, pattern);
      r == s[..i] + replacement + s[i + |pattern|..]
  {
    var i := IndexOf(s, pattern);
    if i < 0 then s else s[..i] + replacement + s[i + |pattern|..]
  }

  /** `s.replace(/\s/g, '')`: every whitespace character removed, the others kept in order. */
  function RemoveWhitespace(s: string): (r: string)
    ensures |r| <= |s|
    ensures forall i :: 0 <= i < |r| ==> !IsWhitespace(r[i])
  {
    if s == [] then []
    else (if IsWhitespace(s[0]) then [] else [s[0]]) + RemoveWhitespace(s[1..])
  }

  lemma {:induction false} RemoveWhitespaceAppend(a: string, b: string)
    ensures RemoveWhitespace(a + b) == RemoveWhitespace(a) + RemoveWhitespace(b)
  {
    if a != [] {
      var head := if IsWhitespace(a[0]) then [] else [a[0]];
      assert (a + b)[0] == a[0];
      assert (a + b)[1..] == a[1..] + b;
      RemoveWhitespaceAppend(a[1..], b);
      calc {
        RemoveWhitespace(a + b);
        head + RemoveWhitespace(a[1..] + b);
        head + (RemoveWhitespace(a[1..]) + RemoveWhitespace(b));
        (head + RemoveWhitespace(a[1..])) + RemoveWhitespace(b);
      }
    } else {
      assert a + b == b;
    }
  }

  lemma {:induction false} RemoveWhitespaceOfBlank(w: string)
    requires AllWhitespace(w)
    ensures RemoveWhitespace(w) == []
  {
    if w != [] {
      RemoveWhitespaceOfBlank(w[1..]);
    }
  }

  /** Removing whitespace keeps a string that has none as it is, so the removal is idempotent. */
  lemma {:induction false} RemoveWhitespaceKeepsText(s: string)
    requires forall i :: 0 <= i < |s| ==> !IsWhitespace(s[i])
    ensures RemoveWhitespace(s) == s
  {
    if s != [] {
      RemoveWhitespaceKeepsText(s[1..]);
    }
  }

  /** Inserting whitespace anywhere in a string does not change it once whitespace is removed. */
  lemma WhitespaceInsertionInvisible(a: string, w: string, b: string)
    requires AllWhitespace(w)
    ensures RemoveWhitespace(a + w + b) == RemoveWhitespace(a + b)
  {
    RemoveWhitespaceAppend(a + w, b);
    RemoveWhitespaceAppend(a, w);
    RemoveWhitespaceAppend(a, b);
    RemoveWhitespaceOfBlank(w);
  }

  /** The leading whitespace of `s` removed: a suffix of `s`. */
  function TrimStart(s: string): (r: string)
    ensures |r| <= |s| && r == s[|s| - |r|..]
    ensures forall i :: 0 <= i < |s| - |r| ==> IsWhitespace(s[i])
    ensures r != [] ==> !IsWhitespace(r[0])
  {
    if s != [] && IsWhitespace(s[0]) then TrimStart(s[1..]) else s
  }

  /** The trailing whitespace of `s` removed: a prefix of `s`. */
  function TrimEnd(s: string): (r: string)
    ensures |r| <= |s| && r == s[..|r|]
    ensures forall i :: |r| <= i < |s| ==> IsWhitespace(s[i])
    ensures r != [] ==> !IsWhitespace(r[|r| - 1])
  {
    if s != [] && IsWhitespace(s[|s| - 1]) then TrimEnd(s[..|s| - 1]) else s
  }

  /**
   * `s.trim()`: the part of `s` between its leading and its trailing whitespace. The result is
   * empty exactly when `s` is all whitespace, and otherwise it starts and ends with a
   * non-whitespace character.
   */
  function Trim(s: string): (r: string)
    ensures r == [] <==> AllWhitespace(s)
    ensures r != [] ==> !IsWhitespace(r[0]) && !IsWhitespace(r[|r| - 1])
  {
    var t := TrimStart(s);
    TrimStartOfBlank(s);
    assert t != [] ==> TrimEnd(t) != [] && TrimEnd(t)[0] == t[0] by {
      if t != [] {
        TrimEndKeepsHead(t);
      }
    }
    TrimEnd(t)
  }

  /** Trimming the end of text that starts with a non-blank keeps that first character. */
  lemma TrimEndKeepsHead(t: string)
    requires t != [] && !IsWhitespace(t[0])
    ensures TrimEnd(t) != [] && TrimEnd(t)[0] == t[0]
  {
  }

  lemma TrimStartOfBlank(s: string)
    ensures TrimStart(s) == [] <==> AllWhitespace(s)
    ensures TrimEnd(TrimStart(s)) == [] <==> AllWhitespace(s)
  {
  }

  /** `s` is the trimmed text with only whitespace before and after it. */
  lemma {:induction false} TrimIsInfix(s: string)
    ensures var r := Trim(s);
      exists i :: OccursAt(s, r, i) && AllWhitespace(s[..i]) && AllWhitespace(s[i + |r|..])
  {
    var t := TrimStart(s);
    var r := TrimEnd(t);
    var i := |s| - |t|;
    assert s[i..i + |r|] == r by {
      assert s[i..] == t;
      assert s[i..][..|r|] == s[i..i + |r|];
    }
    assert AllWhitespace(s[..i]) by {
      forall j | 0 <= j < i ensures IsWhitespace(s[..i][j]) {
        assert s[..i][j] == s[j];
      }
    }
    var rest := s[i + |r|..];
    assert AllWhitespace(rest) by {
      forall j | 0 <= j < |rest| ensures IsWhitespace(rest[j]) {
        assert rest[j] == t[|r| + j];
      }
    }
    assert OccursAt(s, r, i);
  }

  /** Trimming a trimmed string changes nothing. */
  lemma TrimIdempotent(s: string)
    ensures Trim(Trim(s)) == Trim(s)
  {
    var r := Trim(s);
    if r != [] {
      assert TrimStart(r) == r;
      assert TrimEnd(r) == r;
    }
  }

  /** The parts of `s` separated by `sep` put back together: the inverse of `Split`. */
  function Join(parts: seq<string>, sep: char): string
    requires |parts| >= 1
  {
    if |parts| == 1 then parts[0] else parts[0] + [sep] + Join(parts[1..], sep)
  }

  /**
   * `s.split(sep)` for a one-character separator: the maximal runs of `s` without `sep`, one more
   * than the number of separators, which `Join` puts back together into `s`.
   */
  function Split(s: string, sep: char): (parts: seq<string>)
    ensures |parts| >= 1
    ensures forall k :: 0 <= k < |parts| ==> sep !in parts[k]
    ensures Join(parts, sep) == s
  {
    if s == [] then
      [[]]
    else
      var rest := Split(s[1..], sep);
      if s[0] == sep then
        [[]] + rest
      else
        var parts := [[s[0]] + rest[0]] + rest[1..];
        assert parts[1..] == rest[1..];
        assert Join(parts, sep) == [s[0]] + Join(rest, sep);
        parts
  }

  /**
   * The first part of a split is the text before the first separator (or all of `s` when there
   * is none), and the other parts are the split of what follows that separator.
   */
  lemma {:induction false} SplitHead(s: string, sep: char)
    ensures var h := Split(s, sep)[0];
      |h| <= |s| && s[..|h|] == h && (|h| == |s| || s[|h|] == sep)
    ensures |Split(s, sep)| > 1 ==>
      |Split(s, sep)[0]| < |s| && Split(s, sep)[1..] == Split(s[|Split(s, sep)[0]| + 1..], sep)
  {
    if s != [] && s[0] != sep {
      var rest := Split(s[1..], sep);
      SplitHead(s[1..], sep);
      var h := [s[0]] + rest[0];
      assert Split(s, sep) == [h] + rest[1..];
      assert s[..|h|] == [s[0]] + s[1..][..|rest[0]|];
      if |rest| > 1 {
        assert s[1..][|rest[0]| + 1..] == s[|h| + 1..];
      }
    }
  }
  /** The second part runs from just after the first separator to the next separator or the end. */
  lemma SplitSecond(s: string, sep: char)
    requires |Split(s, sep)| > 1
    ensures var h := |Split(s, sep)[0]|; var p := Split(s, sep)[1];
      && h + 1 + |p| <= |s| && s[h + 1..h + 1 + |p|] == p
      && (h + 1 + |p| == |s| || s[h + 1 + |p|] == sep)
  {
    var h := |Split(s, sep)[0]|;
    var p := SecondPartIsHeadOfRest(s, sep);
    SplitHead(s[h + 1..], sep);
    PrefixOfDrop(s, h + 1, |p|);
  }

  /** A prefix of what follows index `a` is a slice of `s` starting at `a`. */
  lemma PrefixOfDrop(s: string, a: nat, n: nat)
    requires a + n <= |s|
    ensures s[a..][..n] == s[a..a + n]
    ensures a + n < |s| ==> s[a..][n] == s[a + n]
  {
  }

  /** The second part is the first part of the split of what follows the first separator. */
  lemma SecondPartIsHeadOfRest(s: string, sep: char) returns (p: string)
    requires |Split(s, sep)| > 1
    ensures |Split(s, sep)[0]| < |s|
    ensures p == Split(s, sep)[1] == Split(s[|Split(s, sep)[0]| + 1..], sep)[0]
  {
    SplitHead(s, sep);
    var parts := Split(s, sep);
    assert parts[1] == parts[1..][0];
    p := parts[1];
  }


}
