/**
 * The birth-year list of the fortune viewer (components/FortuneViewer.tsx, the effect on `script`):
 * every match of the global pattern `(\d{2,4})년생` in the script, found left to right as a
 * JavaScript regular expression finds them, without repeats (first occurrences kept, in order, as
 * a `Set` keeps them), then sorted stably by the four-digit year each token stands for.
 */
module BirthYears {
  import opened Wrappers
  import opened JsString

  /** The literal that ends every token: "년생" ("born in"). */
  const Suffix: string := "년생"

  /** Two to four ASCII digits followed by the suffix: what the pattern matches. */
  predicate IsToken(t: string) {
    && 2 + |Suffix| <= |t| <= 4 + |Suffix|
    && (forall k :: 0 <= k < |t| - |Suffix| ==> IsAsciiDigit(t[k]))
    && t[|t| - |Suffix|..] == Suffix
  }

  /** A token of length `len` starts at index `i` of `s`. */
  ghost predicate TokenAt(s: string, i: int, len: int) {
    0 <= i && 0 <= len && i + len <= |s| && IsToken(s[i..i + len])
  }

  predicate AllTokens(xs: seq<string>) {
    forall t :: t in xs ==> IsToken(t)
  }

  /** One match of the pattern: where it starts in the script and how long it is. */
  datatype Span = Span(start: nat, len: nat)

  /** The number of consecutive ASCII digits in `s` from index `i` on. */
  function DigitRun(s: string, i: nat): (n: nat)
    requires i <= |s|
    ensures i + n <= |s|
    ensures forall k :: i <= k < i + n ==> IsAsciiDigit(s[k])
    ensures i + n < |s| ==> !IsAsciiDigit(s[i + n])
    decreases |s| - i
  {
    if i < |s| && IsAsciiDigit(s[i]) then 1 + DigitRun(s, i + 1) else 0
  }

  predicate SuffixAt(s: string, i: nat) {
    i + |Suffix| <= |s| && s[i..i + |Suffix|] == Suffix
  }

  /**
   * The backtracking of the greedy `\d{2,4}`: try the suffix after `n` digits, then after one
   * digit fewer, down to two digits. The result is the length of the whole match.
   */
  function TryDigits(s: string, i: nat, n: nat): (r: Option<nat>)
    requires i + n <= |s|
    ensures r.Some? ==> 2 + |Suffix| <= r.value <= n + |Suffix| && i + r.value <= |s|
  {
    if n < 2 then None
    else if SuffixAt(s, i + n) then Some(n + |Suffix|)
    else TryDigits(s, i, n - 1)
  }

  /** Backtracking to fewer digits never helps: a shorter run is followed by a digit, not the suffix. */
  lemma {:induction false} TryDigitsFindsWholeRun(s: string, i: nat, n: nat)
    requires i + n <= |s| && n <= DigitRun(s, i)
    ensures TryDigits(s, i, n)
      == if 2 <= n == DigitRun(s, i) && SuffixAt(s, i + n) then Some(n + |Suffix|) else None
  {
    if n >= 2 {
      if n < DigitRun(s, i) {
        assert IsAsciiDigit(s[i + n]);
        assert s[i + n] != Suffix[0];
        assert !SuffixAt(s, i + n);
      }
      if !SuffixAt(s, i + n) {
        TryDigitsFindsWholeRun(s, i, n - 1);
      }
    }
  }

  /**
   * The match of the pattern at index `i`, as its length: there is one exactly when a token
   * starts at `i`, and then it is that token (a token starting at `i` has a unique length).
   */
  function MatchAt(s: string, i: nat): (r: Option<nat>)
    requires i <= |s|
    ensures r.Some? ==> 2 + |Suffix| <= r.value <= 4 + |Suffix| && i + r.value <= |s|
  {
    var run := DigitRun(s, i);
    TryDigits(s, i, if run < 4 then run else 4)
  }

  /** The pattern matches at `i` exactly when a token starts there, and then it is that token. */
  lemma MatchAtIsToken(s: string, i: nat)
    requires i <= |s|
    ensures MatchAt(s, i).Some? ==> TokenAt(s, i, MatchAt(s, i).value)
    ensures forall len :: TokenAt(s, i, len) ==> MatchAt(s, i) == Some(len)
  {
    var run := DigitRun(s, i);
    TryDigitsFindsWholeRun(s, i, if run < 4 then run else 4);
    TokenAtIsDigitRun(s, i);
  }

  /** A token at `i` consists of the whole digit run from `i` and the suffix after it. */
  lemma TokenAtIsDigitRun(s: string, i: nat)
    requires i <= |s|
    ensures forall len :: TokenAt(s, i, len) <==>
      var run := DigitRun(s, i);
      2 <= run <= 4 && len == run + |Suffix| && SuffixAt(s, i + run)
  {
    var run := DigitRun(s, i);
    forall len | TokenAt(s, i, len)
      ensures 2 <= run <= 4 && len == run + |Suffix| && SuffixAt(s, i + run)
    {
      TokenIsDigitRun(s, i, len);
    }
    if 2 <= run <= 4 && SuffixAt(s, i + run) {
      DigitRunIsToken(s, i);
    }
  }

  /** A token at `i` is the digit run from `i` followed by the suffix. */
  lemma TokenIsDigitRun(s: string, i: nat, len: nat)
    requires TokenAt(s, i, len)
    ensures var run := DigitRun(s, i);
      2 <= run <= 4 && len == run + |Suffix| && SuffixAt(s, i + run)
  {
    var t := s[i..i + len];
    var d := len - |Suffix|;
    assert forall k :: i <= k < i + d ==> IsAsciiDigit(s[k]) by {
      forall k | i <= k < i + d ensures IsAsciiDigit(s[k]) {
        assert s[k] == t[k - i];
      }
    }
    assert s[i + d] == t[d] == Suffix[0];
    assert s[i + d..i + d + |Suffix|] == t[d..];
  }

  /** A digit run of two to four digits followed by the suffix is a token. */
  lemma DigitRunIsToken(s: string, i: nat)
    requires i <= |s|
    requires var run := DigitRun(s, i); 2 <= run <= 4 && SuffixAt(s, i + run)
    ensures TokenAt(s, i, DigitRun(s, i) + |Suffix|)
  {
    var run := DigitRun(s, i);
    var len := run + |Suffix|;
    var t := s[i..i + len];
    assert t[run..] == s[i + run..i + run + |Suffix|];
    assert forall k :: 0 <= k < run ==> IsAsciiDigit(t[k]) by {
      forall k | 0 <= k < run ensures IsAsciiDigit(t[k]) {
        assert t[k] == s[i + k];
      }
    }
  }

  /**
   * `s.match(/(\d{2,4})년생/g)` from index `from`, as positions: try a match at `from`; after a
   * match, go on from its end, otherwise from the next index.
   */
  function Matches(s: string, from: nat): (m: seq<Span>)
    requires from <= |s|
    ensures forall k :: 0 <= k < |m| ==> from <= m[k].start && m[k].start + m[k].len <= |s|
    decreases |s| - from
  {
    if from == |s| then
      []
    else
      match MatchAt(s, from)
      case Some(len) => [Span(from, len)] + Matches(s, from + len)
      case None => Matches(s, from + 1)
  }

  /** A match at `from` is the first span of the scan from `from`. */
  lemma FirstOfScan(s: string, from: nat)
    requires from < |s| && MatchAt(s, from).Some?
    ensures 0 < |Matches(s, from)| && Matches(s, from)[0] == Span(from, MatchAt(s, from).value)
  {
  }

  /** After a match at `from`, the scan goes on from the match's end. */
  lemma RestOfScan(s: string, from: nat, k: nat)
    requires from < |s| && MatchAt(s, from).Some? && 0 < k < |Matches(s, from)|
    ensures var next := from + MatchAt(s, from).value;
      k - 1 < |Matches(s, from + MatchAt(s, from).value)|
      && Matches(s, from)[k] == Matches(s, next)[k - 1]
  {
    var next := from + MatchAt(s, from).value;
    assert Matches(s, from) == [Span(from, MatchAt(s, from).value)] + Matches(s, next);
  }

  /** Without a match at `from`, the scan from `from` is the scan from the next index. */
  lemma SkipInScan(s: string, from: nat)
    requires from < |s| && MatchAt(s, from).None?
    ensures Matches(s, from) == Matches(s, from + 1)
  {
  }

  /** The `k`-th match of the scan from `from` is a match of the pattern at its own start. */
  lemma {:induction false} MatchIsMatchAt(s: string, from: nat, k: nat)
    requires from <= |s| && k < |Matches(s, from)|
    ensures Matches(s, from)[k].start <= |s|
    ensures MatchAt(s, Matches(s, from)[k].start) == Some(Matches(s, from)[k].len)
    decreases |s| - from
  {
    var r := MatchAt(s, from);
    if r.Some? {
      if k == 0 {
        FirstOfScan(s, from);
      } else {
        RestOfScan(s, from, k);
        MatchIsMatchAt(s, from + r.value, k - 1);
      }
    } else {
      SkipInScan(s, from);
      MatchIsMatchAt(s, from + 1, k);
    }
  }

  /** The `k`-th match of the scan from `from` is a token of the script. */
  lemma MatchIsToken(s: string, from: nat, k: nat)
    requires from <= |s| && k < |Matches(s, from)|
    ensures TokenAt(s, Matches(s, from)[k].start, Matches(s, from)[k].len)
  {
    MatchIsMatchAt(s, from, k);
    MatchAtIsToken(s, Matches(s, from)[k].start);
  }

  /** Every match is a token of the script. */
  lemma MatchesAreTokens(s: string, from: nat)
    requires from <= |s|
    ensures forall k :: 0 <= k < |Matches(s, from)| ==>
      TokenAt(s, Matches(s, from)[k].start, Matches(s, from)[k].len)
  {
    forall k | 0 <= k < |Matches(s, from)|
      ensures TokenAt(s, Matches(s, from)[k].start, Matches(s, from)[k].len)
    {
      MatchIsToken(s, from, k);
    }
  }

  /** Some span of `m` covers index `i` of the script. */
  ghost predicate Covered(m: seq<Span>, i: int) {
    exists k :: 0 <= k < |m| && m[k].start <= i < m[k].start + m[k].len
  }

  /** The matches come in increasing order, without overlapping. */
  lemma {:induction false} MatchesAreOrdered(s: string, from: nat)
    requires from <= |s|
    ensures forall k :: 0 <= k < |Matches(s, from)| - 1 ==>
      Matches(s, from)[k].start + Matches(s, from)[k].len <= Matches(s, from)[k + 1].start
    decreases |s| - from
  {
    if from < |s| {
      var m := Matches(s, from);
      match MatchAt(s, from)
      case Some(len0) =>
        MatchesAreOrdered(s, from + len0);
        var rest := Matches(s, from + len0);
        assert m == [Span(from, len0)] + rest;
        assert forall k :: 0 < k < |m| ==> m[k] == rest[k - 1];
        assert |m| > 1 ==> m[0].start + m[0].len <= m[1].start;
      case None =>
        MatchesAreOrdered(s, from + 1);
        assert m == Matches(s, from + 1);
    }
  }

  /** The `k`-th span of `m` covers index `i`. */
  ghost predicate CoversAt(m: seq<Span>, k: nat, i: int) {
    k < |m| && m[k].start <= i < m[k].start + m[k].len
  }

  /** A match at `from` covers the indices it spans. */
  lemma CoverHere(s: string, from: nat, i: nat)
    requires from <= i < |s| && MatchAt(s, from).Some? && i < from + MatchAt(s, from).value
    ensures CoversAt(Matches(s, from), 0, i)
  {
    FirstOfScan(s, from);
  }

  /** A span of the scan after a match at `from` is a span of the scan from `from`, one place later. */
  lemma CoverLater(s: string, from: nat, i: nat, j: nat)
    requires from < |s| && MatchAt(s, from).Some?
    requires CoversAt(Matches(s, from + MatchAt(s, from).value), j, i)
    ensures CoversAt(Matches(s, from), j + 1, i)
  {
    assert Matches(s, from) == [Span(from, MatchAt(s, from).value)] + Matches(s, from + MatchAt(s, from).value);
  }

  /** A span of the scan from the next index is a span of the scan from `from` when nothing matches at `from`. */
  lemma CoverSkip(s: string, from: nat, i: nat, k: nat)
    requires from < |s| && MatchAt(s, from).None? && CoversAt(Matches(s, from + 1), k, i)
    ensures CoversAt(Matches(s, from), k, i)
  {
    SkipInScan(s, from);
  }

  /** The match that covers an index at or after `from` where the pattern matches: its index in the scan. */
  lemma {:induction false} CoveringMatch(s: string, from: nat, i: nat) returns (k: nat)
    requires from <= i < |s| && MatchAt(s, i).Some?
    ensures CoversAt(Matches(s, from), k, i)
    decreases |s| - from, 1
  {
    if MatchAt(s, from).None? {
      k := CoveringMatch(s, from + 1, i);
      CoverSkip(s, from, i, k);
    } else if i < from + MatchAt(s, from).value {
      CoverHere(s, from, i);
      k := 0;
    } else {
      k := CoveringMatchAfter(s, from, i);
    }
  }

  /** `CoveringMatch` when a match at `from` ends at or before `i`. */
  lemma {:induction false} CoveringMatchAfter(s: string, from: nat, i: nat) returns (k: nat)
    requires from <= i < |s| && MatchAt(s, i).Some?
    requires MatchAt(s, from).Some? && from + MatchAt(s, from).value <= i
    ensures CoversAt(Matches(s, from), k, i)
    decreases |s| - from, 0
  {
    var j := CoveringMatch(s, from + MatchAt(s, from).value, i);
    CoverLater(s, from, i, j);
    k := j + 1;
  }

  /**
   * No token is left out except one that starts inside an earlier match: every index at or
   * after `from` where a token starts is covered by a match.
   */
  lemma MatchesAreLeftmost(s: string, from: nat, i: nat, len: nat)
    requires from <= i && TokenAt(s, i, len)
    ensures Covered(Matches(s, from), i)
  {
    MatchAtIsToken(s, i);
    var k := CoveringMatch(s, from, i);
  }

  /** The matched substrings, which is what `String.prototype.match` returns for a global pattern. */
  function Texts(s: string, m: seq<Span>): (r: seq<string>)
    requires forall k :: 0 <= k < |m| ==> m[k].start + m[k].len <= |s|
    ensures |r| == |m|
    ensures forall k :: 0 <= k < |m| ==> r[k] == s[m[k].start..m[k].start + m[k].len]
  {
    seq(|m|, k requires 0 <= k < |m| => s[m[k].start..m[k].start + m[k].len])
  }

  /** `script.match(yearPattern) || []`: the matched tokens, left to right, repeats included. */
  function MatchStrings(script: string): (r: seq<string>)
    ensures AllTokens(r)
  {
    var m := Matches(script, 0);
    MatchesAreTokens(script, 0);
    var r := Texts(script, m);
    assert forall k :: 0 <= k < |r| ==> IsToken(r[k]) by {
      forall k | 0 <= k < |r| ensures IsToken(r[k]) {
        assert TokenAt(script, m[k].start, m[k].len);
      }
    }
    r
  }

  /** `[...new Set(xs)]`: the distinct elements of `xs`, each where it first occurs. */
  function Dedupe(xs: seq<string>): (r: seq<string>)
    ensures forall x :: x in r <==> x in xs
    ensures forall i, j :: 0 <= i < j < |r| ==> r[i] != r[j]
    ensures |r| <= |xs|
  {
    if xs == [] then
      []
    else
      var p := Dedupe(xs[..|xs| - 1]);
      var x := xs[|xs| - 1];
      assert xs == xs[..|xs| - 1] + [x];
      if x in p then p else p + [x]
  }

  /** The index of the first occurrence of `x` in `xs`. */
  function FirstIndex(xs: seq<string>, x: string): (i: nat)
    requires x in xs
    ensures i < |xs| && xs[i] == x && x !in xs[..i]
  {
    if xs[0] == x then 0 else 1 + FirstIndex(xs[1..], x)
  }

  lemma {:induction false} FirstIndexOfPrefix(xs: seq<string>, ys: seq<string>, x: string)
    requires x in xs
    ensures FirstIndex(xs + ys, x) == FirstIndex(xs, x)
  {
    if xs[0] != x {
      assert (xs + ys)[1..] == xs[1..] + ys;
      FirstIndexOfPrefix(xs[1..], ys, x);
    }
  }

  /** The elements `Dedupe` keeps appear in the order of their first occurrences in `xs`. */
  lemma {:induction false} DedupeKeepsFirstOccurrenceOrder(xs: seq<string>)
    ensures forall i, j :: 0 <= i < j < |Dedupe(xs)| ==>
      FirstIndex(xs, Dedupe(xs)[i]) < FirstIndex(xs, Dedupe(xs)[j])
  {
    if xs != [] {
      var pre := xs[..|xs| - 1];
      var x := xs[|xs| - 1];
      var p := Dedupe(pre);
      var r := Dedupe(xs);
      assert xs == pre + [x];
      DedupeKeepsFirstOccurrenceOrder(pre);
      forall y | y in pre ensures FirstIndex(xs, y) == FirstIndex(pre, y) {
        FirstIndexOfPrefix(pre, [x], y);
      }
      forall i, j | 0 <= i < j < |r| ensures FirstIndex(xs, r[i]) < FirstIndex(xs, r[j]) {
        assert r[i] == p[i] && r[i] in pre;
        if j < |p| {
          assert r[j] == p[j] && r[j] in pre;
          assert FirstIndex(pre, p[i]) < FirstIndex(pre, p[j]);
          assert FirstIndex(xs, r[i]) == FirstIndex(pre, p[i]);
          assert FirstIndex(xs, r[j]) == FirstIndex(pre, p[j]);
        } else {
          assert r == p + [x] && r[j] == x;
          assert x !in pre;
          assert FirstIndex(xs, x) == |xs| - 1;
          assert FirstIndex(pre, r[i]) < |pre|;
        }
      }
    }
  }

  /** `parseInt` of a string of ASCII digits: its decimal value, leading zeros included. */
  function ParseInt(ds: string): nat
    requires forall k :: 0 <= k < |ds| ==> IsAsciiDigit(ds[k])
  {
    if ds == [] then
      0
    else
      var last := ds[|ds| - 1];
      assert IsAsciiDigit(last);
      10 * ParseInt(ds[..|ds| - 1]) + (last as int - '0' as int)
  }

  /** A leading zero does not change the value `parseInt` reads. */
  lemma {:induction false} ParseIntLeadingZero(ds: string)
    requires forall k :: 0 <= k < |ds| ==> IsAsciiDigit(ds[k])
    ensures ParseInt("0" + ds) == ParseInt(ds)
  {
    if ds != [] {
      var zds := "0" + ds;
      assert zds[..|zds| - 1] == "0" + ds[..|ds| - 1];
      ParseIntLeadingZero(ds[..|ds| - 1]);
    }
  }

  /**
   * The comparator's widening of a year: 00-30 become 2000-2030, 31-99 become 1931-1999, and a
   * year of three or four digits is kept.
   */
  function FullYear(y: nat): (r: nat)
    ensures y < 100 ==> 1931 <= r <= 2030 && r % 100 == y
    ensures y >= 100 ==> r == y
  {
    if y < 100 then (if y <= 30 then 2000 + y else 1900 + y) else y
  }

  /** The suffix cannot start among a token's digits. */
  lemma NoSuffixAmongDigits(t: string)
    requires IsToken(t)
    ensures forall k :: 0 <= k < |t| - |Suffix| ==> !OccursAt(t, Suffix, k)
  {
    forall k | 0 <= k < |t| - |Suffix| ensures !OccursAt(t, Suffix, k) {
      assert IsAsciiDigit(t[k]);
      assert t[k..k + |Suffix|][0] == t[k];
    }
  }

  /** Removing the first "년생" from a token leaves exactly its digits. */
  lemma TokenDigits(t: string)
    requires IsToken(t)
    ensures ReplaceFirst(t, Suffix, "") == t[..|t| - |Suffix|]
  {
    var d := |t| - |Suffix|;
    assert OccursAt(t, Suffix, d);
    NoSuffixAmongDigits(t);
    var i := IndexOf(t, Suffix);
    assert i == d;
  }

  /** The comparator's key for a token: `parseInt(t.replace('년생', ''))`, widened to four digits. */
  function Year(t: string): (y: nat)
    requires IsToken(t)
    ensures y == FullYear(ParseInt(t[..|t| - |Suffix|]))
  {
    TokenDigits(t);
    FullYear(ParseInt(ReplaceFirst(t, Suffix, "")))
  }

  /** The sort key of any string: the year of a token (every sorted element is one). */
  function YearKey(t: string): nat {
    if IsToken(t) then Year(t) else 0
  }

  /** `s` is ascending by `key`. */
  ghost predicate SortedBy<T>(s: seq<T>, key: T -> nat) {
    forall i, j :: 0 <= i < j < |s| ==> key(s[i]) <= key(s[j])
  }

  /** `x` placed before the first element of `ys` whose key is not smaller than its own. */
  function InsertBy<T>(x: T, ys: seq<T>, key: T -> nat): (r: seq<T>)
    ensures multiset(r) == multiset(ys) + multiset{x}
  {
    if ys == [] || key(x) <= key(ys[0]) then
      [x] + ys
    else
      assert ys == [ys[0]] + ys[1..];
      [ys[0]] + InsertBy(x, ys[1..], key)
  }

  /** Inserting into an ascending list keeps it ascending. */
  lemma {:induction false} InsertKeepsSorted<T>(x: T, ys: seq<T>, key: T -> nat)
    requires SortedBy(ys, key)
    ensures SortedBy(InsertBy(x, ys, key), key)
  {
    if ys == [] || key(x) <= key(ys[0]) {
      ConsKeepsSorted(x, ys, key);
    } else {
      var rest := InsertBy(x, ys[1..], key);
      InsertKeepsSorted(x, ys[1..], key);
      InsertedStaysAbove(x, ys, key);
      ConsKeepsSorted(ys[0], rest, key);
    }
  }

  /** An element whose key is not above any key of an ascending list can go in front of it. */
  lemma ConsKeepsSorted<T>(x: T, ys: seq<T>, key: T -> nat)
    requires SortedBy(ys, key) && (ys == [] || key(x) <= key(ys[0]))
    ensures SortedBy([x] + ys, key)
  {
    var r := [x] + ys;
    forall i, j | 0 <= i < j < |r| ensures key(r[i]) <= key(r[j]) {
      if i > 0 {
        assert r[i] == ys[i - 1] && r[j] == ys[j - 1];
      } else if j > 1 {
        assert r[j] == ys[j - 1] && key(ys[0]) <= key(ys[j - 1]);
      }
    }
  }

  /** Inserting behind the head of an ascending list leaves every key at or above the head's. */
  lemma InsertedStaysAbove<T>(x: T, ys: seq<T>, key: T -> nat)
    requires SortedBy(ys, key) && ys != [] && key(ys[0]) < key(x)
    ensures var rest := InsertBy(x, ys[1..], key);
      rest == [] || key(ys[0]) <= key(rest[0])
  {
    var rest := InsertBy(x, ys[1..], key);
    if rest != [] {
      assert rest[0] in multiset(rest);
      if rest[0] != x {
        assert rest[0] in multiset(ys[1..]);
        var k :| 0 <= k < |ys[1..]| && ys[1..][k] == rest[0];
        assert ys[k + 1] == rest[0];
      }
    }
  }

  /**
   * `Array.prototype.sort` with the comparator `(a, b) => key(a) - key(b)`. The sort is stable,
   * so it is an insertion sort that puts each element before the later ones of equal key; the
   * result is an ascending permutation of the input.
   */
  function SortBy<T>(xs: seq<T>, key: T -> nat): (r: seq<T>)
    ensures multiset(r) == multiset(xs)
    ensures SortedBy(r, key)
  {
    if xs == [] then
      []
    else
      assert xs == [xs[0]] + xs[1..];
      InsertKeepsSorted(xs[0], SortBy(xs[1..], key), key);
      InsertBy(xs[0], SortBy(xs[1..], key), key)
  }

  /** The elements of `s` whose key is `k`, in their order in `s`. */
  function WithKey<T>(s: seq<T>, key: T -> nat, k: nat): seq<T> {
    if s == [] then [] else (if key(s[0]) == k then [s[0]] else []) + WithKey(s[1..], key, k)
  }

  lemma {:induction false} InsertWithKey<T>(x: T, ys: seq<T>, key: T -> nat, k: nat)
    ensures WithKey(InsertBy(x, ys, key), key, k)
      == (if key(x) == k then [x] else []) + WithKey(ys, key, k)
  {
    var xk := if key(x) == k then [x] else [];
    if ys == [] || key(x) <= key(ys[0]) {
      assert ([x] + ys)[1..] == ys;
    } else {
      var rest := InsertBy(x, ys[1..], key);
      InsertWithKey(x, ys[1..], key, k);
      var r := [ys[0]] + rest;
      assert r[0] == ys[0] && r[1..] == rest;
      var yk := if key(ys[0]) == k then [ys[0]] else [];
      assert WithKey(r, key, k) == yk + WithKey(rest, key, k);
      assert WithKey(ys, key, k) == yk + WithKey(ys[1..], key, k);
      if key(x) == k {
        assert yk == [] && WithKey(rest, key, k) == [x] + WithKey(ys[1..], key, k);
        assert WithKey(r, key, k) == WithKey(rest, key, k);
      } else {
        assert WithKey(rest, key, k) == WithKey(ys[1..], key, k);
      }
    }
  }

  /** The sort is stable: the elements of any one key keep their relative order. */
  lemma {:induction false} SortIsStable<T>(xs: seq<T>, key: T -> nat, k: nat)
    ensures WithKey(SortBy(xs, key), key, k) == WithKey(xs, key, k)
  {
    if xs != [] {
      SortIsStable(xs[1..], key, k);
      InsertWithKey(xs[0], SortBy(xs[1..], key), key, k);
    }
  }

  /** The list the viewer displays for `script`. */
  function BirthYearList(script: string): (r: seq<string>)
    ensures AllTokens(r)
  {
    var r := SortBy(Dedupe(MatchStrings(script)), YearKey);
    assert forall t :: t in r ==> t in multiset(r);
    r
  }

  /** Every displayed token is two to four digits and the suffix, and occurs in the script. */
  lemma BirthYearListIsSound(script: string)
    ensures forall t :: t in BirthYearList(script) ==> IsToken(t) && Occurs(script, t)
  {
    BirthYearListIsComplete(script);
    MatchStringsOccur(script);
  }

  /** Every match is a substring of the script. */
  lemma MatchStringsOccur(script: string)
    ensures forall t :: t in MatchStrings(script) ==> Occurs(script, t)
  {
    var m := Matches(script, 0);
    var ms := MatchStrings(script);
    forall t | t in ms ensures Occurs(script, t) {
      var k :| 0 <= k < |ms| && ms[k] == t;
      assert OccursAt(script, t, m[k].start);
    }
  }

  /** The displayed tokens are exactly the matched ones. */
  lemma BirthYearListIsComplete(script: string)
    ensures forall t :: t in BirthYearList(script) <==> t in MatchStrings(script)
  {
    var d := Dedupe(MatchStrings(script));
    var r := BirthYearList(script);
    forall t ensures t in r <==> t in d {
      assert t in r <==> multiset(r)[t] > 0;
      assert t in d <==> multiset(d)[t] > 0;
    }
  }

  /** No token is displayed twice. */
  lemma BirthYearListHasNoRepeats(script: string)
    ensures forall i, j :: 0 <= i < j < |BirthYearList(script)| ==>
      BirthYearList(script)[i] != BirthYearList(script)[j]
  {
    PermutationKeepsNoRepeats(BirthYearList(script), Dedupe(MatchStrings(script)));
  }

  /** A permutation of a sequence without repeats has none either. */
  lemma PermutationKeepsNoRepeats(r: seq<string>, d: seq<string>)
    requires multiset(r) == multiset(d)
    requires forall i, j :: 0 <= i < j < |d| ==> d[i] != d[j]
    ensures forall i, j :: 0 <= i < j < |r| ==> r[i] != r[j]
  {
    forall i, j | 0 <= i < j < |r| ensures r[i] != r[j] {
      if r[i] == r[j] {
        assert multiset(r)[r[i]] >= 2 by {
          assert r == r[..i] + [r[i]] + r[i + 1..j] + [r[j]] + r[j + 1..];
        }
        DedupeCountsOnce(d, r[i]);
      }
    }
  }

  /** The list is empty exactly when no token occurs anywhere in the script. */
  lemma BirthYearListIsEmptyIff(script: string)
    ensures BirthYearList(script) == [] <==> forall i, len :: !TokenAt(script, i, len)
  {
    var ms := MatchStrings(script);
    var r := BirthYearList(script);
    BirthYearListIsComplete(script);
    if exists i, len :: TokenAt(script, i, len) {
      var i, len :| TokenAt(script, i, len);
      MatchesAreLeftmost(script, 0, i, len);
      assert ms[0] in r;
    }
    if r != [] {
      assert r[0] in ms;
      var k :| 0 <= k < |ms| && ms[k] == r[0];
      MatchesAreTokens(script, 0);
      var m := Matches(script, 0);
      assert TokenAt(script, m[k].start, m[k].len);
    }
  }

  /** In a sequence without repeats, every element occurs once. */
  lemma {:induction false} DedupeCountsOnce(d: seq<string>, t: string)
    requires forall i, j :: 0 <= i < j < |d| ==> d[i] != d[j]
    ensures multiset(d)[t] <= 1
  {
    if d != [] {
      assert d == [d[0]] + d[1..];
      DedupeCountsOnce(d[1..], t);
      if d[0] == t {
        assert t !in d[1..];
      }
    }
  }

  /**
   * The displayed list is the de-duplicated matches sorted ascending by year; tokens of the same
   * year (such as "78년생" and "1978년생") stay in the order of their first occurrences.
   */
  lemma BirthYearListIsOrdered(script: string, y: nat)
    ensures var d := Dedupe(MatchStrings(script));
      && multiset(BirthYearList(script)) == multiset(d)
      && SortedBy(BirthYearList(script), YearKey)
      && WithKey(BirthYearList(script), YearKey, y) == WithKey(d, YearKey, y)
  {
    SortIsStable(Dedupe(MatchStrings(script)), YearKey, y);
  }

  /** Two-digit years pivot at 30: "05" stands for 2005 and "78" for 1978. */
  lemma YearExamples()
    ensures IsToken("05년생") && Year("05년생") == 2005
    ensures IsToken("78년생") && Year("78년생") == 1978
  {
    var t := "05년생";
    assert t[..2] == ['0', '5'];
    assert ParseInt(['0', '5']) == 5 by {
      assert ['0', '5'][..1] == ['0'] && ['0'][..0] == [];
    }
    var u := "78년생";
    assert u[..2] == ['7', '8'];
    assert ParseInt(['7', '8']) == 78 by {
      assert ['7', '8'][..1] == ['7'] && ['7'][..0] == [];
    }
  }

  /**
   * As in JavaScript, a run of five digits before the suffix is matched from its second digit:
   * the pattern fails at the first digit (four digits then "5" is not the suffix) and succeeds
   * one character later.
   */
  lemma FiveDigitRunExample()
    ensures MatchStrings("12345년생") == ["2345년생"]
  {
    var s := "12345년생";
    assert DigitRun(s, 5) == 0;
    assert DigitRun(s, 1) == 4;
    assert DigitRun(s, 0) == 5;
    TryDigitsFindsWholeRun(s, 0, 4);
    assert MatchAt(s, 0) == None;
    assert SuffixAt(s, 5) by {
      assert s[5..7] == "년생";
    }
    assert MatchAt(s, 1) == Some(6);
    assert Matches(s, 7) == [];
    assert Matches(s, 0) == [Span(1, 6)];
    assert s[1..7] == "2345년생";
  }
}
