/**
 * String helpers shared by the agents: ASCII lower-casing, whitespace
 * tokenisation (Python's `str.split()` without arguments), substring
 * containment (`in`), non-overlapping occurrence counting (`str.count`),
 * decimal rendering of naturals, joining lines and taking a prefix (`s[:n]`).
 */
module Text {

  // ---------------------------------------------------------------- case

  function LowerChar(c: char): char {
    if 'A' <= c <= 'Z' then (c as int - 'A' as int + 'a' as int) as char else c
  }

  predicate IsUpper(c: char) {
    'A' <= c <= 'Z'
  }

  /** ASCII lower-casing, position by position. */
  function Lower(s: string): (r: string)
    ensures |r| == |s|
    ensures forall i :: 0 <= i < |r| ==> !IsUpper(r[i])
    ensures forall i :: 0 <= i < |s| && !IsUpper(s[i]) ==> r[i] == s[i]
    ensures forall i :: 0 <= i < |s| && IsUpper(s[i]) ==> r[i] == (s[i] as int + 32) as char
  {
    seq(|s|, i requires 0 <= i < |s| => LowerChar(s[i]))
  }

  /** Lower-casing works character by character, so it distributes over concatenation. */
  lemma LowerAppend(a: string, b: string)
    ensures Lower(a + b) == Lower(a) + Lower(b)
  {
    assert forall i :: 0 <= i < |a + b| ==> Lower(a + b)[i] == (Lower(a) + Lower(b))[i];
  }

  function LowerAll(ws: seq<string>): (r: seq<string>)
    ensures |r| == |ws|
    ensures forall i :: 0 <= i < |ws| ==> r[i] == Lower(ws[i])
  {
    seq(|ws|, i requires 0 <= i < |ws| => Lower(ws[i]))
  }

  // ---------------------------------------------------------------- tokens

  /** The ASCII characters Python's `str.split()` treats as separators. */
  predicate IsSpace(c: char) {
    (9 <= c as int <= 13) || (28 <= c as int <= 31) || c == ' '
  }

  /** A token of `str.split()`: non-empty and free of separators. */
  predicate IsWord(w: string) {
    |w| > 0 && forall i :: 0 <= i < |w| ==> !IsSpace(w[i])
  }

  /** Tokenises `s`, `cur` being the part of the current token already read. */
  function SplitFrom(s: string, cur: string): seq<string>
    decreases |s|
  {
    if s == [] then
      (if cur == [] then [] else [cur])
    else if IsSpace(s[0]) then
      (if cur == [] then [] else [cur]) + SplitFrom(s[1..], [])
    else
      SplitFrom(s[1..], cur + [s[0]])
  }

  /** Python's `s.split()`: the maximal runs of non-separator characters. */
  function Split(s: string): seq<string> {
    SplitFrom(s, [])
  }

  function Concat(ws: seq<string>): string {
    if ws == [] then [] else ws[0] + Concat(ws[1..])
  }

  /** `s` with every separator removed. */
  function Squeeze(s: string): string {
    if s == [] then [] else (if IsSpace(s[0]) then [] else [s[0]]) + Squeeze(s[1..])
  }

  lemma {:induction false} SplitFromWords(s: string, cur: string)
    requires forall i :: 0 <= i < |cur| ==> !IsSpace(cur[i])
    ensures forall k :: 0 <= k < |SplitFrom(s, cur)| ==> IsWord(SplitFrom(s, cur)[k])
    ensures Concat(SplitFrom(s, cur)) == cur + Squeeze(s)
    decreases |s|
  {
    if s == [] {
    } else if IsSpace(s[0]) {
      SplitFromWords(s[1..], []);
      var rest := SplitFrom(s[1..], []);
      assert Squeeze(s) == Squeeze(s[1..]);
      if cur != [] {
        assert SplitFrom(s, cur) == [cur] + rest;
        assert Concat([cur] + rest) == cur + Concat(rest) by {
          assert ([cur] + rest)[1..] == rest;
        }
        forall k | 0 <= k < |[cur] + rest| ensures IsWord(([cur] + rest)[k]) {
          if k > 0 {
            assert ([cur] + rest)[k] == rest[k - 1];
          }
        }
      } else {
        assert SplitFrom(s, cur) == [] + rest == rest;
      }
    } else {
      SplitFromWords(s[1..], cur + [s[0]]);
      assert cur + Squeeze(s) == (cur + [s[0]]) + Squeeze(s[1..]);
    }
  }

  /**
   * Every token of `Split(s)` is a word, and gluing the tokens back together
   * gives `s` with its separators dropped: nothing but separators is lost.
   */
  lemma SplitWords(s: string)
    ensures forall k :: 0 <= k < |Split(s)| ==> IsWord(Split(s)[k])
    ensures Concat(Split(s)) == Squeeze(s)
  {
    SplitFromWords(s, []);
  }

  lemma {:induction false} SplitFromSeparated(a: string, sp: char, b: string, cur: string)
    requires IsSpace(sp)
    ensures SplitFrom(a + [sp] + b, cur) == SplitFrom(a, cur) + Split(b)
    decreases |a|
  {
    if a == [] {
      assert a + [sp] + b == [sp] + b;
      assert ([sp] + b)[1..] == b;
    } else {
      assert (a + [sp] + b)[1..] == a[1..] + [sp] + b;
      if IsSpace(a[0]) {
        SplitFromSeparated(a[1..], sp, b, []);
      } else {
        SplitFromSeparated(a[1..], sp, b, cur + [a[0]]);
      }
    }
  }

  /** Splitting at a separator splits the token lists: `Split(a + " " + b) == Split(a) + Split(b)`. */
  lemma SplitAtSeparator(a: string, sp: char, b: string)
    requires IsSpace(sp)
    ensures Split(a + [sp] + b) == Split(a) + Split(b)
  {
    SplitFromSeparated(a, sp, b, []);
  }

  lemma {:induction false} SplitFromWord(w: string, cur: string)
    requires forall i :: 0 <= i < |w| ==> !IsSpace(w[i])
    ensures SplitFrom(w, cur) == if cur + w == [] then [] else [cur + w]
    decreases |w|
  {
    if w != [] {
      SplitFromWord(w[1..], cur + [w[0]]);
      assert (cur + [w[0]]) + w[1..] == cur + w;
    } else {
      assert cur + w == cur;
    }
  }

  /** A single word splits into itself. */
  lemma SplitOfWord(w: string)
    requires IsWord(w)
    ensures Split(w) == [w]
  {
    SplitFromWord(w, []);
    assert [] + w == w;
  }

  // ---------------------------------------------------------------- substrings

  predicate StartsWith(s: string, p: string) {
    |p| <= |s| && s[..|p|] == p
  }

  predicate OccursAt(s: string, p: string, i: int) {
    0 <= i && i + |p| <= |s| && s[i..i + |p|] == p
  }

  /** Python's `p in s`; the empty string occurs in every string. */
  predicate Contains(s: string, p: string)
    decreases |s|
  {
    StartsWith(s, p) || (|s| > 0 && Contains(s[1..], p))
  }

  /** `Contains` holds exactly when `p` occurs at some position of `s`. */
  lemma {:induction false} ContainsIff(s: string, p: string)
    ensures Contains(s, p) <==> exists i :: OccursAt(s, p, i)
    decreases |s|
  {
    if StartsWith(s, p) {
      assert OccursAt(s, p, 0);
    } else if |s| > 0 {
      ContainsIff(s[1..], p);
      if Contains(s[1..], p) {
        var i :| OccursAt(s[1..], p, i);
        assert s[1..][i..i + |p|] == s[i + 1..i + 1 + |p|];
        assert OccursAt(s, p, i + 1);
      }
      if i :| OccursAt(s, p, i) {
        assert i != 0;
        assert s[1..][i - 1..i - 1 + |p|] == s[i..i + |p|];
        assert OccursAt(s[1..], p, i - 1);
      }
    }
  }

  lemma ContainsAt(s: string, p: string, i: int)
    requires OccursAt(s, p, i)
    ensures Contains(s, p)
  {
    ContainsIff(s, p);
  }

  /** An occurrence in `s` is an occurrence in every extension of `s`. */
  lemma ContainsExtend(s: string, t: string, p: string)
    requires Contains(s, p)
    ensures Contains(s + t, p)
  {
    ContainsIff(s, p);
    var i :| OccursAt(s, p, i);
    assert (s + t)[i..i + |p|] == s[i..i + |p|];
    ContainsAt(s + t, p, i);
  }

  /**
   * Python's `s.count(p)`: occurrences of `p` found scanning left to right,
   * each search resuming after the previous match; `|s| + 1` for empty `p`.
   */
  function Count(s: string, p: string): nat
    decreases |s|
  {
    if p == [] then |s| + 1
    else if |s| < |p| then 0
    else if s[..|p|] == p then 1 + Count(s[|p|..], p)
    else Count(s[1..], p)
  }

  /** `s.count(p)` is positive exactly when `p in s`. */
  lemma {:induction false} CountPositiveIffContains(s: string, p: string)
    ensures Count(s, p) > 0 <==> Contains(s, p)
    decreases |s|
  {
    if p == [] {
      assert StartsWith(s, p);
    } else if |s| < |p| {
      ContainsIff(s, p);
      if i :| OccursAt(s, p, i) {
        assert false;
      }
    } else if s[..|p|] == p {
      assert StartsWith(s, p);
    } else {
      CountPositiveIffContains(s[1..], p);
    }
  }

  /** The counted occurrences do not overlap, so together they fit inside `s`. */
  lemma {:induction false} CountFits(s: string, p: string)
    requires p != []
    ensures Count(s, p) * |p| <= |s|
    decreases |s|
  {
    if |s| < |p| {
    } else if s[..|p|] == p {
      CountFits(s[|p|..], p);
    } else {
      CountFits(s[1..], p);
    }
  }

  /** How many entries of `ps`, repeats included, occur in `s`. */
  function CountContained(ps: seq<string>, s: string): nat {
    if ps == [] then 0
    else CountContained(ps[..|ps| - 1], s) + (if Contains(s, ps[|ps| - 1]) then 1 else 0)
  }

  /** The count is bounded by the list and is positive exactly when some entry occurs. */
  lemma {:induction false} CountContainedBounds(ps: seq<string>, s: string)
    ensures CountContained(ps, s) <= |ps|
    ensures CountContained(ps, s) > 0 <==> exists k :: 0 <= k < |ps| && Contains(s, ps[k])
  {
    if ps != [] {
      var init := ps[..|ps| - 1];
      CountContainedBounds(init, s);
      if k :| 0 <= k < |init| && Contains(s, init[k]) {
        assert ps[k] == init[k];
      }
      if k :| 0 <= k < |ps| && Contains(s, ps[k]) {
        if k < |init| {
          assert init[k] == ps[k];
        }
      }
    }
  }

  predicate ContainsSome(s: string, ps: seq<string>) {
    exists k :: 0 <= k < |ps| && Contains(s, ps[k])
  }

  // ---------------------------------------------------------------- numbers

  predicate IsDigit(c: char) {
    '0' <= c <= '9'
  }

  function DigitChar(d: nat): (c: char)
    requires d < 10
    ensures IsDigit(c)
  {
    ('0' as int + d) as char
  }

  function DigitValue(c: char): nat
    requires IsDigit(c)
  {
    c as int - '0' as int
  }

  /** The decimal numeral of `n`, without leading zeros (Python's `str(n)`). */
  function Decimal(n: nat): string
    decreases n
  {
    if n < 10 then [DigitChar(n)] else Decimal(n / 10) + [DigitChar(n % 10)]
  }

  predicate AllDigits(s: string) {
    forall i :: 0 <= i < |s| ==> IsDigit(s[i])
  }

  function ParseDecimal(s: string): nat
    requires AllDigits(s)
  {
    if s == [] then 0 else ParseDecimal(s[..|s| - 1]) * 10 + DigitValue(s[|s| - 1])
  }

  /** Reading back the numeral of `n` gives `n`. */
  lemma {:induction false} DecimalRoundTrip(n: nat)
    ensures |Decimal(n)| > 0 && AllDigits(Decimal(n))
    ensures ParseDecimal(Decimal(n)) == n
    decreases n
  {
    if n >= 10 {
      DecimalRoundTrip(n / 10);
      var s := Decimal(n);
      assert s[..|s| - 1] == Decimal(n / 10);
    }
  }

  /** Distinct numbers have distinct numerals. */
  lemma DecimalInjective(a: nat, b: nat)
    requires Decimal(a) == Decimal(b)
    ensures a == b
  {
    DecimalRoundTrip(a);
    DecimalRoundTrip(b);
  }

  // ---------------------------------------------------------------- lines

  /** Python's `sep.join(lines)`. */
  function Join(lines: seq<string>, sep: string): string {
    if lines == [] then []
    else if |lines| == 1 then lines[0]
    else lines[0] + sep + Join(lines[1..], sep)
  }

  /** A join of lines starts with its first line. */
  lemma {:induction false} JoinStartsWithFirst(lines: seq<string>, sep: string)
    requires lines != []
    ensures StartsWith(Join(lines, sep), lines[0])
  {
    if |lines| > 1 {
      var j := Join(lines, sep);
      assert j == lines[0] + (sep + Join(lines[1..], sep));
      assert j[..|lines[0]|] == lines[0];
    }
  }

  /** Python's `s[:n]` for `n >= 0`. */
  function Prefix(s: string, n: nat): (r: string)
    ensures |r| <= n && |r| <= |s|
    ensures StartsWith(s, r)
    ensures |s| <= n ==> r == s
    ensures |s| > n ==> r == s[..n] && |r| == n
  {
    if |s| <= n then s else s[..n]
  }
}
