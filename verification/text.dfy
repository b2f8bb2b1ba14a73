/**
 * String primitives the application relies on, with JavaScript's meaning:
 * the whitespace class of `\s` and `String.prototype.trim`, ASCII lower-casing,
 * `Array.prototype.join`, and a splitter that undoes a ", " join.
 */
module Text {

  /** The code points JavaScript's `\s` and `trim` treat as white space or line terminators. */
  predicate IsSpace(c: char) {
    var n := c as int;
    || (9 <= n <= 13) || n == 0x20 || n == 0xA0 || n == 0x1680
    || (0x2000 <= n <= 0x200A) || n == 0x2028 || n == 0x2029
    || n == 0x202F || n == 0x205F || n == 0x3000 || n == 0xFEFF
  }

  /** Every character is white space (vacuously true of ""). */
  predicate AllSpace(s: string) {
    forall i | 0 <= i < |s| :: IsSpace(s[i])
  }

  /** No character is white space. */
  predicate NoSpace(s: string) {
    forall i | 0 <= i < |s| :: !IsSpace(s[i])
  }

  /** Drops leading white space. */
  function TrimStart(s: string): (r: string)
    ensures |r| <= |s| && r == s[|s| - |r|..]
    ensures AllSpace(s[..|s| - |r|])
    ensures r == [] || !IsSpace(r[0])
  {
    if s == [] || !IsSpace(s[0]) then s
    else
      var r := TrimStart(s[1..]);
      assert s[1..][..|s[1..]| - |r|] == s[1..|s| - |r|];
      r
  }

  /** Drops trailing white space. */
  function TrimEnd(s: string): (r: string)
    ensures |r| <= |s| && r == s[..|r|]
    ensures AllSpace(s[|r|..])
    ensures r == [] || !IsSpace(r[|r| - 1])
  {
    if s == [] || !IsSpace(s[|s| - 1]) then s
    else
      var r := TrimEnd(s[..|s| - 1]);
      assert s[..|s| - 1][|r|..] == s[|r|..|s| - 1];
      r
  }

  /** `s.trim()`: white space removed at both ends; empty exactly when `s` is blank. */
  function Trim(s: string): (r: string)
    ensures |r| <= |s|
    ensures r == [] <==> AllSpace(s)
    ensures r == [] || (!IsSpace(r[0]) && !IsSpace(r[|r| - 1]))
  {
    var a := TrimStart(s);
    var r := TrimEnd(a);
    assert r == [] ==> AllSpace(s) by {
      if r == [] {
        assert s == s[..|s| - |a|] + a;
        assert a == a[|r|..];
      }
    }
    assert r != [] ==> r[0] == a[0];
    r
  }

  /** Trimming a string that already has non-blank ends changes nothing. */
  lemma TrimTrimmed(s: string)
    requires s == [] || (!IsSpace(s[0]) && !IsSpace(s[|s| - 1]))
    ensures Trim(s) == s
  {}

  /** ASCII lower-casing of one character. */
  function LowerChar(c: char): char {
    if 'A' <= c <= 'Z' then (c as int + 32) as char else c
  }

  /** `s.toLowerCase()` restricted to ASCII letters. */
  function Lower(s: string): (r: string)
    ensures |r| == |s|
    ensures forall i | 0 <= i < |r| :: !('A' <= r[i] <= 'Z')
    ensures forall i | 0 <= i < |r| :: IsSpace(r[i]) <==> IsSpace(s[i])
    ensures forall i | 0 <= i < |r| :: !('A' <= s[i] <= 'Z') ==> r[i] == s[i]
  {
    seq(|s|, i requires 0 <= i < |s| => LowerChar(s[i]))
  }

  /** `xs.join(sep)`. */
  function Join(xs: seq<string>, sep: string): string {
    if |xs| == 0 then ""
    else if |xs| == 1 then xs[0]
    else xs[0] + sep + Join(xs[1..], sep)
  }

  /** Index of the first `c` in `s`, or -1 (`s.indexOf(c)`). */
  function IndexOf(s: string, c: char): (r: int)
    ensures -1 <= r < |s|
    ensures r == -1 <==> c !in s
    ensures r >= 0 ==> s[r] == c && c !in s[..r]
  {
    if s == [] then -1
    else if s[0] == c then 0
    else
      var k := IndexOf(s[1..], c);
      if k == -1 then -1
      else
        assert s[..k + 1] == [s[0]] + s[1..][..k];
        k + 1
  }

  /**
   * Splits at every ',' and drops the one character that follows it,
   * which undoes `Join(xs, ", ")` for comma-free items.
   */
  function SplitList(s: string): (r: seq<string>)
    ensures |r| >= 1
    decreases |s|
  {
    var i := IndexOf(s, ',');
    if i < 0 then [s]
    else [s[..i]] + SplitList(s[if i + 2 <= |s| then i + 2 else |s|..])
  }

  /** Splitting a ", " join of comma-free items gives the items back. */
  lemma {:induction false} SplitJoin(xs: seq<string>)
    requires |xs| >= 1
    requires forall k | 0 <= k < |xs| :: ',' !in xs[k]
    ensures SplitList(Join(xs, ", ")) == xs
  {
    if |xs| > 1 {
      var s := Join(xs, ", ");
      var rest := Join(xs[1..], ", ");
      assert s == xs[0] + ", " + rest;
      var i := IndexOf(s, ',');
      assert s[|xs[0]|] == ',';
      assert s[..|xs[0]|] == xs[0];
      assert i == |xs[0]|;
      assert s[i + 2..] == rest;
      SplitJoin(xs[1..]);
    }
  }

  /** A join of non-empty items begins with the first item's first character. */
  lemma {:induction false} JoinHead(xs: seq<string>, sep: string)
    requires |xs| >= 1 && |xs[0]| >= 1
    ensures |Join(xs, sep)| >= 1 && Join(xs, sep)[0] == xs[0][0]
  {}
}
