/**
 * The parts of Go's `strings`, `path/filepath` and `strconv` packages that the installer
 * relies on, on ASCII text with '/' as the only path separator.
 */
module GoStrings {

  /** `strings.ToLower` on one ASCII character. */
  function LowerChar(c: char): char
  {
    if 'A' <= c <= 'Z' then (c as int + 32) as char else c
  }

  /** `strings.ToLower`, ASCII only. */
  function Lower(s: string): string
  {
    seq(|s|, i requires 0 <= i < |s| => LowerChar(s[i]))
  }

  /** `strings.HasPrefix`. */
  predicate HasPrefix(s: string, prefix: string)
  {
    |prefix| <= |s| && s[..|prefix|] == prefix
  }

  /** `strings.HasSuffix`. */
  predicate HasSuffix(s: string, suffix: string)
  {
    |suffix| <= |s| && s[|s| - |suffix|..] == suffix
  }

  lemma LowerIdempotent(s: string)
    ensures Lower(Lower(s)) == Lower(s)
  {
    assert forall i :: 0 <= i < |s| ==> Lower(Lower(s))[i] == Lower(s)[i];
  }

  lemma LowerEmpty(s: string)
    ensures Lower(s) == "" <==> s == ""
  {
    assert |Lower(s)| == |s|;
  }

  /** Index of the last '/' in `p`, or -1 when there is none. */
  function LastSlash(p: string): (k: int)
    ensures -1 <= k < |p|
  {
    if |p| == 0 then -1
    else if p[|p| - 1] == '/' then |p| - 1
    else LastSlash(p[..|p| - 1])
  }

  lemma {:induction false} LastSlashIsLast(p: string)
    ensures LastSlash(p) >= 0 ==> p[LastSlash(p)] == '/'
    ensures forall j :: LastSlash(p) < j < |p| ==> p[j] != '/'
  {
    if |p| > 0 && p[|p| - 1] != '/' {
      LastSlashIsLast(p[..|p| - 1]);
    }
  }

  /** `p` without its trailing '/' characters. */
  function TrimTrailingSlashes(p: string): (r: string)
    ensures |r| <= |p|
    decreases |p|
  {
    if |p| > 0 && p[|p| - 1] == '/' then TrimTrailingSlashes(p[..|p| - 1]) else p
  }

  /**
   * `filepath.Dir`: everything up to the last separator, with trailing separators removed;
   * "." when there is no separator (the empty path included), "/" for the root.
   */
  function Dir(p: string): string
  {
    var k := LastSlash(p);
    if k == -1 then "."
    else
      var d := TrimTrailingSlashes(p[..k + 1]);
      if d == "" then "/" else d
  }

  /**
   * `filepath.Base` as Go defines it: "." for the empty path, "/" for a path of separators
   * only, otherwise the last element after trailing separators are removed.
   */
  function GoBase(p: string): string
  {
    if p == "" then "."
    else
      var q := TrimTrailingSlashes(p);
      if q == "" then "/" else q[LastSlash(q) + 1..]
  }

  /** The base of a non-empty path that does not end in a separator is its last element. */
  lemma GoBaseIsLastElement(p: string)
    requires p != "" && !HasSuffix(p, "/")
    ensures HasSuffix(p, GoBase(p))
    ensures GoBase(p) != "" && '/' !in GoBase(p)
  {
    assert p[|p| - 1..] == [p[|p| - 1]];
    assert TrimTrailingSlashes(p) == p;
    LastSlashIsLast(p);
    var k := LastSlash(p);
    var b := p[k + 1..];
    assert GoBase(p) == b;
    assert p[|p| - |b|..] == b;
    assert forall j :: 0 <= j < |b| ==> b[j] == p[k + 1 + j];
  }

  /** The decimal digit `d` as a character. */
  function DigitChar(d: nat): (c: char)
    requires d < 10
    ensures '0' <= c <= '9'
  {
    ('0' as int + d) as char
  }

  /** `strconv.Itoa` on a non-negative number. */
  function Itoa(n: nat): (r: string)
    ensures |r| >= 1
    ensures n >= 10 ==> |r| >= 2
    decreases n
  {
    if n < 10 then [DigitChar(n)] else Itoa(n / 10) + [DigitChar(n % 10)]
  }

  /** Every character `Itoa` produces is a decimal digit. */
  lemma {:induction false} ItoaDigits(n: nat)
    ensures forall i :: 0 <= i < |Itoa(n)| ==> '0' <= Itoa(n)[i] <= '9'
    decreases n
  {
    if n >= 10 {
      ItoaDigits(n / 10);
    }
  }

  /** Distinct numbers have distinct decimal spellings. */
  lemma {:induction false} ItoaInjective(a: nat, b: nat)
    requires Itoa(a) == Itoa(b)
    ensures a == b
    decreases a
  {
    var s := Itoa(a);
    if a >= 10 && b >= 10 {
      assert s[|s| - 1] == DigitChar(a % 10) && s[|s| - 1] == DigitChar(b % 10);
      assert s[..|s| - 1] == Itoa(a / 10) && s[..|s| - 1] == Itoa(b / 10);
      ItoaInjective(a / 10, b / 10);
    }
  }
}
