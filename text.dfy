/**
 * The string primitives the scraping code leans on: `String.prototype.trim`,
 * `startsWith`, `includes`, and runs of ASCII digits (the regular-expression
 * class `\d`).
 */
module Text {

  /**
   * The characters `trim` strips: the ECMAScript WhiteSpace set (tab, vertical
   * tab, form feed, space, no-break space, byte-order mark and every other
   * space separator of category Zs) and the LineTerminator set (LF, CR, line
   * separator, paragraph separator).
   */
  predicate IsSpace(c: char) {
    var n := c as int;
    n == 0x09 || n == 0x0A || n == 0x0B || n == 0x0C || n == 0x0D || n == 0x20 ||
    n == 0xA0 || n == 0x1680 || (0x2000 <= n <= 0x200A) || n == 0x2028 ||
    n == 0x2029 || n == 0x202F || n == 0x205F || n == 0x3000 || n == 0xFEFF
  }

  predicate AllSpace(s: string) {
    forall i :: 0 <= i < |s| ==> IsSpace(s[i])
  }

  /** `s` with its leading white space removed (`TrimStartStrips`: only white space goes). */
  function TrimStart(s: string): (r: string)
    ensures |r| <= |s| && r == s[|s| - |r|..]
    ensures r != [] ==> !IsSpace(r[0])
  {
    if s != [] && IsSpace(s[0]) then TrimStart(s[1..]) else s
  }

  lemma {:induction false} TrimStartStrips(s: string)
    ensures AllSpace(s[..|s| - |TrimStart(s)|])
  {
    if s != [] && IsSpace(s[0]) {
      TrimStartStrips(s[1..]);
      assert s[..|s| - |TrimStart(s)|] == [s[0]] + s[1..][..|s[1..]| - |TrimStart(s[1..])|];
    }
  }

  /** `s` with its trailing white space removed (`TrimEndStrips`: only white space goes). */
  function TrimEnd(s: string): (r: string)
    ensures |r| <= |s| && r == s[..|r|]
    ensures r != [] ==> !IsSpace(r[|r| - 1])
  {
    if s != [] && IsSpace(s[|s| - 1]) then TrimEnd(s[..|s| - 1]) else s
  }

  lemma {:induction false} TrimEndStrips(s: string)
    ensures AllSpace(s[|TrimEnd(s)|..])
  {
    if s != [] && IsSpace(s[|s| - 1]) {
      var p := s[..|s| - 1];
      TrimEndStrips(p);
      assert s[|TrimEnd(s)|..] == p[|TrimEnd(p)|..] + [s[|s| - 1]];
    }
  }

  /**
   * `s.trim()`: what remains once white space is stripped from both ends; it
   * neither starts nor ends with white space (`TrimInfix` places it inside
   * `s`, `TrimEmptyIff` says when it is empty).
   */
  function Trim(s: string): (r: string)
    ensures |r| <= |s|
    ensures r != [] ==> !IsSpace(r[0]) && !IsSpace(r[|r| - 1])
  {
    var t := TrimStart(s);
    var r := TrimEnd(t);
    assert r != [] ==> r[0] == t[0];
    r
  }

  /** The trimmed text is the infix of `s` between a white-space prefix and a white-space suffix. */
  lemma TrimInfix(s: string) returns (k: nat)
    ensures k + |Trim(s)| <= |s|
    ensures Trim(s) == s[k..k + |Trim(s)|]
    ensures AllSpace(s[..k]) && AllSpace(s[k + |Trim(s)|..])
  {
    var t := TrimStart(s);
    var r := TrimEnd(t);
    k := |s| - |t|;
    assert k + |Trim(s)| <= |s| && Trim(s) == s[k..k + |Trim(s)|] &&
      AllSpace(s[..k]) && AllSpace(s[k + |Trim(s)|..])
    by {
      assert Trim(s) == r;
      InfixBetween(s, t, r, k);
      TrimStartStrips(s);
      TrimEndStrips(t);
    }
  }

  /** A prefix `r` of the suffix `t` of `s` starting at `k` sits at `k` in `s`, followed by the rest of `t`. */
  lemma InfixBetween<T>(s: seq<T>, t: seq<T>, r: seq<T>, k: nat)
    requires k <= |s| && t == s[k..] && |r| <= |t| && r == t[..|r|]
    ensures k + |r| <= |s| && r == s[k..k + |r|] && t[|r|..] == s[k + |r|..]
  {
    SliceOfSuffix(s, k, |r|);
  }

  /** Slicing a suffix is slicing the whole. */
  lemma SliceOfSuffix<T>(s: seq<T>, k: nat, n: nat)
    requires k + n <= |s|
    ensures s[k..][..n] == s[k..k + n] && s[k..][n..] == s[k + n..]
  {
  }

  /** `s.trim()` is empty exactly when `s` is all white space. */
  lemma TrimEmptyIff(s: string)
    ensures Trim(s) == [] <==> AllSpace(s)
  {
    var k := TrimInfix(s);
    if Trim(s) == [] {
      assert s == s[..k] + s[k..];
    } else {
      assert s[k] == Trim(s)[0];
    }
  }

  /** JavaScript's truthiness of `s.trim()`: the text has a non-space character. */
  predicate HasText(s: string) {
    Trim(s) != []
  }

  /** Trimming is idempotent. */
  lemma TrimIdempotent(s: string)
    ensures Trim(Trim(s)) == Trim(s)
  {
    var r := Trim(s);
    if r != [] {
      assert Trim(r) == r by {
        TrimStartClean(r);
        TrimEndClean(r);
      }
    }
  }

  lemma TrimStartClean(s: string)
    requires s != [] && !IsSpace(s[0])
    ensures TrimStart(s) == s
  {
  }

  lemma TrimEndClean(s: string)
    requires s != [] && !IsSpace(s[|s| - 1])
    ensures TrimEnd(s) == s
  {
  }

  /** `s.startsWith(prefix)`. */
  predicate StartsWith(s: string, prefix: string) {
    |prefix| <= |s| && s[..|prefix|] == prefix
  }

  /** `s.includes(part)`. */
  predicate Contains(s: string, part: string) {
    exists i :: 0 <= i <= |s| - |part| && OccursAt(s, part, i)
  }

  predicate OccursAt(s: string, part: string, i: int) {
    0 <= i <= |s| - |part| && s[i..i + |part|] == part
  }

  /** The regular-expression class `\d`: ASCII digits only. */
  predicate IsDigit(c: char) {
    '0' <= c <= '9'
  }

  predicate AllDigits(s: string) {
    forall i :: 0 <= i < |s| ==> IsDigit(s[i])
  }

  /** What a greedy `\d+` (or `\d*`) consumes at the start of `s`: its longest all-digit prefix. */
  function DigitPrefix(s: string): (r: string)
    ensures |r| <= |s| && r == s[..|r|] && AllDigits(r)
    ensures |r| < |s| ==> !IsDigit(s[|r|])
  {
    if s != [] && IsDigit(s[0]) then [s[0]] + DigitPrefix(s[1..]) else []
  }
}
