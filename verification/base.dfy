/** Shared vocabulary: failure-carrying results and the few pieces of Python
    built-in semantics the training code relies on (floor division and
    modulo, `range` bounds, `os.path.join`, `str` of a non-negative int). */
module Base {

  datatype Option<+T> = None | Some(value: T)

  /** Either a value or the exception that would have been raised. */
  datatype Result<+T, +E> = Ok(value: T) | Err(error: E)

  /** Number of iterations of Python's `range(k)`: zero for a negative bound. */
  function RangeLen(k: int): (r: nat)
    ensures r >= k
    ensures k >= 0 ==> r == k
    ensures k <= 0 ==> r == 0
  {
    if k < 0 then 0 else k
  }

  /** `n` copies of `x`, as Python's `[x] * n`. */
  function Fill<T>(n: nat, x: T): (r: seq<T>)
    ensures |r| == n
    ensures forall j :: 0 <= j < n ==> r[j] == x
  {
    seq(n, _ => x)
  }

  /** Python's `a // b`: rounds toward negative infinity (Dafny's `/` is Euclidean). */
  function FloorDiv(a: int, b: int): (q: int)
    requires b != 0
    ensures b > 0 ==> b * q <= a < b * q + b
    ensures b < 0 ==> b * q + b < a <= b * q
  {
    if b > 0 || a % b == 0 then a / b else a / b - 1
  }

  /** Python's `a % b`: the remainder takes the sign of the divisor. */
  function FloorMod(a: int, b: int): (m: int)
    requires b != 0
    ensures a == b * FloorDiv(a, b) + m
    ensures b > 0 ==> 0 <= m < b
    ensures b < 0 ==> b < m <= 0
  {
    if b > 0 || a % b == 0 then a % b else a % b + b
  }

  /** `os.path.join(dir, name)` for two components: a component that starts
      with a separator discards the directory, and a separator is inserted
      only when the directory is non-empty and does not already end with one. */
  function PathJoin(dir: string, name: string): (p: string)
    ensures |name| > 0 && name[0] == '/' ==> p == name
    ensures (|name| == 0 || name[0] != '/') ==> |p| >= |dir| + |name|
    ensures (|name| == 0 || name[0] != '/') ==> p[..|dir|] == dir && p[|p| - |name|..] == name
    ensures (|name| == 0 || name[0] != '/') && |dir| > 0 && dir[|dir| - 1] != '/' ==> p == dir + "/" + name
    ensures (|name| == 0 || name[0] != '/') && (|dir| == 0 || dir[|dir| - 1] == '/') ==> p == dir + name
  {
    if |name| > 0 && name[0] == '/' then name
    else if |dir| == 0 || dir[|dir| - 1] == '/' then dir + name
    else dir + "/" + name
  }

  /** Joining a fixed directory with two relative names yields equal paths
      only when the names are equal. */
  lemma PathJoinInjective(dir: string, x: string, y: string)
    requires |x| > 0 && x[0] != '/' && |y| > 0 && y[0] != '/'
    ensures PathJoin(dir, x) == PathJoin(dir, y) ==> x == y
  {
    var p, q := PathJoin(dir, x), PathJoin(dir, y);
    if p == q {
      var k := if |dir| == 0 || dir[|dir| - 1] == '/' then |dir| else |dir| + 1;
      assert p[k..] == x;
      assert q[k..] == y;
    }
  }

  predicate IsDigit(c: char) { '0' <= c <= '9' }

  function DigitChar(d: nat): (c: char)
    requires d < 10
    ensures IsDigit(c) && c as int - '0' as int == d
  {
    (d + '0' as int) as char
  }

  /** Python's `str(n)` for a non-negative integer: decimal digits, no leading zero. */
  function NatToString(n: nat): (s: string)
    ensures |s| > 0
    ensures forall k :: 0 <= k < |s| ==> IsDigit(s[k])
    ensures |s| > 1 ==> s[0] != '0'
    decreases n
  {
    if n < 10 then [DigitChar(n)] else NatToString(n / 10) + [DigitChar(n % 10)]
  }

  /** Reads a string of decimal digits back as a number. */
  function ParseDigits(s: string): nat
    requires forall k :: 0 <= k < |s| ==> IsDigit(s[k])
  {
    if |s| == 0 then 0
    else
      assert IsDigit(s[|s| - 1]);
      ParseDigits(s[..|s| - 1]) * 10 + (s[|s| - 1] as int - '0' as int)
  }

  /** `str` is inverted by reading the digits back. */
  lemma {:induction false} ParseNatToString(n: nat)
    ensures ParseDigits(NatToString(n)) == n
    decreases n
  {
    if n >= 10 {
      var s := NatToString(n);
      assert s[..|s| - 1] == NatToString(n / 10);
      ParseNatToString(n / 10);
    }
  }

  /** Distinct indices print differently. */
  lemma NatToStringInjective(m: nat, n: nat)
    ensures NatToString(m) == NatToString(n) ==> m == n
  {
    ParseNatToString(m);
    ParseNatToString(n);
  }
}
