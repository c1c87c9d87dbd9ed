/** Shared vocabulary: bytes, optional and failing results, powers, decimal text
    and the order-preserving filter that every lookup of the controller uses. */
module Common {

  /** One DMX slot value, the `unsigned char` of the controller. */
  type byte = x: int | 0 <= x < 256

  /** Largest value of a 64-bit `size_t`. */
  const SizeMax: nat := 0x1_0000_0000_0000_0000 - 1

  datatype Option<T> = None | Some(value: T)

  datatype Result<T, E> = Ok(value: T) | Err(error: E) {
    predicate IsFailure() { Err? }
    function PropagateFailure<U>(): Result<U, E> requires Err? { Err(error) }
    function Extract(): T requires Ok? { value }
  }

  function Pow(b: nat, e: nat): (r: nat)
    ensures b > 0 ==> r > 0
  {
    if e == 0 then 1 else b * Pow(b, e - 1)
  }

  lemma {:induction false} PowAdd(b: nat, e1: nat, e2: nat)
    ensures Pow(b, e1 + e2) == Pow(b, e1) * Pow(b, e2)
  {
    if e2 > 0 {
      PowAdd(b, e1, e2 - 1);
      var x, y := Pow(b, e1), Pow(b, e2 - 1);
      assert Pow(b, e1 + e2) == b * (x * y);
      MulSwap(b, x, y);
    }
  }

  lemma MulSwap(a: nat, b: nat, c: nat)
    ensures a * (b * c) == b * (a * c)
  {
  }

  /** 256^e is 16^(2e): a byte position is two nibble positions. */
  lemma {:induction false} Pow256(e: nat)
    ensures Pow(256, e) == Pow(16, 2 * e)
  {
    if e > 0 {
      Pow256(e - 1);
      assert Pow(16, 2 * e) == 16 * (16 * Pow(16, 2 * e - 2));
    }
  }

  /** Bitwise or of two naturals, one bit at a time from the least significant. */
  function Or(a: nat, b: nat): nat
  {
    if a == 0 then b
    else if b == 0 then a
    else 2 * Or(a / 2, b / 2) + (if a % 2 == 1 || b % 2 == 1 then 1 else 0)
  }

  /** Or of two k-bit numbers is a k-bit number. */
  lemma {:induction false} OrBelow(a: nat, b: nat, k: nat)
    requires a < Pow(2, k) && b < Pow(2, k)
    ensures Or(a, b) < Pow(2, k)
  {
    if a != 0 && b != 0 {
      OrBelow(a / 2, b / 2, k - 1);
    }
  }

  /** Or with a number whose low k bits are clear adds it. */
  lemma {:induction false} OrDisjoint(a: nat, b: nat, k: nat)
    requires a < Pow(2, k)
    ensures Or(a, Pow(2, k) * b) == a + Pow(2, k) * b
  {
    if a != 0 && b != 0 {
      var h := Pow(2, k - 1) * b;
      assert Pow(2, k) * b == 2 * h;
      OrDisjoint(a / 2, b, k - 1);
    }
  }

  predicate IsDigit(c: char) { '0' <= c <= '9' }

  /** The C library's `isspace` in the "C" locale. */
  predicate IsSpace(c: char)
  {
    c == ' ' || c == '\t' || c == '\n' || c == '\U{000B}' || c == '\U{000C}' || c == '\r'
  }

  function DigitValue(c: char): (d: nat)
    requires IsDigit(c)
    ensures d < 10
  {
    (c as int) - ('0' as int)
  }

  function DigitChar(d: nat): (c: char)
    requires d < 10
    ensures IsDigit(c) && DigitValue(c) == d
  {
    ((d + '0' as int) as char)
  }

  /** `std::to_string` of an unsigned number. */
  function Decimal(n: nat): (s: string)
    decreases n
  {
    if n < 10 then [DigitChar(n)] else Decimal(n / 10) + [DigitChar(n % 10)]
  }

  /** The number a run of decimal digits denotes, most significant first. */
  function DigitsValue(s: string): nat
    requires forall k :: 0 <= k < |s| ==> IsDigit(s[k])
  {
    if s == [] then 0 else 10 * DigitsValue(s[..|s| - 1]) + DigitValue(s[|s| - 1])
  }

  /** `std::to_string` writes a non-empty run of digits that reads back as the number. */
  lemma {:induction false} DecimalDigits(n: nat)
    ensures |Decimal(n)| > 0
    ensures forall k :: 0 <= k < |Decimal(n)| ==> IsDigit(Decimal(n)[k])
    ensures DigitsValue(Decimal(n)) == n
  {
    if n >= 10 {
      DecimalDigits(n / 10);
      var s := Decimal(n);
      assert s[..|s| - 1] == Decimal(n / 10);
    }
  }

  /** What is left after the leading white space, as `ss >> i` and `stoul` skip it. */
  function SkipSpace(s: string): (r: string)
    ensures |r| <= |s| && r == s[|s| - |r|..]
    ensures r != [] ==> !IsSpace(r[0])
    ensures s != [] && !IsSpace(s[0]) ==> r == s
  {
    if s != [] && IsSpace(s[0]) then SkipSpace(s[1..]) else s
  }

  /** The length of the run of decimal digits at the front of `s`. */
  function LeadingDigits(s: string): (n: nat)
    ensures n <= |s|
    ensures forall k :: 0 <= k < n ==> IsDigit(s[k])
    ensures n < |s| ==> !IsDigit(s[n])
  {
    if s != [] && IsDigit(s[0]) then 1 + LeadingDigits(s[1..]) else 0
  }

  /** The number the leading run of digits denotes (0 for an empty run). */
  function LeadingValue(s: string): (v: nat)
  {
    var n := LeadingDigits(s);
    assert forall k :: 0 <= k < n ==> IsDigit(s[..n][k]);
    DigitsValue(s[..n])
  }

  /** Digits followed by a non-digit: the run is exactly the digits. */
  lemma {:induction false} LeadingDigitsOf(d: string, rest: string)
    requires forall k :: 0 <= k < |d| ==> IsDigit(d[k])
    requires rest == [] || !IsDigit(rest[0])
    ensures LeadingDigits(d + rest) == |d|
    ensures LeadingValue(d + rest) == DigitsValue(d)
  {
    if d != [] {
      assert (d + rest)[1..] == d[1..] + rest;
      LeadingDigitsOf(d[1..], rest);
    }
    assert (d + rest)[..|d|] == d;
  }

  lemma AppendAssoc<T>(a: seq<T>, b: seq<T>, c: seq<T>)
    ensures (a + b) + c == a + (b + c)
  {
  }

  lemma PrefixOfConcat<T>(a: seq<T>, b: seq<T>)
    ensures (a + b)[..|a|] == a
  {
  }

  /** Replacing an element that agrees with `b` makes `a` differ from `b`
      exactly when it differed already or the new element differs. */
  lemma UpdateDiffers<T>(a: seq<T>, b: seq<T>, i: nat, x: T)
    requires |a| == |b| && i < |a| && a[i] == b[i]
    ensures a[i := x] != b <==> a != b || x != b[i]
  {
    if a != b && x == b[i] {
      var j :| 0 <= j < |a| && a[j] != b[j];
      assert a[i := x][j] != b[j];
    }
  }

  predicate StartsWith(s: string, prefix: string)
  {
    |prefix| <= |s| && s[..|prefix|] == prefix
  }

  /** Positions of the elements of `s` accepted by `p`, in ascending order: the
      vector of pointers that the controller's lookups collect. */
  function Positions<T>(s: seq<T>, p: T -> bool): (r: seq<nat>)
    ensures forall k :: k in r <==> 0 <= k < |s| && p(s[k])
    ensures forall a, b :: 0 <= a < b < |r| ==> r[a] < r[b]
    ensures forall a :: 0 <= a < |r| ==> r[a] < |s|
  {
    if s == [] then []
    else
      var n := |s| - 1;
      var front := Positions(s[..n], p);
      assert forall k :: 0 <= k < n ==> s[..n][k] == s[k];
      front + (if p(s[n]) then [n] else [])
  }
}
