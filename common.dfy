/** Types and text helpers shared by the other modules. */
module Common {

  /** An unsigned 8-bit integer. */
  type byte = x: int | 0 <= x < 0x100

  /** An unsigned 16-bit integer. */
  type u16 = x: int | 0 <= x < 0x1_0000

  /** An unsigned 32-bit integer. */
  type u32 = x: int | 0 <= x < 0x1_0000_0000

  /** An f32 travels as its IEEE-754 binary32 bit pattern; it is copied and never computed with. */
  type F32 = u32

  datatype Option<T> = None | Some(value: T)

  datatype Result<T, E> = Ok(value: T) | Err(error: E)

  function Max(a: int, b: int): int { if a < b then b else a }

  /** The character of a decimal digit. */
  function DigitChar(d: nat): (c: char)
    requires d < 10
    ensures '0' <= c <= '9'
  {
    ('0' as int + d) as char
  }

  predicate IsDigit(c: char) { '0' <= c <= '9' }

  predicate AllDigits(s: string) { forall k :: 0 <= k < |s| ==> IsDigit(s[k]) }

  /** Rust's `Display` of an unsigned integer: its decimal digits, most significant first, without leading zeros. */
  function Decimal(n: nat): (s: string)
    ensures |s| >= 1 && AllDigits(s)
    ensures s[0] == '0' <==> n == 0
    decreases n
  {
    if n < 10 then [DigitChar(n)] else Decimal(n / 10) + [DigitChar(n % 10)]
  }

  /** Reads a string of decimal digits back as a number. */
  function ParseDecimal(s: string): nat
    requires AllDigits(s)
  {
    if s == [] then 0 else 10 * ParseDecimal(s[..|s| - 1]) + (s[|s| - 1] as int - '0' as int)
  }

  lemma {:induction false} ParseDecimalOfDecimal(n: nat)
    ensures ParseDecimal(Decimal(n)) == n
    decreases n
  {
    if n >= 10 {
      var s := Decimal(n);
      assert s[..|s| - 1] == Decimal(n / 10);
      ParseDecimalOfDecimal(n / 10);
    }
  }

  /** Distinct numbers have distinct decimal renderings. */
  lemma DecimalInjective(m: nat, n: nat)
    ensures Decimal(m) == Decimal(n) ==> m == n
  {
    ParseDecimalOfDecimal(m);
    ParseDecimalOfDecimal(n);
  }

  function Min(a: int, b: int): int { if a < b then a else b }

  lemma {:induction false} MulAtLeast(d: int, k: int)
    requires d > 0 && k >= 1
    ensures d * k >= d
  {
    if k > 1 {
      MulAtLeast(d, k - 1);
      assert d * k == d * (k - 1) + d;
    }
  }

  /** Euclidean division by a positive divisor is determined by quotient and remainder. */
  lemma DivModUnique(x: int, d: int, q: int, m: int)
    requires d > 0 && x == d * q + m && 0 <= m < d
    ensures x / d == q && x % d == m
  {
    var q', m' := x / d, x % d;
    assert d * (q - q') == m' - m;
    if q - q' >= 1 {
      MulAtLeast(d, q - q');
      assert false;
    } else if q' - q >= 1 {
      MulAtLeast(d, q' - q);
      assert false;
    }
  }

  /** One more row of b: the distributive step, stated once. */
  lemma MulStep(a: int, b: int)
    ensures (a + 1) * b == a * b + b
  {
  }

  /** Multiplying by a non-negative factor keeps order. */
  lemma MulMonotone(a: int, b: int, k: int)
    requires a <= b && k >= 0
    ensures a * k <= b * k
  {
    if a < b && k > 0 {
      MulAtLeast(k, b - a);
      assert b * k - a * k == (b - a) * k;
    }
  }

  /** `slice::chunks(n)`: consecutive pieces of n elements, the last one possibly shorter. */
  function Chunks<T>(s: seq<T>, n: nat): (cs: seq<seq<T>>)
    requires n > 0
    ensures |s| > 0 ==> |cs| > 0
    decreases |s|
  {
    if |s| == 0 then []
    else if |s| <= n then [s]
    else [s[..n]] + Chunks(s[n..], n)
  }

  /** There are |s| / n pieces, rounded up. */
  lemma {:induction false} ChunkCount<T>(s: seq<T>, n: nat)
    requires n > 0
    ensures |Chunks(s, n)| == (|s| + n - 1) / n
    decreases |s|
  {
    if |s| == 0 {
      DivModUnique(n - 1, n, 0, n - 1);
    } else if |s| <= n {
      DivModUnique(|s| + n - 1, n, 1, |s| - 1);
    } else {
      var x := |s| - 1;
      ChunkCount(s[n..], n);
      assert |s[n..]| + n - 1 == x;
      var q, m := x / n, x % n;
      assert x == n * q + m;
      assert n * (q + 1) == n * q + n;
      DivModUnique(x + n, n, q + 1, m);
    }
  }

  /** The elements of the pieces, in order. */
  function Flatten<T>(cs: seq<seq<T>>): seq<T> {
    if cs == [] then [] else cs[0] + Flatten(cs[1..])
  }

  /** Chunking loses and reorders nothing. */
  lemma {:induction false} FlattenChunks<T>(s: seq<T>, n: nat)
    requires n > 0
    ensures Flatten(Chunks(s, n)) == s
    decreases |s|
  {
    if |s| > n {
      var cs := Chunks(s, n);
      assert cs[1..] == Chunks(s[n..], n);
      FlattenChunks(s[n..], n);
    }
  }

  /** Piece i holds elements i*n up to (i+1)*n, cut at the end of the sequence. */
  lemma {:induction false} ChunkAt<T>(s: seq<T>, n: nat, i: nat)
    requires n > 0 && i < |Chunks(s, n)|
    ensures i * n < |s|
    ensures Chunks(s, n)[i] == s[i * n..Min((i + 1) * n, |s|)]
    decreases i
  {
    if i > 0 {
      assert |s| > n;
      ChunkAt(s[n..], n, i - 1);
      assert (i - 1) * n + n == i * n;
    }
  }
}
