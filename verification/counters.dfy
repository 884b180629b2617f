/** Unsigned 64-bit counters and the `inject` fold that sums them
    (mackerel-plugin-sidekiq/lib/sidekiq.go, `inject`). */
module Counters {

  /** 2^64: the modulus of Go's `uint64` arithmetic. */
  const TwoTo64: nat := 0x1_0000_0000_0000_0000

  type U64 = x: nat | x < 0x1_0000_0000_0000_0000

  /** The mathematical (unbounded) sum of a sequence. */
  function Sum(s: seq<nat>): nat
  {
    if |s| == 0 then 0 else s[0] + Sum(s[1..])
  }

  /** `make([]uint64, n)`: n zero entries. */
  function Zeros(n: nat): (r: seq<nat>)
    ensures |r| == n
    ensures forall i :: 0 <= i < n ==> r[i] == 0
  {
    seq(n, _ => 0)
  }

  /** Go's `inject`: a left fold `base += e` over the slice, each addition
      wrapping around at 2^64 as `uint64` does. */
  function Inject(s: seq<nat>, base: U64): U64
    decreases |s|
  {
    if |s| == 0 then base else Inject(s[1..], (base + s[0]) % TwoTo64)
  }

  lemma ModAddLeft(a: nat, b: nat)
    ensures (a % TwoTo64 + b) % TwoTo64 == (a + b) % TwoTo64
  {
    var q := a / TwoTo64;
    assert a == q * TwoTo64 + a % TwoTo64;
  }

  /** `inject(s, base)` is `base + sum(s)` reduced modulo 2^64. */
  lemma {:induction false} InjectIsWrappedSum(s: seq<nat>, base: U64)
    ensures Inject(s, base) == (base + Sum(s)) % TwoTo64
    decreases |s|
  {
    if |s| > 0 {
      var next := (base + s[0]) % TwoTo64;
      InjectIsWrappedSum(s[1..], next);
      ModAddLeft(base + s[0], Sum(s[1..]));
    }
  }

  /** When the true total fits in 64 bits, `inject` is exact. */
  lemma InjectExact(s: seq<nat>, base: U64)
    requires base + Sum(s) < TwoTo64
    ensures Inject(s, base) == base + Sum(s)
  {
    InjectIsWrappedSum(s, base);
  }

  lemma {:induction false} SumAppend(a: seq<nat>, b: seq<nat>)
    ensures Sum(a + b) == Sum(a) + Sum(b)
    decreases |a|
  {
    if |a| > 0 {
      assert (a + b)[1..] == a[1..] + b;
      SumAppend(a[1..], b);
    } else {
      assert a + b == b;
    }
  }

  lemma {:induction false} SumZeros(n: nat)
    ensures Sum(Zeros(n)) == 0
    decreases n
  {
    if n > 0 {
      assert Zeros(n)[1..] == Zeros(n - 1);
      SumZeros(n - 1);
    }
  }

  /** The ten zero entries that `make([]uint64, 10)` puts in front of the
      appended values change nothing: the result is the wrapped sum of the
      appended values alone. */
  lemma PaddedInject(n: nat, s: seq<nat>)
    ensures Inject(Zeros(n) + s, 0) == Sum(s) % TwoTo64
  {
    InjectIsWrappedSum(Zeros(n) + s, 0);
    SumAppend(Zeros(n), s);
    SumZeros(n);
  }
}
