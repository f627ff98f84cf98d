/** Samples and the byte memory that stores them. A sample is its four bytes on the wire
    (16 bit I, 16 bit Q). Addresses are byte addresses, because a quarter of the memory need not
    start on a multiple of the sample size. */
module Samples {

  const SAMPLE_SIZE: nat := 4

  newtype Byte = x: int | 0 <= x < 256

  datatype Sample = Sample(b0: Byte, b1: Byte, b2: Byte, b3: Byte)

  const ZERO := Sample(0, 0, 0, 0)

  type MimoSignal = seq<seq<Sample>>

  function ReadSample(mem: seq<Byte>, a: nat): Sample
    requires a + SAMPLE_SIZE <= |mem|
  {
    Sample(mem[a], mem[a + 1], mem[a + 2], mem[a + 3])
  }

  function WriteSample(mem: seq<Byte>, a: nat, x: Sample): (r: seq<Byte>)
    requires a + SAMPLE_SIZE <= |mem|
    ensures |r| == |mem|
    ensures ReadSample(r, a) == x
    ensures AgreeOutside(mem, r, a, a + SAMPLE_SIZE)
  {
    mem[a := x.b0][a + 1 := x.b1][a + 2 := x.b2][a + 3 := x.b3]
  }

  /** `mem` and `mem'` differ at most at the addresses lo <= a < hi. */
  ghost predicate AgreeOutside(mem: seq<Byte>, mem': seq<Byte>, lo: nat, hi: nat) {
    && |mem| == |mem'|
    && forall a | 0 <= a < |mem| && !(lo <= a < hi) :: mem'[a] == mem[a]
  }

  /** The bytes from `base` on spell exactly the samples `xs`. */
  ghost predicate Holds(mem: seq<Byte>, base: nat, xs: seq<Sample>) {
    && base + SAMPLE_SIZE * |xs| <= |mem|
    && forall j | 0 <= j < |xs| :: ReadSample(mem, base + SAMPLE_SIZE * j) == xs[j]
  }

  lemma AgreeOutsideTrans(m0: seq<Byte>, m1: seq<Byte>, m2: seq<Byte>, lo: nat, hi: nat)
    requires AgreeOutside(m0, m1, lo, hi) && AgreeOutside(m1, m2, lo, hi)
    ensures AgreeOutside(m0, m2, lo, hi)
  {
  }

  /** What is stored outside the changed bytes stays stored. */
  lemma HoldsFrame(mem: seq<Byte>, mem': seq<Byte>, lo: nat, hi: nat, base: nat, xs: seq<Sample>)
    requires Holds(mem, base, xs) && AgreeOutside(mem, mem', lo, hi)
    requires base + SAMPLE_SIZE * |xs| <= lo || hi <= base
    ensures Holds(mem', base, xs)
  {
  }

  lemma HoldsAt(mem: seq<Byte>, base: nat, xs: seq<Sample>, j: nat)
    requires Holds(mem, base, xs) && j < |xs|
    ensures base + SAMPLE_SIZE * j + SAMPLE_SIZE <= |mem|
    ensures ReadSample(mem, base + SAMPLE_SIZE * j) == xs[j]
  {
  }

  lemma HoldsAppend(mem: seq<Byte>, base: nat, xs: seq<Sample>, x: Sample)
    requires Holds(mem, base, xs)
    requires base + SAMPLE_SIZE * |xs| + SAMPLE_SIZE <= |mem|
    ensures Holds(WriteSample(mem, base + SAMPLE_SIZE * |xs|, x), base, xs + [x])
  {
    var a := base + SAMPLE_SIZE * |xs|;
    var mem' := WriteSample(mem, a, x);
    HoldsFrame(mem, mem', a, a + SAMPLE_SIZE, base, xs);
    forall j | 0 <= j < |xs + [x]| ensures ReadSample(mem', base + SAMPLE_SIZE * j) == (xs + [x])[j] {
      if j < |xs| {
        assert ReadSample(mem', base + SAMPLE_SIZE * j) == xs[j];
      }
    }
  }

  /** The samples lo <= j < hi of a stored sequence are stored from their own address on. */
  lemma HoldsSlice(mem: seq<Byte>, base: nat, xs: seq<Sample>, lo: nat, hi: nat)
    requires Holds(mem, base, xs) && lo <= hi <= |xs|
    ensures Holds(mem, base + SAMPLE_SIZE * lo, xs[lo..hi])
  {
    forall j | 0 <= j < hi - lo
      ensures ReadSample(mem, base + SAMPLE_SIZE * lo + SAMPLE_SIZE * j) == xs[lo..hi][j]
    {
      assert ReadSample(mem, base + SAMPLE_SIZE * (lo + j)) == xs[lo + j];
    }
  }

  /** `n` zero samples. */
  function Zeros(n: nat): (r: seq<Sample>)
    ensures |r| == n
    ensures forall j | 0 <= j < n :: r[j] == ZERO
  {
    seq(n, _ => ZERO)
  }

  /** The first `n` samples of `xs` played over and over. */
  function Cyclic(xs: seq<Sample>, n: nat): (r: seq<Sample>)
    ensures xs != [] ==> |r| == n && forall j | 0 <= j < n :: r[j] == xs[j % |xs|]
  {
    if |xs| == 0 then [] else seq(n, j requires 0 <= j => xs[j % |xs|])
  }

  /** `xs` laid end to end `n` times. */
  function Repeat(xs: seq<Sample>, n: nat): (r: seq<Sample>) {
    if n == 0 then [] else Repeat(xs, n - 1) + xs
  }

  lemma {:induction false} RepeatLength(xs: seq<Sample>, n: nat)
    ensures |Repeat(xs, n)| == |xs| * n
  {
    if n > 0 {
      RepeatLength(xs, n - 1);
    }
  }

  /** Playing a window round and round, a whole number of turns, is repeating its contents. */
  lemma {:induction false} CyclicIsRepeat(xs: seq<Sample>, n: nat)
    ensures Cyclic(xs, |xs| * n) == Repeat(xs, n)
  {
    RepeatLength(xs, n);
    if |xs| > 0 {
      forall j | 0 <= j < |xs| * n ensures xs[j % |xs|] == Repeat(xs, n)[j] {
        RepeatAt(xs, n, j);
      }
    }
  }

  lemma {:induction false} RepeatAt(xs: seq<Sample>, n: nat, j: nat)
    requires |xs| > 0 && j < |xs| * n
    ensures |Repeat(xs, n)| == |xs| * n
    ensures Repeat(xs, n)[j] == xs[j % |xs|]
  {
    RepeatLength(xs, n);
    RepeatLength(xs, n - 1);
    var m := |xs| * (n - 1);
    assert |xs| * n == m + |xs|;
    if j < m {
      RepeatAt(xs, n - 1, j);
    } else {
      DivModUnique(j, |xs|, n - 1, j - m);
    }
  }

  lemma DivModUnique(a: nat, m: nat, q: nat, r: nat)
    requires m > 0 && a == m * q + r && r < m
    ensures a / m == q && a % m == r
  {
    var q' := a / m;
    assert a == m * q' + a % m;
    if q' < q {
      MulMonotone(m, q' + 1, q);
    } else if q < q' {
      MulMonotone(m, q + 1, q');
    }
  }

  lemma MulMonotone(m: nat, a: nat, b: nat)
    requires a <= b
    ensures m * a <= m * b
  {
    assert m * b == m * a + m * (b - a);
  }
}
