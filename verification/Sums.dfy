/** Finite sums, and the order in which vector registers add them up: lane by lane, then across the lanes. */
module Sums {
  ghost function Sum(f: int -> real, n: nat): real {
    if n == 0 then 0.0 else Sum(f, n - 1) + f(n - 1)
  }

  lemma {:induction false} SumAgree(f: int -> real, g: int -> real, n: nat)
    requires forall i | 0 <= i < n :: f(i) == g(i)
    ensures Sum(f, n) == Sum(g, n)
  {
    if n > 0 {
      SumAgree(f, g, n - 1);
    }
  }

  /** Terms that are zero do not matter. */
  lemma {:induction false} SumZeros(f: int -> real, n: nat, m: nat)
    requires n <= m && forall i | n <= i < m :: f(i) == 0.0
    ensures Sum(f, m) == Sum(f, n)
  {
    if n < m {
      SumZeros(f, n, m - 1);
    }
  }

  /** Lane `j` of `width` adds up every `width`-th term. */
  ghost function Lane(f: int -> real, width: nat, j: nat, chunks: nat): real {
    if chunks == 0 then 0.0 else Lane(f, width, j, chunks - 1) + f((chunks - 1) * width + j)
  }

  ghost function Lanes(f: int -> real, width: nat, chunks: nat): int -> real {
    j => if j < 0 then 0.0 else Lane(f, width, j, chunks)
  }

  /** The first `n` lanes after one more chunk. */
  lemma {:induction false} LanesNext(f: int -> real, width: nat, chunks: nat, n: nat)
    requires n <= width
    ensures Sum(Lanes(f, width, chunks + 1), n) == Sum(Lanes(f, width, chunks), n) + (Sum(f, chunks * width + n) - Sum(f, chunks * width))
  {
    if n > 0 {
      LanesNext(f, width, chunks, n - 1);
    }
  }

  /** Adding within the lanes and then across them adds up all terms. */
  lemma {:induction false} LanesTotal(f: int -> real, width: nat, chunks: nat)
    ensures Sum(Lanes(f, width, chunks), width) == Sum(f, chunks * width)
  {
    if chunks == 0 {
      SumZeros(Lanes(f, width, 0), 0, width);
    } else {
      LanesTotal(f, width, chunks - 1);
      LanesNext(f, width, chunks - 1, width);
      assert (chunks - 1) * width + width == chunks * width;
    }
  }
}
