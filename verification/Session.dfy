/** One database session among others. */
module Session {
  /** What surrounds it: the events of the others before the i-th statement it issues, and whether that errors. */
  datatype Env<E> = Env(others: nat -> seq<E>, fails: nat -> bool)

  /** No other event and no error. */
  ghost predicate Undisturbed<E>(env: Env<E>) {
    forall i: nat :: env.others(i) == [] && !env.fails(i)
  }

  /** Every event so far, everyone's, and how many statements the session issued. */
  datatype Past<E> = Past(trace: seq<E>, turn: nat)

  ghost predicate Since<E>(p: Past<E>, q: Past<E>) {
    p.trace <= q.trace && p.turn <= q.turn
  }

  /** A statement issued between p and q errored. */
  ghost predicate Errored<E>(p: Past<E>, q: Past<E>, env: Env<E>) {
    exists i: nat :: p.turn <= i < q.turn && env.fails(i)
  }

  lemma SinceSelf<E>(p: Past<E>)
    ensures Since(p, p)
  {
  }

  lemma SinceTwice<E>(p: Past<E>, q: Past<E>, r: Past<E>)
    requires Since(p, q) && Since(q, r)
    ensures Since(p, r)
  {
  }
}
