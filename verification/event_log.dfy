/**
  A run's side effects as one sequence: the loop appends the events of each
  index in turn, so the log is the concatenation of per-index parts.
 */
module EventLog {

  /** `part(lo) + part(lo + 1) + ... + part(hi - 1)` */
  function Concat<T>(part: nat -> seq<T>, lo: nat, hi: int): seq<T>
    decreases hi - lo
  {
    if hi <= lo then [] else Concat(part, lo, hi - 1) + part(hi - 1)
  }

  lemma InAppend<T>(e: T, a: seq<T>, b: seq<T>)
    ensures e in a + b <==> e in a || e in b
  {
  }

  /** An event is logged exactly when one index in `[lo, hi)` produced it. */
  lemma {:induction false} InConcat<T>(part: nat -> seq<T>, lo: nat, hi: int, e: T)
    ensures e in Concat(part, lo, hi) <==> exists j :: lo <= j < hi && e in part(j)
    decreases hi - lo
  {
    if hi > lo {
      InConcat(part, lo, hi - 1, e);
      InAppend(e, Concat(part, lo, hi - 1), part(hi - 1));
    }
  }
}
