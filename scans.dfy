/** A left-to-right pass over a sequence that threads a state through one step per element and
    collects what each step emits. `getAllTools`'s loop over the configs is such a pass. */
module Scans {

  /** What the first `k` steps emit, in order, and the state after them. */
  function Scan<C, T, S>(xs: seq<C>, k: nat, s0: S, step: (S, C) -> (seq<T>, S)): (r: (seq<T>, S))
    requires k <= |xs|
  {
    if k == 0 then ([], s0)
    else
      var done := Scan(xs, k - 1, s0, step);
      var next := step(done.1, xs[k - 1]);
      (done.0 + next.0, next.1)
  }

  /** The pass unfolded by one step. */
  lemma ScanLast<C, T, S>(xs: seq<C>, k: nat, s0: S, step: (S, C) -> (seq<T>, S))
    requires 0 < k <= |xs|
    ensures var done := Scan(xs, k - 1, s0, step);
      var next := step(done.1, xs[k - 1]);
      Scan(xs, k, s0, step) == (done.0 + next.0, next.1)
  {
  }

  /** A property of the state that every step on an `ok` element preserves holds from step `j` to
      step `k` when all elements in between are `ok`. */
  lemma {:induction false} ScanKeeps<C, T, S>(xs: seq<C>, j: nat, k: nat, s0: S, step: (S, C) -> (seq<T>, S),
                                              ok: C -> bool, inv: S -> bool)
    requires j <= k <= |xs|
    requires inv(Scan(xs, j, s0, step).1)
    requires forall i :: j <= i < k ==> ok(xs[i])
    requires forall s: S, c: C :: inv(s) && ok(c) ==> inv(step(s, c).1)
    ensures inv(Scan(xs, k, s0, step).1)
    decreases k
  {
    if k > j {
      ScanKeeps(xs, j, k - 1, s0, step, ok, inv);
      StepKeeps(Scan(xs, k - 1, s0, step).1, xs[k - 1], step, ok, inv);
    }
  }

  lemma StepKeeps<C, T, S>(s: S, c: C, step: (S, C) -> (seq<T>, S), ok: C -> bool, inv: S -> bool)
    requires forall s: S, c: C :: inv(s) && ok(c) ==> inv(step(s, c).1)
    requires inv(s) && ok(c)
    ensures inv(step(s, c).1)
  {
  }

  /** When every step on an `ok` element emits only values with property `p`, and every element is
      `ok`, every value the pass emits has property `p`. */
  lemma {:induction false} ScanEmits<C, T, S>(xs: seq<C>, k: nat, s0: S, step: (S, C) -> (seq<T>, S),
                                              ok: C -> bool, p: T -> bool)
    requires k <= |xs|
    requires forall i :: 0 <= i < k ==> ok(xs[i])
    requires forall s: S, c: C :: ok(c) ==> forall t :: t in step(s, c).0 ==> p(t)
    ensures forall t :: t in Scan(xs, k, s0, step).0 ==> p(t)
  {
    if k > 0 {
      ScanEmits(xs, k - 1, s0, step, ok, p);
      var done := Scan(xs, k - 1, s0, step);
      StepEmits(done.1, xs[k - 1], step, ok, p);
      var next := step(done.1, xs[k - 1]);
      forall t | t in done.0 + next.0
        ensures p(t)
      {
      }
    }
  }

  lemma StepEmits<C, T, S>(s: S, c: C, step: (S, C) -> (seq<T>, S), ok: C -> bool, p: T -> bool)
    requires forall s: S, c: C :: ok(c) ==> forall t :: t in step(s, c).0 ==> p(t)
    requires ok(c)
    ensures forall t :: t in step(s, c).0 ==> p(t)
  {
  }
}
