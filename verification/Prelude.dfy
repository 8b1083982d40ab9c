/** Shared vocabulary: optional values, instants and the identifiers the tables use. */
module Prelude {
  datatype Option<+T> = None | Some(value: T)

  /** Instants and durations, in seconds. */
  type Time = real

  type RunId = nat
  type WorkerId = nat
  type TenantId = nat

  /** A stored JSON result. Only its identity matters to the protocol. */
  type Value = string

  /** What a workload has collected from its steps, in order. */
  type Results = seq<Option<Value>>

  function Min(a: real, b: real): real { if a <= b then a else b }

  function Max(a: real, b: real): real { if a >= b then a else b }

  lemma SmallerSet<T>(a: set<T>, b: set<T>)
    requires a <= b
    ensures |a| <= |b|
  {
    assert b == a + (b - a);
  }

  /** {0, 1, …, n - 1} */
  function Upto(n: nat): (s: set<nat>)
    ensures |s| == n && forall j :: j in s <==> 0 <= j < n
  {
    if n == 0 then {} else Upto(n - 1) + {n - 1}
  }
}
