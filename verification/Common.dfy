/** Small datatypes shared by every component. */
module Common {

  newtype byte = x: int | 0 <= x < 256

  type Bytes = seq<byte>

  datatype Option<+T> = None | Some(value: T)

  /** The result of an operation the program guards with a `panic`: either the
      guard fired, or the operation produced a value. */
  datatype Checked<+T> = Panic | Ok(value: T) {

    predicate IsFailure() {
      Panic?
    }

    function PropagateFailure<U>(): Checked<U>
      requires Panic?
    {
      Panic
    }

    function Extract(): T
      requires Ok?
    {
      value
    }
  }

  /** The outcome of a state-changing method that may panic. */
  datatype Outcome = Done | Panicked {

    predicate IsFailure() {
      Panicked?
    }

    function PropagateFailure(): Outcome
      requires Panicked?
    {
      Panicked
    }
  }

  function Min(a: nat, b: nat): nat {
    if a <= b then a else b
  }

  function Max(a: nat, b: nat): nat {
    if a >= b then a else b
  }

  /** A map lookup with the zero default of an absent counter. */
  function CountOf<K>(m: map<K, nat>, k: K): nat {
    if k in m then m[k] else 0
  }

  lemma SubsetSize<T>(a: set<T>, b: set<T>)
    requires a <= b
    ensures |a| <= |b|
  {
    assert b == a + (b - a);
  }
}
