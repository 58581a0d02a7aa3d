/**
 * Lazy: a single memo cell that computes its value once, on first demand,
 * and can be cleared. A Java `null` (absent supplier, absent value, or a
 * supplier yielding null) is `None`; `requireNonNull` failing is a
 * `Failure(NullPointer)`.
 */
module Util {
  import opened Wrappers

  /** A supplier: a computation that yields a value or null. */
  type Supplier<T> = () -> Option<T>

  /** The answer of getOrCompute and the cell's content afterwards. */
  datatype Outcome<T> = Outcome(result: Result<T>, value: Option<T>)

  /** getOrCompute(supplier) on a cell holding `value`. */
  function Compute<T>(value: Option<T>, supplier: Option<Supplier<T>>): Outcome<T> {
    if value.Some? then Outcome(Success(value.value), value)
    else if supplier.None? then Outcome(Failure(NullPointer), None)
    else
      var v := supplier.value();
      if v.None? then Outcome(Failure(NullPointer), None) else Outcome(Success(v.value), v)
  }

  /** A stored value is returned as it is, whichever supplier is passed. */
  lemma ComputeKeepsPresent<T>(v: T, supplier: Option<Supplier<T>>)
    ensures Compute(Some(v), supplier) == Outcome(Success(v), Some(v))
  {
  }

  /** A successful call leaves its answer stored, and every later call returns
      that same answer without using its supplier. */
  lemma ComputeOnce<T>(value: Option<T>, first: Option<Supplier<T>>, later: Option<Supplier<T>>)
    requires Compute(value, first).result.Success?
    ensures var o := Compute(value, first);
      o.value == Some(o.result.value) && Compute(o.value, later) == o
  {
  }

  /** A call fails exactly when nothing is stored and the supplier is null or yields null;
      a failed call stores nothing. */
  lemma ComputeFails<T>(value: Option<T>, supplier: Option<Supplier<T>>)
    ensures Compute(value, supplier).result.Failure? <==>
      value.None? && (supplier.None? || supplier.value().None?)
    ensures Compute(value, supplier).result.Failure? ==> Compute(value, supplier).value == None
  {
  }

  class Lazy<T> {
    var supplier: Option<Supplier<T>>
    var value: Option<T>

    /** Lazy(): no supplier, nothing stored. */
    constructor ()
      ensures supplier == None && value == None
    {
      supplier := None;
      value := None;
    }

    /** Lazy(supplier): nothing is computed yet. */
    constructor WithSupplier(supplier: Option<Supplier<T>>)
      ensures this.supplier == supplier && value == None
    {
      this.supplier := supplier;
      value := None;
    }

    /** getOrCompute(supplier) */
    method GetOrComputeWith(s: Option<Supplier<T>>) returns (r: Result<T>)
      modifies this
      ensures Outcome(r, value) == Compute(old(value), s)
      ensures supplier == old(supplier)
    {
      var result := value;
      if result.Some? {
        r := Success(result.value);
      } else {
        r := MaybeCompute(s);
      }
    }

    /** maybeCompute: both the supplier and its answer must be non-null. */
    method MaybeCompute(s: Option<Supplier<T>>) returns (r: Result<T>)
      modifies this
      ensures Outcome(r, value) == Compute(old(value), s)
      ensures supplier == old(supplier)
    {
      if value.None? {
        if s.None? {
          return Failure(NullPointer);
        }
        var v := s.value();
        if v.None? {
          return Failure(NullPointer);
        }
        value := v;
      }
      r := Success(value.value);
    }

    /** getOrCompute(): uses the supplier given at construction. */
    method GetOrCompute() returns (r: Result<T>)
      modifies this
      ensures Outcome(r, value) == Compute(old(value), supplier)
      ensures supplier == old(supplier)
    {
      r := GetOrComputeWith(supplier);
    }

    function IsPresent(): (b: bool)
      reads this
      ensures b <==> value.Some?
    {
      value.Some?
    }

    /** clear(): forget the value, so that the next call computes again. */
    method Clear()
      modifies this
      ensures value == None && supplier == old(supplier)
    {
      value := None;
    }
  }
}
