/**
 * Python object identity. The builders remember the objects they hand out by
 * `id(obj)`; here such an object is a fresh instance of an empty class, so two
 * handles are the same exactly when they are the same allocation.
 */
module Identity {
  class Handle {
    constructor ()
    {
    }
  }

  /** No two handles are mapped to the same index. */
  predicate Injective(m: map<Handle, nat>)
  {
    forall a, b :: a in m && b in m && a != b ==> m[a] != m[b]
  }

  /** Every handle is mapped to an index below `n`. */
  predicate Below(m: map<Handle, nat>, n: nat)
  {
    forall h :: h in m ==> m[h] < n
  }
}
