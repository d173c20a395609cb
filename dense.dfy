/**
 * Dense arrays filled from sparse dictionaries: every cell starts at a
 * default value (`np.full` / `np.zeros`), then each recorded entry is written
 * into its cell by a loop over the dictionary's items.
 */
module Dense {
  /** The lookup of a `defaultdict(list)`: a key never written to reads as the empty list. */
  function ListAt<K, V>(m: map<K, seq<V>>, k: K): seq<V>
  {
    if k in m then m[k] else []
  }

  /** A fresh n0 x n1 array holding `m[(i, j)]` where the key is recorded and `default` elsewhere. */
  method Dense2<T>(m: map<(nat, nat), T>, n0: nat, n1: nat, default: T) returns (a: array2<T>)
    requires forall key :: key in m ==> key.0 < n0 && key.1 < n1
    ensures fresh(a) && a.Length0 == n0 && a.Length1 == n1
    ensures forall i, j :: 0 <= i < n0 && 0 <= j < n1 ==> a[i, j] == if (i, j) in m then m[(i, j)] else default
  {
    a := new T[n0, n1]((i, j) => default);
    var todo := m.Keys;
    while todo != {}
      invariant todo <= m.Keys
      invariant forall i, j :: 0 <= i < n0 && 0 <= j < n1 ==>
                  a[i, j] == if (i, j) in m && (i, j) !in todo then m[(i, j)] else default
      decreases |todo|
    {
      var key: (nat, nat) :| key in todo;
      a[key.0, key.1] := m[key];
      todo := todo - {key};
    }
  }

  /** A fresh n0 x n1 x n2 array holding `m[(i, j, k)]` where the key is recorded and `default` elsewhere. */
  method Dense3<T>(m: map<(nat, nat, nat), T>, n0: nat, n1: nat, n2: nat, default: T) returns (a: array3<T>)
    requires forall key :: key in m ==> key.0 < n0 && key.1 < n1 && key.2 < n2
    ensures fresh(a) && a.Length0 == n0 && a.Length1 == n1 && a.Length2 == n2
    ensures forall i, j, k :: 0 <= i < n0 && 0 <= j < n1 && 0 <= k < n2 ==>
              a[i, j, k] == if (i, j, k) in m then m[(i, j, k)] else default
  {
    a := new T[n0, n1, n2]((i, j, k) => default);
    var todo := m.Keys;
    while todo != {}
      invariant todo <= m.Keys
      invariant forall i, j, k :: 0 <= i < n0 && 0 <= j < n1 && 0 <= k < n2 ==>
                  a[i, j, k] == if (i, j, k) in m && (i, j, k) !in todo then m[(i, j, k)] else default
      decreases |todo|
    {
      var key: (nat, nat, nat) :| key in todo;
      a[key.0, key.1, key.2] := m[key];
      todo := todo - {key};
    }
  }
}
