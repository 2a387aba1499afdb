/** Small shared vocabulary. */
module Common {
  datatype Option<+T> = None | Some(value: T)

  /** A byte as the wire carries it. */
  type Byte = x: int | 0 <= x < 256

  function Max(x: int, y: int): int {
    if x >= y then x else y
  }

  function Min(x: int, y: int): int {
    if x <= y then x else y
  }

  predicate NoDuplicates<T(==)>(xs: seq<T>) {
    forall i, j :: 0 <= i < j < |xs| ==> xs[i] != xs[j]
  }

  /** A set that remembers insertion order, as iteration over a JavaScript Set or Map sees it. */
  type OrderedSet<T(==)> = xs: seq<T> | NoDuplicates(xs) witness []

  function AddTo<T(==,!new)>(xs: OrderedSet<T>, x: T): (r: OrderedSet<T>)
    ensures forall y :: y in r <==> y in xs || y == x
  {
    if x in xs then xs else xs + [x]
  }

  function RemoveFrom<T(==,!new)>(xs: OrderedSet<T>, x: T): (r: OrderedSet<T>)
    ensures forall y :: y in r <==> y in xs && y != x
  {
    if xs == [] then []
    else
      var rest := RemoveFrom(xs[1..], x);
      assert forall y :: y in xs <==> y == xs[0] || y in xs[1..];
      assert xs[0] !in xs[1..];
      if xs[0] == x then rest else [xs[0]] + rest
  }
}
