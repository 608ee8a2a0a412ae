/** What several of the models use. */
module Common {

  datatype Option<T> = None | Some(value: T)

  /** What the framework does with a message before it looks for a user handler. */
  datatype Kind = User | Call | Shutdown

  predicate IsPrefix<T(==)>(xs: seq<T>, ys: seq<T>) {
    |xs| <= |ys| && ys[..|xs|] == xs
  }

  function Repeat<T>(x: T, n: nat): (r: seq<T>)
    ensures |r| == n && forall i :: 0 <= i < n ==> r[i] == x
  {
    if n == 0 then [] else Repeat(x, n - 1) + [x]
  }
}
