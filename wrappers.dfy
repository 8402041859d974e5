/** Option and Result, and the concatenation of two fallible sequence computations. */
module Wrappers {

  datatype Option<+T> = None | Some(value: T)

  datatype Result<+T, +E> = Ok(value: T) | Err(error: E)

  /** Runs `a`, then `b`, and appends what they produce; the first failure wins. */
  function Then<T, E>(a: Result<seq<T>, E>, b: Result<seq<T>, E>): (r: Result<seq<T>, E>)
    ensures r.Ok? <==> a.Ok? && b.Ok?
    ensures r.Ok? ==> r.value == a.value + b.value
    ensures a.Err? ==> r == a
    ensures a.Ok? && b.Err? ==> r == b
  {
    match a
    case Err(_) => a
    case Ok(x) =>
      match b
      case Err(_) => b
      case Ok(y) => Ok(x + y)
  }

  lemma ThenAssociative<T, E>(a: Result<seq<T>, E>, b: Result<seq<T>, E>, c: Result<seq<T>, E>)
    ensures Then(Then(a, b), c) == Then(a, Then(b, c))
  {
    if a.Ok? && b.Ok? && c.Ok? {
      assert (a.value + b.value) + c.value == a.value + (b.value + c.value);
    }
  }

  lemma ThenUnit<T, E>(a: Result<seq<T>, E>)
    ensures Then(a, Ok([])) == a && Then(Ok([]), a) == a
  {
    if a.Ok? {
      assert a.value + [] == a.value;
      assert [] + a.value == a.value;
    }
  }
}
