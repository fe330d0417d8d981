/** Datatypes, the clock unit and sequence helpers shared by every module of the model. */
module Prelude {

  datatype Option<+T> = None | Some(value: T)

  datatype Result<+T, +E> = Ok(value: T) | Err(error: E)

  /** `d.get(key, default)` once the lookup is done: the value, or the default when absent. */
  function GetOr<T>(o: Option<T>, default: T): T
  {
    match o case Some(v) => v case None => default
  }

  /** A reading of the local clock, in microseconds (the resolution of Python's `datetime`). */
  type Instant = int

  /** One day in microseconds: the unit behind `timedelta.days` and `timedelta(days=...)`. */
  const DAY: int := 86_400_000_000

  function Min(a: int, b: int): int { if a <= b then a else b }

  function Max(a: int, b: int): int { if a >= b then a else b }

  /** Python's `xs[:n]` for a non-negative `n`. */
  function Prefix<T>(xs: seq<T>, n: nat): (r: seq<T>)
    ensures |r| == Min(n, |xs|) && r == xs[..|r|]
  {
    if n <= |xs| then xs[..n] else xs
  }

  function Flatten<T>(xss: seq<seq<T>>): seq<T>
  {
    if xss == [] then [] else xss[0] + Flatten(xss[1..])
  }

  lemma {:induction false} FlattenAppend<T>(a: seq<seq<T>>, b: seq<seq<T>>)
    ensures Flatten(a + b) == Flatten(a) + Flatten(b)
  {
    if a == [] {
      assert a + b == b;
    } else {
      assert (a + b)[1..] == a[1..] + b;
      FlattenAppend(a[1..], b);
    }
  }

  lemma FlattenSingle<T>(x: seq<T>)
    ensures Flatten([x]) == x
  {
    assert [x][1..] == [];
  }

  /** The list comprehension `[f for f in xs if f]` when the falsy values are the `None`s. */
  function Somes<T>(xs: seq<Option<T>>): seq<T>
  {
    if xs == [] then []
    else if xs[0].Some? then [xs[0].value] + Somes(xs[1..])
    else Somes(xs[1..])
  }

  lemma {:induction false} SomesAppend<T>(a: seq<Option<T>>, b: seq<Option<T>>)
    ensures Somes(a + b) == Somes(a) + Somes(b)
  {
    if a == [] {
      assert a + b == b;
    } else {
      assert (a + b)[1..] == a[1..] + b;
      SomesAppend(a[1..], b);
    }
  }

  function Sum(xs: seq<int>): int
  {
    if xs == [] then 0 else Sum(xs[..|xs| - 1]) + xs[|xs| - 1]
  }

  function RealSum(xs: seq<real>): real
  {
    if xs == [] then 0.0 else RealSum(xs[..|xs| - 1]) + xs[|xs| - 1]
  }

  /**
   * Index of the element that Python's `max(xs, key=key)` returns: the maximum under `key`,
   * the first one when several tie (later elements replace it only when strictly greater).
   */
  function FirstArgMax<T>(xs: seq<T>, key: T -> real): (i: nat)
    requires |xs| > 0
    ensures i < |xs|
    ensures forall j :: 0 <= j < |xs| ==> key(xs[j]) <= key(xs[i])
    ensures forall j :: 0 <= j < i ==> key(xs[j]) < key(xs[i])
  {
    if |xs| == 1 then 0
    else
      var best := FirstArgMax(xs[..|xs| - 1], key);
      if key(xs[|xs| - 1]) > key(xs[best]) then |xs| - 1 else best
  }

  /** Index of the element that Python's `min(xs, key=key)` returns: the first minimum. */
  function FirstArgMin<T>(xs: seq<T>, key: T -> real): (i: nat)
    requires |xs| > 0
    ensures i < |xs|
    ensures forall j :: 0 <= j < |xs| ==> key(xs[i]) <= key(xs[j])
    ensures forall j :: 0 <= j < i ==> key(xs[i]) < key(xs[j])
  {
    if |xs| == 1 then 0
    else
      var best := FirstArgMin(xs[..|xs| - 1], key);
      if key(xs[|xs| - 1]) < key(xs[best]) then |xs| - 1 else best
  }
}
