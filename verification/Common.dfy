/** What a pointer that may be null points to. */
module Options {
  datatype Option<T> = None | Some(value: T)
}

/** Places of a ring of n, counted around its end. */
module Rings {
  function Wrap(x: nat, n: nat): nat { if x < n then x else x - n }

  /** How far place i is behind the front. */
  function Behind(i: nat, front: nat, n: nat): int { if i >= front then i - front else i + n - front }
}
