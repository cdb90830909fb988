/** Small shared vocabulary: optional values, byte strings and sequence helpers. */
module Prelude {
  datatype Option<+T> = None | Some(value: T)

  datatype Result<+T, +E> = Ok(value: T) | Err(error: E)

  // Go strings are byte strings; a byte is written as the character with that code.
  type Byte = c: char | (c as int) < 256 witness 'a'
  type Bytes = seq<Byte>

  /** The concatenation of all sequences in ss, in order. */
  function Flatten<T>(ss: seq<seq<T>>): seq<T> {
    if ss == [] then [] else Flatten(ss[..|ss| - 1]) + ss[|ss| - 1]
  }

  lemma FlattenAppend<T>(ss: seq<seq<T>>, last: seq<T>)
    ensures Flatten(ss + [last]) == Flatten(ss) + last
  {
  }

  /** n copies of x. */
  function Repeat<T>(x: T, n: nat): seq<T> {
    seq(n, _ => x)
  }
}
