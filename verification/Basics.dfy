/** Names and small types shared by every module of the model. */
module Basics {

  datatype Option<+T> = None | Some(value: T)

  datatype TaskId = TaskId(text: string)
  datatype Name = Name(text: string)   // an archive member's file name
  datatype Hash = Hash(text: string)   // a hex digest
  datatype FileId = FileId(number: int)
  datatype ExecId = ExecId(number: int)  // one execution of process_files_task by some worker

  newtype byte = x: int | 0 <= x < 256
  type Content = seq<byte>

  /** Datetimes and durations in whole microseconds, the resolution of the source's clock. */
  type Time = int

  const SECOND: Time := 1_000_000

  function Min(a: int, b: int): (m: int)
    ensures m <= a && m <= b && (m == a || m == b)
  {
    if a <= b then a else b
  }

  function Max(a: int, b: int): (m: int)
    ensures m >= a && m >= b && (m == a || m == b)
  {
    if a >= b then a else b
  }

  /** The concatenation of a list of lists. */
  function Flatten<T>(xss: seq<seq<T>>): seq<T> {
    if xss == [] then [] else Flatten(xss[..|xss| - 1]) + xss[|xss| - 1]
  }

  lemma FlattenSnoc<T>(xss: seq<seq<T>>, xs: seq<T>)
    ensures Flatten(xss + [xs]) == Flatten(xss) + xs
  {
    assert (xss + [xs])[..|xss|] == xss;
  }
}
