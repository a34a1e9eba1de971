// Shapes shared by several models.
module Common {
  datatype Option<+T> = None | Some(value: T)

  // A C++ or Python computation that may end in an exception.
  datatype Result<+T> = Ok(value: T) | Throws(message: string)

  function Bit(b: bool): nat { if b then 1 else 0 }

  predicate NoDup<T(==)>(v: seq<T>) {
    forall i, j :: 0 <= i < j < |v| ==> v[i] != v[j]
  }

  function Elems<T>(v: seq<T>): set<T> { set x | x in v }
}
