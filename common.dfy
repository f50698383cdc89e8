/** Small building blocks shared by the other modules. */
module Common {

  /** A value that may be absent: Python's None, or a missing reply. */
  datatype Option<T> = None | Some(value: T)

  /** Concatenation regrouped; stated once so that loops appending to an accumulator need not re-derive it. */
  lemma AppendAssoc<T>(a: seq<T>, b: seq<T>, c: seq<T>)
    ensures (a + b) + c == a + (b + c)
  {
  }
}
