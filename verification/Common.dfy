/** What several models share. */
module Common {
  datatype Option<+T> = None | Some(value: T)

  /** A log record. `content` stands for everything in it, `bytes` is the UTF-8 size of its
      JSON text, and `encodable` says whether `JSON.stringify` accepts it. */
  datatype Record = Record(content: int, encodable: bool, bytes: nat)

  lemma {:induction false} SubsetSize<T>(a: set<T>, b: set<T>)
    requires a <= b
    ensures |a| <= |b|
  {
    if a != {} {
      var x :| x in a;
      SubsetSize(a - {x}, b - {x});
    }
  }
}
