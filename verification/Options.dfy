/** The result shapes the other modules share, and the copying of a map. */
module Options {
  datatype Option<+T> = None | Some(value: T)

  datatype Result<+T, +E> = Success(value: T) | Failure(error: E)

  /** A map copied entry by entry. */
  method CopyMap<K, V>(from: map<K, V>) returns (out: map<K, V>)
    ensures out == from
  {
    out := map[];
    var todo := from.Keys;
    while todo != {}
      invariant todo <= from.Keys && out.Keys == from.Keys - todo
      invariant forall k :: k in out ==> out[k] == from[k]
      decreases |todo|
    {
      var k :| k in todo;
      out := out[k := from[k]];
      todo := todo - {k};
    }
  }
}
