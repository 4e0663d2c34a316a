/** Values shared by every broker: optional values, Go-style results and
    errors, and the enumeration of a map's keys in an unspecified order. */
module Common {

  datatype Option<+T> = None | Some(value: T)

  /** A Go error value. `Panic` marks the points where the Go code does not
      return at all but crashes (a nil dereference, closing a closed channel). */
  datatype Error = Error(msg: string) | Panic(reason: string)

  datatype Result<+T> = Ok(value: T) | Err(error: Error)

  /** The message text of an error value (Go's `error.Error()`). */
  function Message(e: Error): string
  {
    match e
    case Error(msg) => msg
    case Panic(reason) => reason
  }

  /** Go's `for k := range m` visits every key exactly once, in an order the
      language leaves open. A method that ranges over a map takes that order
      as an input satisfying this predicate. */
  ghost predicate Enumerates<K>(order: seq<K>, keys: set<K>)
  {
    && (forall i, j :: 0 <= i < j < |order| ==> order[i] != order[j])
    && (forall i :: 0 <= i < |order| ==> order[i] in keys)
    && (forall k :: k in keys ==> k in order)
  }

  /** Every key enumerated means the enumeration is exactly as long as the key set. */
  lemma {:induction false} EnumerationLength<K>(order: seq<K>, keys: set<K>)
    requires Enumerates(order, keys)
    ensures |order| == |keys|
  {
    if order == [] {
      assert keys == {};
    } else {
      var last := order[|order| - 1];
      var rest := order[..|order| - 1];
      assert Enumerates(rest, keys - {last}) by {
        forall k | k in keys - {last} ensures k in rest {
          assert k in order;
          var i :| 0 <= i < |order| && order[i] == k;
          assert i != |order| - 1;
          assert rest[i] == k;
        }
      }
      EnumerationLength(rest, keys - {last});
    }
  }
}
