/** Small result types shared by all modules. */
module Common {

  datatype Option<+T> = None | Some(value: T)

  /** How a failed cloud call is seen by the controller: the resource does not exist
      (HTTP 404), or anything else. */
  datatype Error = NotFound | Other

  /** What a call returns. `:-` propagates an error to the caller, as the early returns of
      the controller do. */
  datatype Result<+T> = Ok(value: T) | Err(error: Error) {
    predicate IsFailure() {
      Err?
    }

    function PropagateFailure<U>(): Result<U>
      requires Err?
    {
      Err(error)
    }

    function Extract(): T
      requires Ok?
    {
      value
    }
  }

  lemma MinusTwice<K, V>(m: map<K, V>, a: set<K>, b: set<K>)
    ensures (m - a) - b == m - (a + b)
  {
  }

  lemma UnionAssociates<T>(a: set<T>, b: set<T>, c: set<T>)
    ensures (a + b) + c == a + (b + c)
  {
  }

  lemma SomeInt(s: set<int>)
    requires s != {}
    ensures exists n :: n in s
  {
    if forall n :: n !in s {
      assert false;
    }
  }
}
