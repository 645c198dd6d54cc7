/**
  The shared helpers of the crawler backend that hold logic: the per-request
  key/value context `AsyncContext`, and the `InsufficientBalanceError` error
  class.
 */
module SharedIndex {
  import opened Common
  import OrderedMap

  /** `AsyncContext`: a `Map` from string keys to arbitrary values of type `V`. */
  class AsyncContext<V> {
    var storage: map<string, V>
    var order: seq<string>

    ghost function Model(): OrderedMap.OMap<V>
      reads this
    {
      OrderedMap.OMap(storage, order)
    }

    ghost predicate Valid()
      reads this
    {
      OrderedMap.Valid(Model())
    }

    constructor ()
      ensures Valid() && Model() == OrderedMap.Empty()
    {
      storage := map[];
      order := [];
    }

    /** `set(key, value)`: binds `key`, replacing any earlier value. */
    method Set(key: string, value: V)
      requires Valid()
      modifies this
      ensures Valid()
      ensures Model() == OrderedMap.Set(old(Model()), key, value)
    {
      if key !in storage {
        order := order + [key];
      }
      storage := storage[key := value];
    }

    /** `get(key)`: the stored value, or `None` (undefined) for a key never set; changes nothing. */
    method Get(key: string) returns (value: Option<V>)
      requires Valid()
      ensures value.Some? <==> key in storage
      ensures value.Some? ==> value.value == storage[key]
      ensures value == OrderedMap.Get(Model(), key)
    {
      value := if key in storage then Some(storage[key]) else None;
    }
  }

  /** A JavaScript `Error` object as far as the backend reads it. */
  datatype ErrorObject = ErrorObject(name: string, message: string)

  const InsufficientBalanceErrorName := "InsufficientBalanceError"

  /** `new InsufficientBalanceError(message)`. */
  function NewInsufficientBalanceError(message: string): (e: ErrorObject)
    ensures e.message == message
    ensures e.name == InsufficientBalanceErrorName && e.name != "Error"
  {
    ErrorObject(InsufficientBalanceErrorName, message)
  }
}
