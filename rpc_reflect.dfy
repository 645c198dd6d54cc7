/**
  The RPC reflection registry of the crawler backend: a `Map` from method
  name to handler function, filled by `registerMethod` and read by
  `getMethod` and `listMethods`. Handlers are opaque values of type `F`.
 */
module RpcReflect {
  import opened Common
  import OrderedMap

  class RPCReflect<F> {
    /** The `methods` Map: its bindings, and its keys in insertion order. */
    var methods: map<string, F>
    var order: seq<string>

    /** The registry as a JavaScript `Map` value. */
    ghost function Model(): OrderedMap.OMap<F>
      reads this
    {
      OrderedMap.OMap(methods, order)
    }

    ghost predicate Valid()
      reads this
    {
      OrderedMap.Valid(Model())
    }

    constructor ()
      ensures Valid() && Model() == OrderedMap.Empty()
    {
      methods := map[];
      order := [];
    }

    /** `registerMethod(name, fn)`: binds `name` to `fn`, replacing any earlier binding. */
    method RegisterMethod(name: string, fn: F)
      requires Valid()
      modifies this
      ensures Valid()
      ensures Model() == OrderedMap.Set(old(Model()), name, fn)
    {
      if name !in methods {
        order := order + [name];
      }
      methods := methods[name := fn];
    }

    /** `getMethod(name)`: the bound function, or `None` (undefined) for a name never registered. */
    method GetMethod(name: string) returns (fn: Option<F>)
      requires Valid()
      ensures fn.Some? <==> name in methods
      ensures fn.Some? ==> fn.value == methods[name]
      ensures fn == OrderedMap.Get(Model(), name)
    {
      if name in methods {
        fn := Some(methods[name]);
      } else {
        fn := None;
      }
    }

    /** `listMethods()`: every registered name once, in first-registration order. */
    method ListMethods() returns (names: seq<string>)
      requires Valid()
      ensures names == OrderedMap.Keys(Model())
      ensures OrderedMap.NoDuplicates(names)
      ensures forall n :: n in names <==> n in methods
    {
      names := order;
    }
  }
}
