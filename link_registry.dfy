/** The type-keyed resolver registry of django_mc/link/registry.py.

    A resolver is a plug-in value: it turns an id into a URL (or fails, for
    any reason at all), says whether it handles an object, and gives an
    object's id. The registry keeps the resolvers by type in a dictionary;
    `order` is the order in which that dictionary iterates its keys. */
module LinkRegistry {
  import opened Wrappers
  import opened LinkPattern

  /** The separator `reverse` puts between type and id. */
  const TypeIdSeparator: string := "/"

  datatype RegistryError = ResolveError | ReverseResolveError

  /** A model instance a resolver may be asked about. */
  datatype ContentObject = ContentObject(modelName: string, pk: int)

  /** A resolver plug-in. `resolveId` is `None` wherever the plug-in's own
      `resolve` raises. */
  datatype Resolver = Resolver(
    resolveId: string -> Option<string>,
    handles: ContentObject -> bool,
    objectId: ContentObject -> string)

  class Registry {
    var resolvers: map<string, Resolver>
    var order: seq<string>

    /** `order` lists every registered type exactly once. */
    ghost predicate Valid()
      reads this
    {
      && (forall i, j :: 0 <= i < j < |order| ==> order[i] != order[j])
      && (forall t :: t in resolvers <==> t in order)
    }

    /** A new registry is empty. */
    constructor ()
      ensures Valid()
      ensures resolvers == map[] && order == []
    {
      resolvers := map[];
      order := [];
    }

    /** `register(t, r)`: `t` now maps to `r`, replacing any earlier resolver;
        every other type keeps its resolver and nothing is removed. */
    method Register(objectType: string, resolver: Resolver)
      requires Valid()
      modifies this
      ensures Valid()
      ensures resolvers == old(resolvers)[objectType := resolver]
      ensures order == if objectType in old(resolvers) then old(order) else old(order) + [objectType]
    {
      if objectType !in resolvers {
        order := order + [objectType];
      }
      resolvers := resolvers[objectType := resolver];
    }

    /** `resolve(type, id)`: an unregistered type and any failure inside the
        resolver both come out as `ResolveError`. */
    function Resolve(objectType: string, objectId: string): (r: Result<string, RegistryError>)
      reads this
      ensures objectType !in resolvers ==> r == Err(ResolveError)
      ensures objectType in resolvers ==>
        match resolvers[objectType].resolveId(objectId)
        case Some(url) => r == Ok(url)
        case None => r == Err(ResolveError)
      ensures r.Err? ==> r.error == ResolveError
    {
      if objectType !in resolvers then Err(ResolveError)
      else
        match resolvers[objectType].resolveId(objectId)
        case Some(url) => Ok(url)
        case None => Err(ResolveError)
    }

    /** What `reverse(obj)` gives when the search starts at position `i` of
        the iteration order: the first resolver from there that handles the
        object wins. */
    function ReverseFrom(obj: ContentObject, i: nat): Result<string, RegistryError>
      reads this
      decreases |order| - i
    {
      if i >= |order| then Err(ReverseResolveError)
      else if order[i] in resolvers && resolvers[order[i]].handles(obj) then
        Ok(order[i] + TypeIdSeparator + resolvers[order[i]].objectId(obj))
      else
        ReverseFrom(obj, i + 1)
    }

    /** `reverse(obj)`: the loop over the registered items with an early return. */
    method Reverse(obj: ContentObject) returns (r: Result<string, RegistryError>)
      requires Valid()
      ensures r == ReverseFrom(obj, 0)
      ensures r.Err? ==> r.error == ReverseResolveError
    {
      var i := 0;
      while i < |order|
        invariant 0 <= i <= |order|
        invariant ReverseFrom(obj, 0) == ReverseFrom(obj, i)
      {
        var t := order[i];
        if resolvers[t].handles(obj) {
          return Ok(t + TypeIdSeparator + resolvers[t].objectId(obj));
        }
        i := i + 1;
      }
      return Err(ReverseResolveError);
    }

    /** `reverse` fails exactly when no registered resolver handles the object. */
    lemma {:induction false} ReverseFailsIffUnhandled(obj: ContentObject, i: nat)
      requires Valid()
      ensures ReverseFrom(obj, i).Err? <==>
        forall j :: i <= j < |order| ==> !resolvers[order[j]].handles(obj)
      decreases |order| - i
    {
      if i < |order| {
        ReverseFailsIffUnhandled(obj, i + 1);
      }
    }

    /** On success `reverse` names the first handling resolver in iteration
        order, as `type/id`. */
    lemma {:induction false} ReverseFindsFirstHandler(obj: ContentObject, i: nat)
      requires Valid()
      requires ReverseFrom(obj, i).Ok?
      ensures exists k ::
        && i <= k < |order|
        && resolvers[order[k]].handles(obj)
        && (forall j :: i <= j < k ==> !resolvers[order[j]].handles(obj))
        && ReverseFrom(obj, i).value == order[k] + "/" + resolvers[order[k]].objectId(obj)
      decreases |order| - i
    {
      if !resolvers[order[i]].handles(obj) {
        ReverseFindsFirstHandler(obj, i + 1);
        var k :|
          && i + 1 <= k < |order|
          && resolvers[order[k]].handles(obj)
          && (forall j :: i + 1 <= j < k ==> !resolvers[order[j]].handles(obj))
          && ReverseFrom(obj, i + 1).value == order[k] + "/" + resolvers[order[k]].objectId(obj);
        assert i <= k < |order|;
      } else {
        assert i <= i < |order|;
      }
    }

    /** Round trip: when the handling resolver is registered under a
        `[-a-z]+` type and yields a non-empty single-line id, the output of
        `reverse` is classified as that same object reference. */
    lemma ReverseRoundTrip(obj: ContentObject, k: nat)
      requires Valid()
      requires k < |order| && resolvers[order[k]].handles(obj)
      requires forall j :: 0 <= j < k ==> !resolvers[order[j]].handles(obj)
      requires IsTypeName(order[k])
      requires resolvers[order[k]].objectId(obj) != [] && NoNewline(resolvers[order[k]].objectId(obj))
      ensures ReverseFrom(obj, 0) == Ok(order[k] + "/" + resolvers[order[k]].objectId(obj))
      ensures Classify(ReverseFrom(obj, 0).value) == Obj(order[k], resolvers[order[k]].objectId(obj))
    {
      ReverseSkips(obj, 0, k);
      ObjRecognised(order[k], resolvers[order[k]].objectId(obj));
    }

    lemma {:induction false} ReverseSkips(obj: ContentObject, i: nat, k: nat)
      requires Valid()
      requires i <= k < |order| && resolvers[order[k]].handles(obj)
      requires forall j :: i <= j < k ==> !resolvers[order[j]].handles(obj)
      ensures ReverseFrom(obj, i) == Ok(order[k] + "/" + resolvers[order[k]].objectId(obj))
      decreases k - i
    {
      if i < k {
        ReverseSkips(obj, i + 1, k);
      }
    }
  }

  /** `resolve` on a type that is not registered fails whatever the id. */
  lemma UnregisteredAlwaysFails(reg: Registry, objectType: string)
    requires objectType !in reg.resolvers
    ensures forall id :: reg.Resolve(objectType, id) == Err(ResolveError)
  {
  }
}
