/**
 * The host runtime as the guards see it: object identities, the few kinds of
 * object the guard constructors tell apart, namespaces (dictionaries) with a
 * modification version, function objects whose code can be rebound, and the
 * result codes a guard check returns.
 */
module Host {

  /** Identity of a host object: two objects are the same exactly when their
      identities are equal (pointer comparison in the C code). */
  type Id = nat

  /** Identities of the built-in classes the model refers to. */
  const TypeClass: Id := 0
  const StrClass: Id := 1
  const TupleClass: Id := 2
  const ListClass: Id := 3
  const FunctionClass: Id := 4

  /** Bounds of a C `int`, the width in which an argument index is parsed. */
  const IntMin: int := -0x8000_0000
  const IntMax: int := 0x7fff_ffff

  datatype Option<+T> = None | Some(value: T)

  datatype Result<+T, +E> = Ok(value: T) | Err(error: E)

  /** Exceptions a guard constructor can raise. `Propagated` stands for an
      exception raised by a mapping lookup for a reason other than a missing
      key; it is passed on to the caller unchanged. */
  datatype Error = TypeError | ValueError | OverflowError | RuntimeError | Propagated

  /** What a guard check answers (the C code returns the integer `Code()`). */
  datatype Status =
    | Pass          // 0: every assumption still holds
    | Mismatch      // 1: the assumption does not apply to this call
    | Invalidated   // 2: the observed state changed since the guard was built
    | Failed        // -1: a lookup raised an exception
  {
    function Code(): (c: int)
      ensures -1 <= c <= 2
      ensures (c == 0) == (this == Pass)
    {
      match this
      case Pass => 0
      case Mismatch => 1
      case Invalidated => 2
      case Failed => -1
    }
  }

  /** A function object. Its code can be rebound (`func.__code__ = ...`). */
  class Function {
    var code: Id

    constructor (code: Id)
      ensures this.code == code
    {
      this.code := code;
    }
  }

  /** An object passed to a guard constructor or found on the argument stack.
      `Other` stands for every object that is none of the kinds above it and is
      not iterable; its field is the identity of its exact type. */
  datatype Obj =
    | Class(id: Id)
    | Str(text: string)
    | Tuple(items: seq<Obj>)
    | List(items: seq<Obj>)
    | Func(f: Function)
    | Other(cls: Id)
  {
    /** Identity of the object's exact type (metaclasses are not modelled). */
    function TypeId(): Id {
      match this
      case Class(_) => TypeClass
      case Str(_) => StrClass
      case Tuple(_) => TupleClass
      case List(_) => ListClass
      case Func(_) => FunctionClass
      case Other(c) => c
    }
  }

  /** The items of an object viewed as a sequence, or None when the object is
      not iterable (the host's "fast sequence" conversion). */
  function AsSequence(o: Obj): (r: Option<seq<Obj>>)
    ensures r.Some? <==> (o.Tuple? || o.List? || o.Str?)
    ensures (o.Tuple? || o.List?) ==> r == Some(o.items)
    ensures o.Str? ==> r.Some? && |r.value| == |o.text| && forall i :: 0 <= i < |r.value| ==> r.value[i].Str?
  {
    match o
    case Tuple(items) => Some(items)
    case List(items) => Some(items)
    case Str(text) => Some(seq(|text|, i requires 0 <= i < |text| => Str([text[i]])))
    case _ => None
  }

  /** The three outcomes of looking a key up in a mapping. */
  datatype Lookup<+V> = Found(value: V) | Missing | Raised

  /** The state of a mapping: its entries, the keys whose lookup raises an
      exception other than KeyError, and its modification version, which every
      mutation increases. */
  datatype Mapping<K(==, !new), V> = Mapping(items: map<K, V>, faulty: set<K>, version: nat)
  {
    function Get(key: K): (r: Lookup<V>)
      ensures r == Raised <==> key in faulty
      ensures r.Found? <==> key !in faulty && key in items
      ensures r.Found? ==> r.value == items[key]
    {
      if key in faulty then Raised
      else if key in items then Found(items[key])
      else Missing
    }

    /** `d[key] = value`. */
    function Store(key: K, value: V): (m: Mapping<K, V>)
      ensures m.version > version
      ensures m.Get(key) == (if key in faulty then Raised else Found(value))
      ensures forall k :: k != key ==> m.Get(k) == Get(k)
    {
      Mapping(items[key := value], faulty, version + 1)
    }

    /** `del d[key]` of a present key. */
    function Remove(key: K): (m: Mapping<K, V>)
      ensures m.version > version
      ensures m.Get(key) == (if key in faulty then Raised else Missing)
      ensures forall k :: k != key ==> m.Get(k) == Get(k)
    {
      Mapping(items - {key}, faulty, version + 1)
    }
  }

  /** A namespace dictionary shared between its owner and the guards that
      watch it; the guards only read it. */
  class Dict {
    var state: Mapping<string, Id>

    constructor (items: map<string, Id>)
      ensures state == Mapping(items, {}, 0)
    {
      state := Mapping(items, {}, 0);
    }

    method SetItem(key: string, value: Id)
      modifies this
      ensures state == old(state).Store(key, value)
    {
      state := state.Store(key, value);
    }
  }
}
