/** The Python entity handle (`Entity` in _entity.py): identity, equality,
    lookup, and the structural and typed-data operations that go through
    the engine, with the dtype guard in front of every write. */
module Entities {
  import opened FlecsTypes
  import opened Components
  import opened Engine

  /** A handle as Python code holds it: a plain `Entity`, or a `Component`
      (an `Entity` that also carries a descriptor). */
  datatype Handle = EntityHandle(id: Id, entityName: string) | ComponentHandle(desc: Component)
  {
    /** `int(e)`: the raw engine identity. */
    function Raw(): Id
    {
      match this
      case EntityHandle(id, _) => id
      case ComponentHandle(c) => c.raw
    }

    /** `e.name`, as the engine reports it. */
    function Name(): string
    {
      match this
      case EntityHandle(_, entityName) => entityName
      case ComponentHandle(c) => c.name
    }

    /** `is_component`: False on `Entity`, overridden to True on `Component`. */
    predicate IsComponent()
    {
      ComponentHandle?
    }
  }

  /** A `Component` handle always reports `is_component`, a plain `Entity`
      never does, and both report their engine identity as `int(e)`. */
  lemma IsComponentByKind(c: Component, id: Id, entityName: string)
    ensures ComponentHandle(c).IsComponent() && ComponentHandle(c).Raw() == c.raw
    ensures !EntityHandle(id, entityName).IsComponent() && EntityHandle(id, entityName).Raw() == id
  {
  }

  /** The right-hand side of `==`: another handle, a Python int, or a value
      with no integer conversion at all (neither a number nor a string). */
  datatype Operand = HandleOperand(h: Handle) | IntOperand(n: int) | Unconvertible

  /** `__eq__`: compares `int(self)` with `int(other)`, so a handle equals
      the plain integer of its identity, and a value without an integer
      conversion raises TypeError. */
  function Equal(a: Handle, other: Operand): (r: Result<bool>)
    ensures r.Failure? <==> other.Unconvertible?
    ensures r.Failure? ==> r.error == TypeError
    ensures other.IntOperand? ==> (r == Success(true) <==> a.Raw() == other.n)
  {
    match other
    case HandleOperand(h) => Success(a.Raw() == h.Raw())
    case IntOperand(n) => Success(a.Raw() == n)
    case Unconvertible => Failure(TypeError)
  }

  /** `a == b` for two handles answers True. */
  predicate SameEntity(a: Handle, b: Handle)
  {
    Equal(a, HandleOperand(b)) == Success(true)
  }

  /** Equality between handles is an equivalence, and it ignores everything
      but the identity: a component handle equals a plain handle for the same
      identity. */
  lemma EqualIsIdentityEquivalence(a: Handle, b: Handle, c: Handle, entityName: string)
    ensures SameEntity(a, a)
    ensures SameEntity(a, b) ==> SameEntity(b, a)
    ensures SameEntity(a, b) && SameEntity(b, c) ==> SameEntity(a, c)
    ensures SameEntity(a, EntityHandle(a.Raw(), entityName))
    ensures SameEntity(a, b) <==> a.Raw() == b.Raw()
    ensures Equal(a, HandleOperand(b)) == Equal(a, IntOperand(b.Raw()))
  {
  }

  /** `lookup`: the engine's answer wrapped as a plain `Entity`, or None when
      the engine answers identity 0. */
  function Lookup(found: Id, entityName: string): (r: Option<Handle>)
    ensures r.None? <==> found == 0
    ensures r.Some? ==> r.value.Raw() == found && !r.value.IsComponent()
  {
    if found != 0 then Some(EntityHandle(found, entityName)) else None
  }

  /** The dtype guard of `set` and `set_pair`. */
  predicate DTypeMatches(c: Component, value: NdArray)
  {
    value.dtype == c.dtype
  }

  /** numpy's `value.view('uint8')` changes the item size to one byte, which
      a zero-dimensional array allows only when its item size already is one. */
  predicate ByteViewable(value: NdArray)
  {
    value.shape != [] || value.dtype.itemsize == 1
  }

  /** The bytes the C++ `entity::set` hands the engine: `c.size()` bytes from
      the start of the value's buffer, the registered size, which the
      descriptor's `NBytes()` equals. A value shorter than that is read past
      its end in C++; the model then keeps the bytes it has. */
  function StoredBytes(c: Component, value: NdArray): (b: seq<byte>)
    ensures |b| <= |value.bytes| && b == value.bytes[..|b|]
    ensures |value.bytes| >= c.NBytes() ==> |b| == c.NBytes()
  {
    if |value.bytes| >= c.NBytes() then value.bytes[..c.NBytes()] else value.bytes
  }

  /** `add`: adds the component or tag and returns the entity for chaining.
      A component the entity did not hold gets the engine's initial bytes
      (`init`), so a `get` before any `set` reads that row. */
  method Add(store: Store, e: Handle, component: Handle, init: Option<seq<byte>>) returns (r: Handle)
    requires store.Valid()
    modifies store
    ensures store.Valid() && r == e
    ensures store.members == old(store.members) + {(e.Raw(), Single(component.Raw()))}
    ensures store.data == if (e.Raw(), Single(component.Raw())) in old(store.data) || init.None? then old(store.data)
      else old(store.data)[(e.Raw(), Single(component.Raw())) := init.value]
    ensures Has(store, e, component)
    ensures (component.ComponentHandle? && (e.Raw(), Single(component.Raw())) !in old(store.data) && init.Some?
             && |init.value| == component.desc.NBytes() && component.desc.shape != [] && component.desc.NBytes() > 0)
      ==> Get(store, e, component.desc) == Success(NdArray(component.desc.dtype, component.desc.shape, init.value))
  {
    store.AddId(e.Raw(), Single(component.Raw()), init);
    r := e;
    if component.ComponentHandle? && init.Some? && |init.value| == component.desc.NBytes()
       && component.desc.shape != [] && component.desc.NBytes() > 0 {
      var c := component.desc;
      FirstRowOfStoredValue(c, NdArray(c.dtype, c.shape, init.value), 1);
      assert init.value[..c.NBytes()] == init.value;
    }
  }

  /** `remove` */
  method Remove(store: Store, e: Handle, component: Handle)
    requires store.Valid()
    modifies store
    ensures store.Valid()
    ensures store.members == old(store.members) - {(e.Raw(), Single(component.Raw()))}
    ensures store.data == old(store.data) - {(e.Raw(), Single(component.Raw()))}
    ensures !Has(store, e, component)
  {
    store.RemoveId(e.Raw(), Single(component.Raw()));
  }

  /** `has`: whether the entity holds the component or tag; an entity that
      does not hold it has no bytes stored for it. */
  predicate Has(store: Store, e: Handle, component: Handle)
    reads store
    ensures store.Valid() && !Has(store, e, component) ==> store.GetId(e.Raw(), Single(component.Raw())).None?
  {
    store.HasId(e.Raw(), Single(component.Raw()))
  }

  /** `add_pair`: a pair the entity did not hold gets the engine's initial
      bytes (`init`) when it has a size. */
  method AddPair(store: Store, e: Handle, relation: Handle, target: Handle, init: Option<seq<byte>>)
    requires store.Valid()
    modifies store
    ensures store.Valid()
    ensures store.members == old(store.members) + {(e.Raw(), PairKey(relation.Raw(), target.Raw()))}
    ensures store.data == if (e.Raw(), PairKey(relation.Raw(), target.Raw())) in old(store.data) || init.None? then old(store.data)
      else old(store.data)[(e.Raw(), PairKey(relation.Raw(), target.Raw())) := init.value]
    ensures HasPair(store, e, relation, target)
  {
    store.AddId(e.Raw(), PairKey(relation.Raw(), target.Raw()), init);
  }

  /** `remove_pair` */
  method RemovePair(store: Store, e: Handle, relation: Handle, target: Handle)
    requires store.Valid()
    modifies store
    ensures store.Valid()
    ensures store.members == old(store.members) - {(e.Raw(), PairKey(relation.Raw(), target.Raw()))}
    ensures store.data == old(store.data) - {(e.Raw(), PairKey(relation.Raw(), target.Raw()))}
    ensures !HasPair(store, e, relation, target)
  {
    store.RemoveId(e.Raw(), PairKey(relation.Raw(), target.Raw()));
  }

  /** `has_pair`: whether the entity holds the pair; an entity that does not
      hold it has no bytes stored for it. */
  predicate HasPair(store: Store, e: Handle, relation: Handle, target: Handle)
    reads store
    ensures store.Valid() && !HasPair(store, e, relation, target)
      ==> store.GetId(e.Raw(), PairKey(relation.Raw(), target.Raw())).None?
  {
    store.HasId(e.Raw(), PairKey(relation.Raw(), target.Raw()))
  }

  /** Writes one slot after the dtype guard and the uint8 view; shared by
      `set` (key: the component) and `set_pair` (key: the pair). */
  method SetSlot(store: Store, e: Handle, k: Key, c: Component, value: NdArray) returns (r: Result<Handle>)
    requires store.Valid()
    modifies store
    ensures store.Valid()
    ensures r.Failure? <==> !DTypeMatches(c, value) || !ByteViewable(value)
    ensures !DTypeMatches(c, value) ==> r == Failure(TypeMismatch)
    ensures DTypeMatches(c, value) && !ByteViewable(value) ==> r == Failure(ViewError)
    ensures r.Failure? ==> unchanged(store)
    ensures r.Success? ==> r.value == e
    ensures r.Success? ==> store.members == old(store.members) + {(e.Raw(), k)}
    ensures r.Success? ==> store.data == old(store.data)[(e.Raw(), k) := StoredBytes(c, value)]
  {
    if !DTypeMatches(c, value) {
      return Failure(TypeMismatch);
    }
    if !ByteViewable(value) {
      return Failure(ViewError);
    }
    store.SetId(e.Raw(), k, StoredBytes(c, value));
    r := Success(e);
  }

  /** `set`: refuses a value of another dtype, then a zero-dimensional value
      numpy cannot view as bytes, without touching storage; otherwise stores
      the component's size in bytes from the value and returns the entity.
      A following `get` yields those bytes as one element of the component,
      which is the value itself when it has the component's shape. */
  method Set(store: Store, e: Handle, c: Component, value: NdArray) returns (r: Result<Handle>)
    requires store.Valid()
    modifies store
    ensures store.Valid()
    ensures r.Failure? <==> !DTypeMatches(c, value) || !ByteViewable(value)
    ensures !DTypeMatches(c, value) ==> r == Failure(TypeMismatch)
    ensures DTypeMatches(c, value) && !ByteViewable(value) ==> r == Failure(ViewError)
    ensures r.Failure? ==> unchanged(store)
    ensures r.Success? ==> r.value == e && Has(store, e, ComponentHandle(c))
    ensures r.Success? ==> store.members == old(store.members) + {(e.Raw(), Single(c.raw))}
    ensures r.Success? ==> store.data == old(store.data)[(e.Raw(), Single(c.raw)) := StoredBytes(c, value)]
    ensures r.Success? ==> Get(store, e, c) == FirstRow(c, StoredBytes(c, value))
    ensures (r.Success? && c.shape != [] && 0 < c.NBytes() <= |value.bytes|)
      ==> Get(store, e, c) == Success(NdArray(c.dtype, c.shape, value.bytes[..c.NBytes()]))
    ensures (r.Success? && value.shape == c.shape && WellFormed(value) && c.shape != [] && c.NBytes() > 0)
      ==> Get(store, e, c) == Success(value)
    ensures r.Success? && |value.bytes| < c.NBytes() ==> Get(store, e, c).Failure?
  {
    r := SetSlot(store, e, Single(c.raw), c, value);
    if r.Success? && c.shape != [] && 0 < c.NBytes() <= |value.bytes| {
      var stored := NdArray(c.dtype, c.shape, StoredBytes(c, value));
      FirstRowOfStoredValue(c, stored, 1);
      assert stored.bytes[..c.NBytes()] == value.bytes[..c.NBytes()];
      if value.shape == c.shape && WellFormed(value) {
        assert value.bytes[..c.NBytes()] == value.bytes;
      }
    }
  }

  /** `set_pair`: the same guards and write, keyed by (component, other). */
  method SetPair(store: Store, e: Handle, c: Component, other: Handle, value: NdArray) returns (r: Result<Handle>)
    requires store.Valid()
    modifies store
    ensures store.Valid()
    ensures r.Failure? <==> !DTypeMatches(c, value) || !ByteViewable(value)
    ensures !DTypeMatches(c, value) ==> r == Failure(TypeMismatch)
    ensures DTypeMatches(c, value) && !ByteViewable(value) ==> r == Failure(ViewError)
    ensures r.Failure? ==> unchanged(store)
    ensures r.Success? ==> r.value == e && HasPair(store, e, ComponentHandle(c), other)
    ensures r.Success? ==> store.members == old(store.members) + {(e.Raw(), PairKey(c.raw, other.Raw()))}
    ensures r.Success? ==> store.data == old(store.data)[(e.Raw(), PairKey(c.raw, other.Raw())) := StoredBytes(c, value)]
  {
    r := SetSlot(store, e, PairKey(c.raw, other.Raw()), c, value);
  }

  /** `get`: row 0 of the component's view of the stored bytes; it has the
      component's dtype and shape. */
  function Get(store: Store, e: Handle, c: Component): (r: Result<NdArray>)
    reads store
    ensures r.Success? ==> r.value.dtype == c.dtype && r.value.shape == c.shape && WellFormed(r.value)
    ensures r.Success? ==> store.GetId(e.Raw(), Single(c.raw)).Some?
  {
    match store.GetId(e.Raw(), Single(c.raw))
    case None => Failure(NotPresent)
    case Some(bytes) => FirstRow(c, bytes)
  }
}
