/** The Python world (python/src/flecs/_world.py) over the C++ world
    (cpp/src/world.cpp): entity creation, lookup by name, and component
    registration from a dtype and shape or from an example array. */
module Worlds {
  import opened FlecsTypes
  import opened Components
  import opened Entities
  import opened CppEntities
  import opened CppWorld

  /** `world::entity()` and `world::entity(name)`: an unnamed entity takes a
      fresh id from `ecs_new_id`; a named one takes what `ecs_entity_init`
      answers for that name. */
  function NewEntity(world: WorldRef, name: Option<string>, newId: Id, entityInit: string -> Id): (e: CppEntity)
    ensures e.world == world
    ensures name.None? ==> e.raw == newId
    ensures name.Some? ==> e.raw == entityInit(name.value)
  {
    match name
    case None => CppEntity(world, newId)
    case Some(n) => CppEntity(world, entityInit(n))
  }

  /** `World.entity`: wraps the C++ entity as a plain handle; its name is the
      one the engine reports. */
  function WorldEntity(world: WorldRef, name: Option<string>, newId: Id, entityInit: string -> Id,
                       engineName: string): (h: Handle)
    ensures !h.IsComponent() && h.Name() == engineName
    ensures h.Raw() == NewEntity(world, name, newId, entityInit).raw
  {
    EntityHandle(NewEntity(world, name, newId, entityInit).raw, engineName)
  }

  /** `World.lookup`: wraps whatever `ecs_lookup` answers, identity 0
      included, as a plain handle. */
  function WorldLookup(found: Id, entityName: string): (h: Handle)
    ensures !h.IsComponent() && h.Raw() == found && h.Name() == entityName
  {
    EntityHandle(found, entityName)
  }

  /** The world's lookup and the entity's lookup agree whenever the engine
      finds the name; for an unknown name the entity's lookup answers None
      while the world's hands back a handle for identity 0. */
  lemma LookupsAgree(found: Id, entityName: string)
    ensures Lookup(found, entityName).Some? ==> Lookup(found, entityName).value == WorldLookup(found, entityName)
    ensures found == 0 ==> Lookup(found, entityName).None? && WorldLookup(found, entityName).Raw() == 0
  {
  }

  /** `World.component`: registers `np.prod(shape) * itemsize` bytes at the
      dtype's alignment under the given name; the descriptor's row size then
      equals the size the engine was told. An empty shape tuple makes
      `np.prod` the float 1.0, which the binding's size_t parameter refuses
      before anything is registered. */
  function RegisterComponent(name: string, dtype: ElemType, shape: ShapeLike,
                             componentInit: ComponentRequest -> Id): (r: Result<Component>)
    ensures var req := ComponentRequest(0, name, name, ShapeProduct(shape) * dtype.itemsize, dtype.alignment);
      && (r.Failure? <==> shape == Dims([]) || componentInit(req) == 0)
      && (shape == Dims([]) ==> r == Failure(TypeError))
      && (shape != Dims([]) && r.Failure? ==> r.error == ComponentNotCreated)
      && (r.Success? ==> r.value.raw == componentInit(req) && r.value.name == name)
      && (r.Success? ==> r.value.dtype == dtype && r.value.shape == NormaliseShape(shape) && r.value.shape != [])
      && (r.Success? ==> r.value.NBytes() == req.size)
  {
    if shape == Dims([]) then Failure(TypeError)
    else
      var size := ShapeProduct(shape) * dtype.itemsize;
      match ComponentInit(name, size, dtype.alignment, componentInit)
      case Failure(e) => Failure(e)
      case Success(id) => Success(MakeComponent(id, name, dtype, shape))
  }

  /** With the default shape 1 a component is one element: the engine stores
      `itemsize` bytes and the descriptor's shape is [1]. */
  lemma DefaultShapeIsOneElement(name: string, dtype: ElemType, componentInit: ComponentRequest -> Id)
    requires componentInit(ComponentRequest(0, name, name, dtype.itemsize, dtype.alignment)) != 0
    ensures RegisterComponent(name, dtype, Scalar(1), componentInit).Success?
    ensures RegisterComponent(name, dtype, Scalar(1), componentInit).value.shape == [1]
    ensures RegisterComponent(name, dtype, Scalar(1), componentInit).value.NBytes() == dtype.itemsize
  {
    assert ShapeProduct(Scalar(1)) * dtype.itemsize == dtype.itemsize;
  }

  /** A column the engine holds for a registered component, k rows of the
      registered size, views as exactly k rows of that component. */
  lemma {:induction false} RegisteredColumnsView(name: string, dtype: ElemType, shape: ShapeLike,
                                                 componentInit: ComponentRequest -> Id, column: seq<byte>, k: nat)
    requires RegisterComponent(name, dtype, shape, componentInit).Success?
    requires ShapeProduct(shape) > 0
    requires |column| == k * (ShapeProduct(shape) * dtype.itemsize)
    ensures CreateView(RegisterComponent(name, dtype, shape, componentInit).value, column).Success?
    ensures CreateView(RegisterComponent(name, dtype, shape, componentInit).value, column).value.shape
      == [k] + NormaliseShape(shape)
  {
    var c := RegisterComponent(name, dtype, shape, componentInit).value;
    MulPos(ShapeProduct(shape), dtype.itemsize);
    CreateViewRows(c, column, k);
  }

  /** `World.component_from_example`: registers the example's byte size at
      its dtype's alignment and keeps its dtype and shape; for a well-formed
      example the descriptor's row size is that byte size. */
  function RegisterComponentFromExample(name: string, example: NdArray,
                                        componentInit: ComponentRequest -> Id): (r: Result<Component>)
    ensures var req := ComponentRequest(0, name, name, |example.bytes|, example.dtype.alignment);
      && (r.Failure? <==> componentInit(req) == 0)
      && (r.Failure? ==> r.error == ComponentNotCreated)
      && (r.Success? ==> r.value.raw == componentInit(req) && r.value.name == name)
      && (r.Success? ==> r.value.dtype == example.dtype && r.value.shape == example.shape)
      && (r.Success? && WellFormed(example) ==> r.value.NBytes() == req.size)
  {
    match ComponentInit(name, |example.bytes|, example.dtype.alignment, componentInit)
    case Failure(e) => Failure(e)
    case Success(id) => Success(MakeComponent(id, name, example.dtype, Dims(example.shape)))
  }

  /** The example itself is a value of the component it registers: stored
      and read back through the component's view it comes back unchanged. */
  lemma ExampleRoundTrips(name: string, example: NdArray, componentInit: ComponentRequest -> Id)
    requires RegisterComponentFromExample(name, example, componentInit).Success?
    requires WellFormed(example) && example.shape != [] && |example.bytes| > 0
    ensures FirstRow(RegisterComponentFromExample(name, example, componentInit).value, example.bytes) == Success(example)
  {
    FirstRowRoundTrip(RegisterComponentFromExample(name, example, componentInit).value, example);
  }

  /** A zero-dimensional example registers a component that has no view of
      any buffer: its empty shape makes the row product a float. */
  lemma ScalarExampleHasNoView(name: string, example: NdArray, componentInit: ComponentRequest -> Id, buffer: seq<byte>)
    requires RegisterComponentFromExample(name, example, componentInit).Success?
    requires example.shape == []
    ensures CreateView(RegisterComponentFromExample(name, example, componentInit).value, buffer).Failure?
  {
  }
}
