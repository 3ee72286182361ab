/** The C++ entity handle and the bulk entity builder (cpp/src/entity.cpp):
    ids and column pointers are staged side by side in a bulk descriptor,
    then the engine allocates the entities and the builder wraps them. */
module CppEntities {
  import opened FlecsTypes

  /** An `ecs_world_t*`: opaque to this layer. */
  type WorldRef = nat

  /** A `void*` to one staged column of data: opaque to this layer. */
  type DataPtr = nat

  /** `entity(world, e)`: keeps the world and the identity as given. */
  datatype CppEntity = CppEntity(world: WorldRef, raw: Id)

  /** What `ecs_bulk_init` receives: the entity count, the id slots and the
      staged data pointers. */
  datatype BulkRequest = BulkRequest(count: int, ids: seq<Id>, data: seq<DataPtr>)

  /** ECS_ID_CACHE_SIZE: the id slots inside an `ecs_bulk_desc_t`. */
  const IdCacheSize: nat := 32

  /** Wraps the first `count` engine identities as handles, in the engine's
      order (the `push_back` loop of `build` and of `bulk_entity_w_id`). */
  method WrapHandles(world: WorldRef, created: seq<Id>, count: int) returns (handles: seq<CppEntity>)
    requires count <= |created|
    ensures |handles| == if count < 0 then 0 else count
    ensures forall i :: 0 <= i < |handles| ==> handles[i] == CppEntity(world, created[i])
  {
    handles := [];
    var idx := 0;
    while idx < count
      invariant 0 <= idx <= (if count < 0 then 0 else count)
      invariant |handles| == idx
      invariant forall i :: 0 <= i < idx ==> handles[i] == CppEntity(world, created[i])
    {
      handles := handles + [CppEntity(world, created[idx])];
      idx := idx + 1;
    }
  }

  class BulkEntityBuilder {
    const world: WorldRef
    /** `mDesc.count` */
    var count: int
    /** `mDesc.ids` */
    const ids: array<Id>
    /** `mData` */
    var data: seq<DataPtr>
    /** `mDesc.data`: null until `build` points it at the staged list. */
    var descData: Option<seq<DataPtr>>
    /** The ids passed to `add`, in call order. */
    ghost var staged: seq<Id>

    /** Slot i of the id array holds the id staged with data pointer i. */
    ghost predicate Valid()
      reads this, ids
    {
      && ids.Length == IdCacheSize
      && |staged| == |data| <= IdCacheSize
      && ids[..|data|] == staged
    }

    /** The constructor as written: the descriptor is zero-initialised and the
        requested `count` is not recorded anywhere. */
    constructor (world: WorldRef, count: int)
      ensures Valid() && fresh(ids)
      ensures this.world == world && this.count == 0
      ensures data == [] && staged == [] && descData == None
      ensures forall i :: 0 <= i < IdCacheSize ==> ids[i] == 0
    {
      this.world := world;
      this.count := 0;
      this.ids := new Id[IdCacheSize](_ => 0);
      this.data := [];
      this.descData := None;
      this.staged := [];
    }

    /** The constructor as evidently intended: `mDesc.count = count`. */
    constructor WithCount(world: WorldRef, count: int)
      ensures Valid() && fresh(ids)
      ensures this.world == world && this.count == count
      ensures data == [] && staged == [] && descData == None
      ensures forall i :: 0 <= i < IdCacheSize ==> ids[i] == 0
    {
      this.world := world;
      this.count := count;
      this.ids := new Id[IdCacheSize](_ => 0);
      this.data := [];
      this.descData := None;
      this.staged := [];
    }

    /** `add`: stores the id in slot `mData.size()`, then appends the data
        pointer, so id i stays paired with pointer i. */
    method Add(eid: Id, ptr: DataPtr)
      requires Valid() && |data| < IdCacheSize
      modifies this, ids
      ensures Valid()
      ensures staged == old(staged) + [eid] && data == old(data) + [ptr]
      ensures ids[|old(data)|] == eid
      ensures forall i :: |data| <= i < IdCacheSize ==> ids[i] == old(ids[i])
      ensures count == old(count) && descData == old(descData)
    {
      ids[|data|] := eid;
      data := data + [ptr];
      staged := staged + [eid];
    }

    /** The descriptor `build` hands to `ecs_bulk_init`. */
    function Request(): BulkRequest
      reads this, ids
    {
      BulkRequest(count, ids[..], data)
    }

    /** `build`: points the descriptor at the staged pointers, throws when the
        engine returns null, otherwise wraps `mDesc.count` engine ids in the
        order the engine returned them. */
    method Build(bulkInit: BulkRequest -> Option<seq<Id>>) returns (r: Result<seq<CppEntity>>)
      requires Valid()
      requires bulkInit(Request()).Some? ==> count <= |bulkInit(Request()).value|
      modifies this
      ensures Valid() && descData == Some(data)
      ensures data == old(data) && staged == old(staged) && count == old(count)
      ensures r.Failure? <==> bulkInit(Request()).None?
      ensures r.Failure? ==> r.error == BulkCreationFailed
      ensures r.Success? ==> |r.value| == (if count < 0 then 0 else count)
      ensures r.Success? ==> forall i :: 0 <= i < |r.value| ==> r.value[i] == CppEntity(world, bulkInit(Request()).value[i])
    {
      descData := Some(data);
      var created := bulkInit(Request());
      if created.None? {
        return Failure(BulkCreationFailed);
      }
      var handles := WrapHandles(world, created.value, count);
      r := Success(handles);
    }
  }

  /** As written, the builder asked for three entities stages a column and
      builds nothing, even though the engine returned three ids. */
  method BuildIgnoresRequestedCount() returns (r: Result<seq<CppEntity>>)
    ensures r == Success([])
  {
    var b := new BulkEntityBuilder(1, 3);
    b.Add(5, 100);
    r := b.Build(_ => Some([7, 8, 9]));
  }

  /** With the count recorded, the same calls yield the three handles, in the
      engine's order. */
  method BuildHonoursRequestedCount() returns (r: Result<seq<CppEntity>>)
    ensures r == Success([CppEntity(1, 7), CppEntity(1, 8), CppEntity(1, 9)])
  {
    var b := new BulkEntityBuilder.WithCount(1, 3);
    b.Add(5, 100);
    r := b.Build(_ => Some([7, 8, 9]));
    assert |r.value| == 3;
    assert r.value == [CppEntity(1, 7), CppEntity(1, 8), CppEntity(1, 9)];
  }
}
