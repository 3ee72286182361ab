/** The part of the external engine the entity handle writes through
    (ecs_add_id, ecs_remove_id, ecs_has_id, ecs_set_id, ecs_get_id), as an
    in-memory store: which (entity, key) slots exist and the raw bytes held
    for each. Everything else the engine does stays outside the model. */
module Engine {
  import opened FlecsTypes

  /** What a slot on an entity is keyed by: a component or tag identity, or a
      (relation, target) pair. */
  datatype Key = Single(id: Id) | PairKey(relation: Id, target: Id)

  class Store {
    var members: set<(Id, Key)>
    var data: map<(Id, Key), seq<byte>>

    /** Bytes are only ever held for a slot the entity has. */
    ghost predicate Valid()
      reads this
    {
      data.Keys <= members
    }

    constructor ()
      ensures Valid() && members == {} && data == map[]
    {
      members := {};
      data := map[];
    }

    /** ecs_add_id: adding is idempotent. A slot that is new and has a size
        receives storage whose initial bytes the engine chooses (`init`; None
        for a tag, which has none); a slot already held keeps its bytes. */
    method AddId(e: Id, k: Key, init: Option<seq<byte>>)
      requires Valid()
      modifies this
      ensures Valid()
      ensures members == old(members) + {(e, k)}
      ensures data == if (e, k) in old(data) || init.None? then old(data) else old(data)[(e, k) := init.value]
    {
      members := members + {(e, k)};
      if (e, k) !in data && init.Some? {
        data := data[(e, k) := init.value];
      }
    }

    /** ecs_remove_id: removing an absent slot changes nothing. */
    method RemoveId(e: Id, k: Key)
      requires Valid()
      modifies this
      ensures Valid()
      ensures members == old(members) - {(e, k)} && data == old(data) - {(e, k)}
    {
      members := members - {(e, k)};
      data := data - {(e, k)};
    }

    /** ecs_set_id: copies the given bytes into the slot, adding it if absent. */
    method SetId(e: Id, k: Key, bytes: seq<byte>)
      requires Valid()
      modifies this
      ensures Valid()
      ensures members == old(members) + {(e, k)}
      ensures data == old(data)[(e, k) := bytes]
    {
      members := members + {(e, k)};
      data := data[(e, k) := bytes];
    }

    /** ecs_has_id */
    predicate HasId(e: Id, k: Key)
      reads this
    {
      (e, k) in members
    }

    /** ecs_get_id: the stored bytes, or None (a null pointer) when there are none. */
    function GetId(e: Id, k: Key): Option<seq<byte>>
      reads this
    {
      if (e, k) in data then Some(data[(e, k)]) else None
    }
  }
}
