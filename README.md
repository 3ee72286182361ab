# pyflecs bookkeeping layer, modelled in Dafny

pyflecs is a Python binding for the flecs entity-component-system engine.
It has a thin C++ layer and a Python layer. This project models the
bookkeeping that the binding adds on top of the engine:

- the typed component descriptor. It normalises a shape, computes the
  bytes one row occupies, and reinterprets a raw byte buffer as a
  `(rows, *shape)` array (`Components`, component.dfy);
- the entity handle. This covers identity, equality, `lookup`, the dtype
  guard in front of `set` and `set_pair`, and `get` as row 0 of a view
  (`Entities`, entity.dfy). The storage it writes through is an in-memory
  store of (entity, key) slots and their bytes (`Engine`, engine.dfy);
- the filter builder's term and component-index bookkeeping, the built
  filter, and the iterator's two-outcome cursor with lookup of a column by
  position or by name (`Filters`, filter.dfy);
- a query's resolution of its compiled terms back to component entries,
  including the pair policy (`Queries`, query.dfy);
- the Python world: entity creation, lookup, and component registration
  from a dtype and shape or from an example array (`Worlds`, world.dfy);
- the C++ world: the term copy into a filter or query descriptor's fixed
  slots, component registration, and bulk creation (`CppWorld`,
  cpp_world.dfy);
- the C++ entity handle and the bulk entity builder, whose id array is
  updated in place (`CppEntities`, cpp_entity.dfy).

The engine itself is abstract. Every answer it gives becomes a parameter:
filter and query initialisation, component registration, bulk creation,
term lookup, and the groups an iterator visits. `ElemType` stands for a
numpy dtype: an abstract tag with an item size (never zero) and an
alignment. Buffers are sequences of bytes.

`TermDescCacheSize` (16) and `IdCacheSize` (32) are the values of
`ECS_TERM_DESC_CACHE_SIZE` and `ECS_ID_CACHE_SIZE` in the flecs headers this code is written against (the forms of
`ecs_filter_init` and `ecs_component_init` it calls are those of flecs v2.4).
flecs.h is not part of this model.

## Model

| member | source | states |
|---|---|---|
| Components.NormaliseShape | python/src/flecs/_component.py:19-21 | an integer shape becomes `[n]`, a sequence is kept, and the element count (`np.prod`) is unchanged |
| Components.MakeComponent | python/src/flecs/_component.py:15-24 | the descriptor keeps identity, name and dtype, holds the normalised shape, and its bytes per row are product(shape) × itemsize |
| Components.ViewSucceedsIffWholeRows | python/src/flecs/_component.py:41-43 | the view-then-reshape steps succeed exactly when the buffer is a whole number of rows |
| Components.CreateView | python/src/flecs/_component.py:41-43 | a view exists iff the shape is non-empty and the buffer holds whole rows; for an empty shape the float row count makes the reshape raise TypeError once the buffer holds whole elements, and every other refusal is numpy's ValueError; a view keeps the dtype and the very bytes, its shape is `(nbytes // row bytes, *shape)`, and its element count × itemsize is the buffer length |
| Components.CreateViewRows | python/src/flecs/_component.py:41-42 | a buffer of k × row bytes views as exactly k rows |
| Components.Row | python/src/flecs/_entity.py:58 | indexing the leading axis succeeds iff the row exists; it gives the remaining dimensions over that row's byte slice |
| Components.RowsFit | python/src/flecs/_entity.py:58 | every existing row lies inside the array's bytes |
| Components.FirstRowOfStoredValue | python/src/flecs/_entity.py:57-58 | reading back one or more whole rows of the component's dtype gives the first row's bytes with the component's shape |
| Components.FirstRowRoundTrip | python/src/flecs/_entity.py:48-58 | `get` after `set` gives back the value that was set, for a value of the component's dtype and shape |
| Entities.IsComponentByKind | python/src/flecs/_component.py:26-28 | a Component always reports `is_component`, a plain Entity never does (_entity.py:36-38), and `int(e)` is the raw identity |
| Entities.Equal | python/src/flecs/_entity.py:111-112 | `e == n` for a Python int is True iff n is e's identity; a right-hand side without an integer conversion raises TypeError |
| Entities.EqualIsIdentityEquivalence | python/src/flecs/_entity.py:108-112 | between handles, equality holds iff the integer identities are equal; it is an equivalence, ignores the handle's kind and name, and comparing with a handle is comparing with its integer |
| Entities.Lookup | python/src/flecs/_entity.py:91-93 | None iff the engine answers identity 0; otherwise a plain Entity with that identity |
| Entities.Add | python/src/flecs/_entity.py:44-46 | the (entity, component) slot is added, a slot not yet holding bytes receives the engine's initial bytes while one already holding bytes keeps them, the entity itself is returned, `has` then answers True, and for a component a `get` right after reads those initial bytes as one element |
| Entities.Remove | python/src/flecs/_entity.py:60-61 | the slot and any bytes it held are removed, nothing else changes, and `has` then answers False |
| Entities.Has | python/src/flecs/_entity.py:63-64 | an entity that does not hold the component has no bytes stored for it |
| Entities.AddPair | python/src/flecs/_entity.py:66-67 | the (entity, (relation, target)) slot is added, a slot not yet holding bytes receives the engine's initial bytes while one already holding bytes keeps them, and `has_pair` then answers True |
| Entities.RemovePair | python/src/flecs/_entity.py:69-70 | the pair slot and its bytes are removed, nothing else changes, and `has_pair` then answers False |
| Entities.HasPair | python/src/flecs/_entity.py:81-82 | an entity that does not hold the pair has no bytes stored for it |
| Entities.StoredBytes | cpp/src/entity.hpp:64-67 | the engine receives a prefix of the value's bytes, exactly the component's registered size when the value holds that many |
| Entities.Set | python/src/flecs/_entity.py:48-55 | fails iff the dtypes differ (TypeMismatch) or the value is zero-dimensional with an item size other than 1 (numpy's ViewError), with storage untouched either way; otherwise it stores the component's size in bytes from the value, returns the entity, `has` answers True, and a following `get` yields the value's first `c.size()` bytes as one element of the component, which is the value itself when it has the component's shape; a value shorter than one element leaves `get` failing |
| Entities.SetPair | python/src/flecs/_entity.py:72-79 | the same two guards with storage untouched on failure; on success the component's size in bytes from the value is stored under (component, other), the entity is returned and `has_pair` answers True |
| Entities.Get | python/src/flecs/_entity.py:57-58 | a result has the component's dtype and shape, and exists only if the engine holds bytes for the slot |
| CppEntities.WrapHandles | cpp/src/world.cpp:64-69 | exactly max(count, 0) handles, handle i wrapping engine id i in the engine's order |
| CppEntities.BulkEntityBuilder.constructor | cpp/src/entity.cpp:41-46 | the descriptor is zero-initialised and its count is 0 whatever count was requested |
| CppEntities.BulkEntityBuilder.WithCount | cpp/src/entity.cpp:41-46 | the corrected constructor: the same, but the descriptor's count is the requested count |
| CppEntities.BulkEntityBuilder.Add | cpp/src/entity.cpp:48-53 | the id goes into slot `mData.size()` before the pointer is appended, so ids[0..k) are the added ids in call order, paired with the k staged pointers |
| CppEntities.BulkEntityBuilder.Build | cpp/src/entity.cpp:55-67 | the descriptor's data points at the staged pointers; fails iff the engine returns null; otherwise gives `mDesc.count` handles in the engine's order |
| CppEntities.BuildIgnoresRequestedCount | cpp/src/entity.cpp:41-46 | as written, a builder for 3 entities builds no handles although the engine returned 3 ids |
| CppEntities.BuildHonoursRequestedCount | cpp/src/entity.cpp:55-67 | with the count recorded, the same calls give the 3 handles in the engine's order |
| CppWorld.CachedTerms | cpp/src/world.cpp:116-126 | 16 slots; terms that fit are copied in order into slots 0..n-1 with the rest empty; more than 16 terms leave every slot empty |
| CppWorld.FilterDesc.constructor | cpp/src/world.cpp:111-126 | name, expr and instanced are set as given and the slot array equals the copied terms |
| CppWorld.CreateFilter | cpp/src/world.cpp:107-134 | fails iff the engine's init status is nonzero; the engine sees name, expr and instanced unchanged and the copied terms |
| CppWorld.CreateQuery | cpp/src/world.cpp:136-161 | same copy rule into `desc.filter`; fails iff the engine returns no query |
| CppWorld.ComponentInit | cpp/src/world.cpp:92-105 | the engine gets entity 0 with name and symbol both the given name, plus the size and alignment; fails iff it answers id 0 |
| CppWorld.BulkEntityWId | cpp/src/world.cpp:58-70 | fails iff the engine returns null; otherwise exactly `count` handles, handle i wrapping result[i] |
| CppWorld.NewBulkBuilder | cpp/src/world.cpp:72-75 | a fresh builder for this world with nothing staged; built with the constructor as written, its count is 0 whatever count was requested |
| CppWorld.NewCountedBulkBuilder | cpp/src/world.cpp:72-75 | the factory over the corrected constructor: the same, with the requested count recorded |
| Filters.EntriesOfIndexed | python/src/flecs/_filter.py:81-83 | entries are components at strictly increasing indices in 1..len(terms), and each index names the position of the handle it records |
| Filters.EntriesOfCover | python/src/flecs/_filter.py:81-83 | a term position gets an entry iff its handle is a component, so a tag takes a position without an entry |
| Filters.FilterBuilder.constructor | python/src/flecs/_filter.py:60-68 | the positional handles are processed left to right as successive `term` calls; expr and name are kept |
| Filters.FilterBuilder.Term | python/src/flecs/_filter.py:70-84 | the term list grows by exactly the handle's identity; a component also gets an entry whose index is the new term count; the builder itself is returned |
| Filters.FilterBuilder.Build | python/src/flecs/_filter.py:114-123 | fails iff the engine refuses the filter; otherwise the filter carries the builder's own component list |
| Filters.Iter | python/src/flecs/_filter.py:52-53 | each call starts a fresh cursor before the first group, with the filter's component list |
| Filters.PyIndex | python/src/flecs/_filter.py:37 | Python list indexing: defined iff -len <= i < len, counting from the end for negative i |
| Filters.NameMapLastWins | python/src/flecs/_filter.py:27 | a name is in the map iff some entry has it, and the map holds the last entry with that name |
| Filters.LastNamed | python/src/flecs/_filter.py:27 | what the name map holds for a name: nothing iff no entry has that name, otherwise the last entry with it |
| Filters.ColumnView | python/src/flecs/_filter.py:40-41 | the view of the entry's column keeps its bytes and the component's dtype and shape; a non-component handle has no view |
| Filters.GroupColumnRows | python/src/flecs/_filter.py:40-41 | a component column holding one row per entity the group matched views as exactly `count` rows of the component |
| Filters.FilterIter.constructor | python/src/flecs/_filter.py:22-27 | the iterator starts before the first group with the name map built from the component list |
| Filters.FilterIter.Next | python/src/flecs/_filter.py:29-33 | returns the iterator itself while the engine moves onto another group, and StopIteration once it has none left |
| Filters.FilterIter.GetItem | python/src/flecs/_filter.py:35-41 | an int selects by Python position (IndexError out of range); a name selects what the name map holds for it (KeyError iff no entry has that name); the result is that entry's column view in the current group |
| Queries.ResolveTermsIndexed | python/src/flecs/_query.py:25-37 | entries sit at strictly increasing indices in 1..term_count, and each records the component side of the term it names |
| Queries.ResolveTermsCover | python/src/flecs/_query.py:27-37 | a term gets an entry iff it has a component side: always for a non-pair, else the relation, else the target; a pair with neither is skipped |
| Queries.Query.constructor | python/src/flecs/_query.py:19-37 | the loop over the compiled terms records exactly the resolved entries, at increasing indices |
| Queries.Query.Iter | python/src/flecs/_query.py:39-40 | each call starts a fresh cursor with the query's component list |
| Queries.BuildQuery | python/src/flecs/_query.py:48-51 | name, expr, instanced and the terms go to `create_query` unchanged; fails iff the engine returns no query; the query resolves the engine's compiled terms |
| Worlds.NewEntity | cpp/src/world.cpp:40-51 | an unnamed entity takes the engine's fresh id, a named one the id `ecs_entity_init` gives for that name |
| Worlds.WorldEntity | python/src/flecs/_world.py:24-35 | the unnamed path without a name and the named path with one, wrapped as a plain Entity |
| Worlds.WorldLookup | python/src/flecs/_world.py:37-38 | a plain Entity for whatever identity the engine answers, 0 included |
| Worlds.LookupsAgree | python/src/flecs/_world.py:37-38 | the world's and the entity's lookups agree when the name is found; for identity 0 only the entity's lookup answers None (_entity.py:91-93) |
| Worlds.RegisterComponent | python/src/flecs/_world.py:41-58 | an empty shape tuple fails with TypeError before anything is registered, because `np.prod(())` is a float; otherwise the engine is told product(shape) × itemsize bytes at the dtype's alignment, the call fails iff the engine answers 0, and the descriptor's bytes per row equal the size the engine was told |
| Worlds.DefaultShapeIsOneElement | python/src/flecs/_world.py:42 | the default shape 1 gives shape [1] and size = itemsize |
| Worlds.RegisteredColumnsView | python/src/flecs/_world.py:56-58 | a column of k rows of the registered size views as exactly k rows of the registered component |
| Worlds.RegisterComponentFromExample | python/src/flecs/_world.py:60-72 | the engine is told `example.nbytes` at the example's alignment; the descriptor keeps the example's dtype and shape, and its bytes per row equal the registered size |
| Worlds.ExampleRoundTrips | python/src/flecs/_world.py:71-72 | the example, stored and read back through its own component, comes back unchanged |
| Worlds.ScalarExampleHasNoView | python/src/flecs/_world.py:71-72 | a zero-dimensional example registers a component with an empty shape, which has no view of any buffer |

## Left out

- Views are values here. `create_view` aliases only the buffer it is given. `get` receives a copy: `wrap_entity_get` builds its array from a pointer with no base object (cpp/src/bindings.cpp:42-46), which pybind11 copies, so writing through a `get` result never reaches storage, as in the model. The binding for a filter iterator's columns (`filter_iter::term`) is not part of this model, so whether writing through a column view reaches storage is not captured.
- Negative shape dimensions, numpy's `-1` inference in `reshape`, and zero-size dtypes are not modelled: dimensions are `nat` and item sizes are positive.
- Floating point and concrete dtypes: element types are abstract tags with an item size and alignment, and values are bytes.
- Entities.Get: when the engine holds no bytes (the entity lacks the component, or it is a tag without storage), `wrap_entity_get` passes a null pointer with no base object, so numpy allocates a fresh, uninitialised array of `c->size()` bytes and `get` returns an arbitrary row; the model reports NotPresent instead of that arbitrary row.
- Entities.Add and Entities.AddPair: the engine's initial bytes for a new slot are a parameter; what flecs leaves in uninitialised storage is not modelled.
- Components.Product and Worlds.RegisterComponent: `np.prod` computes in int64 and wraps silently on overflow (python/src/flecs/_component.py:24, python/src/flecs/_world.py:56); the model's product is unbounded, so shapes whose product exceeds 2^63 - 1 are not modelled as numpy computes them.
- Entities.Set and Entities.SetPair: for a value with fewer bytes than the component's registered size, the C++ entity reads past the end of the value's buffer (cpp/src/entity.hpp:64-67, undefined behaviour); the model stores the bytes the value has, and `get` then fails (no whole element can be viewed).
- Entities.Equal: only handles, Python ints and operands with no integer conversion are modelled; a str operand goes through `int()` too (`e == "5"` is True for identity 5, and a non-numeric string raises ValueError), and a float operand is truncated, neither of which is modelled.
- Entities.Set and Entities.SetPair: values are C-ordered byte strings, so numpy's refusal to view a non-contiguous array as bytes is not modelled.
- CppEntities.BulkEntityBuilder.Add: requires fewer than `IdCacheSize` staged ids, because a 33rd `add` writes past `mDesc.ids` (undefined behaviour in C++).
- CppEntities.BulkEntityBuilder.Build and CppWorld.BulkEntityWId: require the engine to return at least `count` ids, the engine's own contract for the result array.
- Worlds.NewEntity: `world::entity(name)` calls `ecs_entity_init` twice and keeps the second answer; the engine is a function here, so both calls give the same id, and any effect of the first call is not modelled.
- The `entity::entity` constructor keeps the world and identity it is given; `CppEntity` is a datatype, so this holds by construction and needs no member.
- Everything the engine owns: archetype matching, the `cascade` modifier, is-a inheritance, hierarchy deletion, names and paths, and id allocation. `destruct`, `is_alive`, `name`, `path`, `add_child`, `is_a` and `type` on Entity, and `lookup_path`, are direct delegations to the engine with nothing to model.
- The query expression grammar: `expr` is handed to the engine unchanged.
- `FilterBuilder.build` hands the builder's own list object to the filter, so later `term` calls would show up in the filter. The model copies the list as a value.
- The binding glue (pybind11 marshalling, cpp/src/bindings.cpp) is not part of this model.
- The shown files disagree with each other at a few call sites. Each file is modelled on its own terms:
  - `QueryBuilder.build` reads `self._instanced`, which `FilterBuilder` never sets. The model makes `instanced` a builder field, set at construction.
  - `FilterBuilder.build` calls `create_filter` with three arguments while the C++ function takes four. The model passes `instanced = false`.
  - `Query.__iter__` passes three arguments to `FilterIter`, which takes two. The model drops the world.
  - `Entity.set` and `Entity.set_pair` read `component.dtype` (python/src/flecs/_entity.py:50, 74), but `Component` stores only `_dtype` (python/src/flecs/_component.py:17) and defines no `dtype` property. The model reads the descriptor's dtype.
  - `QueryBuilder.build` reads `self._world.ptr` (python/src/flecs/_query.py:49), but `World` defines only `_ptr` (python/src/flecs/_world.py:22). The model hands the engine world to the query creation directly.
  - `FilterBuilder.build` calls `self._world.create_filter` (python/src/flecs/_filter.py:122), which the Python `World` does not define. The model calls the C++ world's `create_filter`.
  - `_query.py` imports `ComponentEntry` (python/src/flecs/_query.py:7), but `_filter.py` defines only `_ComponentEntry` (python/src/flecs/_filter.py:14). The model has one `Entry` datatype for both.
  - `Query.__init__` calls `world.lookup_by_id` and tests for `Pair`, neither of which the shown Python defines. The lookup is a parameter that answers a plain handle or a pair.

## Findings

| source | as written | input that shows it | evidently intended | confidence | as-written member | corrected member |
|---|---|---|---|---|---|---|
| cpp/src/entity.cpp:41-46 | the bulk builder's constructor ignores its `count` argument, so `mDesc.count` stays 0 and `build` returns no handles | `bulk_entity_builder(world, 3)`, one `add`, then `build` with an engine answering three ids: the result is empty | `mDesc.count = count`, so `build` returns `count` handles | not executed | CppEntities.BuildIgnoresRequestedCount | CppEntities.BuildHonoursRequestedCount |
