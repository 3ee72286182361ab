/** The C++ world (cpp/src/world.cpp): component registration, filter and
    query creation (copying the term list into the descriptor's fixed term
    slots), bulk creation with one id, and the bulk builder factory. The
    engine's replies are parameters. */
module CppWorld {
  import opened FlecsTypes
  import opened CppEntities

  /** ECS_TERM_DESC_CACHE_SIZE: the term slots inside a filter descriptor. */
  const TermDescCacheSize: nat := 16

  /** What a filter (or a query's filter) descriptor holds when it reaches the
      engine; a term slot of 0 is a zero-initialised, empty term. */
  datatype FilterRequest = FilterRequest(name: string, expr: string, instanced: bool, terms: seq<Id>)

  /** The term slots after the copy: the terms in order followed by empty
      slots when they fit, and only empty slots when they do not. */
  function CachedTerms(terms: seq<Id>): (slots: seq<Id>)
    ensures |slots| == TermDescCacheSize
    ensures |terms| <= TermDescCacheSize ==> slots[..|terms|] == terms
    ensures forall i :: 0 <= i < TermDescCacheSize ==>
      slots[i] == (if |terms| <= TermDescCacheSize && i < |terms| then terms[i] else 0)
  {
    if |terms| <= TermDescCacheSize then terms + seq(TermDescCacheSize - |terms|, _ => 0)
    else seq(TermDescCacheSize, _ => 0)
  }

  /** The `ecs_filter_desc_t` (or `desc.filter` of an `ecs_query_desc_t`)
      that `create_filter` and `create_query` fill in place. */
  class FilterDesc {
    var name: string
    var expr: string
    var instanced: bool
    const terms: array<Id>

    /** `desc{}` zero-initialises every slot; name, expr and instanced are
        set; the terms are copied slot by slot only when they fit. */
    constructor (name: string, expr: string, instanced: bool, ts: seq<Id>)
      ensures fresh(terms) && terms.Length == TermDescCacheSize
      ensures this.name == name && this.expr == expr && this.instanced == instanced
      ensures terms[..] == CachedTerms(ts)
    {
      this.name := name;
      this.expr := expr;
      this.instanced := instanced;
      this.terms := new Id[TermDescCacheSize](_ => 0);
      new;
      if |ts| <= TermDescCacheSize {
        var idx := 0;
        while idx < |ts|
          modifies terms
          invariant 0 <= idx <= |ts|
          invariant forall i :: 0 <= i < idx ==> terms[i] == ts[i]
          invariant forall i :: idx <= i < TermDescCacheSize ==> terms[i] == 0
        {
          terms[idx] := ts[idx];
          idx := idx + 1;
        }
      }
    }

    function Request(): FilterRequest
      reads this, terms
    {
      FilterRequest(name, expr, instanced, terms[..])
    }
  }

  /** `create_filter`: fills the descriptor, then throws when the engine's
      `ecs_filter_init` reports a nonzero status. */
  method CreateFilter(name: string, expr: string, instanced: bool, terms: seq<Id>,
                      filterInit: FilterRequest -> int) returns (r: Result<FilterRequest>)
    ensures var req := FilterRequest(name, expr, instanced, CachedTerms(terms));
      && (r.Failure? <==> filterInit(req) != 0)
      && (r.Failure? ==> r.error == FilterCreationFailed)
      && (r.Success? ==> r.value == req)
  {
    var desc := new FilterDesc(name, expr, instanced, terms);
    var req := desc.Request();
    if filterInit(req) != 0 {
      return Failure(FilterCreationFailed);
    }
    r := Success(req);
  }

  /** An engine query: the descriptor it was created from and the term ids of
      its compiled filter (`term_count()` and `terms(idx)`). */
  datatype QueryRef = QueryRef(request: FilterRequest, compiled: seq<Id>)

  /** `create_query`: fills `desc.filter` under the same capacity rule, then
      throws when `ecs_query_init` returns null (here: no compiled terms). */
  method CreateQuery(name: string, expr: string, instanced: bool, terms: seq<Id>,
                     queryInit: FilterRequest -> Option<seq<Id>>) returns (r: Result<QueryRef>)
    ensures var req := FilterRequest(name, expr, instanced, CachedTerms(terms));
      && (r.Failure? <==> queryInit(req).None?)
      && (r.Failure? ==> r.error == QueryCreationFailed)
      && (r.Success? ==> r.value == QueryRef(req, queryInit(req).value))
  {
    var desc := new FilterDesc(name, expr, instanced, terms);
    var req := desc.Request();
    var q := queryInit(req);
    if q.None? {
      return Failure(QueryCreationFailed);
    }
    r := Success(QueryRef(req, q.value));
  }

  /** What `component` hands to `ecs_component_init`. */
  datatype ComponentRequest = ComponentRequest(entity: Id, name: string, symbol: string, size: nat, alignment: nat)

  /** `component`: name and symbol are both the given name, the entity field
      is 0 (a new entity); an engine answer of 0 throws. */
  function ComponentInit(name: string, size: nat, alignment: nat,
                         componentInit: ComponentRequest -> Id): (r: Result<Id>)
    ensures var req := ComponentRequest(0, name, name, size, alignment);
      && (r.Failure? <==> componentInit(req) == 0)
      && (r.Failure? ==> r.error == ComponentNotCreated)
      && (r.Success? ==> r.value == componentInit(req) && r.value != 0)
  {
    var req := ComponentRequest(0, name, name, size, alignment);
    var id := componentInit(req);
    if id == 0 then Failure(ComponentNotCreated) else Success(id)
  }

  /** `bulk_entity_w_id`: throws on a null engine result, otherwise returns
      exactly `count` handles, handle i wrapping the engine's id i. */
  method BulkEntityWId(world: WorldRef, eid: Id, count: int, bulkNew: (Id, int) -> Option<seq<Id>>)
    returns (r: Result<seq<CppEntity>>)
    requires bulkNew(eid, count).Some? ==> count <= |bulkNew(eid, count).value|
    ensures r.Failure? <==> bulkNew(eid, count).None?
    ensures r.Failure? ==> r.error == BulkCreationFailed
    ensures r.Success? ==> |r.value| == (if count < 0 then 0 else count)
    ensures r.Success? ==> forall i :: 0 <= i < |r.value| ==> r.value[i] == CppEntity(world, bulkNew(eid, count).value[i])
  {
    var created := bulkNew(eid, count);
    if created.None? {
      return Failure(BulkCreationFailed);
    }
    var handles := WrapHandles(world, created.value, count);
    r := Success(handles);
  }

  /** `bulk_entity_builder`: a fresh builder for this world, made with the
      constructor as written, so the requested count is lost and the
      descriptor's count is 0. */
  method NewBulkBuilder(world: WorldRef, count: int) returns (b: BulkEntityBuilder)
    ensures fresh(b) && fresh(b.ids) && b.Valid()
    ensures b.world == world && b.count == 0 && b.data == [] && b.descData == None
  {
    b := new BulkEntityBuilder(world, count);
  }

  /** The factory as evidently intended: the builder records the count. */
  method NewCountedBulkBuilder(world: WorldRef, count: int) returns (b: BulkEntityBuilder)
    ensures fresh(b) && fresh(b.ids) && b.Valid()
    ensures b.world == world && b.count == count && b.data == [] && b.descData == None
  {
    b := new BulkEntityBuilder.WithCount(world, count);
  }
}
