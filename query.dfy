/** Queries (python/src/flecs/_query.py): a query resolves the term ids of
    its compiled filter back to handles, keeping one component entry per
    term that has a component side, and iterates like a filter. */
module Queries {
  import opened FlecsTypes
  import opened Entities
  import opened CppWorld
  import opened Filters

  /** What looking up a term id yields: a single handle, or a pair of a
      relation and a target. */
  datatype Looked = Plain(h: Handle) | Pair(relation: Handle, target: Handle)

  /** The handle a term contributes to the component list: a plain handle as
      it is; for a pair the relation when it is a component, else the target
      when it is one, else nothing. */
  function ComponentSide(l: Looked): Option<Handle>
  {
    match l
    case Plain(h) => Some(h)
    case Pair(relation, target) =>
      if relation.IsComponent() then Some(relation)
      else if target.IsComponent() then Some(target)
      else None
  }

  /** The component list `__init__` builds over the compiled terms: term
      idx (0-based) with a component side contributes (that handle, idx + 1). */
  function ResolveTerms(ids: seq<Id>, lookup: Id -> Looked): seq<Entry>
  {
    if ids == [] then []
    else
      var side := ComponentSide(lookup(ids[|ids| - 1]));
      ResolveTerms(ids[..|ids| - 1], lookup) + (if side.Some? then [Entry(side.value, |ids|)] else [])
  }

  /** Entries sit at strictly increasing term indices in 1..term_count, and
      each records the component side of the term it names. */
  lemma {:induction false} ResolveTermsIndexed(ids: seq<Id>, lookup: Id -> Looked)
    ensures IndicesIncreasing(ResolveTerms(ids, lookup), |ids|)
    ensures forall k :: 0 <= k < |ResolveTerms(ids, lookup)| ==>
      ComponentSide(lookup(ids[ResolveTerms(ids, lookup)[k].index - 1])) == Some(ResolveTerms(ids, lookup)[k].component)
  {
    if ids != [] {
      var init := ids[..|ids| - 1];
      ResolveTermsIndexed(init, lookup);
      forall k | 0 <= k < |ResolveTerms(init, lookup)|
        ensures ids[ResolveTerms(init, lookup)[k].index - 1] == init[ResolveTerms(init, lookup)[k].index - 1]
      {
      }
    }
  }

  /** Every entry index lies in 1..len(ids). */
  lemma {:induction false} ResolveTermsBounded(ids: seq<Id>, lookup: Id -> Looked)
    ensures forall k :: 0 <= k < |ResolveTerms(ids, lookup)| ==> 1 <= ResolveTerms(ids, lookup)[k].index <= |ids|
  {
    if ids != [] {
      ResolveTermsBounded(ids[..|ids| - 1], lookup);
    }
  }

  /** A term gets an entry exactly when it has a component side; a pair of
      two non-components is skipped but still counts as a term position. */
  lemma {:induction false} ResolveTermsCover(ids: seq<Id>, lookup: Id -> Looked, p: nat)
    requires p < |ids|
    ensures ComponentSide(lookup(ids[p])).Some? <==> HasEntryAt(ResolveTerms(ids, lookup), p + 1)
  {
    var m := |ids| - 1;
    var init := ids[..m];
    var before := ResolveTerms(init, lookup);
    var side := ComponentSide(lookup(ids[m]));
    var extra := if side.Some? then [Entry(side.value, m + 1)] else [];
    assert ResolveTerms(ids, lookup) == before + extra;
    HasEntryAtAppend(before, extra, p + 1);
    if p < m {
      ResolveTermsCover(init, lookup, p);
      assert init[p] == ids[p];
    } else {
      ResolveTermsBounded(init, lookup);
      assert side.Some? ==> extra[0].index == p + 1;
    }
  }

  class Query {
    const query: QueryRef
    const components: seq<Entry>

    /** `__init__`: walks `terms(idx)` for idx in range(term_count()),
        looks each id up and keeps the component side, skipping a pair
        without one. */
    constructor (query: QueryRef, lookup: Id -> Looked)
      ensures this.query == query
      ensures components == ResolveTerms(query.compiled, lookup)
      ensures IndicesIncreasing(components, |query.compiled|)
    {
      this.query := query;
      var ids := query.compiled;
      var found: seq<Entry> := [];
      var idx := 0;
      while idx < |ids|
        invariant 0 <= idx <= |ids|
        invariant found == ResolveTerms(ids[..idx], lookup)
      {
        assert ids[..idx + 1][..idx] == ids[..idx];
        var looked := lookup(ids[idx]);
        var component: Handle;
        if looked.Pair? {
          if looked.relation.IsComponent() {
            component := looked.relation;
          } else if looked.target.IsComponent() {
            component := looked.target;
          } else {
            idx := idx + 1;
            continue;
          }
        } else {
          component := looked.h;
        }
        found := found + [Entry(component, idx + 1)];
        idx := idx + 1;
      }
      assert ids[..|ids|] == ids;
      this.components := found;
      ResolveTermsIndexed(ids, lookup);
    }

    /** `__iter__`: a fresh cursor over the query's current matches. */
    method Iter(groups: seq<Group>) returns (it: FilterIter)
      ensures fresh(it) && it.Valid()
      ensures it.groups == groups && it.components == components
      ensures it.pos == 0 && !it.done
    {
      it := new FilterIter(groups, components);
    }
  }

  /** `QueryBuilder.build`: creates the engine query from the builder's name,
      expr, instanced flag and terms, then resolves its compiled terms. */
  method BuildQuery(b: FilterBuilder, queryInit: FilterRequest -> Option<seq<Id>>, lookup: Id -> Looked)
    returns (r: Result<Query>)
    requires b.Valid()
    ensures var req := FilterRequest(b.name, b.expr, b.instanced, CachedTerms(b.terms));
      && (r.Failure? <==> queryInit(req).None?)
      && (r.Failure? ==> r.error == QueryCreationFailed)
      && (r.Success? ==> fresh(r.value) && r.value.query == QueryRef(req, queryInit(req).value))
      && (r.Success? ==> r.value.components == ResolveTerms(queryInit(req).value, lookup))
  {
    var created := CreateQuery(b.name, b.expr, b.instanced, b.terms, queryInit);
    match created
    case Failure(e) =>
      r := Failure(e);
    case Success(q) =>
      var query := new Query(q, lookup);
      r := Success(query);
  }
}
