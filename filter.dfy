/** Filters (python/src/flecs/_filter.py): the builder that accumulates
    terms and records, for each component term, its 1-based term index; the
    built filter; and the iterator that walks the engine's matched groups and
    hands out column views by list position or by component name. */
module Filters {
  import opened FlecsTypes
  import opened Components
  import opened Entities
  import opened CppWorld

  /** `_ComponentEntry`: a handle and the 1-based index of its term. */
  datatype Entry = Entry(component: Handle, index: nat)

  /** The term list built from a sequence of handles: their raw identities. */
  function TermIds(args: seq<Handle>): seq<Id>
  {
    seq(|args|, i requires 0 <= i < |args| => args[i].Raw())
  }

  /** The component list built from a sequence of handles, one `term` call at
      a time: a component at 1-based position p gets the entry (handle, p);
      any other handle only takes up its position. */
  function EntriesOf(args: seq<Handle>): seq<Entry>
  {
    if args == [] then []
    else
      var last := args[|args| - 1];
      EntriesOf(args[..|args| - 1]) + (if last.IsComponent() then [Entry(last, |args|)] else [])
  }

  /** Entry indices lie in 1..termCount and strictly increase. */
  predicate IndicesIncreasing(entries: seq<Entry>, termCount: nat)
  {
    && (forall k :: 0 <= k < |entries| ==> 1 <= entries[k].index <= termCount)
    && (forall j, k :: 0 <= j < k < |entries| ==> entries[j].index < entries[k].index)
  }

  /** Each recorded entry is a component, sits at strictly increasing indices
      within the term list, and its index names the position of the very
      handle it records. */
  lemma {:induction false} EntriesOfIndexed(args: seq<Handle>)
    ensures IndicesIncreasing(EntriesOf(args), |args|)
    ensures forall k :: 0 <= k < |EntriesOf(args)| ==>
      EntriesOf(args)[k].component.IsComponent() && args[EntriesOf(args)[k].index - 1] == EntriesOf(args)[k].component
  {
    if args != [] {
      var init := args[..|args| - 1];
      EntriesOfIndexed(init);
      forall k | 0 <= k < |EntriesOf(init)|
        ensures args[EntriesOf(init)[k].index - 1] == init[EntriesOf(init)[k].index - 1]
      {
      }
    }
  }

  /** Entries are components at strictly increasing indices in
      1..len(terms), each naming the identity of its term. */
  ghost predicate TermsIndexed(terms: seq<Id>, entries: seq<Entry>)
  {
    && IndicesIncreasing(entries, |terms|)
    && forall k :: 0 <= k < |entries| ==>
         entries[k].component.IsComponent() && terms[entries[k].index - 1] == entries[k].component.Raw()
  }

  /** The term list and component list built from the same handles are
      indexed consistently. */
  lemma EntriesOfTermsIndexed(args: seq<Handle>)
    ensures TermsIndexed(TermIds(args), EntriesOf(args))
  {
    EntriesOfIndexed(args);
  }

  /** Some entry records 1-based term index idx. */
  predicate HasEntryAt(entries: seq<Entry>, idx: nat)
  {
    exists k :: 0 <= k < |entries| && entries[k].index == idx
  }

  lemma HasEntryAtAppend(a: seq<Entry>, b: seq<Entry>, idx: nat)
    ensures HasEntryAt(a + b, idx) <==> HasEntryAt(a, idx) || HasEntryAt(b, idx)
  {
    if HasEntryAt(a + b, idx) {
      var k :| 0 <= k < |a + b| && (a + b)[k].index == idx;
      if k < |a| {
        assert a[k] == (a + b)[k];
      } else {
        assert b[k - |a|] == (a + b)[k];
      }
    }
    if HasEntryAt(a, idx) {
      var k :| 0 <= k < |a| && a[k].index == idx;
      assert (a + b)[k] == a[k];
    }
    if HasEntryAt(b, idx) {
      var k :| 0 <= k < |b| && b[k].index == idx;
      assert (a + b)[k + |a|] == b[k];
    }
  }

  /** Every entry index lies in 1..len(args). */
  lemma {:induction false} EntriesOfBounded(args: seq<Handle>)
    ensures forall k :: 0 <= k < |EntriesOf(args)| ==> 1 <= EntriesOf(args)[k].index <= |args|
  {
    if args != [] {
      EntriesOfBounded(args[..|args| - 1]);
    }
  }

  /** A position gets an entry exactly when its handle is a component: tags
      take up a term position without an entry. */
  lemma {:induction false} EntriesOfCover(args: seq<Handle>, p: nat)
    requires p < |args|
    ensures args[p].IsComponent() <==> HasEntryAt(EntriesOf(args), p + 1)
  {
    var m := |args| - 1;
    var init := args[..m];
    var before := EntriesOf(init);
    var extra := if args[m].IsComponent() then [Entry(args[m], m + 1)] else [];
    assert EntriesOf(args) == before + extra;
    HasEntryAtAppend(before, extra, p + 1);
    if p < m {
      EntriesOfCover(init, p);
      assert init[p] == args[p];
    } else {
      EntriesOfBounded(init);
      assert args[m].IsComponent() ==> extra[0].index == p + 1;
    }
  }

  /** One archetype group the engine's cursor stops on: its matched row count
      and the raw column it holds for each 1-based term index. */
  datatype Group = Group(count: nat, column: nat -> seq<byte>)

  /** A built filter: the descriptor the engine accepted and the builder's
      component list. */
  datatype Filter = Filter(request: FilterRequest, components: seq<Entry>)

  class FilterBuilder {
    var terms: seq<Id>
    var components: seq<Entry>
    var expr: string
    var name: string
    var instanced: bool
    /** The handles passed to `term` so far, in call order. */
    ghost var args: seq<Handle>

    ghost predicate Valid()
      reads this
    {
      terms == TermIds(args) && components == EntriesOf(args)
    }

    /** The bookkeeping every `term` call keeps: entries are components at
        strictly increasing indices in 1..len(terms), each naming its term. */
    ghost predicate Indexed()
      reads this
    {
      TermsIndexed(terms, components)
    }

    /** `__init__`: the positional handles go through `term` left to right. */
    constructor (args: seq<Handle>, expr: string, name: string, instanced: bool)
      ensures Valid() && Indexed() && this.args == args
      ensures terms == TermIds(args) && components == EntriesOf(args)
      ensures this.expr == expr && this.name == name && this.instanced == instanced
    {
      this.terms := [];
      this.components := [];
      this.expr := expr;
      this.name := name;
      this.instanced := instanced;
      this.args := [];
      new;
      var i := 0;
      while i < |args|
        invariant 0 <= i <= |args|
        invariant Valid() && Indexed() && this.args == args[..i]
        invariant this.expr == expr && this.name == name && this.instanced == instanced
      {
        assert args[..i + 1] == args[..i] + [args[i]];
        var _ := Term(args[i]);
        i := i + 1;
      }
      assert args[..|args|] == args;
    }

    /** `term`: appends the handle's identity; a component also gets an entry
        whose index is the new length of the term list. Returns the builder. */
    method Term(val: Handle) returns (self: FilterBuilder)
      requires Valid()
      modifies this
      ensures Valid() && Indexed() && self == this
      ensures args == old(args) + [val]
      ensures terms == old(terms) + [val.Raw()]
      ensures components == old(components) + (if val.IsComponent() then [Entry(val, |terms|)] else [])
      ensures expr == old(expr) && name == old(name) && instanced == old(instanced)
    {
      terms := terms + [val.Raw()];
      if val.IsComponent() {
        components := components + [Entry(val, |terms|)];
      }
      ghost var before := args;
      args := args + [val];
      assert args[..|args| - 1] == before;
      assert EntriesOf(args) == EntriesOf(before) + (if val.IsComponent() then [Entry(val, |args|)] else []);
      assert TermIds(args) == TermIds(before) + [val.Raw()];
      EntriesOfTermsIndexed(args);
      self := this;
    }

    /** `build`: hands name, expr and the terms to `create_filter` and pairs
        the engine's filter with the builder's own component list. */
    method Build(filterInit: FilterRequest -> int) returns (r: Result<Filter>)
      requires Valid()
      ensures var req := FilterRequest(name, expr, false, CachedTerms(terms));
        && (r.Failure? <==> filterInit(req) != 0)
        && (r.Success? ==> r.value == Filter(req, components))
    {
      var created := CreateFilter(name, expr, false, terms, filterInit);
      match created
      case Failure(e) => r := Failure(e);
      case Success(req) => r := Success(Filter(req, components));
    }
  }

  /** `Filter.__iter__`: every call starts a fresh cursor over the engine's
      current matches, before the first group. */
  method Iter(f: Filter, groups: seq<Group>) returns (it: FilterIter)
    ensures fresh(it) && it.Valid()
    ensures it.groups == groups && it.components == f.components
    ensures it.pos == 0 && !it.done
  {
    it := new FilterIter(groups, f.components);
  }

  /** A key for `__getitem__`: an int position or a component name. */
  datatype Item = Position(i: int) | Named(n: string)

  /** Python list indexing: a position in range, or counted from the end when
      negative. */
  function PyIndex(len: nat, i: int): (r: Option<nat>)
    ensures r.Some? <==> -(len as int) <= i < len
    ensures r.Some? ==> r.value < len && r.value as int == (if i < 0 then len + i else i)
  {
    if 0 <= i < len then Some(i) else if -(len as int) <= i < 0 then Some(len + i) else None
  }

  /** `{val.component.name: val for val in components}`. */
  function NameMap(entries: seq<Entry>): map<string, Entry>
  {
    if entries == [] then map[]
    else
      var last := entries[|entries| - 1];
      NameMap(entries[..|entries| - 1])[last.component.Name() := last]
  }

  /** Entry k is the last one named n. */
  predicate IsLastNamed(entries: seq<Entry>, n: string, k: int)
  {
    && 0 <= k < |entries|
    && entries[k].component.Name() == n
    && forall j :: k < j < |entries| ==> entries[j].component.Name() != n
  }

  /** Some entry is named n. */
  predicate SomeNamed(entries: seq<Entry>, n: string)
  {
    exists k :: 0 <= k < |entries| && entries[k].component.Name() == n
  }

  /** A name is in the map exactly when some entry has it, and then the map
      holds the last entry with that name (later duplicates overwrite). */
  lemma {:induction false} NameMapLastWins(entries: seq<Entry>, n: string)
    ensures n in NameMap(entries) <==> SomeNamed(entries, n)
    ensures n in NameMap(entries) ==> exists k :: IsLastNamed(entries, n, k) && NameMap(entries)[n] == entries[k]
  {
    if entries != [] {
      var m := |entries| - 1;
      var init := entries[..m];
      var last := entries[m];
      assert NameMap(entries) == NameMap(init)[last.component.Name() := last];
      NameMapLastWins(init, n);
      if last.component.Name() == n {
        assert IsLastNamed(entries, n, m);
      } else {
        if n in NameMap(init) {
          var k :| IsLastNamed(init, n, k) && NameMap(init)[n] == init[k];
          assert entries[k] == init[k];
          assert IsLastNamed(entries, n, k);
        }
        if SomeNamed(entries, n) {
          var k :| 0 <= k < |entries| && entries[k].component.Name() == n;
          assert init[k] == entries[k];
        }
        if SomeNamed(init, n) {
          var k :| 0 <= k < |init| && init[k].component.Name() == n;
          assert entries[k] == init[k];
        }
      }
    }
  }

  /** What the name map holds for a name: the last entry with that name,
      or nothing when no entry has it. */
  function LastNamed(entries: seq<Entry>, n: string): (r: Option<Entry>)
    ensures r.None? <==> !SomeNamed(entries, n)
    ensures r.Some? ==> exists k :: IsLastNamed(entries, n, k) && r.value == entries[k]
    ensures r.None? <==> n !in NameMap(entries)
    ensures r.Some? ==> r.value == NameMap(entries)[n]
  {
    NameMapLastWins(entries, n);
    if n in NameMap(entries) then Some(NameMap(entries)[n]) else None
  }

  /** The view of an entry's column in a group (`create_view` of the term's
      buffer); a handle that is not a Component has no `create_view`. */
  function ColumnView(g: Group, e: Entry): (r: Result<NdArray>)
    ensures !e.component.IsComponent() ==> r == Failure(NoView)
    ensures r.Failure? ==> r.error == NoView || r.error == ViewError || r.error == TypeError
    ensures r.Success? ==> r.value.dtype == e.component.desc.dtype && r.value.bytes == g.column(e.index)
    ensures r.Success? ==> |r.value.shape| == |e.component.desc.shape| + 1 && r.value.shape[1..] == e.component.desc.shape
  {
    match e.component
    case ComponentHandle(c) => CreateView(c, g.column(e.index))
    case EntityHandle(_, _) => Failure(NoView)
  }

  /** A component column that holds one row per entity the group matched
      views as exactly `count` rows of the component. */
  lemma GroupColumnRows(g: Group, e: Entry)
    requires e.component.IsComponent() && e.component.desc.shape != [] && e.component.desc.NBytes() > 0
    requires |g.column(e.index)| == g.count * e.component.desc.NBytes()
    ensures ColumnView(g, e).Success?
    ensures ColumnView(g, e).value.shape == [g.count] + e.component.desc.shape
  {
    CreateViewRows(e.component.desc, g.column(e.index), g.count);
  }

  class FilterIter {
    const groups: seq<Group>
    const components: seq<Entry>
    const names: map<string, Entry>
    /** Groups the engine cursor has moved onto. */
    var pos: nat
    /** The engine cursor has reported that no group is left. */
    var done: bool

    ghost predicate Valid()
      reads this
    {
      pos <= |groups| && (done ==> pos == |groups|) && names == NameMap(components)
    }

    /** The cursor stands on group pos - 1. */
    predicate Positioned()
      reads this
    {
      0 < pos <= |groups| && !done
    }

    constructor (groups: seq<Group>, components: seq<Entry>)
      ensures Valid() && this.groups == groups && this.components == components
      ensures pos == 0 && !done
    {
      this.groups := groups;
      this.components := components;
      this.names := NameMap(components);
      this.pos := 0;
      this.done := false;
    }

    /** `__next__`: the iterator itself while the engine moves onto another
        group, StopIteration (None) once it has none left. */
    method Next() returns (r: Option<FilterIter>)
      requires Valid()
      modifies this
      ensures Valid()
      ensures old(pos) < |groups| ==> r == Some(this) && pos == old(pos) + 1 && Positioned()
      ensures old(pos) == |groups| ==> r == None && pos == old(pos) && done && !Positioned()
    {
      if pos < |groups| {
        pos := pos + 1;
        r := Some(this);
      } else {
        done := true;
        r := None;
      }
    }

    /** `__getitem__`: an int selects by (Python) position in the component
        list, a name selects from the name map; the result is the view of
        that entry's column in the current group. */
    function GetItem(item: Item): (r: Result<NdArray>)
      reads this
      requires Valid() && Positioned()
      ensures item.Position? && PyIndex(|components|, item.i).None? ==> r == Failure(IndexError)
      ensures item.Position? && PyIndex(|components|, item.i).Some? ==>
        r == ColumnView(groups[pos - 1], components[PyIndex(|components|, item.i).value])
      ensures item.Named? ==> (r == Failure(KeyError) <==> LastNamed(components, item.n).None?)
      ensures item.Named? && LastNamed(components, item.n).Some? ==>
        r == ColumnView(groups[pos - 1], LastNamed(components, item.n).value)
    {
      match item
      case Position(i) =>
        (match PyIndex(|components|, i)
         case None => Failure(IndexError)
         case Some(k) => ColumnView(groups[pos - 1], components[k]))
      case Named(n) =>
        if n in names then ColumnView(groups[pos - 1], names[n]) else Failure(KeyError)
    }
  }
}
