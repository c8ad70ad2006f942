/** `ColumnToFetch`: a column a read asks for, optionally with its TTL and
  * its write time, and the driver's `Select.Selection` it adds itself to. */
module ColumnsToFetch {

  import opened Wrappers
  import opened Statements

  datatype ColumnToFetch = ColumnToFetch(name: string, isFetchWritetime: bool, isFetchTtl: bool)

  /** `create(names)`: one plain column per name, in order. */
  function CreateAll(names: seq<string>): (r: seq<ColumnToFetch>)
    ensures |r| == |names|
    ensures forall i :: 0 <= i < |names| ==> r[i] == ColumnToFetch(names[i], false, false)
  {
    seq(|names|, i requires 0 <= i < |names| => ColumnToFetch(names[i], false, false))
  }

  /** The columns a read asks for so far; none when it has no restriction. */
  function Requested(cols: Option<seq<ColumnToFetch>>): seq<ColumnToFetch>
  {
    if cols.Some? then cols.value else []
  }

  /** `Immutables.merge` of further columns into an optional set of columns:
    * columns compare by identity, so every new one is kept, after the old
    * ones. */
  function Merge(cols: Option<seq<ColumnToFetch>>, more: seq<ColumnToFetch>): (r: Option<seq<ColumnToFetch>>)
    ensures r.Some? && |r.value| == |Requested(cols)| + |more|
    ensures r.value[..|Requested(cols)|] == Requested(cols) && r.value[|Requested(cols)|..] == more
  {
    Some(Requested(cols) + more)
  }

  /** What `accept` adds for one column: the column itself, then its TTL if
    * asked for, then its write time if asked for. */
  function SelectorsOf(c: ColumnToFetch): seq<Selector>
  {
    [Column(c.name)]
    + (if c.isFetchTtl then [TtlOf(c.name)] else [])
    + (if c.isFetchWritetime then [WritetimeOf(c.name)] else [])
  }

  /** The plain column always comes first; the TTL is selected iff asked for,
    * the write time iff asked for and after the TTL; nothing else is. */
  lemma SelectorsOfMeaning(c: ColumnToFetch)
    ensures SelectorsOf(c)[0] == Column(c.name)
    ensures TtlOf(c.name) in SelectorsOf(c) <==> c.isFetchTtl
    ensures WritetimeOf(c.name) in SelectorsOf(c) <==> c.isFetchWritetime
    ensures c.isFetchTtl && c.isFetchWritetime ==> SelectorsOf(c) == [Column(c.name), TtlOf(c.name), WritetimeOf(c.name)]
    ensures |SelectorsOf(c)| == 1 + (if c.isFetchTtl then 1 else 0) + (if c.isFetchWritetime then 1 else 0)
  {
  }

  /** What accepting every column of `cs` in turn adds. */
  function AllSelectors(cs: seq<ColumnToFetch>): seq<Selector>
  {
    if cs == [] then [] else AllSelectors(cs[..|cs| - 1]) + SelectorsOf(cs[|cs| - 1])
  }

  /** Accepting plain columns selects exactly those columns, in order. */
  lemma PlainColumnsSelected(names: seq<string>)
    ensures AllSelectors(CreateAll(names)) == seq(|names|, i requires 0 <= i < |names| => Column(names[i]))
  {
    PlainColumnsSelectedAt(names);
  }

  lemma {:induction false} PlainColumnsSelectedAt(names: seq<string>)
    ensures |AllSelectors(CreateAll(names))| == |names|
    ensures forall i :: 0 <= i < |names| ==> AllSelectors(CreateAll(names))[i] == Column(names[i])
  {
    if names != [] {
      var init := names[..|names| - 1];
      var last := Column(names[|names| - 1]);
      assert AllSelectors(CreateAll(names)) == AllSelectors(CreateAll(init)) + [last] by {
        var c := CreateAll(names);
        assert c[..|names| - 1] == CreateAll(init);
        assert SelectorsOf(c[|names| - 1]) == [last];
      }
      PlainColumnsSelectedAt(init);
    }
  }

  /** Columns requested one after another add their selectors one after another. */
  lemma {:induction false} AllSelectorsAppend(cs: seq<ColumnToFetch>, ds: seq<ColumnToFetch>)
    ensures AllSelectors(cs + ds) == AllSelectors(cs) + AllSelectors(ds)
  {
    if ds != [] {
      var init := ds[..|ds| - 1];
      assert (cs + ds)[..|cs + ds| - 1] == cs + init;
      AllSelectorsAppend(cs, init);
    } else {
      assert cs + ds == cs;
    }
  }

  /** The driver's `Select.Selection` being filled in. */
  class Selection {
    var selectors: seq<Selector>
    var all: bool
    var distinct: bool

    /** `select()`. */
    constructor ()
      ensures selectors == [] && !all && !distinct
    {
      selectors := [];
      all := false;
      distinct := false;
    }

    method Column(name: string)
      modifies this
      ensures selectors == old(selectors) + [Selector.Column(name)] && all == old(all) && distinct == old(distinct)
    {
      selectors := selectors + [Selector.Column(name)];
    }

    method Ttl(name: string)
      modifies this
      ensures selectors == old(selectors) + [TtlOf(name)] && all == old(all) && distinct == old(distinct)
    {
      selectors := selectors + [TtlOf(name)];
    }

    method WriteTime(name: string)
      modifies this
      ensures selectors == old(selectors) + [WritetimeOf(name)] && all == old(all) && distinct == old(distinct)
    {
      selectors := selectors + [WritetimeOf(name)];
    }

    method All()
      modifies this
      ensures all && selectors == old(selectors) && distinct == old(distinct)
    {
      all := true;
    }

    method Distinct()
      modifies this
      ensures distinct && selectors == old(selectors) && all == old(all)
    {
      distinct := true;
    }
  }

  /** `accept(selection)`. */
  method Accept(c: ColumnToFetch, selection: Selection)
    modifies selection
    ensures selection.selectors == old(selection.selectors) + SelectorsOf(c)
    ensures selection.all == old(selection.all) && selection.distinct == old(selection.distinct)
  {
    selection.Column(c.name);
    if c.isFetchTtl {
      selection.Ttl(c.name);
    }
    if c.isFetchWritetime {
      selection.WriteTime(c.name);
    }
  }

  /** `columns.forEach(column -> column.accept(selection))`. */
  method AcceptAll(cs: seq<ColumnToFetch>, selection: Selection)
    modifies selection
    ensures selection.selectors == old(selection.selectors) + AllSelectors(cs)
    ensures selection.all == old(selection.all) && selection.distinct == old(selection.distinct)
  {
    var i := 0;
    while i < |cs|
      invariant 0 <= i <= |cs|
      invariant selection.selectors == old(selection.selectors) + AllSelectors(cs[..i])
      invariant selection.all == old(selection.all) && selection.distinct == old(selection.distinct)
    {
      Accept(cs[i], selection);
      assert cs[..i + 1][..i] == cs[..i];
      i := i + 1;
    }
    assert cs[..i] == cs;
  }
}
