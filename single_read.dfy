/** `SingleReadQuery`: the read of the one row with the given key values,
  * optionally restricted to some columns, and the checks on what the
  * database returns for it. */
module SingleRead {

  import opened Wrappers
  import opened Values
  import opened Statements
  import opened ColumnsToFetch
  import LegacyContext
  import Collections

  /** The fields of the source class; `Optional.empty()` columns is None. */
  datatype SingleRead = SingleRead(
    ctx: LegacyContext.Context,
    keys: seq<(string, Value)>,
    columnsToFetch: Option<seq<ColumnToFetch>>)
  {
    /** `newQuery(newContext)`, behind every `with...` of a read. */
    function WithContext(newContext: LegacyContext.Context): (r: SingleRead)
      ensures r.ctx == newContext && r.keys == keys && r.columnsToFetch == columnsToFetch
    {
      this.(ctx := newContext)
    }

    /** `all()`: no column restriction. */
    function All(): (r: SingleRead)
      ensures r.columnsToFetch.None? && r.keys == keys && r.ctx == ctx
    {
      this.(columnsToFetch := None)
    }

    /** `column(name)`: also the plain column `name`. */
    function Column(name: string): (r: SingleRead)
      ensures r.columnsToFetch == Some(Requested(columnsToFetch) + [ColumnToFetch(name, false, false)])
      ensures r.keys == keys && r.ctx == ctx
    {
      this.(columnsToFetch := Merge(columnsToFetch, [ColumnToFetch(name, false, false)]))
    }

    /** `columnWithMetadata(name)`: also `name` with its write time and TTL. */
    function ColumnWithMetadata(name: string): (r: SingleRead)
      ensures r.columnsToFetch == Some(Requested(columnsToFetch) + [ColumnToFetch(name, true, true)])
      ensures r.keys == keys && r.ctx == ctx
    {
      this.(columnsToFetch := Merge(columnsToFetch, [ColumnToFetch(name, true, true)]))
    }

    /** `columns(namesToRead)`: also each of the plain columns, in order. */
    function Columns(namesToRead: seq<string>): (r: SingleRead)
      ensures r.columnsToFetch.Some? && |r.columnsToFetch.value| == |Requested(columnsToFetch)| + |namesToRead|
      ensures r.columnsToFetch.value[..|Requested(columnsToFetch)|] == Requested(columnsToFetch)
      ensures forall i :: 0 <= i < |namesToRead| ==>
                r.columnsToFetch.value[|Requested(columnsToFetch)| + i] == ColumnToFetch(namesToRead[i], false, false)
      ensures r.keys == keys && r.ctx == ctx
    {
      this.(columnsToFetch := Merge(columnsToFetch, CreateAll(namesToRead)))
    }

    /** `columns(String...)`, which first collects the names into a set:
      * each name is requested once, however often it is given. */
    function ColumnsNamed(names: seq<string>): (r: SingleRead)
      ensures r.columnsToFetch.Some? && |r.columnsToFetch.value| >= |Requested(columnsToFetch)|
      ensures r.columnsToFetch.value[..|Requested(columnsToFetch)|] == Requested(columnsToFetch)
      ensures var added := r.columnsToFetch.value[|Requested(columnsToFetch)|..];
        && (forall i :: 0 <= i < |names| ==> ColumnToFetch(names[i], false, false) in added)
        && (forall i :: 0 <= i < |added| ==> !added[i].isFetchTtl && !added[i].isFetchWritetime && added[i].name in names)
        && (forall i, j :: 0 <= i < j < |added| ==> added[i] != added[j])
      ensures r.keys == keys && r.ctx == ctx
    {
      Columns(Collections.Distinct(names))
    }
  }

  /** A plain column per key, added to a restricted selection for the check of
    * the returned keys. `contains(name)` on a set of ColumnToFetch never
    * holds for a String, so every key column is added, requested or not. */
  function KeyColumns(keys: seq<(string, Value)>): seq<ColumnToFetch>
  {
    CreateAll(Names(keys))
  }

  /** The selection: all columns, or the requested ones followed by the key columns. */
  function SelectedColumns(keys: seq<(string, Value)>, cols: Option<seq<ColumnToFetch>>): seq<Selector>
  {
    if cols.Some? then AllSelectors(cols.value) + AllSelectors(KeyColumns(keys)) else []
  }

  /** The select of the row with the given keys, one `eq` clause per key. */
  function SelectQuery(ctx: LegacyContext.Context, keys: seq<(string, Value)>, cols: Option<seq<ColumnToFetch>>, where: seq<Condition>): Query
  {
    NewQuery(SelectKind, ctx.Target()).(selectAll := cols.None?, selectors := SelectedColumns(keys, cols), where := where)
  }

  /** The read binds the key values as given, in key order. */
  function ReadStatement(ctx: LegacyContext.Context, keys: seq<(string, Value)>, cols: Option<seq<ColumnToFetch>>): Statement
  {
    Bound(SelectQuery(ctx, keys, cols, KeyMarkers(Names(keys))), EntryValues(keys))
  }

  /** No restriction selects all columns; a restriction selects the requested
    * columns and then every key column as a plain column. */
  lemma SelectionMeaning(keys: seq<(string, Value)>, cols: Option<seq<ColumnToFetch>>)
    ensures cols.None? ==> SelectedColumns(keys, cols) == []
    ensures cols.Some? ==>
      SelectedColumns(keys, cols) == AllSelectors(cols.value) + seq(|keys|, i requires 0 <= i < |keys| => Selector.Column(keys[i].0))
  {
    if cols.Some? {
      PlainColumnsSelected(Names(keys));
    }
  }

  /** A key column the read asked for is selected twice. */
  lemma RequestedKeySelectedTwice(k: string, v: Value)
    ensures SelectedColumns([(k, v)], Some([ColumnToFetch(k, false, false)])) == [Selector.Column(k), Selector.Column(k)]
  {
    PlainColumnsSelected([k]);
    PlainColumnsSelected(Names([(k, v)]));
  }

  /** Binding the read puts each key's value in its own `eq` clause. */
  lemma ReadBinding(ctx: LegacyContext.Context, keys: seq<(string, Value)>, cols: Option<seq<ColumnToFetch>>)
    ensures var s := ReadStatement(ctx, keys, cols);
      && s.Bound? && |s.values| == |keys| == MarkerCount(s.query)
      && Fill(s.query, s.values) == Some(SelectQuery(ctx, keys, cols, KeyLiterals(Names(keys), EntryValues(keys))))
  {
    var vs := EntryValues(keys);
    FillPrepared(SelectQuery(ctx, keys, cols, KeyMarkers(Names(keys))), [], vs, []);
    assert [] + vs + [] == vs;
    SubstituteKeyMarkers(Names(keys), vs);
  }

  /** The selection of `executeAsync`: all columns, or the requested ones and
    * then the key columns. */
  method Select(keys: seq<(string, Value)>, cols: Option<seq<ColumnToFetch>>) returns (all: bool, selectors: seq<Selector>)
    ensures all == cols.None? && selectors == SelectedColumns(keys, cols)
  {
    var selection := new Selection();
    if cols.Some? {
      AcceptAll(cols.value, selection);
      AcceptAll(KeyColumns(keys), selection);
    } else {
      selection.All();
    }
    all, selectors := selection.all, selection.selectors;
  }

  /** The statement `executeAsync` builds, selection first. */
  method BuildStatement(ctx: LegacyContext.Context, keys: seq<(string, Value)>, cols: Option<seq<ColumnToFetch>>)
    returns (s: Statement)
    ensures s == ReadStatement(ctx, keys, cols)
  {
    var all, selectors := Select(keys, cols);
    var select := NewQuery(SelectKind, ctx.Target()).(selectAll := all, selectors := selectors);
    var k := AddKeyMarkers(keys, RawValue(), [], []);
    RawValues(keys);
    assert [] + KeyMarkers(Names(keys)) == KeyMarkers(Names(keys));
    assert k.value.0 == KeyMarkers(Names(keys)) && k.value.1 == EntryValues(keys);
    s := Bound(select.(where := k.value.0), k.value.1);
  }

  // ---------------------------------------------------------------------------
  // The result

  /** A returned row as the bytes of its cells; a null cell is absent. */
  type ByteRow = map<string, seq<bv8>>

  /** The check of one key against the returned row: the requested value,
    * serialised by `ser`, must be the returned cell's bytes; `get()` on the
    * empty Optional of a null cell throws. */
  function KeyCheck(row: ByteRow, ser: Value -> seq<bv8>): ((string, Value)) -> Result<(), Error>
  {
    (e: (string, Value)) =>
      if e.0 !in row then Err(NoSuchElement)
      else if ser(e.1) != row[e.0] then Err(ProtocolError(e.0))
      else Ok(())
  }

  /** Every key of the read comes back with the bytes it was asked with. */
  predicate KeysMatch(keys: seq<(string, Value)>, row: ByteRow, ser: Value -> seq<bv8>)
  {
    forall i :: 0 <= i < |keys| ==> keys[i].0 in row && row[keys[i].0] == ser(keys[i].1)
  }

  /** What the read yields for the rows of its result set: nothing for no
    * row; the first row once every key is checked against it in key order
    * and no further row exists. */
  function ReadResult(keys: seq<(string, Value)>, rows: seq<ByteRow>, ser: Value -> seq<bv8>): Result<Option<ByteRow>, Error>
  {
    if rows == [] then Ok(None)
    else
      var _ :- MapAll(KeyCheck(rows[0], ser), keys);
      if |rows| > 1 then Err(TooManyResults) else Ok(Some(rows[0]))
  }

  /** No row is an empty result; a record comes back iff there was exactly one
    * row and all its keys match; several matching rows are too many; any
    * other outcome is the failure of the first key that does not match. */
  lemma ReadResultMeaning(keys: seq<(string, Value)>, rows: seq<ByteRow>, ser: Value -> seq<bv8>)
    ensures ReadResult(keys, rows, ser) == Ok(None) <==> rows == []
    ensures var r := ReadResult(keys, rows, ser);
      (r.Ok? && r.value.Some?) <==> (|rows| == 1 && KeysMatch(keys, rows[0], ser))
    ensures var r := ReadResult(keys, rows, ser);
      r.Ok? && r.value.Some? ==> r.value.value == rows[0]
    ensures |rows| > 1 && KeysMatch(keys, rows[0], ser) ==> ReadResult(keys, rows, ser) == Err(TooManyResults)
    ensures rows != [] && !KeysMatch(keys, rows[0], ser) ==>
              exists i :: FirstFailure(KeyCheck(rows[0], ser), keys, i)
                && ReadResult(keys, rows, ser) == Err(if keys[i].0 in rows[0] then ProtocolError(keys[i].0) else NoSuchElement)
  {
    if rows != [] {
      var check := KeyCheck(rows[0], ser);
      assert KeysMatch(keys, rows[0], ser) <==> forall i :: 0 <= i < |keys| ==> check(keys[i]).Ok?;
      var m := MapAll(check, keys);
      if m.Err? {
        var i :| FirstFailure(check, keys, i) && check(keys[i]) == Err(m.error);
        assert ReadResult(keys, rows, ser) == Err(if keys[i].0 in rows[0] then ProtocolError(keys[i].0) else NoSuchElement);
      }
    }
  }

  /** With an injective serialisation a returned record holds, in every key
    * column, exactly the bytes of the value asked for. */
  lemma RecordIsTheRequestedOne(keys: seq<(string, Value)>, rows: seq<ByteRow>, ser: Value -> seq<bv8>, i: nat, v: Value)
    requires ReadResult(keys, rows, ser).Ok? && ReadResult(keys, rows, ser).value.Some?
    requires i < |keys| && keys[i].0 in rows[0]
    requires forall a, b :: ser(a) == ser(b) ==> a == b
    requires rows[0][keys[i].0] == ser(v)
    ensures v == keys[i].1
  {
    ReadResultMeaning(keys, rows, ser);
  }
}
