/** The reads of `DaoImpl`: the read of one row by its keys, with the check
  * of the returned keys, and the read of a list of rows by where clauses. */
module DaoImplReads {

  import opened Wrappers
  import opened Values
  import opened Statements
  import opened ColumnsToFetch
  import LegacyContext
  import Collections
  import SingleRead

  // ---------------------------------------------------------------------------
  // SingleSelectionQuery

  /** The fields of `SingleSelectionQuery`; `Optional.empty()` columns is None. */
  datatype SingleSelection = SingleSelection(
    ctx: LegacyContext.Context,
    keyNameValuePairs: seq<(string, Value)>,
    columnsToFetch: Option<seq<ColumnToFetch>>)
  {
    /** `column(name, isFetchWritetime, isFetchTtl)`: one more column, last. */
    function ColumnWithFlags(name: string, isFetchWritetime: bool, isFetchTtl: bool): (r: SingleSelection)
      ensures r.columnsToFetch == Some(Requested(columnsToFetch) + [ColumnToFetch(name, isFetchWritetime, isFetchTtl)])
      ensures r.ctx == ctx && r.keyNameValuePairs == keyNameValuePairs
    {
      this.(columnsToFetch := Merge(columnsToFetch, [ColumnToFetch(name, isFetchWritetime, isFetchTtl)]))
    }

    /** `column(name)`: the plain column. */
    function Column(name: string): (r: SingleSelection)
      ensures r == ColumnWithFlags(name, false, false)
      ensures r.columnsToFetch.value[|r.columnsToFetch.value| - 1] == ColumnToFetch(name, false, false)
    {
      ColumnWithFlags(name, false, false)
    }

    /** `columns(namesToRead)`: the plain columns, in the given order. */
    function Columns(namesToRead: seq<string>): (r: SingleSelection)
      ensures r.columnsToFetch.Some? && |r.columnsToFetch.value| == |Requested(columnsToFetch)| + |namesToRead|
      ensures r.columnsToFetch.value[..|Requested(columnsToFetch)|] == Requested(columnsToFetch)
      ensures forall i :: 0 <= i < |namesToRead| ==>
                r.columnsToFetch.value[|Requested(columnsToFetch)| + i] == ColumnToFetch(namesToRead[i], false, false)
      ensures r.ctx == ctx && r.keyNameValuePairs == keyNameValuePairs
    {
      this.(columnsToFetch := Merge(columnsToFetch, CreateAll(namesToRead)))
    }

    /** `columns(String...)`: the names collected into a set first. */
    function ColumnsNamed(names: seq<string>): (r: SingleSelection)
      ensures r.columnsToFetch.Some? && |r.columnsToFetch.value| >= |Requested(columnsToFetch)|
      ensures r.columnsToFetch.value[..|Requested(columnsToFetch)|] == Requested(columnsToFetch)
      ensures var added := r.columnsToFetch.value[|Requested(columnsToFetch)|..];
        && (forall i :: 0 <= i < |names| ==> ColumnToFetch(names[i], false, false) in added)
        && (forall i :: 0 <= i < |added| ==> !added[i].isFetchTtl && !added[i].isFetchWritetime && added[i].name in names)
        && (forall i, j :: 0 <= i < j < |added| ==> added[i] != added[j])
      ensures r.ctx == ctx && r.keyNameValuePairs == keyNameValuePairs
    {
      Columns(Collections.Distinct(names))
    }

    function WithConsistency(c: Consistency): (r: SingleSelection)
      ensures r.ctx == ctx.WithConsistency(c)
      ensures r.keyNameValuePairs == keyNameValuePairs && r.columnsToFetch == columnsToFetch
    {
      this.(ctx := ctx.WithConsistency(c))
    }
  }

  /** No key value is null. */
  predicate NonNullKeys(keys: seq<(string, Value)>)
  {
    forall i :: 0 <= i < |keys| ==> keys[i].1 != Null
  }

  /** No key name occurs twice. */
  predicate DistinctNames(keys: seq<(string, Value)>)
  {
    forall i, j :: 0 <= i < j < |keys| ==> keys[i].0 != keys[j].0
  }

  /** `ImmutableMap.of(k1, v1, ...)`: every entry is checked for null before
    * the map is built, so a null value throws a NullPointerException; a name
    * given twice then throws an IllegalArgumentException. */
  function KeyMap(keys: seq<(string, Value)>): (r: Result<seq<(string, Value)>, Error>)
    ensures r.Ok? <==> NonNullKeys(keys) && DistinctNames(keys)
    ensures r.Ok? ==> r.value == keys
    ensures !NonNullKeys(keys) ==> r == Err(NullPointer)
    ensures NonNullKeys(keys) && !DistinctNames(keys) ==> r == Err(IllegalArgument("Multiple entries with same key"))
  {
    if !NonNullKeys(keys) then Err(NullPointer)
    else if !DistinctNames(keys) then Err(IllegalArgument("Multiple entries with same key"))
    else Ok(keys)
  }

  /** `readWithKey(keyName, keyValue)`: no column restriction; a null key
    * value throws. */
  function ReadWithKey(ctx: LegacyContext.Context, keyName: string, keyValue: Value): (r: Result<SingleSelection, Error>)
    ensures r.Err? <==> keyValue == Null
    ensures r.Err? ==> r.error == NullPointer
    ensures r.Ok? ==> r.value.keyNameValuePairs == [(keyName, keyValue)] && r.value.columnsToFetch.None? && r.value.ctx == ctx
  {
    assert NonNullKeys([(keyName, keyValue)]) <==> [(keyName, keyValue)][0].1 != Null;
    assert DistinctNames([(keyName, keyValue)]);
    var keys :- KeyMap([(keyName, keyValue)]);
    Ok(SingleSelection(ctx, keys, None))
  }

  /** The overloads for two, three and four keys: an empty column
    * restriction; a null key value or a repeated key name throws. */
  function ReadWithKeys(ctx: LegacyContext.Context, keys: seq<(string, Value)>): (r: Result<SingleSelection, Error>)
    requires 2 <= |keys| <= 4
    ensures r.Ok? <==> NonNullKeys(keys) && DistinctNames(keys)
    ensures !NonNullKeys(keys) ==> r == Err(NullPointer)
    ensures NonNullKeys(keys) && !DistinctNames(keys) ==> r == Err(IllegalArgument("Multiple entries with same key"))
    ensures r.Ok? ==> r.value.keyNameValuePairs == keys && r.value.columnsToFetch == Some([]) && r.value.ctx == ctx
  {
    var checked :- KeyMap(keys);
    Ok(SingleSelection(ctx, checked, Some([])))
  }

  /** The one-key read selects every column and binds its one non-null key; a
    * read with more keys and no columns added selects the key columns and
    * nothing else, and binds no null. */
  lemma ReadWithKeySelections(ctx: LegacyContext.Context, keyName: string, keyValue: Value, keys: seq<(string, Value)>)
    requires 2 <= |keys| <= 4
    ensures ReadWithKey(ctx, keyName, keyValue).Ok? ==>
      var st := SelectionStatement(ReadWithKey(ctx, keyName, keyValue).value);
      st.query.selectAll && st.query.selectors == [] && st.values == [keyValue] && Null !in st.values
    ensures ReadWithKeys(ctx, keys).Ok? ==>
      var st := SelectionStatement(ReadWithKeys(ctx, keys).value);
      && !st.query.selectAll
      && st.query.selectors == seq(|keys|, i requires 0 <= i < |keys| => Selector.Column(keys[i].0))
      && st.values == EntryValues(keys) && Null !in st.values
  {
    if ReadWithKey(ctx, keyName, keyValue).Ok? {
      OneKeySelection(ReadWithKey(ctx, keyName, keyValue).value, keyValue);
    }
    if ReadWithKeys(ctx, keys).Ok? {
      KeysSelection(ReadWithKeys(ctx, keys).value, keys);
    }
  }

  lemma OneKeySelection(s: SingleSelection, keyValue: Value)
    requires s.columnsToFetch.None? && |s.keyNameValuePairs| == 1 && s.keyNameValuePairs[0].1 == keyValue != Null
    ensures var st := SelectionStatement(s);
      st.query.selectAll && st.query.selectors == [] && st.values == [keyValue] && Null !in st.values
  {
    SelectionBinding(s);
    assert SelectionStatement(s).values == EntryValues(s.keyNameValuePairs);
  }

  lemma KeysSelection(s: SingleSelection, keys: seq<(string, Value)>)
    requires s.columnsToFetch == Some([]) && s.keyNameValuePairs == keys && NonNullKeys(keys)
    ensures var st := SelectionStatement(s);
      && !st.query.selectAll
      && st.query.selectors == seq(|keys|, i requires 0 <= i < |keys| => Selector.Column(keys[i].0))
      && st.values == EntryValues(keys) && Null !in st.values
  {
    SingleRead.SelectionMeaning(keys, Some([]));
    assert AllSelectors([]) == [];
    assert [] + seq(|keys|, i requires 0 <= i < |keys| => Selector.Column(keys[i].0))
        == seq(|keys|, i requires 0 <= i < |keys| => Selector.Column(keys[i].0));
    SelectionBinding(s);
    assert SelectionStatement(s).values == EntryValues(keys);
  }

  /** The statement `executeAsync` prepares and binds: the same selection,
    * key clauses and values as `SingleReadQuery`. */
  function SelectionStatement(s: SingleSelection): Statement
  {
    SingleRead.ReadStatement(s.ctx, s.keyNameValuePairs, s.columnsToFetch)
  }

  /** Every key is bound to its value in its own `eq` clause, in key order. */
  lemma SelectionBinding(s: SingleSelection)
    ensures var st := SelectionStatement(s);
      && st.Bound? && |st.values| == |s.keyNameValuePairs| == MarkerCount(st.query)
      && Fill(st.query, st.values)
         == Some(SingleRead.SelectQuery(s.ctx, s.keyNameValuePairs, s.columnsToFetch,
                   KeyLiterals(Names(s.keyNameValuePairs), EntryValues(s.keyNameValuePairs))))
  {
    SingleRead.ReadBinding(s.ctx, s.keyNameValuePairs, s.columnsToFetch);
  }

  method GetSelectionStatement(s: SingleSelection) returns (st: Statement)
    ensures st == SelectionStatement(s)
  {
    st := SingleRead.BuildStatement(s.ctx, s.keyNameValuePairs, s.columnsToFetch);
  }

  /** The check of one key against the returned record, as written: the
    * record's value for the key is read with `get`, which is null for a
    * column that is null or not in the row, and the read fails when that
    * value EQUALS the one asked for. */
  function KeyCheckAsWritten(record: Row): ((string, Value)) -> Result<(), Error>
  {
    (e: (string, Value)) =>
      if e.0 !in record || record[e.0] == Null then Err(NullPointer)
      else if record[e.0] == e.1 then Err(ProtocolError(e.0))
      else Ok(())
  }

  /** The result of the single selection for the rows of its result set, as
    * written: nothing for no row; otherwise every key is checked against
    * the first row in key order, and then a second row is too many. */
  function SelectionResult(keys: seq<(string, Value)>, rows: seq<Row>): Result<Option<Row>, Error>
  {
    if rows == [] then Ok(None)
    else
      var _ :- MapAll(KeyCheckAsWritten(rows[0]), keys);
      if |rows| > 1 then Err(TooManyResults) else Ok(Some(rows[0]))
  }

  /** Every key came back (non-null) with the value it was asked with. */
  predicate KeysReturned(keys: seq<(string, Value)>, record: Row)
  {
    forall i :: 0 <= i < |keys| ==> keys[i].0 in record && record[keys[i].0] != Null && record[keys[i].0] == keys[i].1
  }

  /** As written, no row is an empty result, and a record comes back only if
    * every key came back with a value DIFFERENT from the one asked for. */
  lemma SelectionResultAsWritten(keys: seq<(string, Value)>, rows: seq<Row>)
    ensures SelectionResult(keys, rows) == Ok(None) <==> rows == []
    ensures var r := SelectionResult(keys, rows);
      r.Ok? && r.value.Some? ==>
        && |rows| == 1 && r.value.value == rows[0]
        && forall i :: 0 <= i < |keys| ==> keys[i].0 in rows[0] && rows[0][keys[i].0] != keys[i].1
  {
    if rows != [] {
      var m := MapAll(KeyCheckAsWritten(rows[0]), keys);
      if m.Ok? {
        forall i | 0 <= i < |keys|
          ensures keys[i].0 in rows[0] && rows[0][keys[i].0] != keys[i].1
        {
          assert KeyCheckAsWritten(rows[0])(keys[i]).Ok?;
        }
      }
    }
  }

  /** As written, the one row that holds exactly the requested key is
    * rejected as a data swap. */
  lemma MatchingRowIsRejected(keyName: string, keyValue: Value, record: Row)
    requires keyValue != Null && keyName in record && record[keyName] == keyValue
    ensures SelectionResult([(keyName, keyValue)], [record]) == Err(ProtocolError(keyName))
  {
    var keys := [(keyName, keyValue)];
    assert KeyCheckAsWritten(record)(keys[0]) == Err(ProtocolError(keyName));
    assert FirstFailure(KeyCheckAsWritten(record), keys, 0);
  }

  /** The check as evidently intended: the read fails when the returned value
    * DIFFERS from the one asked for. */
  function KeyCheck(record: Row): ((string, Value)) -> Result<(), Error>
  {
    (e: (string, Value)) =>
      if e.0 !in record || record[e.0] == Null then Err(NullPointer)
      else if record[e.0] != e.1 then Err(ProtocolError(e.0))
      else Ok(())
  }

  function CorrectedSelectionResult(keys: seq<(string, Value)>, rows: seq<Row>): Result<Option<Row>, Error>
  {
    if rows == [] then Ok(None)
    else
      var _ :- MapAll(KeyCheck(rows[0]), keys);
      if |rows| > 1 then Err(TooManyResults) else Ok(Some(rows[0]))
  }

  /** With the corrected check: no row is an empty result; a record comes back
    * iff there is exactly one row and it holds every requested key value;
    * several such rows are too many; a key that came back null fails with a
    * null pointer and one that came back different is a data swap. */
  lemma CorrectedSelectionResultMeaning(keys: seq<(string, Value)>, rows: seq<Row>)
    ensures CorrectedSelectionResult(keys, rows) == Ok(None) <==> rows == []
    ensures var r := CorrectedSelectionResult(keys, rows);
      (r.Ok? && r.value.Some?) <==> (|rows| == 1 && KeysReturned(keys, rows[0]))
    ensures var r := CorrectedSelectionResult(keys, rows);
      r.Ok? && r.value.Some? ==> r.value.value == rows[0]
    ensures |rows| > 1 && KeysReturned(keys, rows[0]) ==> CorrectedSelectionResult(keys, rows) == Err(TooManyResults)
    ensures rows != [] && !KeysReturned(keys, rows[0]) ==>
              exists i :: FirstFailure(KeyCheck(rows[0]), keys, i)
                && CorrectedSelectionResult(keys, rows)
                   == Err(if keys[i].0 in rows[0] && rows[0][keys[i].0] != Null then ProtocolError(keys[i].0) else NullPointer)
  {
    if rows != [] {
      var check := KeyCheck(rows[0]);
      assert KeysReturned(keys, rows[0]) <==> forall i :: 0 <= i < |keys| ==> check(keys[i]).Ok?;
      var m := MapAll(check, keys);
      if m.Err? {
        var i :| FirstFailure(check, keys, i) && check(keys[i]) == Err(m.error);
        assert CorrectedSelectionResult(keys, rows)
            == Err(if keys[i].0 in rows[0] && rows[0][keys[i].0] != Null then ProtocolError(keys[i].0) else NullPointer);
      }
    }
  }

  /** With the corrected check, the one row holding the requested key is
    * the record returned. */
  lemma MatchingRowIsReturned(keyName: string, keyValue: Value, record: Row)
    requires keyValue != Null && keyName in record && record[keyName] == keyValue
    ensures CorrectedSelectionResult([(keyName, keyValue)], [record]) == Ok(Some(record))
  {
    CorrectedSelectionResultMeaning([(keyName, keyValue)], [record]);
  }

  // ---------------------------------------------------------------------------
  // ListSelectionQuery

  /** The fields of `ListSelectionQuery`; each `Optional` option is an Option. */
  datatype ListSelection = ListSelection(
    ctx: LegacyContext.Context,
    clauses: seq<Clause>,
    columnsToFetch: Option<seq<ColumnToFetch>>,
    limit: Option<Int32>,
    allowFiltering: Option<bool>,
    fetchSize: Option<Int32>,
    distinct: Option<bool>)
  {
    function WithConsistency(c: Consistency): (r: ListSelection)
      ensures r.ctx == ctx.WithConsistency(c) && r.(ctx := ctx) == this
    {
      this.(ctx := ctx.WithConsistency(c))
    }

    /** `columns(namesToRead)`: the plain columns added, in the given order. */
    function Columns(namesToRead: seq<string>): (r: ListSelection)
      ensures r.columnsToFetch.Some? && |r.columnsToFetch.value| == |Requested(columnsToFetch)| + |namesToRead|
      ensures r.columnsToFetch.value[..|Requested(columnsToFetch)|] == Requested(columnsToFetch)
      ensures forall i :: 0 <= i < |namesToRead| ==>
                r.columnsToFetch.value[|Requested(columnsToFetch)| + i] == ColumnToFetch(namesToRead[i], false, false)
      ensures r.(columnsToFetch := columnsToFetch) == this
    {
      this.(columnsToFetch := Merge(columnsToFetch, CreateAll(namesToRead)))
    }

    /** `columns(String...)`: the names collected into a set first. */
    function ColumnsNamed(names: seq<string>): (r: ListSelection)
      ensures r == Columns(Collections.Distinct(names))
      ensures forall i :: 0 <= i < |names| ==> ColumnToFetch(names[i], false, false) in r.columnsToFetch.value
    {
      Columns(Collections.Distinct(names))
    }

    function ColumnWithFlags(name: string, isFetchWritetime: bool, isFetchTtl: bool): (r: ListSelection)
      ensures r.columnsToFetch == Some(Requested(columnsToFetch) + [ColumnToFetch(name, isFetchWritetime, isFetchTtl)])
      ensures r.(columnsToFetch := columnsToFetch) == this
    {
      this.(columnsToFetch := Merge(columnsToFetch, [ColumnToFetch(name, isFetchWritetime, isFetchTtl)]))
    }

    function Column(name: string): (r: ListSelection)
      ensures r == ColumnWithFlags(name, false, false)
      ensures r.columnsToFetch.value[|r.columnsToFetch.value| - 1] == ColumnToFetch(name, false, false)
    {
      ColumnWithFlags(name, false, false)
    }

    function WithLimit(n: Int32): (r: ListSelection)
      ensures r.limit == Some(n) && r.(limit := limit) == this
    {
      this.(limit := Some(n))
    }

    function WithAllowFiltering(): (r: ListSelection)
      ensures r.allowFiltering == Some(true) && r.(allowFiltering := allowFiltering) == this
    {
      this.(allowFiltering := Some(true))
    }

    function WithFetchSize(n: Int32): (r: ListSelection)
      ensures r.fetchSize == Some(n) && r.(fetchSize := fetchSize) == this
    {
      this.(fetchSize := Some(n))
    }

    function WithDistinct(): (r: ListSelection)
      ensures r.distinct == Some(true) && r.(distinct := distinct) == this
    {
      this.(distinct := Some(true))
    }
  }

  /** `readWithCondition(clauses)`: the clauses collected into a set, an
    * empty column restriction and no options. */
  function ReadWithCondition(ctx: LegacyContext.Context, clauses: seq<Clause>): (r: ListSelection)
    ensures forall i :: 0 <= i < |clauses| ==> clauses[i] in r.clauses
    ensures forall i, j :: 0 <= i < j < |r.clauses| ==> r.clauses[i] != r.clauses[j]
    ensures r.columnsToFetch == Some([]) && r.ctx == ctx
    ensures r.limit.None? && r.allowFiltering.None? && r.fetchSize.None? && r.distinct.None?
  {
    ListSelection(ctx, Collections.Distinct(clauses), Some([]), None, None, None, None)
  }

  /** `readAll()`: no clause, an empty column restriction and no options. */
  function ReadAll(ctx: LegacyContext.Context): (r: ListSelection)
    ensures r == ReadWithCondition(ctx, [])
  {
    ListSelection(ctx, [], Some([]), None, None, None, None)
  }

  /** The literal select `executeAsync` runs: DISTINCT only when asked for
    * with true, every column without a restriction, the clauses verbatim in
    * order, and each option that is present. A restriction to no columns
    * leaves the selection empty, which the driver renders as every column. */
  function ListQuery(l: ListSelection): Query
  {
    NewQuery(SelectKind, l.ctx.Target()).(
      distinct := l.distinct == Some(true),
      selectAll := l.columnsToFetch.None?,
      selectors := AllSelectors(Requested(l.columnsToFetch)),
      where := GivenConditions(l.clauses),
      limit := l.limit,
      allowFiltering := l.allowFiltering == Some(true),
      fetchSize := l.fetchSize)
  }

  function ListStatement(l: ListSelection): Statement
  {
    Unprepared(ListQuery(l))
  }

  /** Each list-read option reaches only its own part of the select. */
  lemma ListOptionsIndependent(l: ListSelection, n: Int32)
    ensures ListQuery(l.WithLimit(n)) == ListQuery(l).(limit := Some(n))
    ensures ListQuery(l.WithFetchSize(n)) == ListQuery(l).(fetchSize := Some(n))
    ensures ListQuery(l.WithAllowFiltering()) == ListQuery(l).(allowFiltering := true)
    ensures ListQuery(l.WithDistinct()) == ListQuery(l).(distinct := true)
    ensures ListQuery(l.WithConsistency(Quorum)) == ListQuery(l)
  {
  }

  /** The columns selected are, in order, those of each requested column. */
  lemma ListSelectors(l: ListSelection, name: string, w: bool, t: bool)
    ensures ListQuery(l.ColumnWithFlags(name, w, t)).selectors
         == ListQuery(l).selectors + SelectorsOf(ColumnToFetch(name, w, t))
    ensures !ListQuery(l.ColumnWithFlags(name, w, t)).selectAll
  {
    AllSelectorsAppend(Requested(l.columnsToFetch), [ColumnToFetch(name, w, t)]);
    assert AllSelectors([ColumnToFetch(name, w, t)]) == SelectorsOf(ColumnToFetch(name, w, t)) by {
      assert [ColumnToFetch(name, w, t)][..0] == [];
    }
  }

  /** The selection of `executeAsync`: DISTINCT first, then the requested
    * columns, or every column without a restriction. */
  method ListSelect(l: ListSelection) returns (distinct: bool, all: bool, selectors: seq<Selector>)
    ensures distinct == (l.distinct == Some(true)) && all == l.columnsToFetch.None?
    ensures selectors == AllSelectors(Requested(l.columnsToFetch))
  {
    var selection := new Selection();
    if l.distinct.Some? && l.distinct.value {
      selection.Distinct();
    }
    if l.columnsToFetch.Some? {
      AcceptAll(l.columnsToFetch.value, selection);
    } else {
      selection.All();
    }
    distinct, all, selectors := selection.distinct, selection.all, selection.selectors;
  }

  /** The statement `executeAsync` builds, the selection step by step. */
  method GetListStatement(l: ListSelection) returns (s: Statement)
    ensures s == ListStatement(l)
  {
    var distinct, all, selectors := ListSelect(l);
    var select := NewQuery(SelectKind, l.ctx.Target()).(
      distinct := distinct, selectAll := all, selectors := selectors);
    var where := AddGivenConditions(l.clauses, []);
    select := select.(where := where);
    if l.limit.Some? {
      select := select.(limit := Some(l.limit.value));
    }
    if l.allowFiltering.Some? && l.allowFiltering.value {
      select := select.(allowFiltering := true);
    }
    if l.fetchSize.Some? {
      select := select.(fetchSize := Some(l.fetchSize.value));
    }
    s := Unprepared(select);
  }
}
