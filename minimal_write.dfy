/** `MinimalWriteQueryData`: the immutable description of a write (keys or
  * where clauses, plain values, collection changes, IF conditions, IF NOT
  * EXISTS) and its translation into an insert or an update statement. */
module MinimalWrite {

  import opened Wrappers
  import opened Values
  import opened Statements
  import Coercion
  import opened TroilusContext
  import opened Collections

  /** The fields of the source class; each Java map is a sequence of entries
    * in the map's iteration order, and a `null` ifNotExists is None. */
  datatype WriteData = WriteData(
    keys: seq<(string, Value)>,
    whereConditions: seq<Clause>,
    valuesToMutate: seq<(string, Option<Value>)>,
    setValuesToAdd: seq<(string, seq<Value>)>,
    setValuesToRemove: seq<(string, seq<Value>)>,
    listValuesToAppend: seq<(string, seq<Value>)>,
    listValuesToPrepend: seq<(string, seq<Value>)>,
    listValuesToRemove: seq<(string, seq<Value>)>,
    mapValuesToMutate: seq<(string, seq<(Value, Option<Value>)>)>,
    onlyIfConditions: seq<Clause>,
    ifNotExists: Option<bool>)
  {
    /** What `ifNotExists(...)` demands: no IF clause, no where clause and no
      * collection change. */
    predicate AllowsIfNotExists()
    {
      && onlyIfConditions == []
      && whereConditions == []
      && setValuesToAdd == []
      && setValuesToRemove == []
      && listValuesToAppend == []
      && listValuesToPrepend == []
      && listValuesToRemove == []
      && mapValuesToMutate == []
    }

    /** The invariant every reachable value keeps: IF NOT EXISTS never
      * coexists with the clauses it excludes. */
    predicate Consistent()
    {
      ifNotExists.Some? ==> AllowsIfNotExists()
    }

    // Each setter below returns a copy that differs from this one in its own
    // field only, which `r.(field := this.field) == this` says; a guarded
    // setter fails with IllegalStateException once IF NOT EXISTS is set.

    function Keys(keys: seq<(string, Value)>): (r: WriteData)
      ensures r.keys == keys && r.(keys := this.keys) == this
    {
      this.(keys := keys)
    }

    function WhereConditions(whereConditions: seq<Clause>): (r: Result<WriteData, Error>)
      ensures r.Ok? <==> ifNotExists.None?
      ensures r.Err? ==> r.error.IllegalState?
      ensures r.Ok? ==> r.value.whereConditions == whereConditions
      ensures r.Ok? ==> r.value.(whereConditions := this.whereConditions) == this
    {
      if ifNotExists.Some? then Err(IllegalState("ifNotExists is set")) else Ok(this.(whereConditions := whereConditions))
    }

    function ValuesToMutate(valuesToMutate: seq<(string, Option<Value>)>): (r: WriteData)
      ensures r.valuesToMutate == valuesToMutate && r.(valuesToMutate := this.valuesToMutate) == this
    {
      this.(valuesToMutate := valuesToMutate)
    }

    function SetValuesToAdd(setValuesToAdd: seq<(string, seq<Value>)>): (r: Result<WriteData, Error>)
      ensures r.Ok? <==> ifNotExists.None?
      ensures r.Err? ==> r.error.IllegalState?
      ensures r.Ok? ==> r.value.setValuesToAdd == setValuesToAdd
      ensures r.Ok? ==> r.value.(setValuesToAdd := this.setValuesToAdd) == this
    {
      if ifNotExists.Some? then Err(IllegalState("ifNotExists is set")) else Ok(this.(setValuesToAdd := setValuesToAdd))
    }

    function SetValuesToRemove(setValuesToRemove: seq<(string, seq<Value>)>): (r: Result<WriteData, Error>)
      ensures r.Ok? <==> ifNotExists.None?
      ensures r.Err? ==> r.error.IllegalState?
      ensures r.Ok? ==> r.value.setValuesToRemove == setValuesToRemove
      ensures r.Ok? ==> r.value.(setValuesToRemove := this.setValuesToRemove) == this
    {
      if ifNotExists.Some? then Err(IllegalState("ifNotExists is set")) else Ok(this.(setValuesToRemove := setValuesToRemove))
    }

    function ListValuesToAppend(listValuesToAppend: seq<(string, seq<Value>)>): (r: Result<WriteData, Error>)
      ensures r.Ok? <==> ifNotExists.None?
      ensures r.Err? ==> r.error.IllegalState?
      ensures r.Ok? ==> r.value.listValuesToAppend == listValuesToAppend
      ensures r.Ok? ==> r.value.(listValuesToAppend := this.listValuesToAppend) == this
    {
      if ifNotExists.Some? then Err(IllegalState("ifNotExists is set")) else Ok(this.(listValuesToAppend := listValuesToAppend))
    }

    function ListValuesToPrepend(listValuesToPrepend: seq<(string, seq<Value>)>): (r: Result<WriteData, Error>)
      ensures r.Ok? <==> ifNotExists.None?
      ensures r.Err? ==> r.error.IllegalState?
      ensures r.Ok? ==> r.value.listValuesToPrepend == listValuesToPrepend
      ensures r.Ok? ==> r.value.(listValuesToPrepend := this.listValuesToPrepend) == this
    {
      if ifNotExists.Some? then Err(IllegalState("ifNotExists is set")) else Ok(this.(listValuesToPrepend := listValuesToPrepend))
    }

    function ListValuesToRemove(listValuesToRemove: seq<(string, seq<Value>)>): (r: Result<WriteData, Error>)
      ensures r.Ok? <==> ifNotExists.None?
      ensures r.Err? ==> r.error.IllegalState?
      ensures r.Ok? ==> r.value.listValuesToRemove == listValuesToRemove
      ensures r.Ok? ==> r.value.(listValuesToRemove := this.listValuesToRemove) == this
    {
      if ifNotExists.Some? then Err(IllegalState("ifNotExists is set")) else Ok(this.(listValuesToRemove := listValuesToRemove))
    }

    function MapValuesToMutate(mapValuesToMutate: seq<(string, seq<(Value, Option<Value>)>)>): (r: Result<WriteData, Error>)
      ensures r.Ok? <==> ifNotExists.None?
      ensures r.Err? ==> r.error.IllegalState?
      ensures r.Ok? ==> r.value.mapValuesToMutate == mapValuesToMutate
      ensures r.Ok? ==> r.value.(mapValuesToMutate := this.mapValuesToMutate) == this
    {
      if ifNotExists.Some? then Err(IllegalState("ifNotExists is set")) else Ok(this.(mapValuesToMutate := mapValuesToMutate))
    }

    function OnlyIfConditions(onlyIfConditions: seq<Clause>): (r: Result<WriteData, Error>)
      ensures r.Ok? <==> ifNotExists.None?
      ensures r.Err? ==> r.error.IllegalState?
      ensures r.Ok? ==> r.value.onlyIfConditions == onlyIfConditions
      ensures r.Ok? ==> r.value.(onlyIfConditions := this.onlyIfConditions) == this
    {
      if ifNotExists.Some? then Err(IllegalState("ifNotExists is set")) else Ok(this.(onlyIfConditions := onlyIfConditions))
    }

    /** Accepts `null` (None) as well, which clears the flag. */
    function IfNotExists(ifNotExists: Option<bool>): (r: Result<WriteData, Error>)
      ensures r.Ok? <==> AllowsIfNotExists()
      ensures r.Err? ==> r.error.IllegalState?
      ensures r.Ok? ==> r.value.ifNotExists == ifNotExists && r.value.(ifNotExists := this.ifNotExists) == this
    {
      if !AllowsIfNotExists() then Err(IllegalState("conditions or collection changes are set"))
      else Ok(this.(ifNotExists := ifNotExists))
    }
  }

  /** `new MinimalWriteQueryData()`. */
  function Empty(): (d: WriteData)
    ensures d.keys == [] && d.whereConditions == [] && d.valuesToMutate == [] && d.onlyIfConditions == []
    ensures d.AllowsIfNotExists() && d.ifNotExists.None?
  {
    WriteData([], [], [], [], [], [], [], [], [], [], None)
  }

  /** Every setter keeps `Consistent`, so every value built from `Empty()`
    * by setters is consistent. */
  lemma SettersKeepConsistent(d: WriteData, c: seq<Clause>, k: seq<(string, Value)>, v: seq<(string, Option<Value>)>,
                              s: seq<(string, seq<Value>)>, m: seq<(string, seq<(Value, Option<Value>)>)>, b: Option<bool>)
    requires d.Consistent()
    ensures d.Keys(k).Consistent() && d.ValuesToMutate(v).Consistent()
    ensures d.WhereConditions(c).Ok? ==> d.WhereConditions(c).value.Consistent()
    ensures d.OnlyIfConditions(c).Ok? ==> d.OnlyIfConditions(c).value.Consistent()
    ensures d.SetValuesToAdd(s).Ok? ==> d.SetValuesToAdd(s).value.Consistent()
    ensures d.SetValuesToRemove(s).Ok? ==> d.SetValuesToRemove(s).value.Consistent()
    ensures d.ListValuesToAppend(s).Ok? ==> d.ListValuesToAppend(s).value.Consistent()
    ensures d.ListValuesToPrepend(s).Ok? ==> d.ListValuesToPrepend(s).value.Consistent()
    ensures d.ListValuesToRemove(s).Ok? ==> d.ListValuesToRemove(s).value.Consistent()
    ensures d.MapValuesToMutate(m).Ok? ==> d.MapValuesToMutate(m).value.Consistent()
    ensures d.IfNotExists(b).Ok? ==> d.IfNotExists(b).value.Consistent()
  {
  }

  /** Once IF NOT EXISTS is set, no where clause, IF clause or collection
    * change can be added. */
  lemma IfNotExistsLocksConditions(d: WriteData, c: seq<Clause>, s: seq<(string, seq<Value>)>,
                                   m: seq<(string, seq<(Value, Option<Value>)>)>)
    requires d.ifNotExists.Some?
    ensures d.WhereConditions(c).Err? && d.OnlyIfConditions(c).Err?
    ensures d.SetValuesToAdd(s).Err? && d.SetValuesToRemove(s).Err?
    ensures d.ListValuesToAppend(s).Err? && d.ListValuesToPrepend(s).Err? && d.ListValuesToRemove(s).Err?
    ensures d.MapValuesToMutate(m).Err?
  {
  }

  // ---------------------------------------------------------------------------
  // Value coercion of the collections

  /** The coercion of each element of a list or set for column `name`; the
    * result is an ImmutableList, so a null element fails. */
  function CoerceElements(ctx: Context, name: string, values: seq<Value>): Result<seq<Value>, Error>
  {
    var vs :- MapAll(Coercion.ColumnCoercer(ctx.dbSession.columns, name), values);
    CopyOfList(vs)
  }

  /** A map key is coerced twice for the column, a map value once. */
  function CoercedKey(ctx: Context, name: string, key: Value): Result<Value, Error>
  {
    var once :- ctx.ToStatementValue(name, key);
    ctx.ToStatementValue(name, once)
  }

  function CoercedMapValue(ctx: Context, name: string, value: Option<Value>): Result<Value, Error>
  {
    ctx.ToStatementValue(name, OrNull(value))
  }

  /** The coerced map, as the source builds it in a HashMap. */
  function CoerceMapEntries(ctx: Context, name: string, entries: seq<(Value, Option<Value>)>): (r: Result<seq<(Value, Value)>, Error>)
    ensures r.Ok? ==> |r.value| <= |entries|
    ensures r.Ok? ==> forall i :: 0 <= i < |entries| ==>
                        CoercedKey(ctx, name, entries[i].0).Ok? && CoercedMapValue(ctx, name, entries[i].1).Ok?
    decreases |entries|
  {
    if entries == [] then Ok([])
    else
      var init :- CoerceMapEntries(ctx, name, entries[..|entries| - 1]);
      var e := entries[|entries| - 1];
      var k :- CoercedKey(ctx, name, e.0);
      var v :- CoercedMapValue(ctx, name, e.1);
      assert forall i :: 0 <= i < |entries| - 1 ==> entries[..|entries| - 1][i] == entries[i];
      Ok(Put(init, k, v))
  }

  /** When the coerced keys stay distinct the coerced map has one entry per
    * source entry, in order, and an absent (empty Optional) value is null. */
  lemma {:induction false} CoerceMapEntrywise(ctx: Context, name: string, entries: seq<(Value, Option<Value>)>)
    requires CoerceMapEntries(ctx, name, entries).Ok?
    requires forall i, j :: 0 <= i < j < |entries| ==> CoercedKey(ctx, name, entries[i].0) != CoercedKey(ctx, name, entries[j].0)
    ensures var r := CoerceMapEntries(ctx, name, entries).value;
      && |r| == |entries|
      && (forall i :: 0 <= i < |entries| ==> Ok(r[i].0) == CoercedKey(ctx, name, entries[i].0))
      && (forall i :: 0 <= i < |entries| ==> Ok(r[i].1) == CoercedMapValue(ctx, name, entries[i].1))
      && (forall i :: 0 <= i < |entries| && entries[i].1.None? ==> r[i].1 == Null)
    decreases |entries|
  {
    if entries != [] {
      var n := |entries| - 1;
      var prefix := entries[..n];
      assert forall i :: 0 <= i < n ==> prefix[i] == entries[i];
      CoerceMapEntrywise(ctx, name, prefix);
      var init := CoerceMapEntries(ctx, name, prefix).value;
      var k := CoercedKey(ctx, name, entries[n].0).value;
      var v := CoercedMapValue(ctx, name, entries[n].1).value;
      assert KeyAbsent(init, k) by {
        forall i | 0 <= i < |init| ensures init[i].0 != k {
          assert CoercedKey(ctx, name, entries[i].0) != CoercedKey(ctx, name, entries[n].0);
        }
      }
      PutNewKey(init, k, v);
    }
  }

  /** Some entry's key coerces to `k`. */
  predicate HasCoercedKey(ctx: Context, name: string, entries: seq<(Value, Option<Value>)>, k: Value)
  {
    exists i :: 0 <= i < |entries| && CoercedKey(ctx, name, entries[i].0) == Ok(k)
  }

  /** A key of the coerced map is there iff some entry's key coerces to it. */
  lemma {:induction false} CoerceMapKeys(ctx: Context, name: string, entries: seq<(Value, Option<Value>)>, k: Value)
    requires CoerceMapEntries(ctx, name, entries).Ok?
    ensures Lookup(CoerceMapEntries(ctx, name, entries).value, k).Some? <==> HasCoercedKey(ctx, name, entries, k)
    decreases |entries|
  {
    if entries != [] {
      var n := |entries| - 1;
      var prefix := entries[..n];
      CoerceMapKeys(ctx, name, prefix, k);
      var kn := CoercedKey(ctx, name, entries[n].0).value;
      var vn := CoercedMapValue(ctx, name, entries[n].1).value;
      assert CoerceMapEntries(ctx, name, entries).value == Put(CoerceMapEntries(ctx, name, prefix).value, kn, vn);
      LookupAfterPut(CoerceMapEntries(ctx, name, prefix).value, kn, vn, k);
      HasCoercedKeySnoc(ctx, name, entries, k);
    }
  }

  lemma HasCoercedKeySnoc(ctx: Context, name: string, entries: seq<(Value, Option<Value>)>, k: Value)
    requires entries != []
    ensures HasCoercedKey(ctx, name, entries, k)
        <==> HasCoercedKey(ctx, name, entries[..|entries| - 1], k) || CoercedKey(ctx, name, entries[|entries| - 1].0) == Ok(k)
  {
    var prefix := entries[..|entries| - 1];
    assert forall i :: 0 <= i < |prefix| ==> prefix[i] == entries[i];
  }

  /** A key of the coerced map maps to the coerced value of the last entry
    * whose key coerces to it: `HashMap.put` overwrites the value an earlier
    * entry stored under the same key. */
  lemma {:induction false} CoerceMapLookup(ctx: Context, name: string, entries: seq<(Value, Option<Value>)>, k: Value, i: nat)
    requires CoerceMapEntries(ctx, name, entries).Ok?
    requires i < |entries| && CoercedKey(ctx, name, entries[i].0) == Ok(k)
    requires forall j :: i < j < |entries| ==> CoercedKey(ctx, name, entries[j].0) != Ok(k)
    ensures var r := CoerceMapEntries(ctx, name, entries).value;
      Lookup(r, k).Some? && Ok(Lookup(r, k).value) == CoercedMapValue(ctx, name, entries[i].1)
    decreases |entries|
  {
    var n := |entries| - 1;
    var prefix := entries[..n];
    var kn := CoercedKey(ctx, name, entries[n].0).value;
    var vn := CoercedMapValue(ctx, name, entries[n].1).value;
    assert CoerceMapEntries(ctx, name, entries).value == Put(CoerceMapEntries(ctx, name, prefix).value, kn, vn);
    LookupAfterPut(CoerceMapEntries(ctx, name, prefix).value, kn, vn, k);
    if i < n {
      assert prefix[i] == entries[i];
      assert forall j :: i < j < n ==> prefix[j] == entries[j];
      CoerceMapLookup(ctx, name, prefix, k, i);
    }
  }

  /** `toStatementValue(ctx, name, ImmutableList)`. */
  method ToStatementValueList(ctx: Context, name: string, values: seq<Value>) returns (r: Result<seq<Value>, Error>)
    ensures r == CoerceElements(ctx, name, values)
    ensures r.Ok? ==> |r.value| == |values|
    ensures r.Ok? ==> forall i :: 0 <= i < |values| ==> ctx.ToStatementValue(name, values[i]) == Ok(r.value[i])
  {
    var coerce := Coercion.ColumnCoercer(ctx.dbSession.columns, name);
    var result: seq<Value> := [];
    var i := 0;
    while i < |values|
      invariant 0 <= i <= |values|
      invariant MapAll(coerce, values[..i]) == Ok(result)
    {
      var v := ctx.ToStatementValue(name, values[i]);
      if v.Err? {
        MapAllFailsAt(coerce, values, i);
        return Err(v.error);
      }
      MapAllStep(coerce, values, i, result, v.value);
      result := result + [v.value];
      i := i + 1;
    }
    assert values[..i] == values;
    r := CopyOfList(result);
  }

  /** `toStatementValue(ctx, name, ImmutableSet)`: the list coercion, then
    * duplicates that coercion produced are dropped. */
  method ToStatementValueSet(ctx: Context, name: string, values: seq<Value>) returns (r: Result<seq<Value>, Error>)
    ensures r == (var vs :- CoerceElements(ctx, name, values); Ok(Distinct(vs)))
    ensures r.Ok? ==> forall x :: x in r.value <==> exists i :: 0 <= i < |values| && ctx.ToStatementValue(name, values[i]) == Ok(x)
  {
    var list := ToStatementValueList(ctx, name, values);
    if list.Err? {
      return Err(list.error);
    }
    r := Ok(Distinct(list.value));
    forall x | x in r.value ensures exists i :: 0 <= i < |values| && ctx.ToStatementValue(name, values[i]) == Ok(x) {
      var i :| 0 <= i < |list.value| && list.value[i] == x;
    }
  }

  /** `toStatementValue(ctx, name, ImmutableMap)`. */
  method ToStatementValueMap(ctx: Context, name: string, entries: seq<(Value, Option<Value>)>)
    returns (r: Result<seq<(Value, Value)>, Error>)
    ensures r == CoerceMapEntries(ctx, name, entries)
  {
    var m: seq<(Value, Value)> := [];
    var i := 0;
    while i < |entries|
      invariant 0 <= i <= |entries|
      invariant CoerceMapEntries(ctx, name, entries[..i]) == Ok(m)
    {
      assert entries[..i + 1][..i] == entries[..i];
      var k :- CoercedKeyOf(ctx, name, entries[i].0, entries, i);
      var v :- CoercedValueOf(ctx, name, entries[i].1, entries, i);
      m := Put(m, k, v);
      i := i + 1;
    }
    assert entries[..i] == entries;
    r := Ok(m);
  }

  /** The key coercion of entry `i`; its failure is the map's failure. */
  method CoercedKeyOf(ctx: Context, name: string, key: Value, entries: seq<(Value, Option<Value>)>, i: nat)
    returns (r: Result<Value, Error>)
    requires i < |entries| && key == entries[i].0 && CoerceMapEntries(ctx, name, entries[..i]).Ok?
    ensures r == CoercedKey(ctx, name, key)
    ensures r.Err? ==> CoerceMapEntries(ctx, name, entries) == Err(r.error)
  {
    r := CoercedKey(ctx, name, key);
    if r.Err? {
      MapFailsAt(ctx, name, entries, i);
    }
  }

  method CoercedValueOf(ctx: Context, name: string, value: Option<Value>, entries: seq<(Value, Option<Value>)>, i: nat)
    returns (r: Result<Value, Error>)
    requires i < |entries| && value == entries[i].1 && CoerceMapEntries(ctx, name, entries[..i]).Ok?
    requires CoercedKey(ctx, name, entries[i].0).Ok?
    ensures r == CoercedMapValue(ctx, name, value)
    ensures r.Err? ==> CoerceMapEntries(ctx, name, entries) == Err(r.error)
  {
    r := CoercedMapValue(ctx, name, value);
    if r.Err? {
      MapFailsAt(ctx, name, entries, i);
    }
  }

  /** A failure at entry `i` after a successful prefix is the map's failure. */
  lemma {:induction false} MapFailsAt(ctx: Context, name: string, entries: seq<(Value, Option<Value>)>, i: nat)
    requires i < |entries| && CoerceMapEntries(ctx, name, entries[..i]).Ok?
    requires CoercedKey(ctx, name, entries[i].0).Err?
          || (CoercedKey(ctx, name, entries[i].0).Ok? && CoercedMapValue(ctx, name, entries[i].1).Err?)
    ensures CoercedKey(ctx, name, entries[i].0).Err? ==>
              CoerceMapEntries(ctx, name, entries) == Err(CoercedKey(ctx, name, entries[i].0).error)
    ensures CoercedKey(ctx, name, entries[i].0).Ok? ==>
              CoerceMapEntries(ctx, name, entries) == Err(CoercedMapValue(ctx, name, entries[i].1).error)
    decreases |entries|
  {
    if i == |entries| - 1 {
      assert entries[..|entries| - 1] == entries[..i];
    } else {
      assert entries[..|entries| - 1][..i] == entries[..i];
      MapFailsAt(ctx, name, entries[..|entries| - 1], i);
    }
  }

  // ---------------------------------------------------------------------------
  // The per-entry coercions of the statement builders, as function values

  function MutatedValueCoercer(ctx: Context): ((string, Option<Value>)) -> Result<Value, Error>
  {
    (e: (string, Option<Value>)) => ctx.ToStatementValue(e.0, OrNull(e.1))
  }

  function SetCoercer(ctx: Context): ((string, seq<Value>)) -> Result<Value, Error>
  {
    (e: (string, seq<Value>)) => var vs :- CoerceElements(ctx, e.0, e.1); Ok(SetOf(Distinct(vs)))
  }

  function ListCoercer(ctx: Context): ((string, seq<Value>)) -> Result<Value, Error>
  {
    (e: (string, seq<Value>)) => var vs :- CoerceElements(ctx, e.0, e.1); Ok(ListOf(vs))
  }

  function MapCoercer(ctx: Context): ((string, seq<(Value, Option<Value>)>)) -> Result<Value, Error>
  {
    (e: (string, seq<(Value, Option<Value>)>)) => var m :- CoerceMapEntries(ctx, e.0, e.1); Ok(MapOf(m))
  }

  function KeyCoercer(ctx: Context): ((string, Value)) -> Result<Value, Error>
  {
    Coercion.EntryCoercer(ctx.dbSession.columns)
  }

  // ---------------------------------------------------------------------------
  // The statements

  /** The insert: one marker per value to mutate and the TTL marker; IF NOT
    * EXISTS whenever the flag is set, whether true or false. */
  function InsertQuery(d: WriteData, ctx: Context): Query
  {
    NewQuery(InsertKind, Table(ctx)).(
      assignments := MarkerAssignments(SetValue, Names(d.valuesToMutate)),
      ifNotExists := d.ifNotExists.Some?,
      serialConsistency := if d.ifNotExists.Some? then ctx.executionSpec.serialConsistencyLevel else None,
      ttl := TtlMarker(ctx))
  }

  function InsertStatement(d: WriteData, ctx: Context): Result<Statement, Error>
  {
    var vs :- MapAll(MutatedValueCoercer(ctx), d.valuesToMutate);
    Ok(Bound(InsertQuery(d, ctx), vs + TtlValues(ctx)))
  }

  /** The assignments of a key-based update, every one with a marker. */
  function UpdateMarkers(d: WriteData): seq<Assignment>
  {
    MarkerAssignments(SetValue, Names(d.valuesToMutate))
    + MarkerAssignments(AddAll, Names(d.setValuesToAdd))
    + MarkerAssignments(RemoveAll, Names(d.setValuesToRemove))
    + MarkerAssignments(PrependAll, Names(d.listValuesToPrepend))
    + MarkerAssignments(AppendAll, Names(d.listValuesToAppend))
    + MarkerAssignments(DiscardAll, Names(d.listValuesToRemove))
    + MarkerAssignments(PutAll, Names(d.mapValuesToMutate))
  }

  /** The seven loops of the key-based update, as the builder runs them. */
  function MarkedGroups(d: WriteData, ctx: Context): (r: Result<(seq<Assignment>, seq<Value>), Error>)
    ensures r.Ok? ==> |r.value.0| == |r.value.1|
  {
    var p1 :- MarkEntries(([], []), SetValue, d.valuesToMutate, MutatedValueCoercer(ctx));
    var p2 :- MarkEntries(p1, AddAll, d.setValuesToAdd, SetCoercer(ctx));
    var p3 :- MarkEntries(p2, RemoveAll, d.setValuesToRemove, SetCoercer(ctx));
    var p4 :- MarkEntries(p3, PrependAll, d.listValuesToPrepend, ListCoercer(ctx));
    var p5 :- MarkEntries(p4, AppendAll, d.listValuesToAppend, ListCoercer(ctx));
    var p6 :- MarkEntries(p5, DiscardAll, d.listValuesToRemove, ListCoercer(ctx));
    MarkEntries(p6, PutAll, d.mapValuesToMutate, MapCoercer(ctx))
  }

  /** The seven loops of the where-based update. */
  function InlinedGroups(d: WriteData, ctx: Context): Result<seq<Assignment>, Error>
  {
    var a1 :- InlineEntries([], SetValue, d.valuesToMutate, MutatedValueCoercer(ctx));
    var a2 :- InlineEntries(a1, AddAll, d.setValuesToAdd, SetCoercer(ctx));
    var a3 :- InlineEntries(a2, RemoveAll, d.setValuesToRemove, SetCoercer(ctx));
    var a4 :- InlineEntries(a3, PrependAll, d.listValuesToPrepend, ListCoercer(ctx));
    var a5 :- InlineEntries(a4, AppendAll, d.listValuesToAppend, ListCoercer(ctx));
    var a6 :- InlineEntries(a5, DiscardAll, d.listValuesToRemove, ListCoercer(ctx));
    InlineEntries(a6, PutAll, d.mapValuesToMutate, MapCoercer(ctx))
  }

  /** The key-based loops put one marker per entry of every group, in group
    * order, and bind one value per marker. */
  lemma MarkedGroupsShape(d: WriteData, ctx: Context)
    requires MarkedGroups(d, ctx).Ok?
    ensures MarkedGroups(d, ctx).value.0 == UpdateMarkers(d)
    ensures |MarkedGroups(d, ctx).value.1| == |UpdateMarkers(d)|
  {
    var a1 := MarkerAssignments(SetValue, Names(d.valuesToMutate));
    var p1 := MarkEntries(([], []), SetValue, d.valuesToMutate, MutatedValueCoercer(ctx)).value;
    assert p1.0 == a1 && |p1.1| == |a1|;
    var a2 := a1 + MarkerAssignments(AddAll, Names(d.setValuesToAdd));
    var p2 := MarkEntries(p1, AddAll, d.setValuesToAdd, SetCoercer(ctx)).value;
    assert p2.0 == a2 && |p2.1| == |a2|;
    var a3 := a2 + MarkerAssignments(RemoveAll, Names(d.setValuesToRemove));
    var p3 := MarkEntries(p2, RemoveAll, d.setValuesToRemove, SetCoercer(ctx)).value;
    assert p3.0 == a3 && |p3.1| == |a3|;
    var a4 := a3 + MarkerAssignments(PrependAll, Names(d.listValuesToPrepend));
    var p4 := MarkEntries(p3, PrependAll, d.listValuesToPrepend, ListCoercer(ctx)).value;
    assert p4.0 == a4 && |p4.1| == |a4|;
    var a5 := a4 + MarkerAssignments(AppendAll, Names(d.listValuesToAppend));
    var p5 := MarkEntries(p4, AppendAll, d.listValuesToAppend, ListCoercer(ctx)).value;
    assert p5.0 == a5 && |p5.1| == |a5|;
    var a6 := a5 + MarkerAssignments(DiscardAll, Names(d.listValuesToRemove));
    var p6 := MarkEntries(p5, DiscardAll, d.listValuesToRemove, ListCoercer(ctx)).value;
    assert p6.0 == a6 && |p6.1| == |a6|;
  }

  /** The where-based loops fail exactly when the key-based ones do, with the
    * same error, and build the key-based assignments with their markers
    * replaced by the values the key-based update binds. */
  lemma InlinedGroupsAreBoundMarks(d: WriteData, ctx: Context)
    ensures InlinedGroups(d, ctx) == (var p :- MarkedGroups(d, ctx); Ok(SubstituteAssignments(p.0, p.1)))
  {
    var p0: (seq<Assignment>, seq<Value>) := ([], []);
    assert SubstituteAssignments(p0.0, p0.1) == [];
    InlineIsSubstitutedMark(p0, SetValue, d.valuesToMutate, MutatedValueCoercer(ctx));
    var r1 := MarkEntries(p0, SetValue, d.valuesToMutate, MutatedValueCoercer(ctx));
    if r1.Ok? {
      var p1 := r1.value;
      InlineIsSubstitutedMark(p1, AddAll, d.setValuesToAdd, SetCoercer(ctx));
      var r2 := MarkEntries(p1, AddAll, d.setValuesToAdd, SetCoercer(ctx));
      if r2.Ok? {
        var p2 := r2.value;
        InlineIsSubstitutedMark(p2, RemoveAll, d.setValuesToRemove, SetCoercer(ctx));
        var r3 := MarkEntries(p2, RemoveAll, d.setValuesToRemove, SetCoercer(ctx));
        if r3.Ok? {
          var p3 := r3.value;
          InlineIsSubstitutedMark(p3, PrependAll, d.listValuesToPrepend, ListCoercer(ctx));
          var r4 := MarkEntries(p3, PrependAll, d.listValuesToPrepend, ListCoercer(ctx));
          if r4.Ok? {
            var p4 := r4.value;
            InlineIsSubstitutedMark(p4, AppendAll, d.listValuesToAppend, ListCoercer(ctx));
            var r5 := MarkEntries(p4, AppendAll, d.listValuesToAppend, ListCoercer(ctx));
            if r5.Ok? {
              var p5 := r5.value;
              InlineIsSubstitutedMark(p5, DiscardAll, d.listValuesToRemove, ListCoercer(ctx));
              var r6 := MarkEntries(p5, DiscardAll, d.listValuesToRemove, ListCoercer(ctx));
              if r6.Ok? {
                InlineIsSubstitutedMark(r6.value, PutAll, d.mapValuesToMutate, MapCoercer(ctx));
              }
            }
          }
        }
      }
    }
  }

  /** A literal update with the given assignments and where clauses. */
  function LiteralUpdate(d: WriteData, ctx: Context, assignments: seq<Assignment>, where: seq<Condition>): Query
  {
    NewQuery(UpdateKind, Table(ctx)).(
      onlyIf := d.onlyIfConditions, assignments := assignments, where := where, ttl := TtlLiteral(ctx))
  }

  /** The key-based update, prepared: markers for the values of the seven
    * groups, then for the keys, then for the TTL. */
  function KeyBasedUpdate(d: WriteData, ctx: Context): Result<Statement, Error>
  {
    var p :- MarkedGroups(d, ctx);
    var kv :- MapAll(KeyCoercer(ctx), d.keys);
    Ok(Bound(KeyBasedQuery(d, ctx), p.1 + kv + TtlValues(ctx)))
  }

  function KeyBasedQuery(d: WriteData, ctx: Context): Query
  {
    NewQuery(UpdateKind, Table(ctx)).(
      onlyIf := d.onlyIfConditions, assignments := UpdateMarkers(d),
      where := KeyMarkers(Names(d.keys)), ttl := TtlMarker(ctx))
  }

  /** The where-based update: literal, not prepared. */
  function WhereBasedUpdate(d: WriteData, ctx: Context): Result<Statement, Error>
  {
    var a :- InlinedGroups(d, ctx);
    Ok(Unprepared(LiteralUpdate(d, ctx, a, GivenConditions(d.whereConditions))))
  }

  function UpdateStatement(d: WriteData, ctx: Context): Result<Statement, Error>
  {
    if d.whereConditions == [] then KeyBasedUpdate(d, ctx) else WhereBasedUpdate(d, ctx)
  }

  /** An insert when IF NOT EXISTS is set or nothing selects a row, else an update. */
  function WriteStatement(d: WriteData, ctx: Context): Result<Statement, Error>
  {
    if d.ifNotExists.Some? || (d.keys == [] && d.whereConditions == []) then InsertStatement(d, ctx)
    else UpdateStatement(d, ctx)
  }

  // ---------------------------------------------------------------------------
  // What the statements mean

  /** The insert binds exactly one value per value to mutate, each the coerced
    * value of its entry, then the TTL; the keys are not bound. */
  lemma InsertBinding(d: WriteData, ctx: Context)
    requires InsertStatement(d, ctx).Ok?
    ensures var s := InsertStatement(d, ctx).value;
      && s.Bound?
      && |s.values| == |d.valuesToMutate| + |TtlValues(ctx)|
      && (forall i :: 0 <= i < |d.valuesToMutate| ==> MutatedValueCoercer(ctx)(d.valuesToMutate[i]) == Ok(s.values[i]))
      && Fill(s.query, s.values) == Some(s.query.(
           assignments := LiteralAssignments(SetValue, Names(d.valuesToMutate), s.values[..|d.valuesToMutate|]),
           ttl := TtlLiteral(ctx)))
  {
    var vs := MapAll(MutatedValueCoercer(ctx), d.valuesToMutate).value;
    assert InsertStatement(d, ctx).value == Bound(InsertQuery(d, ctx), vs + TtlValues(ctx));
    assert (vs + TtlValues(ctx))[..|d.valuesToMutate|] == vs;
    InsertFill(d, ctx, vs);
  }

  lemma InsertFill(d: WriteData, ctx: Context, vs: seq<Value>)
    requires |vs| == |d.valuesToMutate|
    ensures Fill(InsertQuery(d, ctx), vs + TtlValues(ctx)) == Some(InsertQuery(d, ctx).(
              assignments := LiteralAssignments(SetValue, Names(d.valuesToMutate), vs),
              ttl := TtlLiteral(ctx)))
  {
    var q := InsertQuery(d, ctx);
    FillPrepared(q, vs, [], TtlValues(ctx));
    assert vs + [] + TtlValues(ctx) == vs + TtlValues(ctx);
    SubstituteMarkerAssignments(SetValue, Names(d.valuesToMutate), vs);
    assert SubstituteConditions(q.where, []) == q.where;
  }

  /** `ifNotExists(false)` still produces IF NOT EXISTS. */
  lemma IfNotExistsFalseStillConditional(d: WriteData, ctx: Context)
    requires d.ifNotExists == Some(false) && WriteStatement(d, ctx).Ok?
    ensures WriteStatement(d, ctx).value.Bound?
    ensures WriteStatement(d, ctx).value.query.kind == InsertKind
    ensures WriteStatement(d, ctx).value.query.ifNotExists
  {
  }

  /** The statement is an insert exactly when IF NOT EXISTS is set or there are
    * neither keys nor where clauses; only the where-based update is literal. */
  lemma WriteStatementKind(d: WriteData, ctx: Context)
    requires WriteStatement(d, ctx).Ok?
    ensures var s := WriteStatement(d, ctx).value;
      && (s.Bound? || s.Unprepared?)
      && (s.query.kind == InsertKind <==> d.ifNotExists.Some? || (d.keys == [] && d.whereConditions == []))
      && (s.query.kind != InsertKind ==> s.query.kind == UpdateKind)
      && (s.Unprepared? <==> s.query.kind == UpdateKind && d.whereConditions != [])
  {
  }

  lemma UpdateMarkersAreMarkers(d: WriteData)
    ensures AllMarkers(UpdateMarkers(d))
  {
    forall i | 0 <= i < |UpdateMarkers(d)| ensures UpdateMarkers(d)[i].term == Marker {
      assert UpdateMarkers(d)[i] in UpdateMarkers(d);
    }
  }

  /** Binding the key-based update gives the where-based update's literal
    * assignments, with the coerced key values in the key equalities: as many
    * values as markers, each in its own slot. */
  lemma KeyBasedUpdateBinding(d: WriteData, ctx: Context)
    requires KeyBasedUpdate(d, ctx).Ok?
    ensures InlinedGroups(d, ctx).Ok? && MapAll(KeyCoercer(ctx), d.keys).Ok?
    ensures var s := KeyBasedUpdate(d, ctx).value;
      var kv := MapAll(KeyCoercer(ctx), d.keys).value;
      |kv| == |d.keys| && s.Bound? &&
      Fill(s.query, s.values) == Some(LiteralUpdate(d, ctx, InlinedGroups(d, ctx).value, KeyLiterals(Names(d.keys), kv)))
  {
    var p := MarkedGroups(d, ctx).value;
    var kv := MapAll(KeyCoercer(ctx), d.keys).value;
    var q := KeyBasedQuery(d, ctx);
    assert KeyBasedUpdate(d, ctx).value == Bound(q, p.1 + kv + TtlValues(ctx));
    MarkedGroupsShape(d, ctx);
    InlinedGroupsAreBoundMarks(d, ctx);
    UpdateMarkersAreMarkers(d);
    FillPrepared(q, p.1, kv, TtlValues(ctx));
    SubstituteKeyMarkers(Names(d.keys), kv);
  }

  /** The where-based loops inline every value: no marker is left. */
  lemma InlinedGroupsAreLiteral(d: WriteData, ctx: Context)
    requires InlinedGroups(d, ctx).Ok?
    ensures NoMarkers(InlinedGroups(d, ctx).value)
  {
    InlinedGroupsAreBoundMarks(d, ctx);
    var p := MarkedGroups(d, ctx).value;
    assert InlinedGroups(d, ctx).value == SubstituteAssignments(p.0, p.1);
  }

  /** The where-based update carries the user's where clauses in order and
    * has no marker left. */
  lemma WhereBasedUpdateLiteral(d: WriteData, ctx: Context)
    requires d.whereConditions != [] && UpdateStatement(d, ctx).Ok?
    ensures InlinedGroups(d, ctx).Ok?
    ensures var s := UpdateStatement(d, ctx).value;
      && s == Unprepared(LiteralUpdate(d, ctx, InlinedGroups(d, ctx).value, GivenConditions(d.whereConditions)))
      && IsLiteral(s.query) && MarkerCount(s.query) == 0
  {
    assert UpdateStatement(d, ctx) == WhereBasedUpdate(d, ctx);
    InlinedGroupsAreLiteral(d, ctx);
    assert NoKeyMarkers(GivenConditions(d.whereConditions));
  }

  // ---------------------------------------------------------------------------
  // The builders, as the source runs them

  method ToInsertStatement(d: WriteData, ctx: Context) returns (r: Result<Statement, Error>)
    ensures r == InsertStatement(d, ctx)
  {
    var p :- AddMarkedEntries(SetValue, d.valuesToMutate, MutatedValueCoercer(ctx), [], []);
    ghost var vs := MapAll(MutatedValueCoercer(ctx), d.valuesToMutate).value;
    assert [] + MarkerAssignments(SetValue, Names(d.valuesToMutate)) == MarkerAssignments(SetValue, Names(d.valuesToMutate));
    assert [] + vs == vs;
    assert p.0 == MarkerAssignments(SetValue, Names(d.valuesToMutate)) && p.1 == vs;
    var q := NewQuery(InsertKind, Table(ctx)).(assignments := p.0);
    var values := p.1;
    if d.ifNotExists.Some? {
      q := q.(ifNotExists := true);
      if ctx.executionSpec.serialConsistencyLevel.Some? {
        q := q.(serialConsistency := ctx.executionSpec.serialConsistencyLevel);
      }
    }
    if ctx.executionSpec.ttlSec.Some? {
      q := q.(ttl := Some(Marker));
      values := values + [Num(ctx.executionSpec.ttlSec.value)];
    }
    assert q == InsertQuery(d, ctx);
    assert values == vs + TtlValues(ctx);
    r := Ok(Bound(q, values));
  }

  /** The seven loops of the key-based update. */
  method MarkGroups(d: WriteData, ctx: Context) returns (r: Result<(seq<Assignment>, seq<Value>), Error>)
    ensures r == MarkedGroups(d, ctx)
  {
    var p1 :- AddMarkedEntries(SetValue, d.valuesToMutate, MutatedValueCoercer(ctx), [], []);
    var p2 :- AddMarkedEntries(AddAll, d.setValuesToAdd, SetCoercer(ctx), p1.0, p1.1);
    var p3 :- AddMarkedEntries(RemoveAll, d.setValuesToRemove, SetCoercer(ctx), p2.0, p2.1);
    var p4 :- AddMarkedEntries(PrependAll, d.listValuesToPrepend, ListCoercer(ctx), p3.0, p3.1);
    var p5 :- AddMarkedEntries(AppendAll, d.listValuesToAppend, ListCoercer(ctx), p4.0, p4.1);
    var p6 :- AddMarkedEntries(DiscardAll, d.listValuesToRemove, ListCoercer(ctx), p5.0, p5.1);
    r := AddMarkedEntries(PutAll, d.mapValuesToMutate, MapCoercer(ctx), p6.0, p6.1);
  }

  /** The seven loops of the where-based update. */
  method InlineGroups(d: WriteData, ctx: Context) returns (r: Result<seq<Assignment>, Error>)
    ensures r == InlinedGroups(d, ctx)
  {
    var a1 :- AddLiteralEntries(SetValue, d.valuesToMutate, MutatedValueCoercer(ctx), []);
    var a2 :- AddLiteralEntries(AddAll, d.setValuesToAdd, SetCoercer(ctx), a1);
    var a3 :- AddLiteralEntries(RemoveAll, d.setValuesToRemove, SetCoercer(ctx), a2);
    var a4 :- AddLiteralEntries(PrependAll, d.listValuesToPrepend, ListCoercer(ctx), a3);
    var a5 :- AddLiteralEntries(AppendAll, d.listValuesToAppend, ListCoercer(ctx), a4);
    var a6 :- AddLiteralEntries(DiscardAll, d.listValuesToRemove, ListCoercer(ctx), a5);
    r := AddLiteralEntries(PutAll, d.mapValuesToMutate, MapCoercer(ctx), a6);
  }

  method ToUpdateStatement(d: WriteData, ctx: Context) returns (r: Result<Statement, Error>)
    ensures r == UpdateStatement(d, ctx)
  {
    var onlyIf := AddOnlyIf(d.onlyIfConditions, []);
    var q := NewQuery(UpdateKind, Table(ctx)).(onlyIf := onlyIf);
    if d.whereConditions == [] {
      r := ToKeyBasedUpdate(d, ctx, q);
    } else {
      r := ToWhereBasedUpdate(d, ctx, q);
    }
  }

  method ToKeyBasedUpdate(d: WriteData, ctx: Context, q: Query) returns (r: Result<Statement, Error>)
    requires q == NewQuery(UpdateKind, Table(ctx)).(onlyIf := d.onlyIfConditions)
    ensures r == KeyBasedUpdate(d, ctx)
  {
    var p :- MarkGroups(d, ctx);
    MarkedGroupsShape(d, ctx);
    var k :- AddKeyMarkers(d.keys, KeyCoercer(ctx), [], p.1);
    var update := q.(assignments := p.0, where := k.0);
    var values := k.1;
    if ctx.executionSpec.ttlSec.Some? {
      update := update.(ttl := Some(Marker));
      values := values + [Num(ctx.executionSpec.ttlSec.value)];
    }
    assert update == KeyBasedQuery(d, ctx);
    assert values == p.1 + MapAll(KeyCoercer(ctx), d.keys).value + TtlValues(ctx);
    assert KeyBasedUpdate(d, ctx) == Ok(Bound(KeyBasedQuery(d, ctx), p.1 + MapAll(KeyCoercer(ctx), d.keys).value + TtlValues(ctx)));
    r := Ok(Bound(update, values));
  }

  method ToWhereBasedUpdate(d: WriteData, ctx: Context, q: Query) returns (r: Result<Statement, Error>)
    requires q == NewQuery(UpdateKind, Table(ctx)).(onlyIf := d.onlyIfConditions)
    ensures r == WhereBasedUpdate(d, ctx)
  {
    var a :- InlineGroups(d, ctx);
    var update := q.(assignments := a);
    if ctx.executionSpec.ttlSec.Some? {
      update := update.(ttl := Some(Lit(Num(ctx.executionSpec.ttlSec.value))));
    }
    var where := AddGivenConditions(d.whereConditions, []);
    update := update.(where := where);
    assert update == LiteralUpdate(d, ctx, a, GivenConditions(d.whereConditions));
    r := Ok(Unprepared(update));
  }

  /** `toStatement(ctx)`. */
  method ToStatement(d: WriteData, ctx: Context) returns (r: Result<Statement, Error>)
    ensures r == WriteStatement(d, ctx)
  {
    if d.ifNotExists.Some? || (d.keys == [] && d.whereConditions == []) {
      r := ToInsertStatement(d, ctx);
    } else {
      r := ToUpdateStatement(d, ctx);
    }
  }
}
