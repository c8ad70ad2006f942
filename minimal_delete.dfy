/** `DeleteQueryData` of the minimal core: the keys or the where clauses of a
  * delete, its IF conditions, and the statement built from them. */
module MinimalDelete {

  import opened Wrappers
  import opened Values
  import opened Statements
  import Coercion
  import opened TroilusContext

  datatype DeleteData = DeleteData(
    keys: seq<(string, Value)>,
    whereConditions: seq<Clause>,
    onlyIfConditions: seq<Clause>)
  {
    function Keys(keys: seq<(string, Value)>): (r: DeleteData)
      ensures r.keys == keys && r.(keys := this.keys) == this
    {
      this.(keys := keys)
    }

    function WhereConditions(whereConditions: seq<Clause>): (r: DeleteData)
      ensures r.whereConditions == whereConditions && r.(whereConditions := this.whereConditions) == this
    {
      this.(whereConditions := whereConditions)
    }

    function OnlyIfConditions(onlyIfConditions: seq<Clause>): (r: DeleteData)
      ensures r.onlyIfConditions == onlyIfConditions && r.(onlyIfConditions := this.onlyIfConditions) == this
    {
      this.(onlyIfConditions := onlyIfConditions)
    }
  }

  /** `new DeleteQueryData()`. */
  function Empty(): (d: DeleteData)
    ensures d.keys == [] && d.whereConditions == [] && d.onlyIfConditions == []
  {
    DeleteData([], [], [])
  }

  function KeyCoercer(ctx: Context): ((string, Value)) -> Result<Value, Error>
  {
    Coercion.EntryCoercer(ctx.dbSession.columns)
  }

  /** A delete with the IF conditions and the given where clauses. */
  function DeleteQuery(d: DeleteData, ctx: Context, where: seq<Condition>): Query
  {
    NewQuery(DeleteKind, Table(ctx)).(onlyIf := d.onlyIfConditions, where := where)
  }

  /** Key-based: prepared, one marker per key bound to the key's coerced
    * value. Where-based: literal. */
  function DeleteStatement(d: DeleteData, ctx: Context): Result<Statement, Error>
  {
    if d.whereConditions == [] then
      var kv :- MapAll(KeyCoercer(ctx), d.keys);
      Ok(Bound(DeleteQuery(d, ctx, KeyMarkers(Names(d.keys))), kv))
    else
      Ok(Unprepared(DeleteQuery(d, ctx, GivenConditions(d.whereConditions))))
  }

  /** The key-based delete binds one coerced value per key, in key order, and
    * binding it gives the delete with those values inlined. */
  lemma KeyBasedDeleteBinding(d: DeleteData, ctx: Context)
    requires d.whereConditions == [] && DeleteStatement(d, ctx).Ok?
    ensures MapAll(KeyCoercer(ctx), d.keys).Ok?
    ensures var s := DeleteStatement(d, ctx).value;
      && s.Bound? && s.query.onlyIf == d.onlyIfConditions
      && |s.values| == |d.keys| == MarkerCount(s.query)
      && (forall i :: 0 <= i < |d.keys| ==> ctx.ToStatementValue(d.keys[i].0, d.keys[i].1) == Ok(s.values[i]))
      && Fill(s.query, s.values) == Some(DeleteQuery(d, ctx, KeyLiterals(Names(d.keys), s.values)))
  {
    var kv := MapAll(KeyCoercer(ctx), d.keys).value;
    assert DeleteStatement(d, ctx).value == Bound(DeleteQuery(d, ctx, KeyMarkers(Names(d.keys))), kv);
    KeyDeleteFill(d, ctx, kv);
    KeyValuesCoerced(ctx, d.keys, kv);
  }

  lemma KeyDeleteFill(d: DeleteData, ctx: Context, kv: seq<Value>)
    requires |kv| == |d.keys|
    ensures var q := DeleteQuery(d, ctx, KeyMarkers(Names(d.keys)));
      && MarkerCount(q) == |d.keys|
      && Fill(q, kv) == Some(DeleteQuery(d, ctx, KeyLiterals(Names(d.keys), kv)))
  {
    var q := DeleteQuery(d, ctx, KeyMarkers(Names(d.keys)));
    FillPrepared(q, [], kv, []);
    assert [] + kv + [] == kv;
    SubstituteKeyMarkers(Names(d.keys), kv);
    assert q.(assignments := SubstituteAssignments([], []), where := KeyLiterals(Names(d.keys), kv), ttl := None)
        == DeleteQuery(d, ctx, KeyLiterals(Names(d.keys), kv));
  }

  lemma KeyValuesCoerced(ctx: Context, keys: seq<(string, Value)>, kv: seq<Value>)
    requires MapAll(KeyCoercer(ctx), keys) == Ok(kv)
    ensures |kv| == |keys|
    ensures forall i :: 0 <= i < |keys| ==> ctx.ToStatementValue(keys[i].0, keys[i].1) == Ok(kv[i])
  {
    forall i | 0 <= i < |keys|
      ensures ctx.ToStatementValue(keys[i].0, keys[i].1) == Ok(kv[i])
    {
      assert KeyCoercer(ctx)(keys[i]) == Ok(kv[i]);
    }
  }

  /** The key-based delete fails exactly when a key that is neither null nor
    * empty names a column the table does not have. */
  lemma KeyBasedDeleteFails(d: DeleteData, ctx: Context)
    requires d.whereConditions == []
    ensures DeleteStatement(d, ctx).Err? <==>
              exists i :: 0 <= i < |d.keys| && !Coercion.IsNullOrEmpty(d.keys[i].1) && d.keys[i].0 !in ctx.dbSession.columns
    ensures DeleteStatement(d, ctx).Err? ==> DeleteStatement(d, ctx).error.UnknownColumn?
  {
    if DeleteStatement(d, ctx).Err? {
      var r := MapAll(KeyCoercer(ctx), d.keys);
      var i :| FirstFailure(KeyCoercer(ctx), d.keys, i) && KeyCoercer(ctx)(d.keys[i]) == Err(r.error);
    }
  }

  /** The where-based delete carries the IF conditions and the where clauses
    * in order and has no marker. */
  lemma WhereBasedDeleteLiteral(d: DeleteData, ctx: Context)
    requires d.whereConditions != []
    ensures DeleteStatement(d, ctx) == Ok(Unprepared(DeleteQuery(d, ctx, GivenConditions(d.whereConditions))))
    ensures IsLiteral(DeleteStatement(d, ctx).value.query) && MarkerCount(DeleteStatement(d, ctx).value.query) == 0
  {
  }

  /** `toStatement(ctx)`. */
  method ToStatement(d: DeleteData, ctx: Context) returns (r: Result<Statement, Error>)
    ensures r == DeleteStatement(d, ctx)
  {
    var onlyIf := AddOnlyIf(d.onlyIfConditions, []);
    assert onlyIf == d.onlyIfConditions;
    var delete := NewQuery(DeleteKind, Table(ctx)).(onlyIf := onlyIf);
    if d.whereConditions == [] {
      r := ToKeyBasedDelete(d, ctx, delete);
    } else {
      var where := AddGivenConditions(d.whereConditions, []);
      assert where == GivenConditions(d.whereConditions);
      r := Ok(Unprepared(delete.(where := where)));
    }
  }

  method ToKeyBasedDelete(d: DeleteData, ctx: Context, delete: Query) returns (r: Result<Statement, Error>)
    requires d.whereConditions == [] && delete == DeleteQuery(d, ctx, [])
    ensures r == DeleteStatement(d, ctx)
  {
    var k :- AddKeyMarkers(d.keys, KeyCoercer(ctx), [], []);
    var kv := MapAll(KeyCoercer(ctx), d.keys).value;
    assert k.0 == KeyMarkers(Names(d.keys)) && k.1 == kv;
    assert DeleteStatement(d, ctx) == Ok(Bound(DeleteQuery(d, ctx, KeyMarkers(Names(d.keys))), kv));
    r := Ok(Bound(delete.(where := k.0), k.1));
  }
}
