/** `DeleteQuery` of the troilus-core module: a delete by keys or where
  * clauses with IF conditions, and the check of the `[applied]` flag of a
  * conditional delete. */
module DeleteQuery {

  import opened Wrappers
  import opened Values
  import opened Statements
  import opened LegacyContext

  datatype Deletion = Deletion(
    ctx: Context,
    keyNameValuePairs: seq<(string, Value)>,
    whereConditions: seq<Clause>,
    ifConditions: seq<Clause>)
  {
    /** Replaces the IF conditions by exactly the given ones. */
    function OnlyIf(conditions: seq<Clause>): (r: Deletion)
      ensures r.ifConditions == conditions && r.(ifConditions := ifConditions) == this
    {
      this.(ifConditions := conditions)
    }

    /** `newQuery(newContext)`, behind every `with...` of a mutation. */
    function WithContext(newContext: Context): (r: Deletion)
      ensures r.ctx == newContext && r.(ctx := ctx) == this
    {
      this.(ctx := newContext)
    }
  }

  function DeleteQuery(d: Deletion, where: seq<Condition>): Query
  {
    NewQuery(DeleteKind, d.ctx.Target()).(onlyIf := d.ifConditions, where := where)
  }

  /** Key-based: prepared, one marker per key, bound to the key values as
    * given. Where-based: literal. Collecting the key clauses into a set keeps
    * every one: each `eq` clause is a new object, and the set compares its
    * clauses by identity. */
  function DeleteStatement(d: Deletion): Statement
  {
    if d.whereConditions == [] then
      Bound(DeleteQuery(d, KeyMarkers(Names(d.keyNameValuePairs))), EntryValues(d.keyNameValuePairs))
    else
      Unprepared(DeleteQuery(d, GivenConditions(d.whereConditions)))
  }

  /** Binding the key-based delete puts each key's value in its own clause. */
  lemma KeyBasedDeleteBinding(d: Deletion)
    requires d.whereConditions == []
    ensures var s := DeleteStatement(d);
      && s.Bound? && |s.values| == |d.keyNameValuePairs| == MarkerCount(s.query)
      && Fill(s.query, s.values)
         == Some(DeleteQuery(d, KeyLiterals(Names(d.keyNameValuePairs), EntryValues(d.keyNameValuePairs))))
  {
    var vs := EntryValues(d.keyNameValuePairs);
    FillPrepared(DeleteQuery(d, KeyMarkers(Names(d.keyNameValuePairs))), [], vs, []);
    assert [] + vs + [] == vs;
    SubstituteKeyMarkers(Names(d.keyNameValuePairs), vs);
  }

  lemma WhereBasedDeleteLiteral(d: Deletion)
    requires d.whereConditions != []
    ensures var s := DeleteStatement(d);
      && s.Unprepared? && IsLiteral(s.query) && MarkerCount(s.query) == 0
      && s.query.onlyIf == d.ifConditions && s.query.where == GivenConditions(d.whereConditions)
  {
  }

  /** The result of `executeAsync`: a conditional delete that was not applied
    * fails with IfConditionException; otherwise the result (here: its
    * `[applied]` flag) is passed on. */
  function CheckApplied(d: Deletion, applied: bool): (r: Result<bool, Error>)
    ensures r.Err? <==> d.ifConditions != [] && !applied
    ensures r.Err? ==> r.error.IfConditionFailed?
    ensures r.Ok? ==> r.value == applied
  {
    if d.ifConditions != [] && !applied then Err(IfConditionFailed("if condition does not match")) else Ok(applied)
  }

  /** Without IF conditions the delete never fails on the flag. */
  lemma UnconditionalNeverFails(d: Deletion, applied: bool)
    requires d.ifConditions == []
    ensures CheckApplied(d, applied) == Ok(applied)
  {
  }

  /** `getStatement()`. */
  method GetStatement(d: Deletion) returns (s: Statement)
    ensures s == DeleteStatement(d)
  {
    var delete := NewQuery(DeleteKind, d.ctx.Target());
    var onlyIf := AddOnlyIf(d.ifConditions, []);
    assert onlyIf == d.ifConditions;
    delete := delete.(onlyIf := onlyIf);
    if d.whereConditions == [] {
      var k := AddKeyMarkers(d.keyNameValuePairs, RawValue(), [], []);
      RawValues(d.keyNameValuePairs);
      assert k.value.0 == KeyMarkers(Names(d.keyNameValuePairs)) && k.value.1 == EntryValues(d.keyNameValuePairs);
      s := Bound(delete.(where := k.value.0), k.value.1);
    } else {
      var where := AddGivenConditions(d.whereConditions, []);
      assert where == GivenConditions(d.whereConditions);
      s := Unprepared(delete.(where := where));
    }
  }
}
