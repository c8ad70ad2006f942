/** `DeleteQueryDataImpl` of the java7 core: a delete on a table that may be
  * qualified by a keyspace, by keys or where clauses, with IF conditions,
  * IF EXISTS and the removal of single map elements. */
module DeleteDataImpl {

  import opened Wrappers
  import opened Values
  import opened Statements
  import Coercion
  import opened DbSession

  /** The fields of the source class; a `null` ifExists or mapValuesToRemove
    * is None. */
  datatype DeleteSpec = DeleteSpec(
    tablename: Target,
    key: seq<(string, Value)>,
    whereConditions: seq<Clause>,
    onlyIfConditions: seq<Clause>,
    ifExists: Option<bool>,
    mapValuesToRemove: Option<seq<(string, seq<Value>)>>)
  {
    // Each setter keeps the table and every field but its own.

    function Key(key: seq<(string, Value)>): (r: DeleteSpec)
      ensures r.key == key && r.(key := this.key) == this
    {
      this.(key := key)
    }

    function WhereConditions(whereConditions: seq<Clause>): (r: DeleteSpec)
      ensures r.whereConditions == whereConditions && r.(whereConditions := this.whereConditions) == this
    {
      this.(whereConditions := whereConditions)
    }

    function OnlyIfConditions(onlyIfConditions: seq<Clause>): (r: DeleteSpec)
      ensures r.onlyIfConditions == onlyIfConditions && r.(onlyIfConditions := this.onlyIfConditions) == this
    {
      this.(onlyIfConditions := onlyIfConditions)
    }

    function IfExists(ifExists: Option<bool>): (r: DeleteSpec)
      ensures r.ifExists == ifExists && r.(ifExists := this.ifExists) == this
    {
      this.(ifExists := ifExists)
    }

    function MapValuesToRemove(mapValuesToRemove: Option<seq<(string, seq<Value>)>>): (r: DeleteSpec)
      ensures r.mapValuesToRemove == mapValuesToRemove && r.(mapValuesToRemove := this.mapValuesToRemove) == this
    {
      this.(mapValuesToRemove := mapValuesToRemove)
    }
  }

  /** `new DeleteQueryDataImpl(tablename)`. */
  function NewDeleteSpec(tablename: Target): (d: DeleteSpec)
    ensures d.tablename == tablename && d.key == [] && d.whereConditions == [] && d.onlyIfConditions == []
    ensures d.ifExists.None? && d.mapValuesToRemove.None?
  {
    DeleteSpec(tablename, [], [], [], None, None)
  }

  /** `mapElt(name, element)` for each element of one map column. */
  function Elements(name: string, elements: seq<Value>): (r: seq<Selector>)
    ensures |r| == |elements| && forall j :: 0 <= j < |r| ==> r[j] == MapElement(name, elements[j])
  {
    seq(|elements|, j requires 0 <= j < |elements| => MapElement(name, elements[j]))
  }

  /** The number of listed elements over all map columns. */
  function ElementCount(m: seq<(string, seq<Value>)>): nat
    decreases |m|
  {
    if m == [] then 0 else ElementCount(m[..|m| - 1]) + |m[|m| - 1].1|
  }

  /** The map elements removed, column after column, each column's elements
    * in list order. */
  function ElementSelectors(m: seq<(string, seq<Value>)>): (r: seq<Selector>)
    ensures |r| == ElementCount(m)
    ensures forall k :: 0 <= k < |r| ==> r[k].MapElement?
    decreases |m|
  {
    if m == [] then [] else ElementSelectors(m[..|m| - 1]) + Elements(m[|m| - 1].0, m[|m| - 1].1)
  }

  /** Exactly the listed elements are removed, and from their own column. */
  lemma {:induction false} ElementSelectorsAreListed(m: seq<(string, seq<Value>)>, s: Selector)
    ensures s in ElementSelectors(m) <==>
              exists i, j :: 0 <= i < |m| && 0 <= j < |m[i].1| && s == MapElement(m[i].0, m[i].1[j])
    decreases |m|
  {
    if m != [] {
      var n := |m| - 1;
      ElementSelectorsAreListed(m[..n], s);
      assert forall i :: 0 <= i < n ==> m[..n][i] == m[i];
      if s in Elements(m[n].0, m[n].1) {
        var j :| 0 <= j < |m[n].1| && Elements(m[n].0, m[n].1)[j] == s;
      }
    }
  }

  /** The delete before its where clauses: the table, qualified by the
    * keyspace when there is one, the IF conditions in order, IF EXISTS only
    * for a non-null true flag, and the removed map elements. */
  function BaseDelete(d: DeleteSpec): Query
  {
    NewQuery(DeleteKind, d.tablename).(
      onlyIf := d.onlyIfConditions,
      ifExists := d.ifExists == Some(true),
      selectors := if d.mapValuesToRemove.Some? then ElementSelectors(d.mapValuesToRemove.value) else [])
  }

  /** Key-based: prepared, one marker per key bound to the key's value as the
    * session coerces it for the table. Where-based: literal. */
  function DeleteStatement(d: DeleteSpec, session: DBSession): Result<Statement, Error>
  {
    if d.whereConditions == [] then
      var kv :- MapAll(session.EntryCoercer(d.tablename), d.key);
      Ok(Bound(BaseDelete(d).(where := KeyMarkers(Names(d.key))), kv))
    else
      Ok(Unprepared(BaseDelete(d).(where := GivenConditions(d.whereConditions))))
  }

  /** IF EXISTS is only emitted for `ifExists(TRUE)`; a null flag or false
    * leaves it out. */
  lemma IfExistsOnlyWhenTrue(d: DeleteSpec, session: DBSession)
    requires DeleteStatement(d, session).Ok?
    ensures DeleteStatement(d, session).value.query.ifExists <==> d.ifExists == Some(true)
    ensures DeleteStatement(d, session).value.query.target == d.tablename
    ensures DeleteStatement(d, session).value.query.onlyIf == d.onlyIfConditions
  {
  }

  /** The key-based delete binds one coerced value per key, in key order, and
    * binding it gives the delete with those values inlined. */
  lemma KeyBasedDeleteBinding(d: DeleteSpec, session: DBSession)
    requires d.whereConditions == [] && DeleteStatement(d, session).Ok?
    ensures var s := DeleteStatement(d, session).value;
      && s.Bound? && |s.values| == |d.key| == MarkerCount(s.query)
      && (forall i :: 0 <= i < |d.key| ==> session.ToStatementValue(d.tablename, d.key[i].0, d.key[i].1) == Ok(s.values[i]))
      && Fill(s.query, s.values) == Some(BaseDelete(d).(where := KeyLiterals(Names(d.key), s.values)))
  {
    var kv := MapAll(session.EntryCoercer(d.tablename), d.key).value;
    var q := BaseDelete(d).(where := KeyMarkers(Names(d.key)));
    FillPrepared(q, [], kv, []);
    assert [] + kv + [] == kv;
    SubstituteKeyMarkers(Names(d.key), kv);
  }

  /** The where-based delete binds nothing: no marker, the where clauses in order. */
  lemma WhereBasedDeleteLiteral(d: DeleteSpec, session: DBSession)
    requires d.whereConditions != []
    ensures DeleteStatement(d, session) == Ok(Unprepared(BaseDelete(d).(where := GivenConditions(d.whereConditions))))
    ensures IsLiteral(DeleteStatement(d, session).value.query) && MarkerCount(DeleteStatement(d, session).value.query) == 0
  {
  }

  /** `toStatementAsync(data, executionSpec, udtValueMapper, dbSession)`, up to
    * the preparation, which goes through the session's statement cache. */
  method ToStatementAsync(d: DeleteSpec, session: DBSession) returns (r: Result<Statement, Error>)
    ensures r == DeleteStatement(d, session)
  {
    var onlyIf := AddOnlyIf(d.onlyIfConditions, []);
    assert onlyIf == d.onlyIfConditions;
    var delete := NewQuery(DeleteKind, d.tablename).(onlyIf := onlyIf);
    if d.ifExists.Some? && d.ifExists.value {
      delete := delete.(ifExists := true);
    }
    if d.mapValuesToRemove.Some? {
      var elements := AddMapElements(d.mapValuesToRemove.value);
      delete := delete.(selectors := elements);
    }
    assert delete == BaseDelete(d);
    if d.whereConditions == [] {
      r := ToKeyBasedDelete(d, session, delete);
    } else {
      var where := AddGivenConditions(d.whereConditions, []);
      assert where == GivenConditions(d.whereConditions);
      r := Ok(Unprepared(delete.(where := where)));
    }
  }

  /** The nested loops over the map columns and their elements. */
  method AddMapElements(m: seq<(string, seq<Value>)>) returns (elements: seq<Selector>)
    ensures elements == ElementSelectors(m)
  {
    elements := [];
    var i := 0;
    while i < |m|
      invariant 0 <= i <= |m|
      invariant elements == ElementSelectors(m[..i])
    {
      var name := m[i].0;
      var list := m[i].1;
      var j := 0;
      while j < |list|
        invariant 0 <= j <= |list|
        invariant elements == ElementSelectors(m[..i]) + Elements(name, list[..j])
      {
        elements := elements + [MapElement(name, list[j])];
        j := j + 1;
      }
      assert list[..j] == list;
      assert m[..i + 1][..i] == m[..i];
      i := i + 1;
    }
    assert m[..i] == m;
  }

  method ToKeyBasedDelete(d: DeleteSpec, session: DBSession, delete: Query) returns (r: Result<Statement, Error>)
    requires d.whereConditions == [] && delete == BaseDelete(d)
    ensures r == DeleteStatement(d, session)
  {
    var k :- AddKeyMarkers(d.key, session.EntryCoercer(d.tablename), [], []);
    var kv := MapAll(session.EntryCoercer(d.tablename), d.key).value;
    assert k.0 == KeyMarkers(Names(d.key)) && k.1 == kv;
    assert DeleteStatement(d, session) == Ok(Bound(BaseDelete(d).(where := KeyMarkers(Names(d.key))), kv));
    r := Ok(Bound(delete.(where := k.0), k.1));
  }
}
