/** `WriteQuery` of the original core: a write by keys or where clauses that
  * collects the values to mutate, and the insertion and conditional update it
  * turns into. */
module WriteQuery {

  import opened Wrappers
  import opened Values
  import opened Statements
  import opened LegacyContext

  // ---------------------------------------------------------------------------
  // ValueToMutate

  /** A value holder: `BuildinValueToMutate` or `UDTValueToMutate`, the latter
    * with the column type it maps its value to. */
  datatype Holder = BuiltInHolder(value: Value) | UdtHolder(udtType: DataType, value: Value)

  /** A holder with its column name. */
  type ValueToMutate = (string, Holder)

  /** What a holder keeps of the value it is given: the content of an
    * Optional, or null for an empty one (`orElse(null)`), else the value. */
  function Unwrapped(v: Value): (r: Value)
    ensures !v.Optional? ==> r == v
    ensures v.Optional? ==> r == OrNull(v.content)
  {
    if v.Optional? then OrNull(v.content) else v
  }

  /** `newValueToMutate`: the holder for a built-in or a user-defined column
    * type; the column's metadata must exist. */
  function NewValueToMutate(ctx: Context, name: string, v: Value): (r: Result<ValueToMutate, Error>)
    ensures r.Ok? <==> name in ctx.columns
    ensures r.Err? ==> r.error == UnknownColumn(name)
    ensures r.Ok? ==> r.value.0 == name && r.value.1.value == Unwrapped(v)
    ensures r.Ok? ==> (r.value.1.UdtHolder? <==> ctx.columns[name].UserDefined?)
    ensures r.Ok? && r.value.1.UdtHolder? ==> r.value.1.udtType == ctx.columns[name]
  {
    var t :- ctx.ColumnType(name);
    if t.UserDefined? then Ok((name, UdtHolder(t, Unwrapped(v)))) else Ok((name, BuiltInHolder(Unwrapped(v))))
  }

  /** The value a holder binds (and, in a literal update, inlines): a
    * built-in one its value, a user-defined one what the UDT mapper makes of
    * its value for the column type. */
  function BoundValue(h: Holder): Value
  {
    match h
    case BuiltInHolder(v) => v
    case UdtHolder(t, v) => UdtValue(t, v)
  }

  function BoundValueOf(): (ValueToMutate) -> Result<Value, Error>
  {
    (m: ValueToMutate) => Ok(BoundValue(m.1))
  }

  function BoundValues(ms: seq<ValueToMutate>): (r: seq<Value>)
    ensures |r| == |ms| && forall i :: 0 <= i < |ms| ==> r[i] == BoundValue(ms[i].1)
  {
    seq(|ms|, i requires 0 <= i < |ms| => BoundValue(ms[i].1))
  }

  lemma BoundValuesAll(ms: seq<ValueToMutate>)
    ensures MapAll(BoundValueOf(), ms) == Ok(BoundValues(ms))
  {
    assert forall i :: 0 <= i < |ms| ==> BoundValueOf()(ms[i]) == Ok(BoundValue(ms[i].1));
    var r := MapAll(BoundValueOf(), ms);
    assert r.value == BoundValues(ms);
  }

  /** `ctx.toOptional(value).isPresent()`: neither null nor an empty Optional. */
  predicate IsPresent(v: Value)
  {
    v != Null && v != Optional(None)
  }

  /** The pairs whose value is present, in order. */
  function PresentPairs(pairs: seq<(string, Value)>): (r: seq<(string, Value)>)
    ensures |r| <= |pairs|
    ensures forall i :: 0 <= i < |r| ==> r[i] in pairs && IsPresent(r[i].1)
    ensures forall i :: 0 <= i < |pairs| && IsPresent(pairs[i].1) ==> pairs[i] in r
    ensures (forall i :: 0 <= i < |pairs| ==> IsPresent(pairs[i].1)) ==> r == pairs
    decreases |pairs|
  {
    if pairs == [] then []
    else
      var init := pairs[..|pairs| - 1];
      var last := pairs[|pairs| - 1];
      assert forall i :: 0 <= i < |pairs| - 1 ==> pairs[i] == init[i];
      assert init + [last] == pairs;
      PresentPairs(init) + (if IsPresent(last.1) then [last] else [])
  }

  function ValueToMutateOf(ctx: Context): ((string, Value)) -> Result<ValueToMutate, Error>
  {
    (e: (string, Value)) => NewValueToMutate(ctx, e.0, e.1)
  }

  /** `newValuesToMutate`: a holder per present pair, built from the pair's
    * value as given; fails at the first present pair of an unknown column. */
  function NewValuesToMutate(ctx: Context, pairs: seq<(string, Value)>): (r: Result<seq<ValueToMutate>, Error>)
    ensures r.Ok? <==> forall i :: 0 <= i < |pairs| && IsPresent(pairs[i].1) ==> pairs[i].0 in ctx.columns
    ensures r.Ok? ==> |r.value| == |PresentPairs(pairs)|
    ensures r.Ok? ==> forall i :: 0 <= i < |r.value| ==>
              r.value[i] == NewValueToMutate(ctx, PresentPairs(pairs)[i].0, PresentPairs(pairs)[i].1).value
  {
    var present := PresentPairs(pairs);
    assert (forall i :: 0 <= i < |present| ==> ValueToMutateOf(ctx)(present[i]).Ok?)
       <==> forall i :: 0 <= i < |pairs| && IsPresent(pairs[i].1) ==> pairs[i].0 in ctx.columns;
    MapAll(ValueToMutateOf(ctx), present)
  }

  // ---------------------------------------------------------------------------
  // WriteQuery

  /** The fields of `WriteQuery`. */
  datatype Write = Write(
    ctx: Context,
    keys: seq<(string, Value)>,
    whereConditions: seq<Clause>,
    valuesToMutate: seq<ValueToMutate>)
  {
    /** `newQuery(newContext)`, behind every `with...` of a mutation. */
    function WithContext(newContext: Context): (r: Write)
      ensures r.ctx == newContext && r.(ctx := ctx) == this
    {
      this.(ctx := newContext)
    }

    /** `value(name, value)`: an absent Optional changes nothing, a present one
      * is unwrapped (as often as it is nested), and any other value appends
      * its holder. */
    function AddValue(name: string, v: Value): (r: Result<Write, Error>)
      ensures Innermost(v).None? ==> r == Ok(this)
      ensures Innermost(v).Some? ==>
        r == (var m :- NewValueToMutate(ctx, name, Innermost(v).value); Ok(this.(valuesToMutate := valuesToMutate + [m])))
      decreases v
    {
      if v.Optional? then
        if v.content.Some? then AddValue(name, v.content.value) else Ok(this)
      else
        var m :- NewValueToMutate(ctx, name, v);
        Ok(this.(valuesToMutate := valuesToMutate + [m]))
    }

    /** `ifNotExits()`: an insertion of the values to mutate followed by the
      * present key pairs, if not exists. */
    function IfNotExits(): (r: Result<Insertion, Error>)
      ensures r == (var ks :- NewValuesToMutate(ctx, keys); Ok(Insertion(ctx, valuesToMutate + ks, true)))
      ensures r.Ok? ==> r.value.ifNotExists && r.value.valuesToInsert[..|valuesToMutate|] == valuesToMutate
    {
      var ks :- NewValuesToMutate(ctx, keys);
      Ok(Insertion(ctx, valuesToMutate + ks, true))
    }

    /** `onlyIf(conditions)`: an update conditional on exactly these. */
    function OnlyIf(conditions: seq<Clause>): (r: Update)
      ensures r.ifConditions == conditions
      ensures r.ctx == ctx && r.keys == keys && r.whereConditions == whereConditions && r.valuesToMutate == valuesToMutate
    {
      Update(ctx, keys, whereConditions, valuesToMutate, conditions)
    }
  }

  /** The value `value` ends up storing: none for an absent Optional, the
    * content of a present one, or the value itself. */
  function Innermost(v: Value): (r: Option<Value>)
    ensures r.Some? ==> !r.value.Optional?
    ensures !v.Optional? ==> r == Some(v)
    decreases v
  {
    if v.Optional? then
      if v.content.Some? then Innermost(v.content.value) else None
    else Some(v)
  }

  /** `values(nameValuePairsToAdd)`: `value` for each pair, left to right. */
  function ValuesFold(w: Write, pairs: seq<(string, Value)>): Result<Write, Error>
    decreases |pairs|
  {
    if pairs == [] then Ok(w)
    else
      var before :- ValuesFold(w, pairs[..|pairs| - 1]);
      before.AddValue(pairs[|pairs| - 1].0, pairs[|pairs| - 1].1)
  }

  /** A fold of `value` keeps the context, the keys, the where clauses and the
    * values already collected, adds at most one holder per pair, and fails
    * exactly when a pair with a value to store names an unknown column. */
  lemma {:induction false} ValuesFoldMeaning(w: Write, pairs: seq<(string, Value)>)
    ensures ValuesFold(w, pairs).Ok? <==>
              forall i :: 0 <= i < |pairs| && Innermost(pairs[i].1).Some? ==> pairs[i].0 in w.ctx.columns
    ensures ValuesFold(w, pairs).Ok? ==>
              var r := ValuesFold(w, pairs).value;
              && r.ctx == w.ctx && r.keys == w.keys && r.whereConditions == w.whereConditions
              && |w.valuesToMutate| <= |r.valuesToMutate| <= |w.valuesToMutate| + |pairs|
              && r.valuesToMutate[..|w.valuesToMutate|] == w.valuesToMutate
    decreases |pairs|
  {
    if pairs != [] {
      var init := pairs[..|pairs| - 1];
      ValuesFoldMeaning(w, init);
      assert forall i :: 0 <= i < |init| ==> init[i] == pairs[i];
      var before := ValuesFold(w, init);
      if before.Ok? {
        var b := before.value;
        assert b.valuesToMutate[..|w.valuesToMutate|] == w.valuesToMutate;
        var r := b.AddValue(pairs[|pairs| - 1].0, pairs[|pairs| - 1].1);
        if r.Ok? {
          assert r.value.valuesToMutate[..|b.valuesToMutate|] == b.valuesToMutate;
          assert r.value.valuesToMutate[..|w.valuesToMutate|] == b.valuesToMutate[..|w.valuesToMutate|];
        }
      }
    }
  }

  /** `values(nameValuePairsToAdd)`. */
  method AddValues(w: Write, pairs: seq<(string, Value)>) returns (r: Result<Write, Error>)
    ensures r == ValuesFold(w, pairs)
  {
    var write := w;
    var i := 0;
    while i < |pairs|
      invariant 0 <= i <= |pairs|
      invariant ValuesFold(w, pairs[..i]) == Ok(write)
    {
      assert pairs[..i + 1][..i] == pairs[..i];
      var next := write.AddValue(pairs[i].0, pairs[i].1);
      if next.Err? {
        assert ValuesFold(w, pairs[..i + 1]).Err?;
        ValuesFoldFailsOnward(w, pairs, i + 1);
        return Err(next.error);
      }
      write := next.value;
      i := i + 1;
    }
    assert pairs[..i] == pairs;
    r := Ok(write);
  }

  /** Once a prefix of the pairs fails, the whole fold fails with the same error. */
  lemma {:induction false} ValuesFoldFailsOnward(w: Write, pairs: seq<(string, Value)>, n: nat)
    requires n <= |pairs| && ValuesFold(w, pairs[..n]).Err?
    ensures ValuesFold(w, pairs) == ValuesFold(w, pairs[..n])
    decreases |pairs| - n
  {
    if n == |pairs| {
      assert pairs[..n] == pairs;
    } else {
      assert pairs[..n + 1][..n] == pairs[..n];
      ValuesFoldFailsOnward(w, pairs, n + 1);
    }
  }

  // ---------------------------------------------------------------------------
  // InsertionQuery

  datatype Insertion = Insertion(ctx: Context, valuesToInsert: seq<ValueToMutate>, ifNotExists: bool)
  {
    function WithContext(newContext: Context): (r: Insertion)
      ensures r.ctx == newContext && r.(ctx := ctx) == this
    {
      this.(ctx := newContext)
    }

    function IfNotExits(): (r: Insertion)
      ensures r.ifNotExists && r.(ifNotExists := ifNotExists) == this
    {
      this.(ifNotExists := true)
    }
  }

  /** The insert with the given slots; IF NOT EXISTS carries the serial
    * consistency level, if one is set. */
  function InsertionQuery(ins: Insertion, assignments: seq<Assignment>, ttl: Option<Term>): Query
  {
    NewQuery(InsertKind, ins.ctx.Target()).(
      assignments := assignments,
      ifNotExists := ins.ifNotExists,
      serialConsistency := if ins.ifNotExists then ins.ctx.serialConsistency else None,
      ttl := ttl)
  }

  /** Prepared: one marker per value in order, then the TTL marker; bound to
    * the holders' values, then `(int)` of the TTL seconds. */
  function InsertionStatement(ins: Insertion): Statement
  {
    Bound(InsertionQuery(ins, MarkerAssignments(SetValue, Names(ins.valuesToInsert)), ins.ctx.TtlMarker()),
          BoundValues(ins.valuesToInsert) + ins.ctx.TtlValues())
  }

  /** Binding the insertion gives the insert with every value, and the TTL,
    * inlined in its own slot. */
  lemma InsertionBinding(ins: Insertion)
    ensures var s := InsertionStatement(ins);
      && s.Bound? && |s.values| == MarkerCount(s.query) == |ins.valuesToInsert| + |ins.ctx.TtlValues()|
      && Fill(s.query, s.values) == Some(InsertionQuery(ins,
           LiteralAssignments(SetValue, Names(ins.valuesToInsert), BoundValues(ins.valuesToInsert)), ins.ctx.TtlLiteral()))
  {
    var q := InsertionQuery(ins, MarkerAssignments(SetValue, Names(ins.valuesToInsert)), ins.ctx.TtlMarker());
    var vs := BoundValues(ins.valuesToInsert);
    FillPrepared(q, vs, [], ins.ctx.TtlValues());
    assert vs + [] + ins.ctx.TtlValues() == vs + ins.ctx.TtlValues();
    SubstituteMarkerAssignments(SetValue, Names(ins.valuesToInsert), vs);
    assert SubstituteConditions(q.where, []) == q.where;
    assert (if q.ttl.Some? then Some(Lit(ins.ctx.TtlValues()[0])) else None) == ins.ctx.TtlLiteral();
  }

  /** `getStatement()` of the insertion. */
  method GetInsertionStatement(ins: Insertion) returns (s: Statement)
    ensures s == InsertionStatement(ins)
  {
    var insert := NewQuery(InsertKind, ins.ctx.Target());
    BoundValuesAll(ins.valuesToInsert);
    var marked := AddMarkedEntries(SetValue, ins.valuesToInsert, BoundValueOf(), [], []);
    assert [] + MarkerAssignments(SetValue, Names(ins.valuesToInsert)) == MarkerAssignments(SetValue, Names(ins.valuesToInsert));
    assert [] + BoundValues(ins.valuesToInsert) == BoundValues(ins.valuesToInsert);
    assert marked.value == (MarkerAssignments(SetValue, Names(ins.valuesToInsert)), BoundValues(ins.valuesToInsert));
    var values := marked.value.1;
    insert := insert.(assignments := marked.value.0);
    if ins.ifNotExists {
      insert := insert.(ifNotExists := true, serialConsistency := ins.ctx.serialConsistency);
    }
    if ins.ctx.ttlSeconds.Some? {
      insert := insert.(ttl := Some(Marker));
      values := values + [Num(ToInt32(ins.ctx.ttlSeconds.value))];
    }
    assert insert == InsertionQuery(ins, MarkerAssignments(SetValue, Names(ins.valuesToInsert)), ins.ctx.TtlMarker());
    s := Bound(insert, values);
  }

  /** The insertion's `executeAsync`: an IF NOT EXISTS insert that was not
    * applied is a duplicated entry. */
  function InsertionResult(ins: Insertion, applied: bool): (r: Result<bool, Error>)
    ensures r.Err? <==> ins.ifNotExists && !applied
    ensures r.Err? ==> r.error == IfConditionFailed("duplicated entry")
    ensures r.Ok? ==> r.value == applied
  {
    if ins.ifNotExists && !applied then Err(IfConditionFailed("duplicated entry")) else Ok(applied)
  }

  // ---------------------------------------------------------------------------
  // UpdateQuery

  datatype Update = Update(
    ctx: Context,
    keys: seq<(string, Value)>,
    whereConditions: seq<Clause>,
    valuesToMutate: seq<ValueToMutate>,
    ifConditions: seq<Clause>)
  {
    function WithContext(newContext: Context): (r: Update)
      ensures r.ctx == newContext && r.(ctx := ctx) == this
    {
      this.(ctx := newContext)
    }

    /** `onlyIf(conditions)` on an update adds to the conditions it has. */
    function OnlyIf(conditions: seq<Clause>): (r: Update)
      ensures r.ifConditions == ifConditions + conditions && r.(ifConditions := ifConditions) == this
    {
      this.(ifConditions := ifConditions + conditions)
    }
  }

  /** `onlyIf` on a write takes the conditions as given; a further `onlyIf`
    * on the update keeps them and adds its own after them. */
  lemma OnlyIfThenOnlyIf(w: Write, first: seq<Clause>, second: seq<Clause>)
    ensures w.OnlyIf(first).OnlyIf(second).ifConditions == first + second
    ensures w.OnlyIf(first).OnlyIf(second) == w.OnlyIf(first + second)
  {
  }

  function UpdateQuery(u: Update, assignments: seq<Assignment>, where: seq<Condition>, onlyIf: seq<Clause>, ttl: Option<Term>): Query
  {
    NewQuery(UpdateKind, u.ctx.Target()).(assignments := assignments, where := where, onlyIf := onlyIf, ttl := ttl)
  }

  /** Key-based: prepared, binding the holders' values, then the key values
    * as given, then the TTL; the IF conditions are added before and again
    * after the key clauses, so each appears twice. Where-based: literal
    * values and TTL, the where clauses in order, each IF condition once. */
  function UpdateStatement(u: Update): Statement
  {
    if u.whereConditions == [] then
      Bound(UpdateQuery(u, MarkerAssignments(SetValue, Names(u.valuesToMutate)), KeyMarkers(Names(u.keys)),
                        u.ifConditions + u.ifConditions, u.ctx.TtlMarker()),
            BoundValues(u.valuesToMutate) + EntryValues(u.keys) + u.ctx.TtlValues())
    else
      Unprepared(UpdateQuery(u, LiteralAssignments(SetValue, Names(u.valuesToMutate), BoundValues(u.valuesToMutate)),
                             GivenConditions(u.whereConditions), u.ifConditions, u.ctx.TtlLiteral()))
  }

  /** Binding the key-based update inlines the mutated values, then the keys,
    * then the TTL, one value per marker; its IF conditions are doubled. */
  lemma KeyBasedUpdateBinding(u: Update)
    requires u.whereConditions == []
    ensures var s := UpdateStatement(u);
      && s.Bound? && |s.values| == MarkerCount(s.query) == |u.valuesToMutate| + |u.keys| + |u.ctx.TtlValues()|
      && s.query.onlyIf == u.ifConditions + u.ifConditions
      && Fill(s.query, s.values) == Some(UpdateQuery(u,
           LiteralAssignments(SetValue, Names(u.valuesToMutate), BoundValues(u.valuesToMutate)),
           KeyLiterals(Names(u.keys), EntryValues(u.keys)), u.ifConditions + u.ifConditions, u.ctx.TtlLiteral()))
  {
    var q := UpdateQuery(u, MarkerAssignments(SetValue, Names(u.valuesToMutate)), KeyMarkers(Names(u.keys)),
                         u.ifConditions + u.ifConditions, u.ctx.TtlMarker());
    FillPrepared(q, BoundValues(u.valuesToMutate), EntryValues(u.keys), u.ctx.TtlValues());
    SubstituteMarkerAssignments(SetValue, Names(u.valuesToMutate), BoundValues(u.valuesToMutate));
    SubstituteKeyMarkers(Names(u.keys), EntryValues(u.keys));
  }

  /** The where-based update binds nothing and carries each IF condition once. */
  lemma WhereBasedUpdateLiteral(u: Update)
    requires u.whereConditions != []
    ensures var s := UpdateStatement(u);
      && s.Unprepared? && IsLiteral(s.query) && MarkerCount(s.query) == 0
      && s.query.onlyIf == u.ifConditions && s.query.where == GivenConditions(u.whereConditions)
  {
  }

  /** `getStatement()` of the update. */
  method GetUpdateStatement(u: Update) returns (s: Statement)
    ensures s == UpdateStatement(u)
  {
    var onlyIf := AddOnlyIf(u.ifConditions, []);
    assert onlyIf == u.ifConditions;
    var update := NewQuery(UpdateKind, u.ctx.Target()).(onlyIf := onlyIf);
    if u.whereConditions == [] {
      s := ToKeyBasedUpdate(u, update);
    } else {
      s := ToWhereBasedUpdate(u, update);
    }
  }

  method ToKeyBasedUpdate(u: Update, update: Query) returns (s: Statement)
    requires u.whereConditions == []
    requires update == NewQuery(UpdateKind, u.ctx.Target()).(onlyIf := u.ifConditions)
    ensures s == UpdateStatement(u)
  {
    BoundValuesAll(u.valuesToMutate);
    var marked := AddMarkedEntries(SetValue, u.valuesToMutate, BoundValueOf(), [], []);
    assert [] + MarkerAssignments(SetValue, Names(u.valuesToMutate)) == MarkerAssignments(SetValue, Names(u.valuesToMutate));
    assert [] + BoundValues(u.valuesToMutate) == BoundValues(u.valuesToMutate);
    assert marked.value == (MarkerAssignments(SetValue, Names(u.valuesToMutate)), BoundValues(u.valuesToMutate));
    var k := AddKeyMarkers(u.keys, RawValue(), [], marked.value.1);
    RawValues(u.keys);
    assert k.value.0 == KeyMarkers(Names(u.keys)) && k.value.1 == BoundValues(u.valuesToMutate) + EntryValues(u.keys);
    var onlyIf := AddOnlyIf(u.ifConditions, update.onlyIf);
    assert onlyIf == u.ifConditions + u.ifConditions;
    var q := update.(assignments := marked.value.0, where := k.value.0, onlyIf := onlyIf);
    var values := k.value.1;
    if u.ctx.ttlSeconds.Some? {
      q := q.(ttl := Some(Marker));
      values := values + [Num(ToInt32(u.ctx.ttlSeconds.value))];
    }
    assert q == UpdateQuery(u, MarkerAssignments(SetValue, Names(u.valuesToMutate)), KeyMarkers(Names(u.keys)),
                            u.ifConditions + u.ifConditions, u.ctx.TtlMarker());
    s := Bound(q, values);
  }

  method ToWhereBasedUpdate(u: Update, update: Query) returns (s: Statement)
    requires u.whereConditions != []
    requires update == NewQuery(UpdateKind, u.ctx.Target()).(onlyIf := u.ifConditions)
    ensures s == UpdateStatement(u)
  {
    BoundValuesAll(u.valuesToMutate);
    var inlined := AddLiteralEntries(SetValue, u.valuesToMutate, BoundValueOf(), []);
    assert inlined.value == LiteralAssignments(SetValue, Names(u.valuesToMutate), BoundValues(u.valuesToMutate));
    var q := update.(assignments := inlined.value);
    if u.ctx.ttlSeconds.Some? {
      q := q.(ttl := Some(Lit(Num(ToInt32(u.ctx.ttlSeconds.value)))));
    }
    var where := AddGivenConditions(u.whereConditions, []);
    assert where == GivenConditions(u.whereConditions);
    q := q.(where := where);
    assert q == UpdateQuery(u, LiteralAssignments(SetValue, Names(u.valuesToMutate), BoundValues(u.valuesToMutate)),
                            GivenConditions(u.whereConditions), u.ifConditions, u.ctx.TtlLiteral());
    s := Unprepared(q);
  }

  /** `getStatement()` of a write without conditions: that of the update
    * conditional on nothing. */
  method GetWriteStatement(w: Write) returns (s: Statement)
    ensures s == UpdateStatement(w.OnlyIf([]))
  {
    s := GetUpdateStatement(w.OnlyIf([]));
  }

  /** The update's `executeAsync`: a conditional update that was not applied
    * fails. */
  function UpdateResult(u: Update, applied: bool): (r: Result<bool, Error>)
    ensures r.Err? <==> u.ifConditions != [] && !applied
    ensures r.Err? ==> r.error == IfConditionFailed("if condition does not match")
    ensures r.Ok? ==> r.value == applied
  {
    if u.ifConditions != [] && !applied then Err(IfConditionFailed("if condition does not match")) else Ok(applied)
  }
}
