/** The mutations of `DaoImpl`: the insert of name/value pairs, the delete by
  * keys, and the batch that combines mutations. */
module DaoImplMutations {

  import opened Wrappers
  import opened Values
  import opened Statements
  import opened Collections
  import opened LegacyContext

  // ---------------------------------------------------------------------------
  // InsertQuery

  /** What `value` stores for a value: an Optional is unwrapped one level and
    * an empty one stores nothing. */
  function Stored(v: Value): (r: Option<Value>)
    ensures !v.Optional? ==> r == Some(v)
    ensures v.Optional? ==> r == v.content
  {
    if v.Optional? then v.content else Some(v)
  }

  /** The fields of `InsertQuery`. The pairs stand for a Guava ImmutableMap,
    * which holds no null value. */
  datatype InsertData = InsertData(ctx: Context, nameValuePairs: seq<(string, Value)>)
  {
    /** `value(name, value)`: an empty Optional leaves the insert as it is;
      * otherwise the (unwrapped) value is merged into the ImmutableMap under
      * `name`, which throws for a null value. */
    function AddValue(name: string, v: Value): (r: Result<InsertData, Error>)
      ensures Stored(v).None? ==> r == Ok(this)
      ensures Stored(v) == Some(Null) ==> r == Err(NullPointer)
      ensures Stored(v).Some? && Stored(v).value != Null ==>
                r == Ok(this.(nameValuePairs := Put(nameValuePairs, name, Stored(v).value)))
    {
      var s := Stored(v);
      if s.None? then Ok(this)
      else if s.value == Null then Err(NullPointer)
      else Ok(this.(nameValuePairs := Put(nameValuePairs, name, s.value)))
    }

    /** `values(nameValuePairsToAdd)`: the pairs with their Optionals
      * converted, copied into an ImmutableMap (which throws for a null value)
      * and merged in. */
    function AddValues(pairs: seq<(string, Value)>): (r: Result<InsertData, Error>)
      ensures r.Err? <==> !NonNull(ConvertOptionals(pairs))
      ensures r.Err? ==> r.error == NullPointer
      ensures r.Ok? ==> r.value.ctx == ctx && r.value.nameValuePairs == MergeAll(nameValuePairs, ConvertOptionals(pairs))
    {
      var converted := ConvertOptionals(pairs);
      if !NonNull(converted) then Err(NullPointer)
      else Ok(this.(nameValuePairs := MergeAll(nameValuePairs, converted)))
    }

    function WithConsistency(c: Consistency): (r: InsertData)
      ensures r.ctx == ctx.WithConsistency(c) && r.nameValuePairs == nameValuePairs
    {
      this.(ctx := ctx.WithConsistency(c))
    }

    function WithSerialConsistency(c: Consistency): (r: InsertData)
      ensures r.ctx == ctx.WithSerialConsistency(c) && r.nameValuePairs == nameValuePairs
    {
      this.(ctx := ctx.WithSerialConsistency(c))
    }

    function IfNotExits(): (r: InsertData)
      ensures r.ctx == ctx.IfNotExits() && r.nameValuePairs == nameValuePairs
    {
      this.(ctx := ctx.IfNotExits())
    }

    function WithTtl(seconds: Int64): (r: InsertData)
      ensures r.ctx == ctx.WithTtl(seconds) && r.nameValuePairs == nameValuePairs
    {
      this.(ctx := ctx.WithTtl(seconds))
    }

    function WithWritetime(micros: Int64): (r: InsertData)
      ensures r.ctx == ctx.WithWritetime(micros) && r.nameValuePairs == nameValuePairs
    {
      this.(ctx := ctx.WithWritetime(micros))
    }

    /** `combinedWith(other)`: a logged batch of exactly this and `other`. */
    function CombinedWith(other: Mutation): (r: BatchData)
      ensures r.batchType == Logged && r.mutations == [InsertMutation(this), other] && r.ctx == ctx
    {
      BatchData(ctx, Logged, [InsertMutation(this), other])
    }
  }

  /** No entry's value is null. */
  predicate NonNull(entries: seq<(string, Value)>)
  {
    forall i :: 0 <= i < |entries| ==> entries[i].1 != Null
  }

  /** The pairs whose value is stored, with their Optionals unwrapped, in order. */
  function ConvertOptionals(pairs: seq<(string, Value)>): (r: seq<(string, Value)>)
    ensures |r| <= |pairs|
    decreases |pairs|
  {
    if pairs == [] then []
    else
      var last := pairs[|pairs| - 1];
      ConvertOptionals(pairs[..|pairs| - 1]) + (if Stored(last.1).Some? then [(last.0, Stored(last.1).value)] else [])
  }

  /** `Immutables.merge` of a map into a map: each entry put in turn. */
  function MergeAll(entries: seq<(string, Value)>, more: seq<(string, Value)>): seq<(string, Value)>
    decreases |more|
  {
    if more == [] then entries
    else Put(MergeAll(entries, more[..|more| - 1]), more[|more| - 1].0, more[|more| - 1].1)
  }

  /** `value` for each pair in turn, stopping at the first that throws. */
  function AddEach(d: InsertData, pairs: seq<(string, Value)>): Result<InsertData, Error>
    decreases |pairs|
  {
    if pairs == [] then Ok(d)
    else
      var before :- AddEach(d, pairs[..|pairs| - 1]);
      before.AddValue(pairs[|pairs| - 1].0, pairs[|pairs| - 1].1)
  }

  /** `values` stores what `value` for each pair in turn stores, and throws
    * exactly when one of those calls would. */
  lemma {:induction false} AddValuesIsAddEach(d: InsertData, pairs: seq<(string, Value)>)
    ensures d.AddValues(pairs) == AddEach(d, pairs)
    decreases |pairs|
  {
    if pairs != [] {
      var init := pairs[..|pairs| - 1];
      var last := pairs[|pairs| - 1];
      AddValuesIsAddEach(d, init);
      var ci := ConvertOptionals(init);
      if Stored(last.1).Some? {
        var p := (last.0, Stored(last.1).value);
        assert ConvertOptionals(pairs) == ci + [p];
        NonNullSnoc(ci, p);
        assert (ci + [p])[..|ci|] == ci;
        if NonNull(ci + [p]) {
          assert d.AddValues(pairs).value.nameValuePairs == Put(d.AddValues(init).value.nameValuePairs, p.0, p.1);
        }
      } else {
        assert ConvertOptionals(pairs) == ci;
      }
    }
  }

  lemma NonNullSnoc(entries: seq<(string, Value)>, p: (string, Value))
    ensures NonNull(entries + [p]) <==> NonNull(entries) && p.1 != Null
  {
    assert forall i :: 0 <= i < |entries| ==> (entries + [p])[i] == entries[i];
    assert (entries + [p])[|entries|] == p;
  }

  /** A put of a non-null value into non-null entries leaves them non-null. */
  lemma {:induction false} PutNonNull(entries: seq<(string, Value)>, k: string, v: Value)
    requires NonNull(entries) && v != Null
    ensures NonNull(Put(entries, k, v))
    decreases |entries|
  {
    if entries != [] && entries[0].0 != k {
      PutNonNull(entries[1..], k, v);
      var rest := Put(entries[1..], k, v);
      assert forall i :: 1 <= i < |rest| + 1 ==> ([entries[0]] + rest)[i] == rest[i - 1];
    } else if entries != [] {
      assert forall i :: 1 <= i < |entries| ==> ([(k, v)] + entries[1..])[i] == entries[i];
    }
  }

  lemma {:induction false} MergeAllNonNull(entries: seq<(string, Value)>, more: seq<(string, Value)>)
    requires NonNull(entries) && NonNull(more)
    ensures NonNull(MergeAll(entries, more))
    decreases |more|
  {
    if more != [] {
      var init := more[..|more| - 1];
      assert NonNull(init) by {
        assert forall i :: 0 <= i < |init| ==> init[i] == more[i];
      }
      MergeAllNonNull(entries, init);
      PutNonNull(MergeAll(entries, init), more[|more| - 1].0, more[|more| - 1].1);
    }
  }

  /** An insert built by `value` and `values` holds no null value, so its
    * statement never fails: `ImmutableList.copyOf` in `getStatement` cannot
    * throw for it. */
  lemma BuiltInsertNonNull(d: InsertData, name: string, v: Value, pairs: seq<(string, Value)>)
    requires NonNull(d.nameValuePairs)
    ensures d.AddValue(name, v).Ok? ==> NonNull(d.AddValue(name, v).value.nameValuePairs)
    ensures d.AddValues(pairs).Ok? ==> NonNull(d.AddValues(pairs).value.nameValuePairs)
    ensures d.AddValue(name, v).Ok? ==> InsertStatement(d.AddValue(name, v).value).Ok?
    ensures d.AddValues(pairs).Ok? ==> InsertStatement(d.AddValues(pairs).value).Ok?
  {
    if Stored(v).Some? && Stored(v).value != Null {
      PutNonNull(d.nameValuePairs, name, Stored(v).value);
    }
    if d.AddValues(pairs).Ok? {
      MergeAllNonNull(d.nameValuePairs, ConvertOptionals(pairs));
    }
    if d.AddValue(name, v).Ok? {
      InsertBinding(d.AddValue(name, v).value);
    }
    if d.AddValues(pairs).Ok? {
      InsertBinding(d.AddValues(pairs).value);
    }
  }

  /** `value` throws exactly for a null value; otherwise the name maps to the
    * stored value afterwards and every other name to what it mapped to before. */
  lemma AddValueLookup(d: InsertData, name: string, v: Value, other: string)
    ensures d.AddValue(name, v).Err? <==> Stored(v) == Some(Null)
    ensures d.AddValue(name, v).Ok? ==>
              Lookup(d.AddValue(name, v).value.nameValuePairs, other)
              == if other == name && Stored(v).Some? then Stored(v) else Lookup(d.nameValuePairs, other)
  {
    if Stored(v).Some? && Stored(v).value != Null {
      LookupAfterPut(d.nameValuePairs, name, Stored(v).value, other);
    }
  }

  /** The insert with the given slots; IF NOT EXISTS, from the context,
    * carries its serial consistency level. */
  function InsertQuery(d: InsertData, assignments: seq<Assignment>, ttl: Option<Term>): Query
  {
    NewQuery(InsertKind, d.ctx.Target()).(
      assignments := assignments,
      ifNotExists := d.ctx.ifNotExists,
      serialConsistency := if d.ctx.ifNotExists then d.ctx.serialConsistency else None,
      ttl := ttl)
  }

  /** Prepared: one marker per pair, then the TTL marker; bound to the pair
    * values, collected into an ImmutableList (which rejects null), then the
    * TTL seconds. */
  function InsertStatement(d: InsertData): Result<Statement, Error>
  {
    var vs :- CopyOfList(EntryValues(d.nameValuePairs));
    Ok(Bound(InsertQuery(d, MarkerAssignments(SetValue, Names(d.nameValuePairs)), d.ctx.TtlMarker()), vs + d.ctx.TtlValues()))
  }

  /** The insert fails exactly for a null value; otherwise it binds the pair
    * values in order, then the TTL iff one is set, one per marker. */
  lemma InsertBinding(d: InsertData)
    ensures InsertStatement(d).Ok? <==> Null !in EntryValues(d.nameValuePairs)
    ensures InsertStatement(d).Err? ==> InsertStatement(d).error == NullPointer
    ensures InsertStatement(d).Ok? ==>
      var s := InsertStatement(d).value;
      && s.Bound? && s.values == EntryValues(d.nameValuePairs) + d.ctx.TtlValues()
      && |s.values| == MarkerCount(s.query) == |d.nameValuePairs| + (if d.ctx.ttlSeconds.Some? then 1 else 0)
      && Fill(s.query, s.values) == Some(InsertQuery(d,
           LiteralAssignments(SetValue, Names(d.nameValuePairs), EntryValues(d.nameValuePairs)), d.ctx.TtlLiteral()))
  {
    if Null !in EntryValues(d.nameValuePairs) {
      var q := InsertQuery(d, MarkerAssignments(SetValue, Names(d.nameValuePairs)), d.ctx.TtlMarker());
      var vs := EntryValues(d.nameValuePairs);
      assert InsertStatement(d) == Ok(Bound(q, vs + d.ctx.TtlValues()));
      FillPrepared(q, vs, [], d.ctx.TtlValues());
      assert vs + [] + d.ctx.TtlValues() == vs + d.ctx.TtlValues();
      SubstituteMarkerAssignments(SetValue, Names(d.nameValuePairs), vs);
    }
  }

  /** `getStatement()` of the insert. */
  method GetInsertStatement(d: InsertData) returns (r: Result<Statement, Error>)
    ensures r == InsertStatement(d)
  {
    var insert := NewQuery(InsertKind, d.ctx.Target());
    RawValues(d.nameValuePairs);
    var marked := AddMarkedEntries(SetValue, d.nameValuePairs, RawValue(), [], []);
    assert [] + MarkerAssignments(SetValue, Names(d.nameValuePairs)) == MarkerAssignments(SetValue, Names(d.nameValuePairs));
    assert [] + EntryValues(d.nameValuePairs) == EntryValues(d.nameValuePairs);
    assert marked.value == (MarkerAssignments(SetValue, Names(d.nameValuePairs)), EntryValues(d.nameValuePairs));
    insert := insert.(assignments := marked.value.0);
    if d.ctx.ifNotExists {
      insert := insert.(ifNotExists := true, serialConsistency := d.ctx.serialConsistency);
    }
    if d.ctx.ttlSeconds.Some? {
      insert := insert.(ttl := Some(Marker));
    }
    assert insert == InsertQuery(d, MarkerAssignments(SetValue, Names(d.nameValuePairs)), d.ctx.TtlMarker());
    var values := CopyOfList(marked.value.1);
    if values.Err? {
      return Err(values.error);
    }
    var vs := values.value;
    if d.ctx.ttlSeconds.Some? {
      vs := vs + [Num(ToInt32(d.ctx.ttlSeconds.value))];
    }
    assert vs == EntryValues(d.nameValuePairs) + d.ctx.TtlValues();
    r := Ok(Bound(insert, vs));
  }

  /** The insert's `executeAsync`: an IF NOT EXISTS insert that was not
    * applied is a conflict; every other outcome succeeds. */
  function InsertResult(d: InsertData, applied: bool): (r: Result<(), Error>)
    ensures r.Err? <==> d.ctx.ifNotExists && !applied
    ensures r.Err? ==> r.error == AlreadyExistsConflict
  {
    if d.ctx.ifNotExists && !applied then Err(AlreadyExistsConflict) else Ok(())
  }

  // ---------------------------------------------------------------------------
  // DeleteQuery

  datatype DeleteData = DeleteData(ctx: Context, keyNameValuePairs: seq<(string, Value)>)
  {
    function WithConsistency(c: Consistency): (r: DeleteData)
      ensures r.ctx == ctx.WithConsistency(c) && r.keyNameValuePairs == keyNameValuePairs
    {
      this.(ctx := ctx.WithConsistency(c))
    }

    function WithSerialConsistency(c: Consistency): (r: DeleteData)
      ensures r.ctx == ctx.WithSerialConsistency(c) && r.keyNameValuePairs == keyNameValuePairs
    {
      this.(ctx := ctx.WithSerialConsistency(c))
    }

    function CombinedWith(other: Mutation): (r: BatchData)
      ensures r.batchType == Logged && r.mutations == [DeleteMutation(this), other] && r.ctx == ctx
    {
      BatchData(ctx, Logged, [DeleteMutation(this), other])
    }
  }

  function DeleteQuery(d: DeleteData, where: seq<Condition>): Query
  {
    NewQuery(DeleteKind, d.ctx.Target()).(where := where)
  }

  /** Prepared, one `eq` marker per key, bound to the key values as given. */
  function DeleteStatement(d: DeleteData): Statement
  {
    Bound(DeleteQuery(d, KeyMarkers(Names(d.keyNameValuePairs))), EntryValues(d.keyNameValuePairs))
  }

  lemma DeleteBinding(d: DeleteData)
    ensures var s := DeleteStatement(d);
      && |s.values| == |d.keyNameValuePairs| == MarkerCount(s.query)
      && Fill(s.query, s.values)
         == Some(DeleteQuery(d, KeyLiterals(Names(d.keyNameValuePairs), EntryValues(d.keyNameValuePairs))))
  {
    var vs := EntryValues(d.keyNameValuePairs);
    FillPrepared(DeleteQuery(d, KeyMarkers(Names(d.keyNameValuePairs))), [], vs, []);
    assert [] + vs + [] == vs;
    SubstituteKeyMarkers(Names(d.keyNameValuePairs), vs);
  }

  /** `getStatement()` of the delete. */
  method GetDeleteStatement(d: DeleteData) returns (s: Statement)
    ensures s == DeleteStatement(d)
  {
    var delete := NewQuery(DeleteKind, d.ctx.Target());
    var k := AddKeyMarkers(d.keyNameValuePairs, RawValue(), [], []);
    RawValues(d.keyNameValuePairs);
    assert k.value.0 == KeyMarkers(Names(d.keyNameValuePairs)) && k.value.1 == EntryValues(d.keyNameValuePairs);
    s := Bound(delete.(where := k.value.0), k.value.1);
  }

  // ---------------------------------------------------------------------------
  // MutationBatchQuery

  /** A mutation a batch can hold: one of this layer's, or any other batchable
    * mutation, known here only by its statement. */
  datatype Mutation =
    | InsertMutation(insert: InsertData)
    | DeleteMutation(delete: DeleteData)
    | BatchMutation(batch: BatchData)
    | OtherMutation(statement: Result<Statement, Error>)

  datatype BatchData = BatchData(ctx: Context, batchType: BatchType, mutations: seq<Mutation>)
  {
    function WithLockedBatchType(): (r: BatchData)
      ensures r.batchType == Logged && r.(batchType := batchType) == this
    {
      this.(batchType := Logged)
    }

    function WithUnlockedBatchType(): (r: BatchData)
      ensures r.batchType == Unlogged && r.(batchType := batchType) == this
    {
      this.(batchType := Unlogged)
    }

    /** `combinedWith(other)` on a batch: `other` is added last and the batch
      * type is kept. */
    function CombinedWith(other: Mutation): (r: BatchData)
      ensures r.mutations == mutations + [other] && r.(mutations := mutations) == this
    {
      this.(mutations := mutations + [other])
    }
  }

  /** The statement of a mutation; a batch holds its children's statements in
    * list order, and fails with the first child that fails. */
  function MutationStatement(m: Mutation): Result<Statement, Error>
    decreases m, 1
  {
    match m
    case InsertMutation(d) => InsertStatement(d)
    case DeleteMutation(d) => Ok(DeleteStatement(d))
    case BatchMutation(b) =>
      var children :- ChildStatements(b.mutations);
      Ok(Batch(b.batchType, children))
    case OtherMutation(s) => s
  }

  function ChildStatements(ms: seq<Mutation>): (r: Result<seq<Statement>, Error>)
    decreases ms, 0
  {
    if ms == [] then Ok([])
    else
      var first :- MutationStatement(ms[0]);
      var rest :- ChildStatements(ms[1..]);
      Ok([first] + rest)
  }

  /** The children's statements are the mutations' statements, one each, in order. */
  lemma {:induction false} ChildStatementsInOrder(ms: seq<Mutation>)
    ensures ChildStatements(ms).Ok? <==> forall i :: 0 <= i < |ms| ==> MutationStatement(ms[i]).Ok?
    ensures ChildStatements(ms).Ok? ==>
              |ChildStatements(ms).value| == |ms|
              && forall i :: 0 <= i < |ms| ==> MutationStatement(ms[i]) == Ok(ChildStatements(ms).value[i])
    decreases |ms|
  {
    if ms != [] {
      ChildStatementsInOrder(ms[1..]);
      assert forall i :: 1 <= i < |ms| ==> ms[i] == ms[1..][i - 1];
    }
  }

  /** Adding a mutation to the children adds its statement last. */
  lemma {:induction false} ChildStatementsAppend(ms: seq<Mutation>, other: Mutation)
    ensures ChildStatements(ms + [other])
         == (var cs :- ChildStatements(ms); var s :- MutationStatement(other); Ok(cs + [s]))
    decreases |ms|
  {
    if ms == [] {
      assert [other][1..] == [];
      assert ms + [other] == [other];
      var s := MutationStatement(other);
      if s.Ok? {
        assert [s.value] + [] == [] + [s.value];
      }
    } else {
      assert (ms + [other])[0] == ms[0];
      assert (ms + [other])[1..] == ms[1..] + [other];
      ChildStatementsAppend(ms[1..], other);
      var f := MutationStatement(ms[0]);
      if f.Ok? {
        var rest := ChildStatements(ms[1..]);
        var s := MutationStatement(other);
        if rest.Ok? && s.Ok? {
          assert [f.value] + (rest.value + [s.value]) == ([f.value] + rest.value) + [s.value];
        }
      }
    }
  }

  /** Combining a batch with a mutation adds its statement as the last child
    * and keeps the batch type; combining an insert or a delete with a
    * mutation is a logged batch of the two. */
  lemma CombinedWithStatements(b: BatchData, d: InsertData, e: DeleteData, other: Mutation)
    ensures MutationStatement(BatchMutation(b.CombinedWith(other)))
         == (var s :- MutationStatement(BatchMutation(b)); var t :- MutationStatement(other); Ok(Batch(b.batchType, s.children + [t])))
    ensures MutationStatement(BatchMutation(d.CombinedWith(other)))
         == (var s :- InsertStatement(d); var t :- MutationStatement(other); Ok(Batch(Logged, [s, t])))
    ensures MutationStatement(BatchMutation(e.CombinedWith(other)))
         == (var t :- MutationStatement(other); Ok(Batch(Logged, [DeleteStatement(e), t])))
  {
    ChildStatementsAppend(b.mutations, other);
    PairStatements(InsertMutation(d), other);
    PairStatements(DeleteMutation(e), other);
  }

  lemma PairStatements(first: Mutation, second: Mutation)
    ensures ChildStatements([first, second])
         == (var s :- MutationStatement(first); var t :- MutationStatement(second); Ok([s, t]))
  {
    ChildStatementsAppend([], first);
    assert [] + [first] == [first];
    ChildStatementsAppend([first], second);
    assert [first] + [second] == [first, second];
    var s := MutationStatement(first);
    var t := MutationStatement(second);
    if s.Ok? {
      assert ChildStatements([first]) == Ok([s.value]) by {
        assert [] + [s.value] == [s.value];
      }
      if t.Ok? {
        assert [s.value] + [t.value] == [s.value, t.value];
      }
    }
  }

  /** `getStatement()` of the batch. */
  method GetBatchStatement(b: BatchData) returns (r: Result<Statement, Error>)
    ensures r == MutationStatement(BatchMutation(b))
  {
    var children: seq<Statement> := [];
    var i := 0;
    ChildStatementsInOrder(b.mutations);
    while i < |b.mutations|
      invariant 0 <= i <= |b.mutations|
      invariant ChildStatements(b.mutations[..i]) == Ok(children)
    {
      var s := MutationStatement(b.mutations[i]);
      ChildStatementsAppend(b.mutations[..i], b.mutations[i]);
      assert b.mutations[..i + 1] == b.mutations[..i] + [b.mutations[i]];
      if s.Err? {
        ChildStatementsFailOnward(b.mutations, i + 1);
        return Err(s.error);
      }
      children := children + [s.value];
      i := i + 1;
    }
    assert b.mutations[..i] == b.mutations;
    r := Ok(Batch(b.batchType, children));
  }

  /** Once a prefix of the children fails, all of them fail with the same error. */
  lemma {:induction false} ChildStatementsFailOnward(ms: seq<Mutation>, n: nat)
    requires n <= |ms| && ChildStatements(ms[..n]).Err?
    ensures ChildStatements(ms) == ChildStatements(ms[..n])
    decreases |ms| - n
  {
    if n == |ms| {
      assert ms[..n] == ms;
    } else {
      ChildStatementsAppend(ms[..n], ms[n]);
      assert ms[..n + 1] == ms[..n] + [ms[n]];
      ChildStatementsFailOnward(ms, n + 1);
    }
  }
}
