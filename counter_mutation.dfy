/** `CounterMutationQueryData` of the java7 core: a counter column changed by
  * a signed difference, on the rows given by keys or where clauses; the
  * difference goes out as an increment or a decrement. */
module CounterMutation {

  import opened Wrappers
  import opened Values
  import opened Statements
  import opened TroilusContext

  /** The fields of the source class; a `null` name is None. */
  datatype CounterData = CounterData(
    keys: seq<(string, Value)>,
    whereConditions: seq<Clause>,
    name: Option<string>,
    diff: Int64)
  {
    function Keys(keys: seq<(string, Value)>): (r: CounterData)
      ensures r.keys == keys && r.(keys := this.keys) == this
    {
      this.(keys := keys)
    }

    function WhereConditions(whereConditions: seq<Clause>): (r: CounterData)
      ensures r.whereConditions == whereConditions && r.(whereConditions := this.whereConditions) == this
    {
      this.(whereConditions := whereConditions)
    }

    function Name(name: Option<string>): (r: CounterData)
      ensures r.name == name && r.(name := this.name) == this
    {
      this.(name := name)
    }

    function Diff(diff: Int64): (r: CounterData)
      ensures r.diff == diff && r.(diff := this.diff) == this
    {
      this.(diff := diff)
    }
  }

  /** `new CounterMutationQueryData()`. */
  function Empty(): (d: CounterData)
    ensures d.keys == [] && d.whereConditions == [] && d.name.None? && d.diff == 0
  {
    CounterData([], [], None, 0)
  }

  /** A positive difference is an increment by it; any other a decrement by
    * `0 - diff`, computed on a Java `long`. */
  function Amount(diff: Int64): (Op, Int64)
  {
    if diff > 0 then (Incr, diff) else (Decr, NegateInt64(diff))
  }

  /** What applying the amount does to the counter. */
  function Change(amount: (Op, Int64)): int
  {
    if amount.0 == Incr then amount.1 as int else -(amount.1 as int)
  }

  /** The amount is never negative and changes the counter by exactly the
    * difference, except for `Long.MIN_VALUE`, whose negation wraps. */
  lemma AmountMeaning(diff: Int64)
    ensures Amount(diff).0 == Incr <==> diff > 0
    ensures diff != INT64_MIN ==> Amount(diff).1 >= 0 && Change(Amount(diff)) == diff
    ensures diff == INT64_MIN ==> Amount(diff) == (Decr, INT64_MIN) && Change(Amount(diff)) == -(diff as int)
  {
  }

  /** A zero difference decrements by zero. */
  lemma ZeroIsDecrement()
    ensures Amount(0) == (Decr, 0)
  {
  }

  /** The counter update with the given amount slot, where clauses and TTL slot. */
  function CounterQuery(ctx: Context, name: string, op: Op, amount: Term, where: seq<Condition>, ttl: Option<Term>): Query
  {
    NewQuery(UpdateKind, Table(ctx)).(assignments := [Assign(op, name, amount)], where := where, ttl := ttl)
  }

  /** Key-based: prepared, binding the amount, then the key values as given,
    * then the TTL. Where-based: literal amount and TTL, then the where
    * clauses in order. */
  function CounterStatement(d: CounterData, ctx: Context): Statement
    requires d.name.Some?
  {
    var (op, amount) := Amount(d.diff);
    if d.whereConditions == [] then
      Bound(CounterQuery(ctx, d.name.value, op, Marker, KeyMarkers(Names(d.keys)), TtlMarker(ctx)),
            [Num(amount)] + EntryValues(d.keys) + TtlValues(ctx))
    else
      Unprepared(CounterQuery(ctx, d.name.value, op, Lit(Num(amount)), GivenConditions(d.whereConditions), TtlLiteral(ctx)))
  }

  /** Binding the key-based counter update gives the literal update with the
    * amount, the keys and the TTL inlined, one value per marker. */
  lemma KeyBasedCounterBinding(d: CounterData, ctx: Context)
    requires d.name.Some? && d.whereConditions == []
    ensures var s := CounterStatement(d, ctx);
      && s.Bound? && |s.values| == MarkerCount(s.query) == 1 + |d.keys| + |TtlValues(ctx)|
      && Fill(s.query, s.values) == Some(CounterQuery(ctx, d.name.value, Amount(d.diff).0, Lit(Num(Amount(d.diff).1)),
                                                      KeyLiterals(Names(d.keys), EntryValues(d.keys)), TtlLiteral(ctx)))
  {
    var (op, amount) := Amount(d.diff);
    var q := CounterQuery(ctx, d.name.value, op, Marker, KeyMarkers(Names(d.keys)), TtlMarker(ctx));
    FillPrepared(q, [Num(amount)], EntryValues(d.keys), TtlValues(ctx));
    SubstituteKeyMarkers(Names(d.keys), EntryValues(d.keys));
    assert SubstituteAssignments(q.assignments, [Num(amount)]) == [Assign(op, d.name.value, Lit(Num(amount)))];
  }

  /** The where-based counter update binds nothing. */
  lemma WhereBasedCounterLiteral(d: CounterData, ctx: Context)
    requires d.name.Some? && d.whereConditions != []
    ensures var s := CounterStatement(d, ctx);
      && s.Unprepared? && IsLiteral(s.query) && MarkerCount(s.query) == 0
      && s.query.where == GivenConditions(d.whereConditions)
  {
  }

  /** `toStatement(ctx)`. */
  method ToStatement(d: CounterData, ctx: Context) returns (s: Statement)
    requires d.name.Some?
    ensures s == CounterStatement(d, ctx)
  {
    if d.whereConditions == [] {
      s := ToKeyBasedStatement(d, ctx);
    } else {
      s := ToWhereBasedStatement(d, ctx);
    }
  }

  /** The key-based branch of `toStatement`: markers for amount, keys and TTL. */
  method ToKeyBasedStatement(d: CounterData, ctx: Context) returns (s: Statement)
    requires d.name.Some? && d.whereConditions == []
    ensures s == CounterStatement(d, ctx)
  {
    var op: Op, amount: Int64;
    if d.diff > 0 {
      op, amount := Incr, d.diff;
    } else {
      op, amount := Decr, NegateInt64(d.diff);
    }
    assert (op, amount) == Amount(d.diff);
    var update := NewQuery(UpdateKind, Table(ctx)).(assignments := [Assign(op, d.name.value, Marker)]);
    var k := AddKeyMarkers(d.keys, RawValue(), [], [Num(amount)]);
    RawValues(d.keys);
    assert [] + KeyMarkers(Names(d.keys)) == KeyMarkers(Names(d.keys));
    assert k == Ok((KeyMarkers(Names(d.keys)), [Num(amount)] + EntryValues(d.keys)));
    update := update.(where := k.value.0);
    var values := k.value.1;
    if ctx.executionSpec.ttlSec.Some? {
      update := update.(ttl := Some(Marker));
      values := values + [Num(ctx.executionSpec.ttlSec.value)];
    }
    assert update == CounterQuery(ctx, d.name.value, op, Marker, KeyMarkers(Names(d.keys)), TtlMarker(ctx));
    assert values == [Num(amount)] + EntryValues(d.keys) + TtlValues(ctx);
    s := Bound(update, values);
  }

  /** The where-based branch of `toStatement`: everything inlined. */
  method ToWhereBasedStatement(d: CounterData, ctx: Context) returns (s: Statement)
    requires d.name.Some? && d.whereConditions != []
    ensures s == CounterStatement(d, ctx)
  {
    var update := NewQuery(UpdateKind, Table(ctx));
    if d.diff > 0 {
      update := update.(assignments := [Assign(Incr, d.name.value, Lit(Num(d.diff)))]);
    } else {
      update := update.(assignments := [Assign(Decr, d.name.value, Lit(Num(NegateInt64(d.diff))))]);
    }
    if ctx.executionSpec.ttlSec.Some? {
      update := update.(ttl := Some(Lit(Num(ctx.executionSpec.ttlSec.value))));
    }
    var where := AddGivenConditions(d.whereConditions, []);
    assert where == GivenConditions(d.whereConditions);
    s := Unprepared(update.(where := where));
  }
}
