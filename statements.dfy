/** The driver's statements, kept abstract: a statement is the list of clauses
  * the QueryBuilder was given, each value slot either a bind marker or a
  * literal, plus (for a prepared statement) the values bound to the markers.
  * The CQL text is not produced; what matters is which value ends up in which
  * slot, and that is what `Fill` computes. */
module Statements {

  import opened Wrappers
  import opened Values

  datatype Kind = InsertKind | UpdateKind | DeleteKind | SelectKind

  /** A value slot: `bindMarker()` or an inlined literal. */
  datatype Term = Marker | Lit(v: Value)

  /** The QueryBuilder assignment that produced an entry. */
  datatype Op =
    | SetValue     // insert.value(c, t) and update set(c, t)
    | AddAll       // addAll: add to a set
    | RemoveAll    // removeAll: remove from a set
    | PrependAll   // prependAll: prepend to a list
    | AppendAll    // appendAll: append to a list
    | DiscardAll   // discardAll: remove list elements
    | PutAll       // putAll: put map entries
    | Incr         // incr: counter increment
    | Decr         // decr: counter decrement

  datatype Assignment = Assign(op: Op, column: string, term: Term)

  /** A where clause: a key equality built by the layer, or a user's clause. */
  datatype Condition = KeyEq(column: string, term: Term) | Given(clause: Clause)

  datatype Selector =
    | Column(name: string)
    | TtlOf(name: string)
    | WritetimeOf(name: string)
    | MapElement(mapColumn: string, key: Value)

  datatype Target = Target(keyspace: Option<string>, table: string)

  datatype Query = Query(
    kind: Kind,
    target: Target,
    selectAll: bool,             // select().all()
    selectors: seq<Selector>,    // selected or deleted columns, in call order
    distinct: bool,
    assignments: seq<Assignment>,
    where: seq<Condition>,
    onlyIf: seq<Clause>,
    ifNotExists: bool,
    ifExists: bool,
    ttl: Option<Term>,           // using(ttl(...))
    limit: Option<Int32>,
    allowFiltering: bool,
    fetchSize: Option<Int32>,
    serialConsistency: Option<Consistency>)

  /** `insertInto`, `update`, `delete().from` or `select().from` with nothing added yet. */
  function NewQuery(kind: Kind, target: Target): (q: Query)
    ensures q.kind == kind && q.target == target
    ensures q.assignments == [] && q.where == [] && q.selectors == [] && q.onlyIf == []
    ensures q.ttl.None? && !q.ifNotExists && !q.ifExists && !q.selectAll
  {
    Query(kind, target, false, [], false, [], [], [], false, false, None, None, false, None, None)
  }

  datatype BatchType = Logged | Unlogged

  datatype Statement =
    | Bound(query: Query, values: seq<Value>)  // prepared, then bound positionally
    | Unprepared(query: Query)                 // literal statement
    | Batch(batchType: BatchType, children: seq<Statement>)

  // ---------------------------------------------------------------------------
  // Entries and the clauses built from them

  function Names<X>(entries: seq<(string, X)>): (r: seq<string>)
    ensures |r| == |entries| && forall i :: 0 <= i < |r| ==> r[i] == entries[i].0
  {
    seq(|entries|, i requires 0 <= i < |entries| => entries[i].0)
  }

  function EntryValues(entries: seq<(string, Value)>): (r: seq<Value>)
    ensures |r| == |entries| && forall i :: 0 <= i < |r| ==> r[i] == entries[i].1
  {
    seq(|entries|, i requires 0 <= i < |entries| => entries[i].1)
  }

  function MarkerAssignments(op: Op, names: seq<string>): (r: seq<Assignment>)
    ensures |r| == |names| && forall i :: 0 <= i < |r| ==> r[i] == Assign(op, names[i], Marker)
  {
    seq(|names|, i requires 0 <= i < |names| => Assign(op, names[i], Marker))
  }

  function LiteralAssignments(op: Op, names: seq<string>, vals: seq<Value>): (r: seq<Assignment>)
    requires |names| == |vals|
    ensures |r| == |names| && forall i :: 0 <= i < |r| ==> r[i] == Assign(op, names[i], Lit(vals[i]))
  {
    seq(|names|, i requires 0 <= i < |names| => Assign(op, names[i], Lit(vals[i])))
  }

  function KeyMarkers(names: seq<string>): (r: seq<Condition>)
    ensures |r| == |names| && forall i :: 0 <= i < |r| ==> r[i] == KeyEq(names[i], Marker)
  {
    seq(|names|, i requires 0 <= i < |names| => KeyEq(names[i], Marker))
  }

  function KeyLiterals(names: seq<string>, vals: seq<Value>): (r: seq<Condition>)
    requires |names| == |vals|
    ensures |r| == |names| && forall i :: 0 <= i < |r| ==> r[i] == KeyEq(names[i], Lit(vals[i]))
  {
    seq(|names|, i requires 0 <= i < |names| => KeyEq(names[i], Lit(vals[i])))
  }

  function GivenConditions(clauses: seq<Clause>): (r: seq<Condition>)
    ensures |r| == |clauses| && forall i :: 0 <= i < |r| ==> r[i] == Given(clauses[i])
  {
    seq(|clauses|, i requires 0 <= i < |clauses| => Given(clauses[i]))
  }

  /** The coercion that leaves an entry's value as it is. */
  function RawValue(): ((string, Value)) -> Result<Value, Error>
  {
    (e: (string, Value)) => Ok(e.1)
  }

  lemma RawValues(entries: seq<(string, Value)>)
    ensures MapAll(RawValue(), entries) == Ok(EntryValues(entries))
  {
    assert forall i :: 0 <= i < |entries| ==> RawValue()(entries[i]) == Ok(entries[i].1);
    var r := MapAll(RawValue(), entries);
    assert r.value == EntryValues(entries);
  }

  // ---------------------------------------------------------------------------
  // Binding: the values of a prepared statement fill its markers in the order
  // the builder emitted them (assignments, then where clauses, then the TTL).

  predicate AllMarkers(assignments: seq<Assignment>)
  {
    forall i :: 0 <= i < |assignments| ==> assignments[i].term == Marker
  }

  predicate NoMarkers(assignments: seq<Assignment>)
  {
    forall i :: 0 <= i < |assignments| ==> assignments[i].term.Lit?
  }

  predicate AllKeyMarkers(conditions: seq<Condition>)
  {
    forall i :: 0 <= i < |conditions| ==> conditions[i].KeyEq? && conditions[i].term == Marker
  }

  predicate NoKeyMarkers(conditions: seq<Condition>)
  {
    forall i :: 0 <= i < |conditions| ==> conditions[i].Given? || conditions[i].term.Lit?
  }

  /** A statement that has no marker left. */
  predicate IsLiteral(q: Query)
  {
    NoMarkers(q.assignments) && NoKeyMarkers(q.where) && q.ttl != Some(Marker)
  }

  function AssignmentMarkers(assignments: seq<Assignment>): (n: nat)
    ensures n <= |assignments|
    ensures AllMarkers(assignments) ==> n == |assignments|
    ensures NoMarkers(assignments) ==> n == 0
  {
    if assignments == [] then 0
    else (if assignments[0].term == Marker then 1 else 0) + AssignmentMarkers(assignments[1..])
  }

  function ConditionMarkers(conditions: seq<Condition>): (n: nat)
    ensures n <= |conditions|
    ensures AllKeyMarkers(conditions) ==> n == |conditions|
    ensures NoKeyMarkers(conditions) ==> n == 0
  {
    if conditions == [] then 0
    else (if conditions[0].KeyEq? && conditions[0].term == Marker then 1 else 0) + ConditionMarkers(conditions[1..])
  }

  /** The number of bind markers of a statement. */
  function MarkerCount(q: Query): nat
  {
    AssignmentMarkers(q.assignments) + ConditionMarkers(q.where) + (if q.ttl == Some(Marker) then 1 else 0)
  }

  function FillAssignments(assignments: seq<Assignment>, vals: seq<Value>): (r: Option<(seq<Assignment>, seq<Value>)>)
    ensures r.Some? <==> AssignmentMarkers(assignments) <= |vals|
    ensures r.Some? ==>
      && |r.value.0| == |assignments| && NoMarkers(r.value.0)
      && r.value.1 == vals[AssignmentMarkers(assignments)..]
  {
    if assignments == [] then Some(([], vals))
    else
      var a := assignments[0];
      if a.term == Marker then
        if vals == [] then None
        else
          var rest :- FillAssignments(assignments[1..], vals[1..]);
          Some(([a.(term := Lit(vals[0]))] + rest.0, rest.1))
      else
        var rest :- FillAssignments(assignments[1..], vals);
        Some(([a] + rest.0, rest.1))
  }

  function FillConditions(conditions: seq<Condition>, vals: seq<Value>): (r: Option<(seq<Condition>, seq<Value>)>)
    ensures r.Some? <==> ConditionMarkers(conditions) <= |vals|
    ensures r.Some? ==>
      && |r.value.0| == |conditions| && NoKeyMarkers(r.value.0)
      && r.value.1 == vals[ConditionMarkers(conditions)..]
  {
    if conditions == [] then Some(([], vals))
    else
      var c := conditions[0];
      if c.KeyEq? && c.term == Marker then
        if vals == [] then None
        else
          var rest :- FillConditions(conditions[1..], vals[1..]);
          Some(([c.(term := Lit(vals[0]))] + rest.0, rest.1))
      else
        var rest :- FillConditions(conditions[1..], vals);
        Some(([c] + rest.0, rest.1))
  }

  /** Binds `vals` to the markers of `q`; None when the counts differ. */
  function Fill(q: Query, vals: seq<Value>): (r: Option<Query>)
    ensures r.Some? <==> MarkerCount(q) == |vals|
    ensures r.Some? ==> IsLiteral(r.value)
  {
    var filledAssignments :- FillAssignments(q.assignments, vals);
    var filledConditions :- FillConditions(q.where, filledAssignments.1);
    var rest := filledConditions.1;
    if q.ttl == Some(Marker) then
      if |rest| == 1 then Some(q.(assignments := filledAssignments.0, where := filledConditions.0, ttl := Some(Lit(rest[0]))))
      else None
    else if rest == [] then Some(q.(assignments := filledAssignments.0, where := filledConditions.0))
    else None
  }

  // ---------------------------------------------------------------------------
  // Substitution: what binding does to a statement whose slots are all markers.

  function SubstituteAssignments(assignments: seq<Assignment>, vals: seq<Value>): (r: seq<Assignment>)
    requires |assignments| == |vals|
    ensures |r| == |assignments|
    ensures forall i :: 0 <= i < |r| ==> r[i] == assignments[i].(term := Lit(vals[i]))
  {
    seq(|assignments|, i requires 0 <= i < |assignments| => assignments[i].(term := Lit(vals[i])))
  }

  function SubstituteConditions(conditions: seq<Condition>, vals: seq<Value>): (r: seq<Condition>)
    requires |conditions| == |vals| && AllKeyMarkers(conditions)
    ensures |r| == |conditions|
    ensures forall i :: 0 <= i < |r| ==> r[i] == conditions[i].(term := Lit(vals[i]))
  {
    seq(|conditions|, i requires 0 <= i < |conditions| => conditions[i].(term := Lit(vals[i])))
  }

  lemma {:induction false} FillMarkedAssignments(assignments: seq<Assignment>, vals: seq<Value>, rest: seq<Value>)
    requires AllMarkers(assignments) && |assignments| == |vals|
    ensures FillAssignments(assignments, vals + rest) == Some((SubstituteAssignments(assignments, vals), rest))
  {
    if assignments != [] {
      var all := vals + rest;
      assert assignments[0].term == Marker && all != [] && all[0] == vals[0];
      assert all[1..] == vals[1..] + rest;
      FillMarkedAssignments(assignments[1..], vals[1..], rest);
      assert [assignments[0].(term := Lit(vals[0]))] + SubstituteAssignments(assignments[1..], vals[1..])
          == SubstituteAssignments(assignments, vals);
    }
  }

  lemma {:induction false} FillMarkedConditions(conditions: seq<Condition>, vals: seq<Value>, rest: seq<Value>)
    requires AllKeyMarkers(conditions) && |conditions| == |vals|
    ensures FillConditions(conditions, vals + rest) == Some((SubstituteConditions(conditions, vals), rest))
  {
    if conditions != [] {
      var c, all := conditions[0], vals + rest;
      assert c.KeyEq? && c.term == Marker && all != [] && all[0] == vals[0];
      assert all[1..] == vals[1..] + rest;
      FillMarkedConditions(conditions[1..], vals[1..], rest);
      assert [c.(term := Lit(vals[0]))] + SubstituteConditions(conditions[1..], vals[1..])
          == SubstituteConditions(conditions, vals);
    }
  }

  /** The binding theorem for a prepared statement whose slots are all markers:
    * the i-th assignment gets the i-th value, the key clauses get the values
    * after them, and the TTL gets the last one. */
  lemma FillPrepared(q: Query, assignmentValues: seq<Value>, keyValues: seq<Value>, ttlValues: seq<Value>)
    requires AllMarkers(q.assignments) && |q.assignments| == |assignmentValues|
    requires AllKeyMarkers(q.where) && |q.where| == |keyValues|
    requires q.ttl == Some(Marker) || q.ttl.None?
    requires |ttlValues| == (if q.ttl.Some? then 1 else 0)
    ensures Fill(q, assignmentValues + keyValues + ttlValues) == Some(q.(
      assignments := SubstituteAssignments(q.assignments, assignmentValues),
      where := SubstituteConditions(q.where, keyValues),
      ttl := if q.ttl.Some? then Some(Lit(ttlValues[0])) else None))
  {
    assert assignmentValues + keyValues + ttlValues == assignmentValues + (keyValues + ttlValues);
    FillMarkedAssignments(q.assignments, assignmentValues, keyValues + ttlValues);
    FillMarkedConditions(q.where, keyValues, ttlValues);
  }

  lemma SubstituteMarkerAssignments(op: Op, names: seq<string>, vals: seq<Value>)
    requires |names| == |vals|
    ensures SubstituteAssignments(MarkerAssignments(op, names), vals) == LiteralAssignments(op, names, vals)
  {
  }

  lemma SubstituteKeyMarkers(names: seq<string>, vals: seq<Value>)
    requires |names| == |vals|
    ensures SubstituteConditions(KeyMarkers(names), vals) == KeyLiterals(names, vals)
  {
  }

  lemma SubstituteConcat(a1: seq<Assignment>, a2: seq<Assignment>, v1: seq<Value>, v2: seq<Value>)
    requires |a1| == |v1| && |a2| == |v2|
    ensures SubstituteAssignments(a1 + a2, v1 + v2) == SubstituteAssignments(a1, v1) + SubstituteAssignments(a2, v2)
  {
  }

  // ---------------------------------------------------------------------------
  // The loops of the builders: each walks a list of entries in order and adds
  // one clause per entry, with a marker and a bound value or with a literal.

  /** One loop of a prepared builder from the accumulated clauses and values:
    * `op(name, bindMarker())` per entry, and the entry's coerced value. */
  function MarkEntries<X>(acc: (seq<Assignment>, seq<Value>), op: Op, entries: seq<(string, X)>,
                          coerce: ((string, X)) -> Result<Value, Error>): (r: Result<(seq<Assignment>, seq<Value>), Error>)
    ensures r.Ok? ==> |r.value.0| == |acc.0| + |entries| && |r.value.1| == |acc.1| + |entries|
  {
    var vs :- MapAll(coerce, entries);
    Ok((acc.0 + MarkerAssignments(op, Names(entries)), acc.1 + vs))
  }

  /** One loop of a literal builder: `op(name, literal)` per entry. */
  function InlineEntries<X>(acc: seq<Assignment>, op: Op, entries: seq<(string, X)>,
                            coerce: ((string, X)) -> Result<Value, Error>): Result<seq<Assignment>, Error>
  {
    var vs :- MapAll(coerce, entries);
    Ok(acc + LiteralAssignments(op, Names(entries), vs))
  }

  /** A literal loop builds what binding the values of the prepared loop to
    * its markers builds, and fails exactly when it fails, with the same error. */
  lemma InlineIsSubstitutedMark<X>(acc: (seq<Assignment>, seq<Value>), op: Op, entries: seq<(string, X)>,
                                   coerce: ((string, X)) -> Result<Value, Error>)
    requires |acc.0| == |acc.1|
    ensures MarkEntries(acc, op, entries, coerce).Ok? ==>
              |MarkEntries(acc, op, entries, coerce).value.0| == |MarkEntries(acc, op, entries, coerce).value.1|
    ensures InlineEntries(SubstituteAssignments(acc.0, acc.1), op, entries, coerce)
         == (var p :- MarkEntries(acc, op, entries, coerce); Ok(SubstituteAssignments(p.0, p.1)))
  {
    var m := MapAll(coerce, entries);
    if m.Ok? {
      SubstituteConcat(acc.0, MarkerAssignments(op, Names(entries)), acc.1, m.value);
      SubstituteMarkerAssignments(op, Names(entries), m.value);
    }
  }

  lemma MarkerAssignmentsStep<X>(op: Op, entries: seq<(string, X)>, i: nat)
    requires i < |entries|
    ensures MarkerAssignments(op, Names(entries[..i + 1]))
         == MarkerAssignments(op, Names(entries[..i])) + [Assign(op, entries[i].0, Marker)]
  {
  }

  lemma LiteralAssignmentsStep<X>(op: Op, entries: seq<(string, X)>, i: nat, done: seq<Value>, v: Value)
    requires i < |entries| && |done| == i
    ensures LiteralAssignments(op, Names(entries[..i + 1]), done + [v])
         == LiteralAssignments(op, Names(entries[..i]), done) + [Assign(op, entries[i].0, Lit(v))]
  {
  }

  /** Adds `op(name, bindMarker())` per entry and the entry's coerced value. */
  method AddMarkedEntries<X>(op: Op, entries: seq<(string, X)>, coerce: ((string, X)) -> Result<Value, Error>,
                             assignments: seq<Assignment>, values: seq<Value>)
    returns (r: Result<(seq<Assignment>, seq<Value>), Error>)
    ensures r == MarkEntries((assignments, values), op, entries, coerce)
  {
    var added: seq<Assignment> := [];
    var done: seq<Value> := [];
    var i := 0;
    while i < |entries|
      invariant 0 <= i <= |entries|
      invariant MapAll(coerce, entries[..i]) == Ok(done)
      invariant added == MarkerAssignments(op, Names(entries[..i]))
    {
      var v := coerce(entries[i]);
      if v.Err? {
        MapAllFailsAt(coerce, entries, i);
        return Err(v.error);
      }
      MapAllStep(coerce, entries, i, done, v.value);
      MarkerAssignmentsStep(op, entries, i);
      added := added + [Assign(op, entries[i].0, Marker)];
      done := done + [v.value];
      i := i + 1;
    }
    assert entries[..i] == entries;
    r := Ok((assignments + added, values + done));
  }

  /** Adds `op(name, literal)` per entry, the literal being the coerced value. */
  method AddLiteralEntries<X>(op: Op, entries: seq<(string, X)>, coerce: ((string, X)) -> Result<Value, Error>,
                              assignments: seq<Assignment>)
    returns (r: Result<seq<Assignment>, Error>)
    ensures r == InlineEntries(assignments, op, entries, coerce)
  {
    var added: seq<Assignment> := [];
    var done: seq<Value> := [];
    var i := 0;
    while i < |entries|
      invariant 0 <= i <= |entries|
      invariant MapAll(coerce, entries[..i]) == Ok(done) && |done| == i
      invariant added == LiteralAssignments(op, Names(entries[..i]), done)
    {
      var v := coerce(entries[i]);
      if v.Err? {
        MapAllFailsAt(coerce, entries, i);
        return Err(v.error);
      }
      MapAllStep(coerce, entries, i, done, v.value);
      LiteralAssignmentsStep(op, entries, i, done, v.value);
      added := added + [Assign(op, entries[i].0, Lit(v.value))];
      done := done + [v.value];
      i := i + 1;
    }
    assert entries[..i] == entries;
    r := Ok(assignments + added);
  }

  /** Adds `eq(name, bindMarker())` per key and the key's coerced value. */
  method AddKeyMarkers(keys: seq<(string, Value)>, coerce: ((string, Value)) -> Result<Value, Error>,
                       where: seq<Condition>, values: seq<Value>)
    returns (r: Result<(seq<Condition>, seq<Value>), Error>)
    ensures r == (var vs :- MapAll(coerce, keys);
                  Ok((where + KeyMarkers(Names(keys)), values + vs)))
  {
    var added: seq<Condition> := [];
    var done: seq<Value> := [];
    var i := 0;
    while i < |keys|
      invariant 0 <= i <= |keys|
      invariant MapAll(coerce, keys[..i]) == Ok(done)
      invariant added == KeyMarkers(Names(keys[..i]))
    {
      var v := coerce(keys[i]);
      if v.Err? {
        MapAllFailsAt(coerce, keys, i);
        return Err(v.error);
      }
      MapAllStep(coerce, keys, i, done, v.value);
      added := added + [KeyEq(keys[i].0, Marker)];
      done := done + [v.value];
      i := i + 1;
    }
    assert keys[..i] == keys;
    r := Ok((where + added, values + done));
  }

  /** Appends the user's clauses, in order, as where clauses. */
  method AddGivenConditions(clauses: seq<Clause>, where: seq<Condition>) returns (r: seq<Condition>)
    ensures r == where + GivenConditions(clauses)
  {
    r := where;
    var i := 0;
    while i < |clauses|
      invariant 0 <= i <= |clauses|
      invariant r == where + GivenConditions(clauses[..i])
    {
      r := r + [Given(clauses[i])];
      i := i + 1;
    }
    assert clauses[..i] == clauses;
  }

  /** Appends the user's clauses, in order, as IF conditions. */
  method AddOnlyIf(clauses: seq<Clause>, onlyIf: seq<Clause>) returns (r: seq<Clause>)
    ensures r == onlyIf + clauses
  {
    r := onlyIf;
    var i := 0;
    while i < |clauses|
      invariant 0 <= i <= |clauses|
      invariant r == onlyIf + clauses[..i]
    {
      r := r + [clauses[i]];
      i := i + 1;
    }
    assert clauses[..i] == clauses;
  }
}
