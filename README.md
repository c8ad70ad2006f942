# Troilus data-access core, modelled in Dafny

Troilus is a fluent data-access layer over the DataStax Cassandra driver.
This project models the part between the fluent builder calls and the driver.

It covers these parts:

- **Immutable query specifications.** These are the write, delete and counter
  query data of the minimal and java7 cores, the execution specification, and
  the builders inside `DaoImpl`, `WriteQuery`, `DeleteQuery` and
  `SingleReadQuery`.
- **Statement construction.** A key-based mutation becomes a prepared
  statement plus its bound values. A where-based one becomes a literal,
  unprepared statement.
- **Value coercion.** This turns a Java value into the value bound for a
  column, depending on the column's type.
- **Result interpretation.** This covers the applied flag of conditional
  mutations and the checks of a single-row read.
- **The demand-driven `DatabaseSubscription`** of `DaoImpl`'s result.
- **The prepared-statement caches** of both session classes, with their
  rate-limited invalidation.

The driver stays abstract. A statement is a `Statements.Query` record: its
kind, target table, assignments, where clauses, IF clauses, TTL slot and
flags. Each value slot is either a bind marker or a literal. A prepared
statement is `Bound(query, values)`. `Statements.Fill` binds the values to the
markers in order. The binding lemma of each builder states two things: the
values match the markers one for one, and filling them in gives the literal
statement the where-based path would build from the same data.

Modules follow the source files:

| module | file | models |
|---|---|---|
| `Values`, `Wrappers`, `Collections`, `Statements` | values, wrappers, collections, statements | the Java values, Optional/exceptions, Guava immutable collections, the QueryBuilder statement |
| `Coercion` | coercion | `toStatementValue` shared by `Context` and `DBSession` of the java7 core |
| `RateLimit` | rate_limit | the "at most once per interval" cache invalidation |
| `TroilusContext` | context | `Context`, `Context.ExecutionSpec`, `Context.DBSession` (java7 core) |
| `DbSession` | dbsession | `DBSession` and its `PreparedStatementCache` (java7 core) |
| `LegacyContext` | legacy_context | the context of the original core that `DaoImpl`, `WriteQuery`, `SingleReadQuery` and `DeleteQuery` use |
| `MinimalWrite`, `MinimalDelete` | minimal_write, minimal_delete | `MinimalWriteQueryData`, `DeleteQueryData` (minimal core) |
| `DeleteDataImpl`, `CounterMutation` | delete_data_impl, counter_mutation | `DeleteQueryDataImpl`, `CounterMutationQueryData` (java7 core) |
| `WriteQuery`, `DeleteQuery`, `SingleRead`, `ColumnsToFetch` | write_query, delete_query, single_read, column_to_fetch | the original core's builders |
| `DaoImplMutations`, `DaoImplReads`, `DaoImplSubscription` | dao_impl_mutations, dao_impl_reads, subscription | `DaoImpl`: insert, delete and batch; single and list reads; `RecordsImpl` and `DatabaseSubscription` |

Quirks of the source are modelled as written, and a lemma exhibits each one:

- `MinimalWriteQueryData` emits IF NOT EXISTS for `ifNotExists(false)` too
  (`MinimalWrite.IfNotExistsFalseStillConditional`).
- It coerces map keys twice (`MinimalWrite.CoercedKeyOf`; see
  `Coercion.CoerceUdtNotIdempotent` for why that matters).
- `WriteQuery.UpdateQuery.getStatement` adds the IF clauses twice on the
  key-based path (`WriteQuery.KeyBasedUpdateBinding`).
- `SingleReadQuery` selects a requested key column twice, because its
  `contains(name)` test on a set of `ColumnToFetch` never succeeds
  (`SingleRead.RequestedKeySelectedTwice`).
- `DaoImpl`'s subscription tells the subscriber it is complete and then
  still fetches and delivers (`DaoImplSubscription.CompletionBeforeLastRows`,
  `DaoImplSubscription.ExhaustedCompletesAndRefetches`).
- `DaoImpl`'s single-row read rejects a row whose key equals the requested
  one. See "Findings" below.

Assumptions about classes whose text is not part of this model:

- The `Context` of the original core (`com.unitedinternet.troilus.Context`)
  is not part of this model. `LegacyContext.Context` keeps exactly what the
  modelled code reads from it: the consistency levels, the TTL, the write
  time, the IF NOT EXISTS flag, the table and the column types.
- Its `isBuildInType` is taken to be "not a user-defined type".
- `getTable()` is taken to be the table without a keyspace.
- The UDT mapper is represented by the constructor `UdtValue(type, value)`.
  The mapper itself is not modelled.
- `Immutables.merge` of a map is taken to be a `put` that keeps the position
  of an existing key. For a list it is taken to be an append.
- `Immutables.toSet` is taken to keep the order of first occurrence.
- A Java map is a sequence of entries in iteration order. The order of a
  `HashMap` is taken to be the order of its input. This applies to the one in
  `DaoImpl`'s `values` and to the coerced map that `MinimalWriteQueryData`
  builds (`MinimalWriteQueryData.java:512`).
- The minimal core's data classes take a `com.unitedinternet.troilus.Context`,
  which is not part of this model. `MinimalWrite` and `MinimalDelete` are
  modelled over the java7 core's `TroilusContext.Context`. From it they read
  the column types, the table (`TroilusContext.Table`) and the TTL of the
  execution specification (`ctx.executionSpec.ttlSec`).
- The `udtValueMapper.toStatementValue` of `DeleteQueryDataImpl.java:193` is
  taken to be the coercion of `DBSession.toStatementValue`. It is modelled by
  `DBSession.EntryCoercer`.
- `QueryFactory.ColumnToFetch`, which `SingleReadQuery` uses, is not part of
  this model. It is taken to be the same as `ColumnToFetch.java` and as the
  class nested in `DaoImpl` (`DaoImpl.java:602-632`), which have the same
  text. The one module `ColumnsToFetch` models all three.
- `ctx.toOptional` of `WriteQuery` is taken to map null to an empty Optional
  and an Optional to itself (`WriteQuery.IsPresent`).
- `DataType.serializeValue` is a parameter `ser` of the single-read
  result check. An injective `ser` is assumed where a lemma needs it.
- The `Record` of this version of `DaoImpl` is not part of this model.
  `record.get(name)` is taken to return the decoded value of the column,
  or null when the column is null or not in the row.
- `MetadataCatalog` (used at `DBSession.java:173` and `:193`) is not part of
  this model. A table it does not know is taken to have no columns, and an
  unknown table or column is taken to fail with `UnknownColumn(name)`
  (`DbSession.DBSession.ColumnsOf`).
- A user's `Clause` is compared by value. The source's sets of clauses
  compare by identity, which is the same for distinct clause objects.

## Model

| member | source | states |
|---|---|---|
| Values.ToInt32 | src/main/java/com/unitedinternet/troilus/DaoImpl.java:238 | the `(int)` cast of the TTL seconds keeps a value in int range and otherwise wraps modulo 2^32 |
| Values.NegateInt64 | troilus-core-java7/src/main/java/net/oneandone/troilus/CounterMutationQueryData.java:123 | `0 - diff` on a long is the negation, except that `Long.MIN_VALUE` stays itself |
| Values.OrNull | src/main/java/com/unitedinternet/troilus/WriteQuery.java:360-367 | `Optional.orNull()`: the content or null |
| Values.CopyOfList | src/main/java/com/unitedinternet/troilus/DaoImpl.java:236 | `ImmutableList.copyOf` succeeds iff no element is null, keeps the list, and otherwise throws a NullPointerException |
| Coercion.CoerceByType | troilus-core-java7/src/main/java/net/oneandone/troilus/Context.java:244-266 | an enum into a text, ascii or varchar column becomes its name; a byte array into a blob column becomes a buffer; other built-in values pass through; a UDT column goes to the mapper; a non-null value never becomes null |
| Coercion.ToStatementValue | troilus-core-java7/src/main/java/net/oneandone/troilus/DBSession.java:168-195 | null or an empty collection or map becomes null before any metadata lookup; otherwise the value succeeds iff the column is known, fails with an unknown-column error, and is coerced by the column's type |
| Coercion.CoerceBuiltInIdempotent | troilus-core-minimal/src/main/java/com/unitedinternet/troilus/MinimalWriteQueryData.java:514 | coercing twice is coercing once, for a built-in type |
| Coercion.CoerceUdtNotIdempotent | troilus-core-minimal/src/main/java/com/unitedinternet/troilus/MinimalWriteQueryData.java:514 | for a user-defined type a second coercion changes the value again |
| RateLimit.InvalidationTimes | troilus-core-java7/src/main/java/net/oneandone/troilus/DBSession.java:230-238 | the invalidations of a run of clean-up requests are among those requests and no more of them |
| RateLimit.InvalidationsAreSpaced | troilus-core-java7/src/main/java/net/oneandone/troilus/DBSession.java:230-238 | any two invalidations of a run are more than the interval apart, and the first is more than the interval after the previous one |
| RateLimit.BurstInvalidatesOnce | troilus-core-java7/src/main/java/net/oneandone/troilus/Context.java:560-569 | a burst of requests within the interval of one that invalidates invalidates only once |
| RateLimit.NoneAfter | troilus-core-java7/src/main/java/net/oneandone/troilus/Context.java:560-569 | requests within the interval after the last invalidation invalidate nothing |
| TroilusContext.InterceptorRegistry.WithInterceptor | troilus-core-java7/src/main/java/net/oneandone/troilus/Context.java:124-131 | a registered interceptor goes after the existing ones |
| TroilusContext.ExecutionSpec.WithConsistency | troilus-core-java7/src/main/java/net/oneandone/troilus/Context.java:323-330 | sets the consistency level and keeps the other five fields |
| TroilusContext.ExecutionSpec.WithSerialConsistency | troilus-core-java7/src/main/java/net/oneandone/troilus/Context.java:332-339 | sets the serial consistency level and keeps the other five fields |
| TroilusContext.ExecutionSpec.WithTtl | troilus-core-java7/src/main/java/net/oneandone/troilus/Context.java:341-348 | sets the TTL and keeps the other five fields |
| TroilusContext.ExecutionSpec.WithWritetime | troilus-core-java7/src/main/java/net/oneandone/troilus/Context.java:350-357 | sets the write time and keeps the other five fields |
| TroilusContext.ExecutionSpec.WithTracking | troilus-core-java7/src/main/java/net/oneandone/troilus/Context.java:359-366 | tracing becomes true; nothing else changes |
| TroilusContext.ExecutionSpec.WithoutTracking | troilus-core-java7/src/main/java/net/oneandone/troilus/Context.java:368-375 | tracing becomes false (not null); nothing else changes |
| TroilusContext.ExecutionSpec.WithRetryPolicy | troilus-core-java7/src/main/java/net/oneandone/troilus/Context.java:377-384 | sets the retry policy and keeps the other five fields |
| TroilusContext.DefaultExecutionSpec | troilus-core-java7/src/main/java/net/oneandone/troilus/Context.java:299-306 | a new execution spec has all six settings absent |
| TroilusContext.SettersCommute | troilus-core-java7/src/main/java/net/oneandone/troilus/Context.java:323-384 | setters of different fields commute; of the tracing flag the later call wins |
| TroilusContext.DBSession.constructor | troilus-core-java7/src/main/java/net/oneandone/troilus/Context.java:439-452 | a new session knows the table's columns and starts with empty caches and a clean time of 0 |
| TroilusContext.DBSession.GetColumnMetadata | troilus-core-java7/src/main/java/net/oneandone/troilus/Context.java:532-538 | the type of a known column; an unknown column is an error |
| TroilusContext.DBSession.PrepareAsync | troilus-core-java7/src/main/java/net/oneandone/troilus/Context.java:540-557 | a cache hit returns the cached statement without asking the driver; a miss asks the driver and caches a successful answer under the query string |
| TroilusContext.DBSession.ClearCaches | troilus-core-java7/src/main/java/net/oneandone/troilus/Context.java:560-569 | empties both caches and records `now` iff `now` is more than 1000 ms after the last clean; otherwise nothing changes |
| TroilusContext.DBSession.ExecuteAsync | troilus-core-java7/src/main/java/net/oneandone/troilus/Context.java:494-505 | an accepted statement gives the driver's future; an invalid-query or driver-internal error gives a failed future after a rate-limited cache clean; any other error propagates |
| TroilusContext.Context.WithInterceptor | troilus-core-java7/src/main/java/net/oneandone/troilus/Context.java:124-131 | adds the interceptor last and keeps session, spec, bean mapper and executor |
| TroilusContext.Context.WithSerialConsistency | troilus-core-java7/src/main/java/net/oneandone/troilus/Context.java:133-139 | changes only the serial consistency of the spec |
| TroilusContext.Context.WithTtl | troilus-core-java7/src/main/java/net/oneandone/troilus/Context.java:141-147 | changes only the TTL of the spec |
| TroilusContext.Context.WithWritetime | troilus-core-java7/src/main/java/net/oneandone/troilus/Context.java:149-155 | changes only the write time of the spec |
| TroilusContext.Context.WithTracking | troilus-core-java7/src/main/java/net/oneandone/troilus/Context.java:157-163 | changes only the tracing flag of the spec, to true |
| TroilusContext.Context.WithoutTracking | troilus-core-java7/src/main/java/net/oneandone/troilus/Context.java:165-171 | changes only the tracing flag of the spec, to false |
| TroilusContext.Context.WithRetryPolicy | troilus-core-java7/src/main/java/net/oneandone/troilus/Context.java:173-179 | changes only the retry policy of the spec |
| TroilusContext.Context.WithConsistency | troilus-core-java7/src/main/java/net/oneandone/troilus/Context.java:181-187 | changes only the consistency of the spec |
| TroilusContext.Context.ToStatementValue | troilus-core-java7/src/main/java/net/oneandone/troilus/Context.java:239-278 | null or empty becomes null before the metadata lookup; otherwise it succeeds iff the column is known and coerces by its type |
| TroilusContext.Context.ToStatementValues | troilus-core-java7/src/main/java/net/oneandone/troilus/Context.java:229-237 | coerces each value in order, keeping the length; fails with the first failing value, or when a value coerces to null |
| TroilusContext.NewContext | troilus-core-java7/src/main/java/net/oneandone/troilus/Context.java:94-100 | a new context has the default spec and no interceptors |
| DbSession.PreparedStatementCache.constructor | troilus-core-java7/src/main/java/net/oneandone/troilus/DBSession.java:246-249 | the cache starts empty |
| DbSession.PreparedStatementCache.PrepareAsync | troilus-core-java7/src/main/java/net/oneandone/troilus/DBSession.java:252-269 | a hit returns the cached statement without asking the driver; a miss asks the driver and puts a successful answer under the query string |
| DbSession.PreparedStatementCache.InvalidateAll | troilus-core-java7/src/main/java/net/oneandone/troilus/DBSession.java:272-274 | the cache becomes empty |
| DbSession.DBSession.constructor | troilus-core-java7/src/main/java/net/oneandone/troilus/DBSession.java:74-84 | records the logged keyspace and whether it is assigned, and starts with an empty cache |
| DbSession.DBSession.IsKeyspacenameAssigned | troilus-core-java7/src/main/java/net/oneandone/troilus/DBSession.java:91-93 | true iff the logged keyspace is not null |
| DbSession.DBSession.PrepareAsync | troilus-core-java7/src/main/java/net/oneandone/troilus/DBSession.java:127-129 | delegates to the cache: a hit returns the cached statement and leaves the cache unchanged; a miss asks the driver, caches a successful answer under the query string and leaves the cache unchanged on failure |
| DbSession.DBSession.CleanUp | troilus-core-java7/src/main/java/net/oneandone/troilus/DBSession.java:230-238 | empties the cache and records `now` iff `now` is more than 1600 ms after the last clean; otherwise nothing changes |
| DbSession.DBSession.ExecuteAsync | troilus-core-java7/src/main/java/net/oneandone/troilus/DBSession.java:151-159 | an invalid-query or driver-internal error becomes a failed future with that same error, after a clean-up; other errors propagate; an accepted statement gives the driver's future |
| DbSession.DBSession.ToStatementValue | troilus-core-java7/src/main/java/net/oneandone/troilus/DBSession.java:168-195 | null or empty becomes null; otherwise it succeeds iff the table and column are in the catalog, and coerces by the column's type |
| DbSession.DBSession.ToStatementValues | troilus-core-java7/src/main/java/net/oneandone/troilus/DBSession.java:203-211 | coerces each value in order, keeping the length; fails with the first failure, or when a value coerces to null |
| LegacyContext.Context.ColumnType | src/main/java/com/unitedinternet/troilus/WriteQuery.java:336 | the type of a known column; an unknown column is an error |
| LegacyContext.TtlWraps | src/main/java/com/unitedinternet/troilus/DaoImpl.java:237-239 | a TTL of 2^31 seconds is bound as a negative int |
| MinimalWrite.WriteData.Keys | troilus-core-minimal/src/main/java/com/unitedinternet/troilus/MinimalWriteQueryData.java:109-121 | replaces the keys and nothing else |
| MinimalWrite.WriteData.WhereConditions | troilus-core-minimal/src/main/java/com/unitedinternet/troilus/MinimalWriteQueryData.java:124-138 | fails with IllegalState iff IF NOT EXISTS is set; otherwise replaces only the where clauses |
| MinimalWrite.WriteData.ValuesToMutate | troilus-core-minimal/src/main/java/com/unitedinternet/troilus/MinimalWriteQueryData.java:140-152 | replaces the values to mutate and nothing else |
| MinimalWrite.WriteData.SetValuesToAdd | troilus-core-minimal/src/main/java/com/unitedinternet/troilus/MinimalWriteQueryData.java:155-169 | fails with IllegalState iff IF NOT EXISTS is set; otherwise replaces only this field |
| MinimalWrite.WriteData.SetValuesToRemove | troilus-core-minimal/src/main/java/com/unitedinternet/troilus/MinimalWriteQueryData.java:172-186 | fails with IllegalState iff IF NOT EXISTS is set; otherwise replaces only this field |
| MinimalWrite.WriteData.ListValuesToAppend | troilus-core-minimal/src/main/java/com/unitedinternet/troilus/MinimalWriteQueryData.java:189-203 | fails with IllegalState iff IF NOT EXISTS is set; otherwise replaces only this field |
| MinimalWrite.WriteData.ListValuesToPrepend | troilus-core-minimal/src/main/java/com/unitedinternet/troilus/MinimalWriteQueryData.java:206-220 | fails with IllegalState iff IF NOT EXISTS is set; otherwise replaces only this field |
| MinimalWrite.WriteData.ListValuesToRemove | troilus-core-minimal/src/main/java/com/unitedinternet/troilus/MinimalWriteQueryData.java:223-237 | fails with IllegalState iff IF NOT EXISTS is set; otherwise replaces only this field |
| MinimalWrite.WriteData.MapValuesToMutate | troilus-core-minimal/src/main/java/com/unitedinternet/troilus/MinimalWriteQueryData.java:240-254 | fails with IllegalState iff IF NOT EXISTS is set; otherwise replaces only this field |
| MinimalWrite.WriteData.OnlyIfConditions | troilus-core-minimal/src/main/java/com/unitedinternet/troilus/MinimalWriteQueryData.java:257-271 | fails with IllegalState iff IF NOT EXISTS is set; otherwise replaces only the IF clauses |
| MinimalWrite.WriteData.IfNotExists | troilus-core-minimal/src/main/java/com/unitedinternet/troilus/MinimalWriteQueryData.java:273-294 | fails with IllegalState unless the IF clauses, where clauses and all six collection mutations are empty; otherwise replaces only the flag |
| MinimalWrite.Empty | troilus-core-minimal/src/main/java/com/unitedinternet/troilus/MinimalWriteQueryData.java:68-80 | a new write has no keys, clauses or values and no IF NOT EXISTS |
| MinimalWrite.SettersKeepConsistent | troilus-core-minimal/src/main/java/com/unitedinternet/troilus/MinimalWriteQueryData.java:109-302 | every setter keeps the invariant that IF NOT EXISTS never coexists with where clauses, IF clauses or collection mutations |
| MinimalWrite.IfNotExistsLocksConditions | troilus-core-minimal/src/main/java/com/unitedinternet/troilus/MinimalWriteQueryData.java:298-302 | once IF NOT EXISTS is set, every where, IF or collection setter fails |
| MinimalWrite.CoerceMapEntries | troilus-core-minimal/src/main/java/com/unitedinternet/troilus/MinimalWriteQueryData.java:511-517 | a coerced map has at most one entry per input entry, and it succeeds only if every key and every value coerces |
| MinimalWrite.CoerceMapKeys | troilus-core-minimal/src/main/java/com/unitedinternet/troilus/MinimalWriteQueryData.java:511-517 | a key is in the coerced map iff some input key coerces to it |
| MinimalWrite.CoerceMapLookup | troilus-core-minimal/src/main/java/com/unitedinternet/troilus/MinimalWriteQueryData.java:511-517 | a key maps to the coerced value of the last entry whose key coerces to it, since `put` overwrites |
| MinimalWrite.CoerceMapEntrywise | troilus-core-minimal/src/main/java/com/unitedinternet/troilus/MinimalWriteQueryData.java:511-517 | with distinct coerced keys the coerced map has one entry per input entry, in order |
| MinimalWrite.ToStatementValueList | troilus-core-minimal/src/main/java/com/unitedinternet/troilus/MinimalWriteQueryData.java:499-508 | coerces the list element by element, keeping length and order |
| MinimalWrite.ToStatementValueSet | troilus-core-minimal/src/main/java/com/unitedinternet/troilus/MinimalWriteQueryData.java:494-496 | the coerced set holds exactly the coerced elements |
| MinimalWrite.ToStatementValueMap | troilus-core-minimal/src/main/java/com/unitedinternet/troilus/MinimalWriteQueryData.java:511-517 | the loop builds the coerced map: key coerced twice, value once, absent value as null |
| MinimalWrite.CoercedKeyOf | troilus-core-minimal/src/main/java/com/unitedinternet/troilus/MinimalWriteQueryData.java:514 | the double key coercion of one entry; its failure is the whole map's failure |
| MinimalWrite.CoercedValueOf | troilus-core-minimal/src/main/java/com/unitedinternet/troilus/MinimalWriteQueryData.java:514 | the value coercion of one entry; its failure is the whole map's failure |
| MinimalWrite.MapFailsAt | troilus-core-minimal/src/main/java/com/unitedinternet/troilus/MinimalWriteQueryData.java:511-517 | a failing entry after a successful prefix fails the map with its error |
| MinimalWrite.MarkedGroupsShape | troilus-core-minimal/src/main/java/com/unitedinternet/troilus/MinimalWriteQueryData.java:400-437 | the key-based loops put one marker per entry, group by group in source order, and one value per marker |
| MinimalWrite.InlinedGroupsAreBoundMarks | troilus-core-minimal/src/main/java/com/unitedinternet/troilus/MinimalWriteQueryData.java:450-480 | the where-based loops fail exactly when the key-based loops do, and otherwise build the key-based assignments with the bound values inlined |
| MinimalWrite.InsertBinding | troilus-core-minimal/src/main/java/com/unitedinternet/troilus/MinimalWriteQueryData.java:360-384 | the insert binds one coerced value per value to mutate, in order, then the TTL, and no key; filling gives the literal insert |
| MinimalWrite.IfNotExistsFalseStillConditional | troilus-core-minimal/src/main/java/com/unitedinternet/troilus/MinimalWriteQueryData.java:370-375 | `ifNotExists(false)` still yields a prepared insert with IF NOT EXISTS |
| MinimalWrite.WriteStatementKind | troilus-core-minimal/src/main/java/com/unitedinternet/troilus/MinimalWriteQueryData.java:351-357 | the statement is an insert iff IF NOT EXISTS is non-null or there are neither keys nor where clauses; otherwise an update |
| MinimalWrite.UpdateMarkersAreMarkers | troilus-core-minimal/src/main/java/com/unitedinternet/troilus/MinimalWriteQueryData.java:400-437 | every assignment of the key-based update has a bind marker |
| MinimalWrite.KeyBasedUpdateBinding | troilus-core-minimal/src/main/java/com/unitedinternet/troilus/MinimalWriteQueryData.java:400-446 | markers equal values in number; the values are the seven groups, the keys, then the TTL; filling gives the literal update with key equalities |
| MinimalWrite.InlinedGroupsAreLiteral | troilus-core-minimal/src/main/java/com/unitedinternet/troilus/MinimalWriteQueryData.java:450-480 | the where-based update has no marker left |
| MinimalWrite.WhereBasedUpdateLiteral | troilus-core-minimal/src/main/java/com/unitedinternet/troilus/MinimalWriteQueryData.java:450-485 | the where-based update is unprepared, with a literal TTL and the user's where clauses in order |
| MinimalWrite.ToInsertStatement | troilus-core-minimal/src/main/java/com/unitedinternet/troilus/MinimalWriteQueryData.java:360-384 | the loop builds the insert specified by `InsertStatement` |
| MinimalWrite.MarkGroups | troilus-core-minimal/src/main/java/com/unitedinternet/troilus/MinimalWriteQueryData.java:400-437 | the seven key-based loops build the marked groups |
| MinimalWrite.MarkedGroups | troilus-core-minimal/src/main/java/com/unitedinternet/troilus/MinimalWriteQueryData.java:400-437 | the key-based groups bind exactly one value per marker |
| MinimalWrite.InlineGroups | troilus-core-minimal/src/main/java/com/unitedinternet/troilus/MinimalWriteQueryData.java:450-480 | the seven where-based loops build the literal groups |
| MinimalWrite.ToUpdateStatement | troilus-core-minimal/src/main/java/com/unitedinternet/troilus/MinimalWriteQueryData.java:390-486 | builds the key-based or where-based update |
| MinimalWrite.ToKeyBasedUpdate | troilus-core-minimal/src/main/java/com/unitedinternet/troilus/MinimalWriteQueryData.java:400-446 | builds the prepared update with its bound values |
| MinimalWrite.ToWhereBasedUpdate | troilus-core-minimal/src/main/java/com/unitedinternet/troilus/MinimalWriteQueryData.java:450-485 | builds the literal update |
| MinimalWrite.ToStatement | troilus-core-minimal/src/main/java/com/unitedinternet/troilus/MinimalWriteQueryData.java:351-357 | builds the insert or update that `WriteStatement` specifies |
| MinimalDelete.DeleteData.Keys | troilus-core-minimal/src/main/java/com/unitedinternet/troilus/DeleteQueryData.java:65-69 | replaces only the keys |
| MinimalDelete.DeleteData.WhereConditions | troilus-core-minimal/src/main/java/com/unitedinternet/troilus/DeleteQueryData.java:71-75 | replaces only the where clauses |
| MinimalDelete.DeleteData.OnlyIfConditions | troilus-core-minimal/src/main/java/com/unitedinternet/troilus/DeleteQueryData.java:78-82 | replaces only the IF clauses |
| MinimalDelete.Empty | troilus-core-minimal/src/main/java/com/unitedinternet/troilus/DeleteQueryData.java:48-52 | a new delete has no keys, where clauses or IF clauses |
| MinimalDelete.KeyBasedDeleteBinding | troilus-core-minimal/src/main/java/com/unitedinternet/troilus/DeleteQueryData.java:107-117 | one key marker per key, bound to the coerced key values in key order, after the IF clauses in order; filling gives the literal delete |
| MinimalDelete.KeyBasedDeleteFails | troilus-core-minimal/src/main/java/com/unitedinternet/troilus/DeleteQueryData.java:114 | the key-based delete fails iff some key with a non-empty value names an unknown column, with an unknown-column error |
| MinimalDelete.WhereBasedDeleteLiteral | troilus-core-minimal/src/main/java/com/unitedinternet/troilus/DeleteQueryData.java:121-127 | the where-based delete is literal, with the IF clauses and the where clauses in order |
| MinimalDelete.ToStatement | troilus-core-minimal/src/main/java/com/unitedinternet/troilus/DeleteQueryData.java:98-128 | the loops build the delete that `DeleteStatement` specifies |
| MinimalDelete.ToKeyBasedDelete | troilus-core-minimal/src/main/java/com/unitedinternet/troilus/DeleteQueryData.java:107-117 | the key loop builds the prepared delete |
| DeleteDataImpl.DeleteSpec.Key | troilus-core-java7/src/main/java/net/oneandone/troilus/DeleteQueryDataImpl.java:79-86 | replaces only the key, keeping the table |
| DeleteDataImpl.DeleteSpec.WhereConditions | troilus-core-java7/src/main/java/net/oneandone/troilus/DeleteQueryDataImpl.java:89-96 | replaces only the where clauses |
| DeleteDataImpl.DeleteSpec.OnlyIfConditions | troilus-core-java7/src/main/java/net/oneandone/troilus/DeleteQueryDataImpl.java:99-106 | replaces only the IF clauses |
| DeleteDataImpl.DeleteSpec.IfExists | troilus-core-java7/src/main/java/net/oneandone/troilus/DeleteQueryDataImpl.java:109-116 | replaces only the IF EXISTS flag |
| DeleteDataImpl.DeleteSpec.MapValuesToRemove | troilus-core-java7/src/main/java/net/oneandone/troilus/DeleteQueryDataImpl.java:119-126 | replaces only the map elements to remove |
| DeleteDataImpl.NewDeleteSpec | troilus-core-java7/src/main/java/net/oneandone/troilus/DeleteQueryDataImpl.java:55-62 | a new delete has the table, empty key and clauses, and null flag and map elements |
| DeleteDataImpl.Elements | troilus-core-java7/src/main/java/net/oneandone/troilus/DeleteQueryDataImpl.java:179-181 | one map-element deletion per element of a column, in order |
| DeleteDataImpl.ElementSelectors | troilus-core-java7/src/main/java/net/oneandone/troilus/DeleteQueryDataImpl.java:177-183 | one map-element deletion per listed element over all columns |
| DeleteDataImpl.ElementSelectorsAreListed | troilus-core-java7/src/main/java/net/oneandone/troilus/DeleteQueryDataImpl.java:177-183 | a map element is deleted iff it is listed under its own column |
| DeleteDataImpl.IfExistsOnlyWhenTrue | troilus-core-java7/src/main/java/net/oneandone/troilus/DeleteQueryDataImpl.java:165-175 | IF EXISTS is emitted iff the flag is non-null and true; the target is the table, with the keyspace when one is given; the IF clauses are kept in order |
| DeleteDataImpl.KeyBasedDeleteBinding | troilus-core-java7/src/main/java/net/oneandone/troilus/DeleteQueryDataImpl.java:186-196 | one key marker per key, bound to the coerced key values in key order; filling gives the literal delete |
| DeleteDataImpl.WhereBasedDeleteLiteral | troilus-core-java7/src/main/java/net/oneandone/troilus/DeleteQueryDataImpl.java:199-205 | the where-based delete binds nothing and carries the where clauses in order |
| DeleteDataImpl.ToStatementAsync | troilus-core-java7/src/main/java/net/oneandone/troilus/DeleteQueryDataImpl.java:163-207 | the loops build the delete that `DeleteStatement` specifies |
| DeleteDataImpl.AddMapElements | troilus-core-java7/src/main/java/net/oneandone/troilus/DeleteQueryDataImpl.java:177-183 | the nested loops add exactly the listed map elements |
| DeleteDataImpl.ToKeyBasedDelete | troilus-core-java7/src/main/java/net/oneandone/troilus/DeleteQueryDataImpl.java:186-196 | the key loop builds the prepared delete |
| CounterMutation.CounterData.Keys | troilus-core-java7/src/main/java/net/oneandone/troilus/CounterMutationQueryData.java:64-69 | replaces only the keys |
| CounterMutation.CounterData.WhereConditions | troilus-core-java7/src/main/java/net/oneandone/troilus/CounterMutationQueryData.java:71-76 | replaces only the where clauses |
| CounterMutation.CounterData.Name | troilus-core-java7/src/main/java/net/oneandone/troilus/CounterMutationQueryData.java:78-83 | replaces only the counter name |
| CounterMutation.CounterData.Diff | troilus-core-java7/src/main/java/net/oneandone/troilus/CounterMutationQueryData.java:85-90 | replaces only the difference |
| CounterMutation.Empty | troilus-core-java7/src/main/java/net/oneandone/troilus/CounterMutationQueryData.java:46-51 | a new counter mutation has no keys or clauses, a null name and a difference of 0 |
| CounterMutation.AmountMeaning | troilus-core-java7/src/main/java/net/oneandone/troilus/CounterMutationQueryData.java:116-123 | an increment iff the difference is positive; the amount is non-negative and changes the counter by exactly the difference, except for `Long.MIN_VALUE` |
| CounterMutation.ZeroIsDecrement | troilus-core-java7/src/main/java/net/oneandone/troilus/CounterMutationQueryData.java:120-123 | a zero difference is a decrement by zero |
| CounterMutation.KeyBasedCounterBinding | troilus-core-java7/src/main/java/net/oneandone/troilus/CounterMutationQueryData.java:114-135 | binds the amount, the key values in order, then the TTL, one per marker; filling gives the literal update |
| CounterMutation.WhereBasedCounterLiteral | troilus-core-java7/src/main/java/net/oneandone/troilus/CounterMutationQueryData.java:140-156 | the where-based update is literal and carries the where clauses in order |
| CounterMutation.ToStatement | troilus-core-java7/src/main/java/net/oneandone/troilus/CounterMutationQueryData.java:109-158 | the loop builds the update that `CounterStatement` specifies |
| CounterMutation.ToKeyBasedStatement | troilus-core-java7/src/main/java/net/oneandone/troilus/CounterMutationQueryData.java:113-135 | the key-based branch builds the prepared update of `CounterStatement` |
| CounterMutation.ToWhereBasedStatement | troilus-core-java7/src/main/java/net/oneandone/troilus/CounterMutationQueryData.java:139-156 | the where-based branch builds the literal update of `CounterStatement` |
| DeleteQuery.Deletion.OnlyIf | troilus-core/src/main/java/com/unitedinternet/troilus/DeleteQuery.java:65-69 | replaces the IF conditions with exactly the given ones |
| DeleteQuery.Deletion.WithContext | troilus-core/src/main/java/com/unitedinternet/troilus/DeleteQuery.java:56-61 | replaces only the context |
| DeleteQuery.KeyBasedDeleteBinding | troilus-core/src/main/java/com/unitedinternet/troilus/DeleteQuery.java:78-84 | one key marker per key, bound to the key values in order; filling gives the literal delete |
| DeleteQuery.WhereBasedDeleteLiteral | troilus-core/src/main/java/com/unitedinternet/troilus/DeleteQuery.java:88-93 | the where-based delete is literal, with the IF clauses and the where clauses in order |
| DeleteQuery.CheckApplied | troilus-core/src/main/java/com/unitedinternet/troilus/DeleteQuery.java:98-106 | fails with an IF-condition error iff there are IF conditions and the delete was not applied |
| DeleteQuery.UnconditionalNeverFails | troilus-core/src/main/java/com/unitedinternet/troilus/DeleteQuery.java:98-106 | without IF conditions the delete never fails on the flag |
| DeleteQuery.GetStatement | troilus-core/src/main/java/com/unitedinternet/troilus/DeleteQuery.java:74-94 | builds the delete that `DeleteStatement` specifies |
| ColumnsToFetch.CreateAll | src/main/java/com/unitedinternet/troilus/ColumnToFetch.java:41-43 | one plain column per name, in order |
| ColumnsToFetch.Merge | src/main/java/com/unitedinternet/troilus/SingleReadQuery.java:81-83 | merging keeps the requested columns and appends the new ones |
| ColumnsToFetch.SelectorsOfMeaning | src/main/java/com/unitedinternet/troilus/ColumnToFetch.java:46-56 | the plain column comes first; the TTL is selected iff asked for, and the write time iff asked for, after the TTL |
| ColumnsToFetch.PlainColumnsSelected | src/main/java/com/unitedinternet/troilus/ColumnToFetch.java:41-56 | accepting plain columns selects exactly those columns, in order |
| ColumnsToFetch.PlainColumnsSelectedAt | src/main/java/com/unitedinternet/troilus/ColumnToFetch.java:41-56 | plain columns select one column each: the i-th selector is the i-th name |
| ColumnsToFetch.AllSelectorsAppend | src/main/java/com/unitedinternet/troilus/SingleReadQuery.java:118 | columns accepted one after another add their selections one after another |
| ColumnsToFetch.Selection.constructor | src/main/java/com/unitedinternet/troilus/SingleReadQuery.java:115 | a new selection is empty |
| ColumnsToFetch.Selection.Column | src/main/java/com/unitedinternet/troilus/ColumnToFetch.java:47 | adds the plain column last |
| ColumnsToFetch.Selection.Ttl | src/main/java/com/unitedinternet/troilus/ColumnToFetch.java:49-51 | adds the TTL of the column last |
| ColumnsToFetch.Selection.WriteTime | src/main/java/com/unitedinternet/troilus/ColumnToFetch.java:53-55 | adds the write time of the column last |
| ColumnsToFetch.Selection.All | src/main/java/com/unitedinternet/troilus/SingleReadQuery.java:124 | selects all columns |
| ColumnsToFetch.Selection.Distinct | src/main/java/com/unitedinternet/troilus/DaoImpl.java:817 | marks the selection DISTINCT |
| ColumnsToFetch.Accept | src/main/java/com/unitedinternet/troilus/ColumnToFetch.java:46-56 | `accept` adds exactly the column's selections |
| ColumnsToFetch.AcceptAll | src/main/java/com/unitedinternet/troilus/SingleReadQuery.java:118 | accepting every column adds their selections in order |
| SingleRead.SingleRead.WithContext | src/main/java/com/unitedinternet/troilus/SingleReadQuery.java:66-68 | replaces only the context |
| SingleRead.SingleRead.All | src/main/java/com/unitedinternet/troilus/SingleReadQuery.java:71-73 | clears the column restriction and keeps the keys |
| SingleRead.SingleRead.Column | src/main/java/com/unitedinternet/troilus/SingleReadQuery.java:81-83 | adds the plain column and keeps the keys |
| SingleRead.SingleRead.ColumnWithMetadata | src/main/java/com/unitedinternet/troilus/SingleReadQuery.java:86-88 | adds the column with its write time and TTL and keeps the keys |
| SingleRead.SingleRead.Columns | src/main/java/com/unitedinternet/troilus/SingleReadQuery.java:96-98 | adds one plain column per name, in order |
| SingleRead.SingleRead.ColumnsNamed | src/main/java/com/unitedinternet/troilus/SingleReadQuery.java:91-93 | adds one plain column per distinct name |
| SingleRead.SelectionMeaning | src/main/java/com/unitedinternet/troilus/SingleReadQuery.java:117-125 | no restriction selects all columns; a restriction selects the requested columns, then each key column |
| SingleRead.RequestedKeySelectedTwice | src/main/java/com/unitedinternet/troilus/SingleReadQuery.java:121 | a requested key column is selected twice |
| SingleRead.ReadBinding | src/main/java/com/unitedinternet/troilus/SingleReadQuery.java:129-139 | one key marker per key, bound to the key values in order |
| SingleRead.BuildStatement | src/main/java/com/unitedinternet/troilus/SingleReadQuery.java:115-139 | the loops build the read that `ReadStatement` specifies |
| SingleRead.Select | src/main/java/com/unitedinternet/troilus/SingleReadQuery.java:115-125 | the selection is all columns iff there is no restriction, and otherwise the requested columns followed by the key columns |
| SingleRead.ReadResultMeaning | src/main/java/com/unitedinternet/troilus/SingleReadQuery.java:142-168 | no row is empty; a record comes back iff every key's bytes match and there is one row; a mismatch is a protocol error for the first mismatching key; more rows is a too-many-results error |
| SingleRead.RecordIsTheRequestedOne | src/main/java/com/unitedinternet/troilus/SingleReadQuery.java:152-160 | with an injective serialisation a returned record holds the requested key values |
| WriteQuery.Unwrapped | src/main/java/com/unitedinternet/troilus/WriteQuery.java:360-367 | a holder keeps an Optional's content or null, and any other value as given |
| WriteQuery.NewValueToMutate | src/main/java/com/unitedinternet/troilus/WriteQuery.java:335-341 | fails iff the column is unknown; a user-defined column gets the UDT holder, any other the built-in holder |
| WriteQuery.BoundValues | src/main/java/com/unitedinternet/troilus/WriteQuery.java:370-373 | one bound value per holder, in order |
| WriteQuery.BoundValuesAll | src/main/java/com/unitedinternet/troilus/WriteQuery.java:270 | adding the holders to a prepared update never fails and yields their bound values |
| WriteQuery.PresentPairs | src/main/java/com/unitedinternet/troilus/WriteQuery.java:344-348 | the pairs whose values are present, in order |
| WriteQuery.NewValuesToMutate | src/main/java/com/unitedinternet/troilus/WriteQuery.java:344-348 | one holder per present pair, in order; fails iff a present pair names an unknown column |
| WriteQuery.Write.WithContext | src/main/java/com/unitedinternet/troilus/WriteQuery.java:81-83 | replaces only the context |
| WriteQuery.Write.AddValue | src/main/java/com/unitedinternet/troilus/WriteQuery.java:89-103 | an absent Optional changes nothing; otherwise one holder of the innermost value is appended |
| WriteQuery.Write.IfNotExits | src/main/java/com/unitedinternet/troilus/WriteQuery.java:116-120 | an IF NOT EXISTS insertion of the values followed by the present keys |
| WriteQuery.Write.OnlyIf | src/main/java/com/unitedinternet/troilus/WriteQuery.java:123-129 | an update with exactly the given conditions |
| WriteQuery.Innermost | src/main/java/com/unitedinternet/troilus/WriteQuery.java:90-97 | unwraps nested Optionals; none for an absent one |
| WriteQuery.ValuesFoldMeaning | src/main/java/com/unitedinternet/troilus/WriteQuery.java:106-112 | the fold fails iff some present value names an unknown column, and otherwise appends one holder per present pair |
| WriteQuery.AddValues | src/main/java/com/unitedinternet/troilus/WriteQuery.java:106-112 | the loop is the left-to-right fold of `value` |
| WriteQuery.ValuesFoldFailsOnward | src/main/java/com/unitedinternet/troilus/WriteQuery.java:106-112 | once a prefix fails, the whole fold fails with its error |
| WriteQuery.Insertion.WithContext | src/main/java/com/unitedinternet/troilus/WriteQuery.java:164-168 | replaces only the context |
| WriteQuery.Insertion.IfNotExits | src/main/java/com/unitedinternet/troilus/WriteQuery.java:174-178 | sets IF NOT EXISTS and nothing else |
| WriteQuery.InsertionBinding | src/main/java/com/unitedinternet/troilus/WriteQuery.java:182-202 | binds the values in order, then the TTL, one per marker; filling gives the literal insert |
| WriteQuery.GetInsertionStatement | src/main/java/com/unitedinternet/troilus/WriteQuery.java:182-202 | the loop builds the insertion that `InsertionStatement` specifies |
| WriteQuery.InsertionResult | src/main/java/com/unitedinternet/troilus/WriteQuery.java:206-216 | fails with "duplicated entry" iff IF NOT EXISTS was asked and not applied |
| WriteQuery.Update.WithContext | src/main/java/com/unitedinternet/troilus/WriteQuery.java:241-247 | replaces only the context |
| WriteQuery.Update.OnlyIf | src/main/java/com/unitedinternet/troilus/WriteQuery.java:250-256 | appends the conditions to the existing ones |
| WriteQuery.OnlyIfThenOnlyIf | src/main/java/com/unitedinternet/troilus/WriteQuery.java:123-129 | a write's `onlyIf` then an update's `onlyIf` gives both lists of conditions |
| WriteQuery.KeyBasedUpdateBinding | src/main/java/com/unitedinternet/troilus/WriteQuery.java:265-283 | binds the holders' values, the key values, then the TTL, one per marker; the IF clauses are present twice |
| WriteQuery.WhereBasedUpdateLiteral | src/main/java/com/unitedinternet/troilus/WriteQuery.java:287-303 | the where-based update is literal, carries each IF clause once and the where clauses in order |
| WriteQuery.GetUpdateStatement | src/main/java/com/unitedinternet/troilus/WriteQuery.java:260-304 | builds the update that `UpdateStatement` specifies |
| WriteQuery.ToKeyBasedUpdate | src/main/java/com/unitedinternet/troilus/WriteQuery.java:268-283 | the loops build the prepared update |
| WriteQuery.ToWhereBasedUpdate | src/main/java/com/unitedinternet/troilus/WriteQuery.java:287-303 | the loops build the literal update |
| WriteQuery.GetWriteStatement | src/main/java/com/unitedinternet/troilus/WriteQuery.java:133-139 | a write's statement is that of its update without conditions |
| WriteQuery.UpdateResult | src/main/java/com/unitedinternet/troilus/WriteQuery.java:307-317 | fails with "if condition does not match" iff there are conditions and the update was not applied |
| DaoImplMutations.Stored | src/main/java/com/unitedinternet/troilus/DaoImpl.java:153-159 | an Optional stores its content, or nothing when absent; any other value is stored as given |
| DaoImplMutations.InsertData.AddValue | src/main/java/com/unitedinternet/troilus/DaoImpl.java:152-162 | an absent Optional returns the same insert; a null value throws a NullPointerException, because the ImmutableMap merge rejects null; otherwise the stored value is put under the name |
| DaoImplMutations.InsertData.AddValues | src/main/java/com/unitedinternet/troilus/DaoImpl.java:167-180 | throws a NullPointerException iff a converted value is null (`ImmutableMap.copyOf`); otherwise the pairs with absent Optionals dropped and present ones unwrapped are merged in |
| DaoImplMutations.InsertData.WithConsistency | src/main/java/com/unitedinternet/troilus/DaoImpl.java:185-187 | changes only the context's consistency |
| DaoImplMutations.InsertData.WithSerialConsistency | src/main/java/com/unitedinternet/troilus/DaoImpl.java:191-193 | changes only the context's serial consistency |
| DaoImplMutations.InsertData.IfNotExits | src/main/java/com/unitedinternet/troilus/DaoImpl.java:197-199 | sets only the context's IF NOT EXISTS |
| DaoImplMutations.InsertData.WithTtl | src/main/java/com/unitedinternet/troilus/DaoImpl.java:202-204 | changes only the context's TTL |
| DaoImplMutations.InsertData.WithWritetime | src/main/java/com/unitedinternet/troilus/DaoImpl.java:207-209 | changes only the context's write time |
| DaoImplMutations.InsertData.CombinedWith | src/main/java/com/unitedinternet/troilus/DaoImpl.java:212-214 | a LOGGED batch of exactly this insert and the other mutation |
| DaoImplMutations.ConvertOptionals | src/main/java/com/unitedinternet/troilus/DaoImpl.java:170-177 | keeps at most one converted pair per input pair |
| DaoImplMutations.AddValuesIsAddEach | src/main/java/com/unitedinternet/troilus/DaoImpl.java:152-180 | `values` is `value` applied to each pair in turn, and throws exactly when one of those calls would |
| DaoImplMutations.AddValueLookup | src/main/java/com/unitedinternet/troilus/DaoImpl.java:152-162 | `value` throws iff the stored value is null; otherwise the name maps to the stored value and every other name keeps its value |
| DaoImplMutations.BuiltInsertNonNull | src/main/java/com/unitedinternet/troilus/DaoImpl.java:152-180 | `value` and `values` keep an insert free of null values, so the `ImmutableList.copyOf` of its statement (:236) never throws |
| DaoImplMutations.InsertBinding | src/main/java/com/unitedinternet/troilus/DaoImpl.java:218-242 | succeeds iff no value is null; one marker per pair, bound to the values in order then the TTL seconds; filling gives the literal insert |
| DaoImplMutations.GetInsertStatement | src/main/java/com/unitedinternet/troilus/DaoImpl.java:218-242 | builds the insert that `InsertStatement` specifies |
| DaoImplMutations.InsertResult | src/main/java/com/unitedinternet/troilus/DaoImpl.java:255-265 | fails with an already-exists conflict iff IF NOT EXISTS was asked and not applied |
| DaoImplMutations.DeleteData.WithConsistency | src/main/java/com/unitedinternet/troilus/DaoImpl.java:308-310 | changes only the context's consistency |
| DaoImplMutations.DeleteData.WithSerialConsistency | src/main/java/com/unitedinternet/troilus/DaoImpl.java:313-315 | changes only the context's serial consistency |
| DaoImplMutations.DeleteData.CombinedWith | src/main/java/com/unitedinternet/troilus/DaoImpl.java:318-320 | a LOGGED batch of exactly this delete and the other mutation |
| DaoImplMutations.DeleteBinding | src/main/java/com/unitedinternet/troilus/DaoImpl.java:324-337 | one key marker per key, bound to the key values in order; filling gives the literal delete |
| DaoImplMutations.GetDeleteStatement | src/main/java/com/unitedinternet/troilus/DaoImpl.java:324-337 | builds the delete that `DeleteStatement` specifies |
| DaoImplMutations.BatchData.WithLockedBatchType | src/main/java/com/unitedinternet/troilus/DaoImpl.java:374-376 | makes the batch LOGGED and changes nothing else |
| DaoImplMutations.BatchData.WithUnlockedBatchType | src/main/java/com/unitedinternet/troilus/DaoImpl.java:379-381 | makes the batch UNLOGGED and changes nothing else |
| DaoImplMutations.BatchData.CombinedWith | src/main/java/com/unitedinternet/troilus/DaoImpl.java:385-387 | appends the other mutation and keeps the batch type |
| DaoImplMutations.ChildStatementsInOrder | src/main/java/com/unitedinternet/troilus/DaoImpl.java:390-394 | the children's statements succeed iff every child's does, and are those statements in list order |
| DaoImplMutations.ChildStatementsAppend | src/main/java/com/unitedinternet/troilus/DaoImpl.java:385-394 | a combined mutation's statement goes after the existing ones |
| DaoImplMutations.CombinedWithStatements | src/main/java/com/unitedinternet/troilus/DaoImpl.java:212-214 | the batch of a combined insert, delete or batch holds the statements of its parts, in order |
| DaoImplMutations.PairStatements | src/main/java/com/unitedinternet/troilus/DaoImpl.java:390-394 | a batch of two mutations holds their two statements in order, or fails with the first failure |
| DaoImplMutations.GetBatchStatement | src/main/java/com/unitedinternet/troilus/DaoImpl.java:390-394 | the loop adds each child's statement in order |
| DaoImplMutations.ChildStatementsFailOnward | src/main/java/com/unitedinternet/troilus/DaoImpl.java:390-394 | once a prefix of the children fails, the batch fails with that error |
| DaoImplReads.SingleSelection.ColumnWithFlags | src/main/java/com/unitedinternet/troilus/DaoImpl.java:472-474 | appends the column with its flags and keeps keys and context |
| DaoImplReads.SingleSelection.Column | src/main/java/com/unitedinternet/troilus/DaoImpl.java:467-469 | appends the plain column |
| DaoImplReads.SingleSelection.Columns | src/main/java/com/unitedinternet/troilus/DaoImpl.java:482-484 | appends one plain column per name, in order |
| DaoImplReads.SingleSelection.ColumnsNamed | src/main/java/com/unitedinternet/troilus/DaoImpl.java:477-479 | appends one plain column per distinct name |
| DaoImplReads.SingleSelection.WithConsistency | src/main/java/com/unitedinternet/troilus/DaoImpl.java:487-489 | changes only the context's consistency |
| DaoImplReads.KeyMap | src/main/java/com/unitedinternet/troilus/DaoImpl.java:421 | `ImmutableMap.of` keeps the entries iff no value is null and no name repeats; a null value throws a NullPointerException before a repeated name throws an IllegalArgumentException |
| DaoImplReads.ReadWithKey | src/main/java/com/unitedinternet/troilus/DaoImpl.java:420-422 | a read of one key with no column restriction; fails with a NullPointerException iff the key value is null (`ImmutableMap.of`) |
| DaoImplReads.ReadWithKeys | src/main/java/com/unitedinternet/troilus/DaoImpl.java:425-437 | a read of two to four keys restricted to no columns yet; succeeds iff no key value is null and no name repeats; a null value throws a NullPointerException, otherwise a repeated name an IllegalArgumentException |
| DaoImplReads.ReadWithKeySelections | src/main/java/com/unitedinternet/troilus/DaoImpl.java:505-515 | a one-key read selects all columns; a two- to four-key read selects only its key columns; a read that is built binds its key values, none of them null |
| DaoImplReads.SelectionBinding | src/main/java/com/unitedinternet/troilus/DaoImpl.java:519-529 | one key marker per key, bound to the key values in order |
| DaoImplReads.GetSelectionStatement | src/main/java/com/unitedinternet/troilus/DaoImpl.java:505-529 | builds the read that `SelectionStatement` specifies |
| DaoImplReads.SelectionResultAsWritten | src/main/java/com/unitedinternet/troilus/DaoImpl.java:533-555 | as written: no row is empty; a record comes back only if every key differs from its returned value |
| DaoImplReads.MatchingRowIsRejected | src/main/java/com/unitedinternet/troilus/DaoImpl.java:543 | as written: the row with the requested key is a protocol error |
| DaoImplReads.CorrectedSelectionResultMeaning | src/main/java/com/unitedinternet/troilus/DaoImpl.java:533-555 | corrected: no row is empty; a record iff every key comes back equal and there is one row; a mismatch fails for the first mismatching key; more rows is too many results |
| DaoImplReads.MatchingRowIsReturned | src/main/java/com/unitedinternet/troilus/DaoImpl.java:543 | corrected: the row with the requested key is returned |
| DaoImplReads.ListSelection.WithConsistency | src/main/java/com/unitedinternet/troilus/DaoImpl.java:701-709 | changes only the context's consistency |
| DaoImplReads.ListSelection.Columns | src/main/java/com/unitedinternet/troilus/DaoImpl.java:712-720 | appends one plain column per name and changes nothing else |
| DaoImplReads.ListSelection.ColumnsNamed | src/main/java/com/unitedinternet/troilus/DaoImpl.java:792-794 | appends each named column once |
| DaoImplReads.ListSelection.ColumnWithFlags | src/main/java/com/unitedinternet/troilus/DaoImpl.java:723-731 | appends the column with its flags and changes nothing else |
| DaoImplReads.ListSelection.Column | src/main/java/com/unitedinternet/troilus/DaoImpl.java:786-788 | appends the plain column |
| DaoImplReads.ListSelection.WithLimit | src/main/java/com/unitedinternet/troilus/DaoImpl.java:735-743 | sets only the limit |
| DaoImplReads.ListSelection.WithAllowFiltering | src/main/java/com/unitedinternet/troilus/DaoImpl.java:746-754 | sets only ALLOW FILTERING |
| DaoImplReads.ListSelection.WithFetchSize | src/main/java/com/unitedinternet/troilus/DaoImpl.java:757-765 | sets only the fetch size |
| DaoImplReads.ListSelection.WithDistinct | src/main/java/com/unitedinternet/troilus/DaoImpl.java:768-776 | sets only DISTINCT |
| DaoImplReads.ReadWithCondition | src/main/java/com/unitedinternet/troilus/DaoImpl.java:639-647 | a list read of the given clauses, each once, with no columns yet and no options |
| DaoImplReads.ReadAll | src/main/java/com/unitedinternet/troilus/DaoImpl.java:651-659 | a list read without clauses |
| DaoImplReads.ListOptionsIndependent | src/main/java/com/unitedinternet/troilus/DaoImpl.java:808-837 | each option setter changes only its own part of the built select; the consistency changes none |
| DaoImplReads.ListSelectors | src/main/java/com/unitedinternet/troilus/DaoImpl.java:811-815 | an added column adds its selections last |
| DaoImplReads.GetListStatement | src/main/java/com/unitedinternet/troilus/DaoImpl.java:808-837 | builds the select that `ListStatement` specifies |
| DaoImplReads.ListSelect | src/main/java/com/unitedinternet/troilus/DaoImpl.java:810-819 | DISTINCT iff asked with true; all columns iff unrestricted; otherwise the requested columns' selections in order |
| DaoImplSubscription.NextRows | src/main/java/com/unitedinternet/troilus/DaoImpl.java:908 | the rows a subscriber was handed, in order |
| DaoImplSubscription.OnNexts | src/main/java/com/unitedinternet/troilus/DaoImpl.java:907-909 | one `onNext` per row, in order |
| DaoImplSubscription.NextRowsAppend | src/main/java/com/unitedinternet/troilus/DaoImpl.java:907-917 | the rows handed over by successive signals add up |
| DaoImplSubscription.NextRowsOfOnNexts | src/main/java/com/unitedinternet/troilus/DaoImpl.java:907-917 | the rows of the `onNext` signals of a list of rows are those rows |
| DaoImplSubscription.ProcessPlan | src/main/java/com/unitedinternet/troilus/DaoImpl.java:895-920 | a drain hands over the lesser of available and pending; it fetches iff none is running and too few rows are available; it completes iff moreover the result is fully fetched |
| DaoImplSubscription.PlanSignals | src/main/java/com/unitedinternet/troilus/DaoImpl.java:895-937 | a drain hands over exactly the first rows it plans, and completes iff it plans to |
| DaoImplSubscription.ResultSet.constructor | src/main/java/com/unitedinternet/troilus/DaoImpl.java:846-850 | the rows available and still to fetch |
| DaoImplSubscription.ResultSet.AvailableWithoutFetching | src/main/java/com/unitedinternet/troilus/DaoImpl.java:897 | the number of rows available without fetching |
| DaoImplSubscription.ResultSet.Next | src/main/java/com/unitedinternet/troilus/DaoImpl.java:859-861 | takes the first available row |
| DaoImplSubscription.ResultSet.Fetched | src/main/java/com/unitedinternet/troilus/DaoImpl.java:933 | a completed fetch makes the next rows available, in order |
| DaoImplSubscription.Subscriber.constructor | src/main/java/com/unitedinternet/troilus/DaoImpl.java:864 | a subscriber has received nothing yet |
| DaoImplSubscription.Subscriber.Receive | src/main/java/com/unitedinternet/troilus/DaoImpl.java:908 | records a signal last |
| DaoImplSubscription.DatabaseSubscription.constructor | src/main/java/com/unitedinternet/troilus/DaoImpl.java:883-885 | no demand, no fetch running, nothing delivered |
| DaoImplSubscription.DatabaseSubscription.Request | src/main/java/com/unitedinternet/troilus/DaoImpl.java:887-892 | a demand of at most 0 changes nothing; a positive one is added and drained; delivered plus pending stays the total demand |
| DaoImplSubscription.DatabaseSubscription.Deliver | src/main/java/com/unitedinternet/troilus/DaoImpl.java:907-909 | hands over the first available rows, in order, as `onNext` signals |
| DaoImplSubscription.DatabaseSubscription.HandOver | src/main/java/com/unitedinternet/troilus/DaoImpl.java:907-909 | the loop takes the first `count` rows off the result set and signals `onNext` for each, in order |
| DaoImplSubscription.DatabaseSubscription.Take | src/main/java/com/unitedinternet/troilus/DaoImpl.java:906-909 | lowers the pending reads by `count` and hands over as many rows, keeping the subscription valid |
| DaoImplSubscription.DatabaseSubscription.ProcessReadRequests | src/main/java/com/unitedinternet/troilus/DaoImpl.java:895-920 | drains as `ProcessPlan` says, keeping the subscription valid |
| DaoImplSubscription.DatabaseSubscription.AskForMore | src/main/java/com/unitedinternet/troilus/DaoImpl.java:901-902 | with nothing available, only asks for more |
| DaoImplSubscription.DatabaseSubscription.DrainAll | src/main/java/com/unitedinternet/troilus/DaoImpl.java:905-909 | with enough available, hands over the whole demand |
| DaoImplSubscription.DatabaseSubscription.DrainPartly | src/main/java/com/unitedinternet/troilus/DaoImpl.java:912-917 | with too little available, asks for more and hands over what there is |
| DaoImplSubscription.DatabaseSubscription.RequestDatabaseForMoreRecords | src/main/java/com/unitedinternet/troilus/DaoImpl.java:923-937 | completes the subscriber if fully fetched, and issues a fetch unless one is running; at most one is in flight |
| DaoImplSubscription.DatabaseSubscription.Cancel | src/main/java/com/unitedinternet/troilus/DaoImpl.java:941-943 | completes the subscriber |
| DaoImplSubscription.DatabaseSubscription.FetchCompleted | src/main/java/com/unitedinternet/troilus/DaoImpl.java:930 | a completed fetch clears the flag and drains again with the new rows |
| DaoImplSubscription.RecordsImpl.constructor | src/main/java/com/unitedinternet/troilus/DaoImpl.java:846-850 | no subscription yet |
| DaoImplSubscription.RecordsImpl.Subscribe | src/main/java/com/unitedinternet/troilus/DaoImpl.java:864-874 | the first subscriber gets a fresh subscription and `onSubscribe`; a later one gets an IllegalState error and the first subscription stays |
| DaoImplSubscription.ExhaustedCompletesAndRefetches | src/main/java/com/unitedinternet/troilus/DaoImpl.java:923-935 | with nothing left, each drain completes the subscriber again and issues another fetch |
| DaoImplSubscription.CompletionBeforeLastRows | src/main/java/com/unitedinternet/troilus/DaoImpl.java:912-917 | with a fully fetched result holding too few rows, `onComplete` comes before the last rows |

## Left out

- The CQL text that `QueryBuilder` renders. Statements are abstract records.
- Futures, executors and the `ListenableFuture`/`CompletableFuture` bridging.
  An asynchronous result is the value it completes with.
- Blocking `execute()` wrappers and their timeouts.
- The consistency levels, tracing and retry policy that execution applies to
  a statement. The specs store them; what the driver does with them is not
  modelled.
- Guava's size-based eviction in the caches (at most 150 and 100 entries).
  The model's caches never evict.
- The user-type cache loader and the host-up listener that clears the caches.
  `ClearCaches` models the clean itself.
- Wall-clock time. It is the parameter `now`.
- `TroilusContext.DBSession.ClearCaches`: the user-type cache is modelled as
  a map that is emptied. Its loading is not modelled.
- Entity and bean mapping (`entity`, `insertObject`, the list and single
  entity queries) and the UDT mapper. User-defined values are the
  constructor `UdtValue`.
- Using the `RecordsImpl` iterator alongside the subscription.
- `DaoImplSubscription.DatabaseSubscription`: the `synchronized` blocks, the
  atomics and the listener thread are not modelled. The subscription is
  sequential, and a fetch completes by an explicit `FetchCompleted` call.
- `DaoImplSubscription.DatabaseSubscription.Request`: `numPendingReads` is an
  unbounded integer, so the 64-bit overflow of the `AtomicLong` is not
  modelled. The `int` loop counter over a `long` count is not modelled
  either.
- `TroilusContext.DBSession.constructor`: the table metadata comes as a
  parameter, already loaded. The RuntimeException that `loadTableMetadata`
  throws for a table the keyspace does not define
  (`Context.java:476-483`) is not modelled.
- `CounterMutation.ToStatement`: requires a counter name. The source does not
  check for a null name and passes it to the driver's `QueryBuilder`, whose
  behaviour is not part of this model.
- The delete of `DaoImpl` has no applied check to model. Its `executeAsync`
  only performs the statement.
- `Record` and `Count`: these are accessors over the driver's row and result
  set. A row is a map from column name to value.

## Findings

| source | as written | input that shows it | evidently intended | confidence | as-written member | corrected member |
|---|---|---|---|---|---|---|
| src/main/java/com/unitedinternet/troilus/DaoImpl.java:543 | the key check of a single-row read throws a protocol error when the requested key value equals the returned one | key `("id", Str("a"))` with the single returned row `{id: Str("a")}` | throw only when the values differ, as `SingleReadQuery` does with its byte comparison | not executed | DaoImplReads.MatchingRowIsRejected | DaoImplReads.MatchingRowIsReturned |
