/** The session façade of the later java7 core (`DBSession`): the logged
  * keyspace, a catalog of table metadata, a cache of prepared statements
  * keyed by query string, and a clean-up that empties that cache, at most
  * once every 1600 ms, when the driver reports a stale session. */
module DbSession {

  import opened Wrappers
  import opened Values
  import opened Statements
  import Coercion
  import RateLimit

  /** `DBSession.PreparedStatementCache`. */
  class PreparedStatementCache {
    var entries: map<string, Prepared>

    constructor ()
      ensures entries == map[]
    {
      entries := map[];
    }

    /** Prepares a statement, asking the driver only on a cache miss; the
      * driver's eventual answer is `prepared`, and a successful one is cached
      * under the statement's query string. */
    method PrepareAsync(queryString: string, prepared: Result<Prepared, Error>)
      returns (r: Result<Prepared, Error>, askedDriver: bool)
      modifies this
      ensures askedDriver == (queryString !in old(entries))
      ensures !askedDriver ==> r == Ok(old(entries)[queryString]) && entries == old(entries)
      ensures askedDriver ==> r == prepared
      ensures askedDriver && prepared.Ok? ==> entries == old(entries)[queryString := prepared.value]
      ensures askedDriver && prepared.Err? ==> entries == old(entries)
    {
      if queryString in entries {
        return Ok(entries[queryString]), false;
      }
      if prepared.Ok? {
        entries := entries[queryString := prepared.value];
      }
      return prepared, true;
    }

    method InvalidateAll()
      modifies this
      ensures entries == map[]
    {
      entries := map[];
    }
  }

  class DBSession {
    /** `session.getLoggedKeyspace()`, which may be null. */
    const keyspacename: Option<string>
    const isKeyspacenameAssigned: bool
    /** Table to column to type: what the metadata catalog knows. */
    const catalog: map<Target, map<string, DataType>>
    const preparedStatementCache: PreparedStatementCache
    var lastCacheCleanTime: int

    ghost predicate Valid()
      reads this
    {
      isKeyspacenameAssigned == keyspacename.Some?
    }

    constructor (loggedKeyspace: Option<string>, catalog: map<Target, map<string, DataType>>)
      ensures Valid()
      ensures keyspacename == loggedKeyspace && this.catalog == catalog
      ensures fresh(preparedStatementCache) && preparedStatementCache.entries == map[]
      ensures lastCacheCleanTime == 0
    {
      keyspacename := loggedKeyspace;
      isKeyspacenameAssigned := loggedKeyspace.Some?;
      this.catalog := catalog;
      preparedStatementCache := new PreparedStatementCache();
      lastCacheCleanTime := 0;
    }

    /** Spelled `isKeyspaqcenameAssigned` in the source. */
    function IsKeyspacenameAssigned(): (r: bool)
      reads this
      requires Valid()
      ensures r <==> keyspacename.Some?
    {
      isKeyspacenameAssigned
    }

    method PrepareAsync(queryString: string, prepared: Result<Prepared, Error>)
      returns (r: Result<Prepared, Error>, askedDriver: bool)
      modifies preparedStatementCache
      ensures askedDriver == (queryString !in old(preparedStatementCache.entries))
      ensures !askedDriver ==>
                r == Ok(old(preparedStatementCache.entries)[queryString])
                && preparedStatementCache.entries == old(preparedStatementCache.entries)
      ensures askedDriver ==> r == prepared
      ensures askedDriver && prepared.Ok? ==>
                preparedStatementCache.entries == old(preparedStatementCache.entries)[queryString := prepared.value]
      ensures askedDriver && prepared.Err? ==> preparedStatementCache.entries == old(preparedStatementCache.entries)
    {
      r, askedDriver := preparedStatementCache.PrepareAsync(queryString, prepared);
    }

    /** Empties the statement cache, unless the last time was at most 1600 ms
      * before `now`. */
    method CleanUp(now: int)
      modifies this`lastCacheCleanTime, preparedStatementCache
      ensures RateLimit.Invalidates(old(lastCacheCleanTime), now, 1600) ==>
                lastCacheCleanTime == now && preparedStatementCache.entries == map[]
      ensures !RateLimit.Invalidates(old(lastCacheCleanTime), now, 1600) ==>
                lastCacheCleanTime == old(lastCacheCleanTime)
                && preparedStatementCache.entries == old(preparedStatementCache.entries)
    {
      if now > lastCacheCleanTime + 1600 {
        lastCacheCleanTime := now;
        preparedStatementCache.InvalidateAll();
      }
    }

    /** Hands a statement to the driver. An InvalidQueryException or a
      * DriverInternalError becomes a failed future after a clean-up; any
      * other exception propagates. */
    method ExecuteAsync(call: DriverCall, now: int) returns (r: Submission)
      modifies this`lastCacheCleanTime, preparedStatementCache
      ensures call.Accepted? ==> r == Pending(call.resultSet)
      ensures call.Raised? && InvalidatesCaches(call.error) ==> r == FailedFuture(call.error)
      ensures call.Raised? && !InvalidatesCaches(call.error) ==> r == Thrown(call.error)
      ensures call.Raised? && InvalidatesCaches(call.error) && RateLimit.Invalidates(old(lastCacheCleanTime), now, 1600) ==>
                lastCacheCleanTime == now && preparedStatementCache.entries == map[]
      ensures !(call.Raised? && InvalidatesCaches(call.error) && RateLimit.Invalidates(old(lastCacheCleanTime), now, 1600)) ==>
                lastCacheCleanTime == old(lastCacheCleanTime)
                && preparedStatementCache.entries == old(preparedStatementCache.entries)
    {
      match call
      case Accepted(rs) =>
        r := Pending(rs);
      case Raised(e) =>
        if InvalidatesCaches(e) {
          CleanUp(now);
          r := FailedFuture(e);
        } else {
          r := Thrown(e);
        }
    }

    /** The columns the catalog knows for a table; an unknown table has none. */
    function ColumnsOf(tablename: Target): map<string, DataType>
    {
      if tablename in catalog then catalog[tablename] else map[]
    }

    /** The value bound for column `name` of `tablename`; an unknown table or
      * column fails, but only for a value that is not null or empty. */
    function ToStatementValue(tablename: Target, name: string, v: Value): (r: Result<Value, Error>)
      ensures Coercion.IsNullOrEmpty(v) ==> r == Ok(Null)
      ensures !Coercion.IsNullOrEmpty(v) ==> (r.Ok? <==> tablename in catalog && name in catalog[tablename])
      ensures r.Err? ==> r.error == UnknownColumn(name)
      ensures r.Ok? && !Coercion.IsNullOrEmpty(v) ==> r.value == Coercion.CoerceByType(catalog[tablename][name], v)
    {
      Coercion.ToStatementValue(ColumnsOf(tablename), name, v)
    }

    /** `ToStatementValue` for name/value entries of one table, as a function value. */
    function EntryCoercer(tablename: Target): ((string, Value)) -> Result<Value, Error>
    {
      Coercion.EntryCoercer(ColumnsOf(tablename))
    }

    /** Coerces every value of a list for the same column, keeping length and
      * order; fails with the first value that fails, and, since the result
      * is an ImmutableList, when a value coerces to null. */
    method ToStatementValues(tablename: Target, name: string, values: seq<Value>) returns (r: Result<seq<Value>, Error>)
      ensures r == (var vs :- MapAll(Coercion.ColumnCoercer(ColumnsOf(tablename), name), values); CopyOfList(vs))
      ensures r.Ok? ==> |r.value| == |values| && Null !in r.value
      ensures r.Ok? ==> forall i :: 0 <= i < |values| ==> ToStatementValue(tablename, name, values[i]) == Ok(r.value[i])
    {
      var coerce := Coercion.ColumnCoercer(ColumnsOf(tablename), name);
      var result: seq<Value> := [];
      var i := 0;
      while i < |values|
        invariant 0 <= i <= |values|
        invariant MapAll(coerce, values[..i]) == Ok(result)
      {
        var v := ToStatementValue(tablename, name, values[i]);
        if v.Err? {
          MapAllFailsAt(coerce, values, i);
          return Err(v.error);
        }
        MapAllStep(coerce, values, i, result, v.value);
        result := result + [v.value];
        i := i + 1;
      }
      assert values[..i] == values;
      r := CopyOfList(result);
    }
  }
}
