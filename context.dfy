/** The execution context of the java7 core: an immutable bundle of the
  * session, the execution settings, the interceptors and the bean mapper,
  * each `with...` returning a new bundle; and the session façade that caches
  * prepared statements and user types and invalidates both caches, at most
  * once a second, when the driver reports a stale session. */
module TroilusContext {

  import opened Wrappers
  import opened Values
  import Coercion
  import RateLimit
  import opened Statements

  datatype RetryPolicy = RetryPolicy(id: nat)
  datatype Interceptor = Interceptor(id: nat)
  datatype BeanMapper = BeanMapper(id: nat)
  datatype Executor = Executor(id: nat)
  datatype UserType = UserType(name: string)

  /** The registered interceptors, in registration order. */
  datatype InterceptorRegistry = InterceptorRegistry(interceptors: seq<Interceptor>)
  {
    function WithInterceptor(i: Interceptor): (r: InterceptorRegistry)
      ensures r.interceptors == interceptors + [i]
    {
      InterceptorRegistry(interceptors + [i])
    }
  }

  /** The per-statement settings; an absent field is a Java `null`. */
  datatype ExecutionSpec = ExecutionSpec(
    consistencyLevel: Option<Consistency>,
    serialConsistencyLevel: Option<Consistency>,
    ttlSec: Option<Int32>,
    writetimeMicrosSinceEpoch: Option<Int64>,
    enableTracing: Option<bool>,
    retryPolicy: Option<RetryPolicy>)
  {
    /** Each setter below sets its own field and leaves the five others as
      * they were, which `r.(field := this.field) == this` says. */
    function WithConsistency(c: Consistency): (r: ExecutionSpec)
      ensures r.consistencyLevel == Some(c)
      ensures r.(consistencyLevel := consistencyLevel) == this
    {
      this.(consistencyLevel := Some(c))
    }

    function WithSerialConsistency(c: Consistency): (r: ExecutionSpec)
      ensures r.serialConsistencyLevel == Some(c)
      ensures r.(serialConsistencyLevel := serialConsistencyLevel) == this
    {
      this.(serialConsistencyLevel := Some(c))
    }

    function WithTtl(ttl: Int32): (r: ExecutionSpec)
      ensures r.ttlSec == Some(ttl)
      ensures r.(ttlSec := ttlSec) == this
    {
      this.(ttlSec := Some(ttl))
    }

    function WithWritetime(micros: Int64): (r: ExecutionSpec)
      ensures r.writetimeMicrosSinceEpoch == Some(micros)
      ensures r.(writetimeMicrosSinceEpoch := writetimeMicrosSinceEpoch) == this
    {
      this.(writetimeMicrosSinceEpoch := Some(micros))
    }

    function WithTracking(): (r: ExecutionSpec)
      ensures r.enableTracing == Some(true)
      ensures r.(enableTracing := enableTracing) == this
    {
      this.(enableTracing := Some(true))
    }

    function WithoutTracking(): (r: ExecutionSpec)
      ensures r.enableTracing == Some(false)
      ensures r.(enableTracing := enableTracing) == this
    {
      this.(enableTracing := Some(false))
    }

    function WithRetryPolicy(p: RetryPolicy): (r: ExecutionSpec)
      ensures r.retryPolicy == Some(p)
      ensures r.(retryPolicy := retryPolicy) == this
    {
      this.(retryPolicy := Some(p))
    }
  }

  /** The settings of a new context: all six unset. */
  function DefaultExecutionSpec(): (s: ExecutionSpec)
    ensures s.consistencyLevel.None? && s.serialConsistencyLevel.None? && s.ttlSec.None?
    ensures s.writetimeMicrosSinceEpoch.None? && s.enableTracing.None? && s.retryPolicy.None?
  {
    ExecutionSpec(None, None, None, None, None, None)
  }

  /** Setters of different fields commute, and of the same field the later wins. */
  lemma SettersCommute(s: ExecutionSpec, c: Consistency, ttl: Int32, micros: Int64)
    ensures s.WithConsistency(c).WithTtl(ttl) == s.WithTtl(ttl).WithConsistency(c)
    ensures s.WithTtl(ttl).WithWritetime(micros) == s.WithWritetime(micros).WithTtl(ttl)
    ensures s.WithTracking().WithoutTracking() == s.WithoutTracking()
    ensures s.WithoutTracking().WithTracking() == s.WithTracking()
  {
  }

  /** The session façade of a context (`Context.DBSession`). The table
    * metadata is read once at construction, so it is a constant here. */
  class DBSession {
    const tablename: string
    const loggedKeyspace: string
    /** Column name to type, from the table metadata. */
    const columns: map<string, DataType>

    var preparedStatementsCache: map<string, Prepared>
    var userTypeCache: map<string, UserType>
    var statementCacheCleanTime: int

    constructor (tablename: string, loggedKeyspace: string, columns: map<string, DataType>)
      ensures this.tablename == tablename && this.loggedKeyspace == loggedKeyspace && this.columns == columns
      ensures preparedStatementsCache == map[] && userTypeCache == map[] && statementCacheCleanTime == 0
    {
      this.tablename := tablename;
      this.loggedKeyspace := loggedKeyspace;
      this.columns := columns;
      preparedStatementsCache := map[];
      userTypeCache := map[];
      statementCacheCleanTime := 0;
    }

    /** The metadata of a column; an unknown column is a RuntimeException. */
    function GetColumnMetadata(columnName: string): (r: Result<DataType, Error>)
      ensures r.Ok? <==> columnName in columns
      ensures r.Ok? ==> r.value == columns[columnName]
      ensures r.Err? ==> r.error == UnknownColumn(columnName)
    {
      if columnName in columns then Ok(columns[columnName]) else Err(UnknownColumn(columnName))
    }

    /** Prepares a statement, asking the driver only on a cache miss; the
      * driver's eventual answer is `prepared`, and a successful one is cached
      * under the statement's query string. */
    method PrepareAsync(queryString: string, prepared: Result<Prepared, Error>)
      returns (r: Result<Prepared, Error>, askedDriver: bool)
      modifies this`preparedStatementsCache
      ensures askedDriver == (queryString !in old(preparedStatementsCache))
      ensures !askedDriver ==>
                r == Ok(old(preparedStatementsCache)[queryString]) && preparedStatementsCache == old(preparedStatementsCache)
      ensures askedDriver ==> r == prepared
      ensures askedDriver && prepared.Ok? ==>
                preparedStatementsCache == old(preparedStatementsCache)[queryString := prepared.value]
      ensures askedDriver && prepared.Err? ==> preparedStatementsCache == old(preparedStatementsCache)
    {
      if queryString in preparedStatementsCache {
        return Ok(preparedStatementsCache[queryString]), false;
      }
      if prepared.Ok? {
        preparedStatementsCache := preparedStatementsCache[queryString := prepared.value];
      }
      return prepared, true;
    }

    /** Invalidates both caches, unless the last invalidation was at most
      * 1000 ms before `now`. */
    method ClearCaches(now: int)
      modifies this`preparedStatementsCache, this`userTypeCache, this`statementCacheCleanTime
      ensures RateLimit.Invalidates(old(statementCacheCleanTime), now, 1000) ==>
                statementCacheCleanTime == now && preparedStatementsCache == map[] && userTypeCache == map[]
      ensures !RateLimit.Invalidates(old(statementCacheCleanTime), now, 1000) ==>
                statementCacheCleanTime == old(statementCacheCleanTime)
                && preparedStatementsCache == old(preparedStatementsCache)
                && userTypeCache == old(userTypeCache)
    {
      if now > statementCacheCleanTime + 1000 {
        statementCacheCleanTime := now;
        preparedStatementsCache := map[];
        userTypeCache := map[];
      }
    }

    /** Hands a statement to the driver. An InvalidQueryException or a
      * DriverInternalError becomes a failed future after a cache clear; any
      * other exception propagates. */
    method ExecuteAsync(call: DriverCall, now: int) returns (r: Submission)
      modifies this`preparedStatementsCache, this`userTypeCache, this`statementCacheCleanTime
      ensures call.Accepted? ==> r == Pending(call.resultSet)
      ensures call.Raised? && InvalidatesCaches(call.error) ==> r == FailedFuture(call.error)
      ensures call.Raised? && !InvalidatesCaches(call.error) ==> r == Thrown(call.error)
      ensures call.Raised? && InvalidatesCaches(call.error) && RateLimit.Invalidates(old(statementCacheCleanTime), now, 1000) ==>
                statementCacheCleanTime == now && preparedStatementsCache == map[] && userTypeCache == map[]
      ensures !(call.Raised? && InvalidatesCaches(call.error) && RateLimit.Invalidates(old(statementCacheCleanTime), now, 1000)) ==>
                statementCacheCleanTime == old(statementCacheCleanTime)
                && preparedStatementsCache == old(preparedStatementsCache)
                && userTypeCache == old(userTypeCache)
    {
      match call
      case Accepted(rs) =>
        r := Pending(rs);
      case Raised(e) =>
        if InvalidatesCaches(e) {
          ClearCaches(now);
          r := FailedFuture(e);
        } else {
          r := Thrown(e);
        }
    }
  }

  /** The context itself. */
  datatype Context = Context(
    dbSession: DBSession,
    executionSpec: ExecutionSpec,
    interceptorRegistry: InterceptorRegistry,
    beanMapper: BeanMapper,
    executors: Executor)
  {
    function WithInterceptor(i: Interceptor): (r: Context)
      ensures r.interceptorRegistry.interceptors == interceptorRegistry.interceptors + [i]
      ensures r.(interceptorRegistry := interceptorRegistry) == this
    {
      this.(interceptorRegistry := interceptorRegistry.WithInterceptor(i))
    }

    function WithSerialConsistency(c: Consistency): (r: Context)
      ensures r.executionSpec.serialConsistencyLevel == Some(c)
      ensures r.executionSpec.(serialConsistencyLevel := executionSpec.serialConsistencyLevel) == executionSpec
      ensures r.(executionSpec := executionSpec) == this
    {
      this.(executionSpec := executionSpec.WithSerialConsistency(c))
    }

    function WithTtl(ttl: Int32): (r: Context)
      ensures r.executionSpec.ttlSec == Some(ttl)
      ensures r.executionSpec.(ttlSec := executionSpec.ttlSec) == executionSpec
      ensures r.(executionSpec := executionSpec) == this
    {
      this.(executionSpec := executionSpec.WithTtl(ttl))
    }

    function WithWritetime(micros: Int64): (r: Context)
      ensures r.executionSpec.writetimeMicrosSinceEpoch == Some(micros)
      ensures r.executionSpec.(writetimeMicrosSinceEpoch := executionSpec.writetimeMicrosSinceEpoch) == executionSpec
      ensures r.(executionSpec := executionSpec) == this
    {
      this.(executionSpec := executionSpec.WithWritetime(micros))
    }

    function WithTracking(): (r: Context)
      ensures r.executionSpec.enableTracing == Some(true)
      ensures r.executionSpec.(enableTracing := executionSpec.enableTracing) == executionSpec
      ensures r.(executionSpec := executionSpec) == this
    {
      this.(executionSpec := executionSpec.WithTracking())
    }

    function WithoutTracking(): (r: Context)
      ensures r.executionSpec.enableTracing == Some(false)
      ensures r.executionSpec.(enableTracing := executionSpec.enableTracing) == executionSpec
      ensures r.(executionSpec := executionSpec) == this
    {
      this.(executionSpec := executionSpec.WithoutTracking())
    }

    function WithRetryPolicy(p: RetryPolicy): (r: Context)
      ensures r.executionSpec.retryPolicy == Some(p)
      ensures r.executionSpec.(retryPolicy := executionSpec.retryPolicy) == executionSpec
      ensures r.(executionSpec := executionSpec) == this
    {
      this.(executionSpec := executionSpec.WithRetryPolicy(p))
    }

    function WithConsistency(c: Consistency): (r: Context)
      ensures r.executionSpec.consistencyLevel == Some(c)
      ensures r.executionSpec.(consistencyLevel := executionSpec.consistencyLevel) == executionSpec
      ensures r.(executionSpec := executionSpec) == this
    {
      this.(executionSpec := executionSpec.WithConsistency(c))
    }

    /** The value bound for column `name`; see `Coercion.ToStatementValue`. */
    function ToStatementValue(name: string, v: Value): (r: Result<Value, Error>)
      ensures Coercion.IsNullOrEmpty(v) ==> r == Ok(Null)
      ensures !Coercion.IsNullOrEmpty(v) ==> (r.Ok? <==> dbSession.GetColumnMetadata(name).Ok?)
      ensures r.Ok? && !Coercion.IsNullOrEmpty(v) ==> r.value == Coercion.CoerceByType(dbSession.columns[name], v)
    {
      Coercion.ToStatementValue(dbSession.columns, name, v)
    }

    /** Coerces every value of a list for the same column, keeping length and
      * order; fails with the first value that fails, and, since the result
      * is an ImmutableList, when a value coerces to null. */
    method ToStatementValues(name: string, values: seq<Value>) returns (r: Result<seq<Value>, Error>)
      ensures r == (var vs :- MapAll(Coercion.ColumnCoercer(dbSession.columns, name), values); CopyOfList(vs))
      ensures r.Ok? ==> |r.value| == |values| && Null !in r.value
      ensures r.Ok? ==> forall i :: 0 <= i < |values| ==> ToStatementValue(name, values[i]) == Ok(r.value[i])
    {
      var coerce := Coercion.ColumnCoercer(dbSession.columns, name);
      var result: seq<Value> := [];
      var i := 0;
      while i < |values|
        invariant 0 <= i <= |values|
        invariant MapAll(coerce, values[..i]) == Ok(result)
      {
        var v := ToStatementValue(name, values[i]);
        if v.Err? {
          MapAllFailsAt(coerce, values, i);
          return Err(v.error);
        }
        MapAllStep(coerce, values, i, result, v.value);
        result := result + [v.value];
        i := i + 1;
      }
      assert values[..i] == values;
      r := CopyOfList(result);
    }
  }

  /** The table a context's statements go to, unqualified by keyspace. */
  function Table(ctx: Context): Target
  {
    Target(None, ctx.dbSession.tablename)
  }

  /** The TTL slot of a prepared statement, its bound value, and the TTL
    * slot of a literal statement: all absent when no TTL is set. */
  function TtlMarker(ctx: Context): Option<Term>
  {
    if ctx.executionSpec.ttlSec.Some? then Some(Marker) else None
  }

  function TtlValues(ctx: Context): seq<Value>
  {
    if ctx.executionSpec.ttlSec.Some? then [Num(ctx.executionSpec.ttlSec.value)] else []
  }

  function TtlLiteral(ctx: Context): Option<Term>
  {
    if ctx.executionSpec.ttlSec.Some? then Some(Lit(Num(ctx.executionSpec.ttlSec.value))) else None
  }

  /** A context as `new Context(session, tablename)` makes it. */
  function NewContext(session: DBSession, beanMapper: BeanMapper, executors: Executor): (ctx: Context)
    ensures ctx.dbSession == session && ctx.executionSpec == DefaultExecutionSpec()
    ensures ctx.interceptorRegistry.interceptors == []
  {
    Context(session, DefaultExecutionSpec(), InterceptorRegistry([]), beanMapper, executors)
  }
}
