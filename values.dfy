/** The Java values that flow through the data-access layer, the CQL column
  * types they are coerced for, the exceptions it raises, and the fixed-width
  * integer arithmetic of the JVM where the layer relies on it. */
module Values {

  import opened Wrappers

  const INT32_MIN: int := -0x8000_0000
  const INT32_MODULUS: int := 0x1_0000_0000
  const INT64_MIN: int := -0x8000_0000_0000_0000
  const INT64_MODULUS: int := 0x1_0000_0000_0000_0000

  /** A Java `int`. */
  type Int32 = x: int | INT32_MIN <= x < INT32_MIN + INT32_MODULUS
  /** A Java `long`. */
  type Int64 = x: int | INT64_MIN <= x < INT64_MIN + INT64_MODULUS

  /** The `(int)` cast of a `long`: keeps the low 32 bits, two's complement. */
  function ToInt32(x: Int64): (r: Int32)
    ensures INT32_MIN <= x < INT32_MIN + INT32_MODULUS ==> r == x
    ensures (x - r) % INT32_MODULUS == 0
  {
    (x - INT32_MIN) % INT32_MODULUS + INT32_MIN
  }

  /** `0 - x` on Java `long`s, which wraps for `Long.MIN_VALUE`. */
  function NegateInt64(x: Int64): (r: Int64)
    ensures x != INT64_MIN ==> r == -x
    ensures x == INT64_MIN ==> r == x
  {
    if x == INT64_MIN then x else -x
  }

  /** The CQL type of a column, as the table metadata reports it. */
  datatype DataType =
    | TextType
    | AsciiType
    | VarcharType
    | BlobType
    | OtherBuiltIn(name: string)  // int, bigint, timestamp, collections, ...
    | UserDefined(typeName: string)

  /** A Java object handed to the layer or produced by it. */
  datatype Value =
    | Null
    | Str(s: string)
    | Num(n: int)
    | Bool(b: bool)
    | EnumConst(enumType: string, constant: string)  // toString() yields the constant's name
    | ByteArray(bytes: seq<bv8>)                       // byte[]
    | ByteBuffer(buffer: seq<bv8>)                     // java.nio.ByteBuffer
    | ListOf(elems: seq<Value>)                        // java.util.List
    | SetOf(members: seq<Value>)                       // java.util.Set, in iteration order
    | MapOf(entries: seq<(Value, Value)>)              // java.util.Map, in iteration order
    | Optional(content: Option<Value>)                 // java.util.Optional
    | UdtValue(udtType: DataType, source: Value)       // what the UDT mapper makes of source
    | Other(id: nat)                                   // any other object

  /** A user-supplied QueryBuilder clause (`eq`, `gt`, `in`, ...). */
  datatype Clause = Clause(id: nat)

  datatype Consistency = Any | One | Two | Three | Quorum | All | LocalQuorum | EachQuorum | Serial | LocalSerial | LocalOne

  /** A result row: column name to decoded value; a null cell is absent or Null. */
  type Row = map<string, Value>

  /** The exceptions the core raises or passes on. */
  datatype Error =
    | IllegalState(reason: string)       // IllegalStateException
    | IllegalArgument(reason: string)    // IllegalArgumentException
    | UnknownColumn(column: string)      // RuntimeException: table does not support column
    | AlreadyExistsConflict              // DaoImpl insert IF NOT EXISTS not applied
    | IfConditionFailed(reason: string)  // IfConditionException
    | TooManyResults                     // more than one row for a single-row read
    | ProtocolError(column: string)      // returned key differs from the requested key
    | NullPointer                        // NullPointerException
    | NoSuchElement                      // Optional.get() on an empty Optional
    | InvalidQuery                       // driver InvalidQueryException
    | DriverInternal                     // driver DriverInternalError
    | OtherDriverError(name: string)     // any other driver exception

  /** `Optional.orNull()`. */
  function OrNull(o: Option<Value>): (r: Value)
    ensures o.None? ==> r == Null
    ensures o.Some? ==> r == o.value
  {
    if o.Some? then o.value else Null
  }

  /** `ImmutableList.copyOf`, which rejects a null element. */
  function CopyOfList(vs: seq<Value>): (r: Result<seq<Value>, Error>)
    ensures r.Ok? <==> Null !in vs
    ensures r.Ok? ==> r.value == vs
    ensures r.Err? ==> r.error == NullPointer
  {
    if Null in vs then Err(NullPointer) else Ok(vs)
  }

  /** A driver PreparedStatement. */
  datatype Prepared = Prepared(id: nat)

  /** What the driver's `executeAsync` did when called: it returned the future
    * of result set `resultSet`, or it threw. */
  datatype DriverCall = Accepted(resultSet: nat) | Raised(error: Error)

  /** What the layer's `executeAsync` hands back to its caller. */
  datatype Submission =
    | Pending(resultSet: nat)      // the driver's future
    | FailedFuture(failure: Error) // Futures.immediateFailedFuture
    | Thrown(thrown: Error)        // the exception propagates to the caller

  /** The driver errors after which the caches may be stale. */
  predicate InvalidatesCaches(e: Error)
  {
    e == InvalidQuery || e == DriverInternal
  }

}
