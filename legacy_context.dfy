/** The execution context of the original core, which the builders of
  * `DaoImpl`, `WriteQuery`, `DeleteQuery` and `SingleReadQuery` read through
  * `getTable()`, `getTtl()`, `getIfNotExits()`, `getSerialConsistencyLevel()`
  * and the column metadata. Its class is not part of this model: it is kept
  * as the immutable bundle of settings its callers treat it as, each
  * `with...` replacing one setting. */
module LegacyContext {

  import opened Wrappers
  import opened Values
  import opened Statements

  datatype Context = Context(
    table: string,
    columns: map<string, DataType>,
    consistency: Option<Consistency>,
    serialConsistency: Option<Consistency>,
    ttlSeconds: Option<Int64>,       // getTtl(), a Duration, in seconds
    writetime: Option<Int64>,
    ifNotExists: bool)               // getIfNotExits()
  {
    function WithConsistency(c: Consistency): (r: Context)
      ensures r.consistency == Some(c) && r.(consistency := consistency) == this
    {
      this.(consistency := Some(c))
    }

    function WithSerialConsistency(c: Consistency): (r: Context)
      ensures r.serialConsistency == Some(c) && r.(serialConsistency := serialConsistency) == this
    {
      this.(serialConsistency := Some(c))
    }

    function WithTtl(seconds: Int64): (r: Context)
      ensures r.ttlSeconds == Some(seconds) && r.(ttlSeconds := ttlSeconds) == this
    {
      this.(ttlSeconds := Some(seconds))
    }

    function WithWritetime(micros: Int64): (r: Context)
      ensures r.writetime == Some(micros) && r.(writetime := writetime) == this
    {
      this.(writetime := Some(micros))
    }

    function IfNotExits(): (r: Context)
      ensures r.ifNotExists && r.(ifNotExists := ifNotExists) == this
    {
      this.(ifNotExists := true)
    }

    function Target(): Target
    {
      Statements.Target(None, table)
    }

    /** The type of a column; an unknown column is an error. */
    function ColumnType(name: string): (r: Result<DataType, Error>)
      ensures r.Ok? <==> name in columns
      ensures r.Ok? ==> r.value == columns[name]
      ensures r.Err? ==> r.error == UnknownColumn(name)
    {
      if name in columns then Ok(columns[name]) else Err(UnknownColumn(name))
    }

    /** The TTL slot of a prepared statement and its bound value,
      * `(int) ttl.getSeconds()`, and the slot of a literal statement. */
    function TtlMarker(): Option<Term>
    {
      if ttlSeconds.Some? then Some(Marker) else None
    }

    function TtlValues(): seq<Value>
    {
      if ttlSeconds.Some? then [Num(ToInt32(ttlSeconds.value))] else []
    }

    function TtlLiteral(): Option<Term>
    {
      if ttlSeconds.Some? then Some(Lit(Num(ToInt32(ttlSeconds.value)))) else None
    }
  }

  /** One example of the wrap: a TTL of 2^31 seconds, one more than the
    * largest int, is bound as -2^31. The general statement is the contract of
    * `Values.ToInt32`: the seconds wrap modulo 2^32, so 2^32 seconds bind as 0. */
  lemma TtlWraps(ctx: Context)
    requires ctx.ttlSeconds == Some(0x8000_0000)
    ensures ctx.TtlValues() == [Num(-0x8000_0000)]
  {
  }
}
