/** Turning a Java value into what the driver binds for a column: null and
  * empty collections become null, enum constants become their names for
  * text columns, byte arrays become buffers for blob columns, other built-in
  * values pass through, and values for user-defined types go to the UDT
  * mapper. */
module Coercion {

  import opened Wrappers
  import opened Values

  /** Null, or an empty collection or map. */
  predicate IsNullOrEmpty(v: Value)
  {
    || v.Null?
    || (v.ListOf? && v.elems == [])
    || (v.SetOf? && v.members == [])
    || (v.MapOf? && v.entries == [])
  }

  /** text, ascii and varchar. */
  predicate IsTextDataType(t: DataType)
  {
    t == TextType || t == AsciiType || t == VarcharType
  }

  /** Every driver type except a user-defined one is built in. */
  predicate IsBuiltInType(t: DataType)
  {
    !t.UserDefined?
  }

  /** The value bound for a non-empty `v` in a column of type `t`. */
  function CoerceByType(t: DataType, v: Value): (r: Value)
    ensures IsTextDataType(t) && v.EnumConst? ==> r == Str(v.constant)
    ensures t == BlobType && v.ByteArray? ==> r == ByteBuffer(v.bytes)
    ensures IsBuiltInType(t) && !(IsTextDataType(t) && v.EnumConst?) && !(t == BlobType && v.ByteArray?) ==> r == v
    ensures !IsBuiltInType(t) ==> r == UdtValue(t, v)
    ensures v != Null ==> r != Null
  {
    if IsBuiltInType(t) then
      if IsTextDataType(t) && v.EnumConst? then Str(v.constant)
      else if t == BlobType && v.ByteArray? then ByteBuffer(v.bytes)
      else v
    else UdtValue(t, v)
  }

  /** The coercion of a value for column `name` of a table whose columns are
    * `columns`; an unknown column fails, but only for a value that is not
    * null or empty, since that check comes first. */
  function ToStatementValue(columns: map<string, DataType>, name: string, v: Value): (r: Result<Value, Error>)
    ensures IsNullOrEmpty(v) ==> r == Ok(Null)
    ensures !IsNullOrEmpty(v) ==> (r.Ok? <==> name in columns)
    ensures r.Err? ==> r.error == UnknownColumn(name)
    ensures r.Ok? && !IsNullOrEmpty(v) ==> r.value == CoerceByType(columns[name], v) && r.value != Null
  {
    if IsNullOrEmpty(v) then Ok(Null)
    else if name !in columns then Err(UnknownColumn(name))
    else Ok(CoerceByType(columns[name], v))
  }

  /** Coercing an already coerced value changes nothing for a built-in type. */
  lemma CoerceBuiltInIdempotent(t: DataType, v: Value)
    requires IsBuiltInType(t)
    ensures CoerceByType(t, CoerceByType(t, v)) == CoerceByType(t, v)
  {
  }

  /** For a user-defined type a second coercion wraps the mapped value again. */
  lemma CoerceUdtNotIdempotent(t: DataType, v: Value)
    requires !IsBuiltInType(t)
    ensures CoerceByType(t, CoerceByType(t, v)) != CoerceByType(t, v)
  {
    assert CoerceByType(t, CoerceByType(t, v)) == UdtValue(t, UdtValue(t, v));
    assert v < UdtValue(t, v);
  }

  /** `ToStatementValue` for a fixed column, as a function value. */
  function ColumnCoercer(columns: map<string, DataType>, name: string): Value -> Result<Value, Error>
  {
    (v: Value) => ToStatementValue(columns, name, v)
  }

  /** `ToStatementValue` for name/value entries, as a function value. */
  function EntryCoercer(columns: map<string, DataType>): ((string, Value)) -> Result<Value, Error>
  {
    (e: (string, Value)) => ToStatementValue(columns, e.0, e.1)
  }
}
