/** Property values and property types of saga data, as the saga storage contract sees them. */
module SagaValues {

  datatype Option<+T> = None | Some(value: T)

  datatype Result<+T, +E> = Ok(value: T) | Err(error: E)

  /** A .NET Guid, as the 128-bit number it encodes; Guid.Empty is zero. */
  newtype Guid = x: int | 0 <= x < 0x1_0000_0000_0000_0000_0000_0000_0000_0000

  const EmptyGuid: Guid := 0

  /**
   * The .NET property types of saga data: the six that occur on the saga data of the contract tests, and
   * any other type (long, bool, int?, a class, ...) by its Type.Name.
   */
  datatype ClrType =
    | StringType | Int32Type | GuidType | DecimalType | DateTimeType | DateTimeOffsetType
    | OtherType(name: string)

  /** Type.Name of each property type. */
  function TypeName(t: ClrType): string
  {
    match t
    case StringType => "String"
    case Int32Type => "Int32"
    case GuidType => "Guid"
    case DecimalType => "Decimal"
    case DateTimeType => "DateTime"
    case DateTimeOffsetType => "DateTimeOffset"
    case OtherType(name) => name
  }

  /**
   * A boxed property value. A decimal is its unscaled digits and its scale (23.0M is Decimal(230, 1));
   * a DateTimeOffset is its local ticks and its offset in ticks.
   */
  datatype Value =
    | Str(s: string)
    | Int(i: int)
    | GuidValue(g: Guid)
    | Decimal(units: int, scale: nat)
    | DateTime(ticks: int)
    | DateTimeOffset(ticks: int, offset: int)

  function TypeOf(v: Value): ClrType
  {
    match v
    case Str(_) => StringType
    case Int(_) => Int32Type
    case GuidValue(_) => GuidType
    case Decimal(_, _) => DecimalType
    case DateTime(_) => DateTimeType
    case DateTimeOffset(_, _) => DateTimeOffsetType
  }

  function Pow10(n: nat): nat
  {
    if n == 0 then 1 else 10 * Pow10(n - 1)
  }

  /**
   * object.Equals on two boxed values: values of different types are never equal, decimals compare by
   * numeric value (so 23M equals 23.0M) and DateTimeOffsets by the instant they denote.
   */
  predicate ValuesEqual(a: Value, b: Value)
    ensures ValuesEqual(a, b) ==> TypeOf(a) == TypeOf(b)
    ensures a == b ==> ValuesEqual(a, b)
    ensures TypeOf(a) in {StringType, Int32Type, GuidType} ==> (ValuesEqual(a, b) <==> a == b)
  {
    match (a, b)
    case (Str(x), Str(y)) => x == y
    case (Int(x), Int(y)) => x == y
    case (GuidValue(x), GuidValue(y)) => x == y
    case (Decimal(u1, s1), Decimal(u2, s2)) => u1 * Pow10(s2) == u2 * Pow10(s1)
    case (DateTime(t1), DateTime(t2)) => t1 == t2
    case (DateTimeOffset(t1, o1), DateTimeOffset(t2, o2)) => t1 - o1 == t2 - o2
    case _ => false
  }

  lemma ValuesEqualSymmetric(a: Value, b: Value)
    ensures ValuesEqual(a, b) ==> ValuesEqual(b, a)
  {
  }

  /** A saga data class: its name and the type of each of its public properties. */
  datatype SagaDataType = SagaDataType(Name: string, Properties: map<string, ClrType>)

  /** Every ISagaData has a Guid Id and an int Revision. */
  predicate IsSagaDataType(t: SagaDataType)
  {
    "Id" in t.Properties && t.Properties["Id"] == GuidType &&
    "Revision" in t.Properties && t.Properties["Revision"] == Int32Type
  }

  /**
   * The value of the named property of saga data of type t, other than Id and Revision: when present, the
   * property is declared by t and the value has the declared type; a declared property of a value type (int,
   * Guid, decimal, DateTime, DateTimeOffset) is always present, because such a property cannot be null.
   * Only a string property may lack a value, and so may a property of another type, whose values are not
   * represented.
   */
  ghost predicate FieldWellTyped(t: SagaDataType, fields: map<string, Value>, name: string)
  {
    (name in fields ==>
       name != "Id" && name != "Revision" && name in t.Properties && TypeOf(fields[name]) == t.Properties[name]) &&
    (name in t.Properties && name != "Id" && name != "Revision" && t.Properties[name] != StringType &&
     !t.Properties[name].OtherType? ==>
       name in fields)
  }

  /** Saga data of type t with these values for its other properties. */
  ghost predicate WellTyped(t: SagaDataType, fields: map<string, Value>)
  {
    IsSagaDataType(t) && forall name :: FieldWellTyped(t, fields, name)
  }

  const TestSagaData: SagaDataType := SagaDataType("TestSagaData", map[
    "Id" := GuidType, "Revision" := Int32Type, "CorrelationId" := StringType, "Data" := StringType])

  const AnotherSagaData: SagaDataType := SagaDataType("AnotherSagaData", map[
    "Id" := GuidType, "Revision" := Int32Type])

  const SagaDataWithVariousCorrelationProperties: SagaDataType :=
    SagaDataType("SagaDataWithVariousCorrelationProperties", map[
      "Id" := GuidType, "Revision" := Int32Type,
      "CorrelateByString" := StringType, "CorrelateByGuid" := GuidType, "CorrelateByInt" := Int32Type,
      "CorrelateByDecimal" := DecimalType, "CorrelateByDateTime" := DateTimeType,
      "CorrelateByDateTimeOffset" := DateTimeOffsetType])
}
