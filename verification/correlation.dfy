/** The correlation property of the saga storage contract tests, with its allow-list of property types. */
module Correlation {
  import opened SagaValues

  /** Property types a saga may be correlated by, in the order the error message lists them. */
  const AllowedCorrelationPropertyTypes: seq<ClrType> := [StringType, Int32Type, GuidType]

  /** A property of a saga data type that identifies a saga instance; immutable once constructed. */
  datatype CorrelationProperty = CorrelationProperty(PropertyName: string, SagaDataType: SagaDataType)

  /**
   * Why a correlation property could not be constructed: the named property does not exist (the lookup of
   * its type dereferences null), or its type is not on the allow-list.
   */
  datatype ValidationError =
    | NullReference
    | ArgumentError(propertyName: string, sagaTypeName: string, allowedTypes: seq<ClrType>)

  /** The property's type is one of the allowed correlation types. */
  predicate HasAllowedType(name: string, t: SagaDataType)
  {
    name in t.Properties && t.Properties[name] in AllowedCorrelationPropertyTypes
  }

  /** Checks the property type of a correlation property; None when it may be used. */
  function Validate(p: CorrelationProperty): (r: Option<ValidationError>)
    ensures r.None? <==> HasAllowedType(p.PropertyName, p.SagaDataType)
    ensures r == Some(NullReference) <==> p.PropertyName !in p.SagaDataType.Properties
    ensures r.Some? && r.value.ArgumentError? ==>
              r.value.propertyName == p.PropertyName && r.value.sagaTypeName == p.SagaDataType.Name &&
              r.value.allowedTypes == AllowedCorrelationPropertyTypes
  {
    if p.PropertyName !in p.SagaDataType.Properties then Some(NullReference)
    else if p.SagaDataType.Properties[p.PropertyName] in AllowedCorrelationPropertyTypes then None
    else Some(ArgumentError(p.PropertyName, p.SagaDataType.Name, AllowedCorrelationPropertyTypes))
  }

  /** The constructor: records the name and the saga data type, then validates. */
  function NewCorrelationProperty(propertyName: string, sagaDataType: SagaDataType): (r: Result<CorrelationProperty, ValidationError>)
    ensures r.Ok? <==> HasAllowedType(propertyName, sagaDataType)
    ensures r.Ok? ==> r.value.PropertyName == propertyName && r.value.SagaDataType == sagaDataType
    ensures r.Err? && propertyName in sagaDataType.Properties ==>
              r.error == ArgumentError(propertyName, sagaDataType.Name, AllowedCorrelationPropertyTypes)
  {
    var p := CorrelationProperty(propertyName, sagaDataType);
    match Validate(p)
    case None => Ok(p)
    case Some(e) => Err(e)
  }

  /** The names of the types, joined with ", ". */
  function JoinTypeNames(types: seq<ClrType>): (r: string)
    ensures |types| > 0 ==> TypeName(types[0]) <= r
    ensures forall i :: 0 <= i < |types| ==> Contains(r, TypeName(types[i]))
  {
    if |types| == 0 then ""
    else if |types| == 1 then
      assert TypeName(types[0])[0..] == TypeName(types[0]);
      TypeName(types[0])
    else
      var first, rest := TypeName(types[0]), JoinTypeNames(types[1..]);
      ContainsAfter(first + ", ", rest);
      assert forall i :: 1 <= i < |types| ==> types[i] == types[1..][i - 1];
      assert (first + ", " + rest)[0..] == first + ", " + rest;
      first + ", " + rest
  }

  /**
   * The text of the exception: for a rejected property, the ArgumentException's message, which names the
   * property, the saga data type and every allowed type.
   */
  function Message(e: ValidationError): (r: string)
    ensures e.ArgumentError? ==>
              Contains(r, e.propertyName) && Contains(r, e.sagaTypeName) && Contains(r, JoinTypeNames(e.allowedTypes))
    ensures e.ArgumentError? ==>
              forall i :: 0 <= i < |e.allowedTypes| ==> Contains(r, TypeName(e.allowedTypes[i]))
  {
    match e
    case NullReference => "Object reference not set to an instance of an object."
    case ArgumentError(name, typeName, allowed) =>
      var p1, p2, p3 := "Cannot correlate with the '", "' property on the '", "' saga data type - only allowed types are: ";
      ContainsParts(p1, name, p2, typeName, p3, JoinTypeNames(allowed));
      ContainsAfter(p1 + name + p2 + typeName + p3, JoinTypeNames(allowed));
      p1 + name + p2 + typeName + p3 + JoinTypeNames(allowed)
  }

  /** sub occurs in s. */
  predicate Contains(s: string, sub: string)
  {
    exists i :: 0 <= i <= |s| && sub <= s[i..]
  }

  /** Whatever occurs in s occurs in s after any prefix. */
  lemma ContainsAfter(prefix: string, s: string)
    ensures forall sub :: Contains(s, sub) ==> Contains(prefix + s, sub)
  {
    forall sub | Contains(s, sub)
      ensures Contains(prefix + s, sub)
    {
      var i :| 0 <= i <= |s| && sub <= s[i..];
      assert (prefix + s)[|prefix| + i..] == s[i..];
    }
  }

  /** Each of the parts x, y and z between the texts p1, p2 and p3 occurs in the whole. */
  lemma ContainsParts(p1: string, x: string, p2: string, y: string, p3: string, z: string)
    ensures var s := p1 + x + p2 + y + p3 + z; Contains(s, x) && Contains(s, y) && Contains(s, z)
  {
    var s := p1 + x + p2 + y + p3 + z;
    assert s[|p1|..] == x + (p2 + y + p3 + z);
    assert s[|p1 + x + p2|..] == y + (p3 + z);
    assert s[|p1 + x + p2 + y + p3|..] == z;
  }

  lemma AllowedTypeNamesText()
    ensures JoinTypeNames(AllowedCorrelationPropertyTypes) == "String, Int32, Guid"
  {
  }

  /** A rejected correlation property is reported with a message naming the property, the type and the allow-list. */
  lemma RejectionMessageNamesPropertyTypeAndAllowList(propertyName: string, sagaDataType: SagaDataType)
    requires propertyName in sagaDataType.Properties
    requires !HasAllowedType(propertyName, sagaDataType)
    ensures var r := NewCorrelationProperty(propertyName, sagaDataType);
            r.Err? && r.error.ArgumentError? &&
            Contains(Message(r.error), propertyName) &&
            Contains(Message(r.error), sagaDataType.Name) &&
            Contains(Message(r.error), "String, Int32, Guid")
  {
    AllowedTypeNamesText();
  }

  /**
   * On the saga data with one property of each type, only the string, int and Guid properties are
   * accepted as correlation properties; the decimal, DateTime and DateTimeOffset ones are rejected.
   */
  lemma VariousCorrelationPropertyTypes()
    ensures NewCorrelationProperty("CorrelateByString", SagaDataWithVariousCorrelationProperties).Ok?
    ensures NewCorrelationProperty("CorrelateByInt", SagaDataWithVariousCorrelationProperties).Ok?
    ensures NewCorrelationProperty("CorrelateByGuid", SagaDataWithVariousCorrelationProperties).Ok?
    ensures NewCorrelationProperty("CorrelateByDecimal", SagaDataWithVariousCorrelationProperties).Err?
    ensures NewCorrelationProperty("CorrelateByDateTime", SagaDataWithVariousCorrelationProperties).Err?
    ensures NewCorrelationProperty("CorrelateByDateTimeOffset", SagaDataWithVariousCorrelationProperties).Err?
  {
  }
}
