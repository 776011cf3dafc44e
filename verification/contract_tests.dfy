/**
 * The load, save and find contract that every saga storage must meet, as client methods of SagaStore:
 * each runs the steps of one contract test, or of a scenario taken from the interface comments of
 * ISagaStorage, on a new, empty store and returns what it observes. New Guids are parameters (any
 * non-empty Guid), and so is whether the store supports locking.
 */
module BasicLoadAndSaveAndFindOperations {
  import opened SagaValues
  import opened Correlation
  import opened SagaStorageSpec
  import opened SagaStorage

  /** TestSagaData with string values for some of CorrelationId and Data is well typed. */
  lemma TestSagaFieldsWellTyped(fields: map<string, Value>)
    requires forall name :: name in fields ==> (name == "CorrelationId" || name == "Data") && fields[name].Str?
    ensures WellTyped(TestSagaData, fields)
  {
  }

  /** The property values of the saga data with one property of each type, as the test sets them. */
  function VariousFields(guidCorrelationValue: Guid): map<string, Value>
  {
    map[
      "CorrelateByString" := Str("hej"),
      "CorrelateByDateTime" := DateTime(624262464000000000),
      "CorrelateByDateTimeOffset" := DateTimeOffset(624263184000000000, 72000000000),
      "CorrelateByDecimal" := Decimal(23, 0),
      "CorrelateByGuid" := GuidValue(guidCorrelationValue),
      "CorrelateByInt" := Int(8)]
  }

  lemma VariousFieldsWellTyped(guidCorrelationValue: Guid)
    ensures WellTyped(SagaDataWithVariousCorrelationProperties, VariousFields(guidCorrelationValue))
  {
  }

  /** Inserting saga data whose Id is the empty Guid fails with an invalid-operation error. */
  method ThrowsIfIdHasNotBeenSet(supportsLocking: bool) returns (outcome: Outcome)
    ensures outcome == Failed(InvalidOperation)
  {
    var storage := new SagaStore(supportsLocking);
    var sagaDataWithDefaultId := new SagaData(AnotherSagaData, EmptyGuid, map[]);
    outcome := storage.Insert(sagaDataWithDefaultId, []);
  }

  /** Finding on an empty store gives null. */
  method GetsNullWhenNoInstanceMatches(supportsLocking: bool) returns (isNull: bool)
    ensures isNull
  {
    var storage := new SagaStore(supportsLocking);
    var data := storage.Find(TestSagaData, "CorrelationId", Str("whatever"));
    isNull := data == null;
  }

  /** Finding by a property the saga data type does not have gives null. */
  method GetsNullWhenPropertyDoesNotExist(supportsLocking: bool) returns (isNull: bool)
    ensures isNull
  {
    var storage := new SagaStore(supportsLocking);
    var data := storage.Find(TestSagaData, "NonExistingCorrelationId", Str("whatever"));
    isNull := data == null;
  }

  /** Finding by a value no stored instance has gives null. */
  method GetsNullWhenValueDoesNotExist(supportsLocking: bool, sagaId: Guid) returns (isNull: bool)
    requires sagaId != EmptyGuid
    ensures isNull
  {
    var storage := new SagaStore(supportsLocking);
    TestSagaFieldsWellTyped(map["CorrelationId" := Str("existing")]);
    var saga := new SagaData(TestSagaData, sagaId, map["CorrelationId" := Str("existing")]);
    var _ := storage.Insert(saga, []);
    var data := storage.Find(TestSagaData, "CorrelationId", Str("non-existing"));
    isNull := data == null;
  }

  /** Finding by the value of a correlation property gives the instance with that value. */
  method GetsTheInstanceWhenCorrelationPropertyMatches(supportsLocking: bool, sagaId: Guid) returns (foundId: Option<Guid>)
    requires sagaId != EmptyGuid
    ensures foundId == Some(sagaId)
  {
    var storage := new SagaStore(supportsLocking);
    var correlationId := NewCorrelationProperty("CorrelationId", TestSagaData).value;
    TestSagaFieldsWellTyped(map["CorrelationId" := Str("existing")]);
    var saga := new SagaData(TestSagaData, sagaId, map["CorrelationId" := Str("existing")]);
    var _ := storage.Insert(saga, [correlationId]);
    var result := storage.Find(TestSagaData, "CorrelationId", Str("existing"));
    assert Matches(storage.records, sagaId, TestSagaData, "CorrelationId", Str("existing"));
    foundId := Some(result.Data.Id);
  }

  /** Finding with another saga data type gives null even when name and value match a stored instance. */
  method GetsNullWhenTheTypeDoesNotMatch(supportsLocking: bool, sagaId: Guid) returns (isNull: bool)
    requires sagaId != EmptyGuid
    ensures isNull
  {
    var storage := new SagaStore(supportsLocking);
    var correlationId := NewCorrelationProperty("CorrelationId", TestSagaData).value;
    TestSagaFieldsWellTyped(map["CorrelationId" := Str("existing")]);
    var saga := new SagaData(TestSagaData, sagaId, map["CorrelationId" := Str("existing")]);
    var _ := storage.Insert(saga, [correlationId]);
    var result := storage.Find(AnotherSagaData, "CorrelationId", Str("existing"));
    isNull := result == null;
  }

  /** Finding by "Id" with the saga's Guid gives the instance with that Id. */
  method GetsTheInstanceWhenIdPropertyMatches(supportsLocking: bool, sagaId: Guid) returns (foundId: Option<Guid>)
    requires sagaId != EmptyGuid
    ensures foundId == Some(sagaId)
  {
    var storage := new SagaStore(supportsLocking);
    var correlationId := NewCorrelationProperty("CorrelationId", TestSagaData).value;
    TestSagaFieldsWellTyped(map["CorrelationId" := Str("existing")]);
    var saga := new SagaData(TestSagaData, sagaId, map["CorrelationId" := Str("existing")]);
    var _ := storage.Insert(saga, [correlationId]);
    var result := storage.Find(TestSagaData, "Id", GuidValue(sagaId));
    assert Matches(storage.records, sagaId, TestSagaData, "Id", GuidValue(sagaId));
    foundId := Some(result.Data.Id);
  }

  /** A newly inserted instance is found at revision 0, locked exactly when the store supports locking. */
  method NewlyInsertedSagaDataIsRevisionZero(supportsLocking: bool, sagaId: Guid) returns (revision: int, locked: bool)
    requires sagaId != EmptyGuid
    ensures revision == 0 && locked == supportsLocking
  {
    var storage := new SagaStore(supportsLocking);
    TestSagaFieldsWellTyped(map["Data" := Str("yes, den kender jeg")]);
    var saga := new SagaData(TestSagaData, sagaId, map["Data" := Str("yes, den kender jeg")]);
    var _ := storage.Insert(saga, []);
    var result := storage.Find(TestSagaData, "Id", GuidValue(sagaId));
    assert Matches(storage.records, sagaId, TestSagaData, "Id", GuidValue(sagaId));
    revision, locked := result.Data.Revision, result.Locked;
  }

  /** Finds the stored instance by "Id": a fresh copy at its stored revision. */
  method FindById(storage: SagaStore, sagaDataType: SagaDataType, sagaId: Guid) returns (data: SagaData)
    requires sagaId in storage.records && storage.records[sagaId].sagaType == sagaDataType
    ensures fresh(data) && data.Id == sagaId && data.SagaType == sagaDataType
    ensures data.Revision == storage.records[sagaId].revision && data.Fields == storage.records[sagaId].fields
  {
    var result := storage.Find(sagaDataType, "Id", GuidValue(sagaId));
    assert Matches(storage.records, sagaId, sagaDataType, "Id", GuidValue(sagaId));
    data := result.Data;
  }

  /**
   * Updates a loaded copy that is at the stored revision, with no correlation properties, then loads the
   * instance again.
   */
  method UpdateAndReload(storage: SagaStore, data: SagaData) returns (reloaded: SagaData)
    requires storage.Valid() && data.Id in storage.records && data.Revision >= 0
    requires storage.records[data.Id] == StoredSaga(data.SagaType, data.Revision, data.Fields)
    modifies storage`records, data`Revision
    ensures storage.Valid() && data.Revision == old(data.Revision) + 1 && data.Id in storage.records
    ensures storage.records[data.Id] == StoredSaga(data.SagaType, data.Revision, data.Fields)
    ensures fresh(reloaded) && reloaded.Id == data.Id && reloaded.SagaType == data.SagaType
    ensures reloaded.Fields == data.Fields && reloaded.Revision == data.Revision
  {
    assert !Collides(storage.records, data.Id, StoredSaga(data.SagaType, data.Revision + 1, data.Fields), []);
    var _ := storage.Update(data, []);
    reloaded := FindById(storage, data.SagaType, data.Id);
  }

  /**
   * The revisions the test reads, in order: the transient instance before insert; the first loaded copy
   * and the transient instance after insert; the first loaded copy after it was updated and the second
   * loaded copy; the second loaded copy after it was updated and the third loaded copy.
   */
  method RevisionIsIncrementedOnEachUpdate(supportsLocking: bool, sagaId: Guid) returns (observed: seq<int>)
    requires sagaId != EmptyGuid
    ensures observed == [0, 0, 0, 1, 1, 2, 2]
  {
    var storage := new SagaStore(supportsLocking);
    TestSagaFieldsWellTyped(map["Data" := Str("yes, den kender jeg")]);
    var initialTransientInstance := new SagaData(TestSagaData, sagaId, map["Data" := Str("yes, den kender jeg")]);
    observed := [initialTransientInstance.Revision];

    var _ := storage.Insert(initialTransientInstance, []);
    var loadedSagaData0 := FindById(storage, TestSagaData, sagaId);
    observed := observed + [loadedSagaData0.Revision, initialTransientInstance.Revision];

    var loadedSagaData1 := UpdateAndReload(storage, loadedSagaData0);
    observed := observed + [loadedSagaData0.Revision, loadedSagaData1.Revision];

    var loadedSagaData2 := UpdateAndReload(storage, loadedSagaData1);
    observed := observed + [loadedSagaData1.Revision, loadedSagaData2.Revision];
  }

  /** After Delete, finding by "Id" gives null, and deleting the same instance again fails. */
  method CanDeleteSagaData(supportsLocking: bool, sagaId: Guid) returns (isNull: bool, secondDelete: Outcome)
    requires sagaId != EmptyGuid
    ensures isNull
    ensures secondDelete == Failed(Concurrency(NoLongerExists))
  {
    var storage := new SagaStore(supportsLocking);
    TestSagaFieldsWellTyped(map["Data" := Str("yes, den kender jeg")]);
    var saga := new SagaData(TestSagaData, sagaId, map["Data" := Str("yes, den kender jeg")]);
    var _ := storage.Insert(saga, []);
    var findResult := storage.Find(TestSagaData, "Id", GuidValue(sagaId));
    assert Matches(storage.records, sagaId, TestSagaData, "Id", GuidValue(sagaId));
    var _ := storage.Delete(findResult.Data);
    var loadedSagaDataAfterDelete := storage.Find(TestSagaData, "Id", GuidValue(sagaId));
    isNull := loadedSagaDataAfterDelete == null;
    secondDelete := storage.Delete(findResult.Data);
  }

  /**
   * One instance inserted with a string, an int and a Guid correlation property is found, with its Id,
   * by each of the three values.
   */
  method NizzleName(supportsLocking: bool, id: Guid, guidCorrelationValue: Guid)
    returns (byString: Guid, byInt: Guid, byGuid: Guid)
    requires id != EmptyGuid
    ensures byString == id && byInt == id && byGuid == id
  {
    var storage := new SagaStore(supportsLocking);
    var t := SagaDataWithVariousCorrelationProperties;
    VariousFieldsWellTyped(guidCorrelationValue);
    var data := new SagaData(t, id, VariousFields(guidCorrelationValue));
    var correlationProperties := [
      NewCorrelationProperty("CorrelateByString", t).value,
      NewCorrelationProperty("CorrelateByInt", t).value,
      NewCorrelationProperty("CorrelateByGuid", t).value];
    var _ := storage.Insert(data, correlationProperties);

    var dataByString := storage.Find(t, "CorrelateByString", Str("hej"));
    assert Matches(storage.records, id, t, "CorrelateByString", Str("hej"));
    var dataByInt := storage.Find(t, "CorrelateByInt", Int(8));
    assert Matches(storage.records, id, t, "CorrelateByInt", Int(8));
    var dataByGuid := storage.Find(t, "CorrelateByGuid", GuidValue(guidCorrelationValue));
    assert Matches(storage.records, id, t, "CorrelateByGuid", GuidValue(guidCorrelationValue));
    byString, byInt, byGuid := dataByString.Data.Id, dataByInt.Data.Id, dataByGuid.Data.Id;
  }

  /** Inserting a second instance whose correlation value is taken fails, and the store keeps only the first. */
  method SecondInsertWithSameCorrelationValueFails(supportsLocking: bool, firstId: Guid, secondId: Guid)
    returns (first: Outcome, second: Outcome, storedIds: set<Guid>)
    requires firstId != EmptyGuid && secondId != EmptyGuid && firstId != secondId
    ensures first == Done && second == Failed(Concurrency(CorrelationCollision))
    ensures storedIds == {firstId}
  {
    var storage := new SagaStore(supportsLocking);
    var correlationId := NewCorrelationProperty("CorrelationId", TestSagaData).value;
    TestSagaFieldsWellTyped(map["CorrelationId" := Str("existing")]);
    var a := new SagaData(TestSagaData, firstId, map["CorrelationId" := Str("existing")]);
    TestSagaFieldsWellTyped(map["CorrelationId" := Str("existing")]);
    var b := new SagaData(TestSagaData, secondId, map["CorrelationId" := Str("existing")]);
    first := storage.Insert(a, [correlationId]);
    var props := [correlationId];
    assert CollidesOn(storage.records, secondId, StoredSaga(TestSagaData, 0, b.Fields), props[0].PropertyName, firstId);
    second := storage.Insert(b, props);
    storedIds := storage.records.Keys;
  }
}
