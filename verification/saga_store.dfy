/**
 * An ISagaStorage held in memory: the saga data objects callers work with, the result of Find, and the
 * store whose Insert, Update, Delete and Find are proved against module SagaStorageSpec.
 */
module SagaStorage {
  import opened SagaValues
  import opened Correlation
  import opened SagaStorageSpec

  /** The outcome of Insert, Update and Delete: completed, or the exception thrown. */
  datatype Outcome = Done | Failed(error: StorageError)

  /** An ISagaData object held by a caller. */
  class SagaData {
    var Id: Guid
    var Revision: int
    const SagaType: SagaDataType
    var Fields: map<string, Value>

    /** A new, not yet stored instance: Revision starts at 0. */
    constructor (sagaType: SagaDataType, id: Guid, fields: map<string, Value>)
      requires WellTyped(sagaType, fields)
      ensures SagaType == sagaType && Id == id && Fields == fields && Revision == 0
    {
      SagaType := sagaType;
      Id := id;
      Fields := fields;
      Revision := 0;
    }

    /** A copy of a stored instance, as Find hands it out. */
    constructor Loaded(id: Guid, stored: StoredSaga)
      ensures SagaType == stored.sagaType && Id == id && Fields == stored.fields && Revision == stored.revision
    {
      SagaType := stored.sagaType;
      Id := id;
      Fields := stored.fields;
      Revision := stored.revision;
    }
  }

  /** SagaStorageFindResult: its properties are settable, so Valid() is what Find promises of its results. */
  class FindResult {
    var Exists: bool
    var Locked: bool
    var Data: SagaData?

    /** Locked only when the data exists, and existing data is present. */
    ghost predicate Valid()
      reads this
    {
      (Locked ==> Exists) && (Exists ==> Data != null)
    }

    constructor Found(data: SagaData, locked: bool)
      ensures Valid() && Exists && Locked == locked && Data == data
    {
      Exists := true;
      Locked := locked;
      Data := data;
    }
  }

  class SagaStore {
    const SupportsLocking: bool
    var records: Table

    /** No instance is stored under the empty Guid, and every stored instance is well typed. */
    ghost predicate Valid()
      reads this
    {
      EmptyGuid !in records && TableWellTyped(records)
    }

    constructor (supportsLocking: bool)
      ensures Valid() && records == map[] && SupportsLocking == supportsLocking
    {
      SupportsLocking := supportsLocking;
      records := map[];
    }

    /** Scans the stored instances for one of the given type whose named property equals the value. */
    method Locate(sagaDataType: SagaDataType, propertyName: string, propertyValue: Value) returns (found: Option<Guid>)
      ensures found.Some? ==> Matches(records, found.value, sagaDataType, propertyName, propertyValue)
      ensures found.None? ==> forall id :: !Matches(records, id, sagaDataType, propertyName, propertyValue)
    {
      var remaining := records.Keys;
      while remaining != {}
        invariant remaining <= records.Keys
        invariant forall id :: id !in remaining ==> !Matches(records, id, sagaDataType, propertyName, propertyValue)
        decreases remaining
      {
        var id :| id in remaining;
        if Matches(records, id, sagaDataType, propertyName, propertyValue) {
          return Some(id);
        }
        remaining := remaining - {id};
      }
      return None;
    }

    /**
     * Find: null when no stored instance of the type has the property with that value; otherwise a fresh
     * copy of a matching instance at its stored revision, locked exactly when the store supports locking.
     */
    method Find(sagaDataType: SagaDataType, propertyName: string, propertyValue: Value) returns (r: FindResult?)
      ensures r == null <==> !AnyMatch(records, sagaDataType, propertyName, propertyValue)
      ensures r != null ==> fresh(r) && r.Valid() && r.Exists && r.Locked == SupportsLocking
      ensures r != null ==> r.Data != null && fresh(r.Data) &&
                            Matches(records, r.Data.Id, sagaDataType, propertyName, propertyValue) &&
                            r.Data.SagaType == records[r.Data.Id].sagaType &&
                            r.Data.Revision == records[r.Data.Id].revision &&
                            r.Data.Fields == records[r.Data.Id].fields
    {
      var found := Locate(sagaDataType, propertyName, propertyValue);
      if found.None? {
        return null;
      }
      var data := new SagaData.Loaded(found.value, records[found.value]);
      r := new FindResult.Found(data, SupportsLocking);
    }

    /** Whether writing candidate under id gives one of the correlation properties a value another instance has. */
    method HasCollision(id: Guid, candidate: StoredSaga, props: seq<CorrelationProperty>) returns (collides: bool)
      ensures collides == Collides(records, id, candidate, props)
    {
      for i := 0 to |props|
        invariant forall j, other :: 0 <= j < i ==> !CollidesOn(records, id, candidate, props[j].PropertyName, other)
      {
        var name := props[i].PropertyName;
        var remaining := records.Keys;
        while remaining != {}
          invariant remaining <= records.Keys
          invariant forall other :: other !in remaining ==> !CollidesOn(records, id, candidate, name, other)
          decreases remaining
        {
          var other :| other in remaining;
          if other != id && records[other].sagaType == candidate.sagaType &&
             SharesValue(other, records[other], id, candidate, name) {
            assert CollidesOn(records, id, candidate, props[i].PropertyName, other);
            return true;
          }
          remaining := remaining - {other};
        }
      }
      return false;
    }

    /**
     * Insert: fails with InvalidOperation when the Id is not set and with a concurrency error when the Id
     * is already stored or a correlation value is taken; otherwise stores a copy at revision 0.
     */
    method Insert(data: SagaData, props: seq<CorrelationProperty>) returns (outcome: Outcome)
      requires Valid() && WellTyped(data.SagaType, data.Fields)
      modifies this`records, data`Revision
      ensures Valid()
      ensures var res := InsertOutcome(old(records), data.Id, data.SagaType, data.Fields, props);
              if res.Ok? then outcome == Done && records == res.value
              else outcome == Failed(res.error) && records == old(records)
      ensures data.Revision == if outcome.Done? then 0 else old(data.Revision)
    {
      if data.Id == EmptyGuid {
        return Failed(InvalidOperation);
      }
      if data.Id in records {
        return Failed(Concurrency(IdAlreadyExists));
      }
      var candidate := StoredSaga(data.SagaType, 0, data.Fields);
      var collides := HasCollision(data.Id, candidate, props);
      if collides {
        return Failed(Concurrency(CorrelationCollision));
      }
      records := records[data.Id := candidate];
      data.Revision := 0;
      outcome := Done;
    }

    /**
     * Update: fails with a concurrency error when the instance is no longer stored, was stored at another
     * revision meanwhile, or a correlation value is taken by another instance; otherwise stores the data at
     * the next revision and writes that revision back onto the caller's object.
     */
    method Update(data: SagaData, props: seq<CorrelationProperty>) returns (outcome: Outcome)
      requires Valid() && WellTyped(data.SagaType, data.Fields)
      modifies this`records, data`Revision
      ensures Valid()
      ensures var res := UpdateOutcome(old(records), data.Id, data.SagaType, data.Fields, old(data.Revision), props);
              if res.Ok? then outcome == Done && records == res.value
              else outcome == Failed(res.error) && records == old(records)
      ensures data.Revision == if outcome.Done? then old(data.Revision) + 1 else old(data.Revision)
    {
      if data.Id !in records {
        return Failed(Concurrency(NoLongerExists));
      }
      var existing := records[data.Id];
      if existing.revision != data.Revision {
        return Failed(Concurrency(StaleRevision));
      }
      var next := StoredSaga(data.SagaType, existing.revision + 1, data.Fields);
      var collides := HasCollision(data.Id, next, props);
      if collides {
        return Failed(Concurrency(CorrelationCollision));
      }
      records := records[data.Id := next];
      data.Revision := data.Revision + 1;
      outcome := Done;
    }

    /** Delete: fails with a concurrency error when the instance is no longer stored at the caller's revision. */
    method Delete(data: SagaData) returns (outcome: Outcome)
      requires Valid()
      modifies this`records
      ensures Valid()
      ensures var res := DeleteOutcome(old(records), data.Id, data.Revision);
              if res.Ok? then outcome == Done && records == res.value
              else outcome == Failed(res.error) && records == old(records)
    {
      if data.Id !in records {
        return Failed(Concurrency(NoLongerExists));
      }
      if records[data.Id].revision != data.Revision {
        return Failed(Concurrency(StaleRevision));
      }
      records := records - {data.Id};
      outcome := Done;
    }
  }
}
