# Rebus saga storage contract, in Dafny

This project models the saga storage contract of the Rebus message bus. `ISagaStorage` stores saga data.
Saga data is a user-defined class with a Guid `Id`, an int `Revision` and other properties. The storage
offers five things:

- `Find` looks an instance up by (saga data type, property name, value).
- `Insert` stores a new instance.
- `Update` stores a changed instance.
- `Delete` removes an instance.
- `SupportsLocking` says whether `Find` also locks what it returns.

Correlation properties name the properties whose values must be unique. A correlation property may only be
a `string`, `int` or `Guid` property. The behaviour is pinned down by the abstract contract fixture
`BasicLoadAndSaveAndFindOperations`, which every backend must pass.

The repository contains no concrete backend among the modelled files. So the model is a reference
in-memory store that meets the interface comments and the fixture:

- `values.dfy` (module `SagaValues`): Guids, boxed property values with .NET `Equals` semantics, property
  types, and the saga data classes of the fixture.
- `correlation.dfy` (module `Correlation`): the fixture's `CorrelationProperty`. It is immutable once
  constructed, so it is a datatype. The constructor is the function `NewCorrelationProperty`, which
  validates its argument. The exception text of the rejection is also modelled.
- `storage_spec.dfy` (module `SagaStorageSpec`): the table of stored saga data keyed by `Id`. What `Find`
  matches, and what `Insert`, `Update` and `Delete` do to the table, are pure functions. This module also
  holds the lemmas about them.
- `saga_store.dfy` (module `SagaStorage`): the caller's `SagaData` objects (with a mutable `Revision`),
  `SagaStorageFindResult` as the class `FindResult` with settable properties, and the class `SagaStore`.
  Its methods change the table in place and are proved against the functions above. `Update` writes the
  new revision back onto the caller's own object.
- `contract_tests.dfy` (module `BasicLoadAndSaveAndFindOperations`): each fixture test is a method, and so
  is one scenario taken from the interface comments (`SecondInsertWithSameCorrelationValueFails`). Each
  runs its steps on a new store and returns what it asserts on, and its `ensures` states the expected
  values. `Guid.NewGuid()` values and the backend's `SupportsLocking` become parameters.

Choices where the interface is silent:

- `Update` and `Delete` also fail with a concurrency error when the stored revision differs from the
  caller's. Every successful update raises the stored revision by one
  (`Rebus.Tests/Contracts/Sagas/BasicLoadAndSaveAndFindOperations.cs:127-153`), so a copy loaded before
  another write carries an older revision than the stored one. The interface comments
  (`Rebus/Sagas/ISagaStorage.cs:51-61`) only say "no longer exists", and the fixture never exercises a stale
  revision.
- `Insert` of an `Id` that is already stored fails with a concurrency error.
- A correlation collision means that another stored instance of the same saga data type has an equal value
  for one of the given properties.
- Saga data is well typed. Every property other than `Id` and `Revision` that has a value is declared by
  the saga data type and has the declared type. A property of a value type (int, Guid, decimal, DateTime,
  DateTimeOffset) always has a value, because it cannot be null; only a string property may lack one. New
  `SagaData` objects, `Insert` and `Update` require this, and the store keeps it for every stored instance.
- `Find` matches on any stored property, including `Id` and `Revision`. Declared correlation properties
  only govern uniqueness. When several instances match, `Find` returns any one of them.

## Model

| member | source | states |
|---|---|---|
| `SagaValues.ValuesEqual` | Rebus/Sagas/ISagaStorage.cs:39-43 | property values match only when they have the same type; for string, int and Guid values, matching is plain equality; every value matches itself |
| `Correlation.Validate` | Rebus.Tests/Contracts/Sagas/BasicLoadAndSaveAndFindOperations.cs:281-289 | passes exactly when the property exists and its type is on the allow-list (string, int, Guid); a missing property is the null-dereference failure; any other type, including types the fixture does not use (such as long, bool or int?), gives an argument error naming the property, the saga data type and the allowed types |
| `Correlation.NewCorrelationProperty` | Rebus.Tests/Contracts/Sagas/BasicLoadAndSaveAndFindOperations.cs:273-279 | construction succeeds exactly for allowed property types and then keeps the given name and type; for an existing property of another type it fails with the argument error |
| `Correlation.JoinTypeNames` | Rebus.Tests/Contracts/Sagas/BasicLoadAndSaveAndFindOperations.cs:288 | the type names joined with ", ": the text starts with the first type's name and contains the name of every type |
| `Correlation.Message` | Rebus.Tests/Contracts/Sagas/BasicLoadAndSaveAndFindOperations.cs:283-288 | the text of the exception; for a rejected property, the ArgumentException message contains the property name, the saga data type's name, the joined allowed types and each allowed type's name |
| `Correlation.AllowedTypeNamesText` | Rebus.Tests/Contracts/Sagas/BasicLoadAndSaveAndFindOperations.cs:267-271 | the allow-list joined for the message reads "String, Int32, Guid" |
| `Correlation.RejectionMessageNamesPropertyTypeAndAllowList` | Rebus.Tests/Contracts/Sagas/BasicLoadAndSaveAndFindOperations.cs:287-288 | a rejected property's exception message contains the property name, the saga data type's name and the list of allowed types |
| `Correlation.VariousCorrelationPropertyTypes` | Rebus.Tests/Contracts/Sagas/BasicLoadAndSaveAndFindOperations.cs:200-208 | on the saga data with one property of each type, string, int and Guid properties are accepted; decimal, DateTime and DateTimeOffset properties are rejected |
| `SagaStorageSpec.InsertOutcome` | Rebus/Sagas/ISagaStorage.cs:45-49 | an empty Id fails with an invalid-operation error; other failures are concurrency errors; success holds exactly when the Id is set, not yet stored and no correlation value is taken; on success exactly the new instance is added, at revision 0, and nothing else changes |
| `SagaStorageSpec.UpdateOutcome` | Rebus/Sagas/ISagaStorage.cs:51-56 | a missing instance, a stale revision or a taken correlation value are concurrency errors, and success holds exactly when none applies; on success the instance is stored at its old revision plus one, and no other instance changes |
| `SagaStorageSpec.DeleteOutcome` | Rebus/Sagas/ISagaStorage.cs:58-61 | a missing instance fails with a concurrency error; on success exactly that instance is removed and no lookup by any property reaches it |
| `SagaStorageSpec.SecondDeleteFails` | Rebus/Sagas/ISagaStorage.cs:58-61 | deleting the same instance a second time fails because it no longer exists |
| `SagaStorageSpec.FindByIdReachesThatInstance` | Rebus.Tests/Contracts/Sagas/BasicLoadAndSaveAndFindOperations.cs:95-107 | a lookup by "Id" with a Guid matches the instance with that Id and no other, when it is stored with the asked-for type |
| `SagaStorageSpec.FindWithOtherTypeFindsNothing` | Rebus.Tests/Contracts/Sagas/BasicLoadAndSaveAndFindOperations.cs:81-92 | a lookup with a saga data type no stored instance has matches nothing, whatever the property and value |
| `SagaStorageSpec.FindByMissingPropertyFindsNothing` | Rebus.Tests/Contracts/Sagas/BasicLoadAndSaveAndFindOperations.cs:48-54 | a lookup by a property the saga data type does not declare matches nothing, because stored instances are well typed |
| `SagaStorageSpec.FindByCorrelationValueAfterInsert` | Rebus.Tests/Contracts/Sagas/BasicLoadAndSaveAndFindOperations.cs:178-219 | after a successful insert, a lookup by the value of any of its correlation properties matches the inserted instance and no other |
| `SagaStorageSpec.InsertKeepsCorrelationUnique` | Rebus/Sagas/ISagaStorage.cs:45-49 | a successful insert keeps each of its correlation properties unique among the instances of its type |
| `SagaStorageSpec.UpdateKeepsCorrelationUnique` | Rebus/Sagas/ISagaStorage.cs:51-56 | a successful update keeps each of its correlation properties unique among the instances of its type |
| `SagaStorageSpec.DeleteKeepsCorrelationUnique` | Rebus/Sagas/ISagaStorage.cs:58-61 | deleting keeps any property unique |
| `SagaStorageSpec.RevisionCountsUpdates` | Rebus.Tests/Contracts/Sagas/BasicLoadAndSaveAndFindOperations.cs:127-153 | after any sequence of n successful updates of a stored instance, each at the then-stored revision and with any type, properties and correlation properties, the instance is at its old revision plus n, the set of stored Ids is the same, and every other instance is unchanged |
| `SagaStorageSpec.UpdatesWithoutCorrelationPropertiesSucceed` | Rebus.Tests/Contracts/Sagas/BasicLoadAndSaveAndFindOperations.cs:127-153 | any sequence of updates of a stored instance, each at the then-stored revision and without correlation properties, succeeds |
| `SagaStorageSpec.RevisionAfterInsertAndUpdates` | Rebus.Tests/Contracts/Sagas/BasicLoadAndSaveAndFindOperations.cs:109-153 | after a successful insert and any sequence of n successful updates, the instance is at revision n |
| `SagaStorage.SagaData.constructor` | Rebus.Tests/Contracts/Sagas/BasicLoadAndSaveAndFindOperations.cs:132-134 | a new saga data object starts at revision 0 with the given Id and properties |
| `SagaStorage.SagaData.Loaded` | Rebus.Tests/Contracts/Sagas/BasicLoadAndSaveAndFindOperations.cs:137-146 | a loaded copy carries the stored revision, type and properties |
| `SagaStorage.FindResult.Found` | Rebus/Sagas/ISagaStorage.cs:11-27 | a found result exists, carries its data, is locked as requested, and is locked only if it exists |
| `SagaStorage.SagaStore.constructor` | Rebus/Sagas/ISagaStorage.cs:32-37 | a new store is empty and keeps its locking capability |
| `SagaStorage.SagaStore.Locate` | Rebus/Sagas/ISagaStorage.cs:39-43 | the scan returns an instance that has the type and the property value, or nothing only when no stored instance has them |
| `SagaStorage.SagaStore.Find` | Rebus/Sagas/ISagaStorage.cs:34-43 | null exactly when no instance of the type has the property with that value; otherwise a fresh copy of a matching instance at its stored revision, with Exists set, Locked equal to SupportsLocking, and Locked only if Exists |
| `SagaStorage.SagaStore.HasCollision` | Rebus/Sagas/ISagaStorage.cs:45-56 | reports exactly whether another stored instance of the same type shares a value on one of the correlation properties |
| `SagaStorage.SagaStore.Insert` | Rebus/Sagas/ISagaStorage.cs:45-49 | outcome and new table are those of InsertOutcome; on success the caller's object is at revision 0; no instance is ever stored under the empty Guid |
| `SagaStorage.SagaStore.Update` | Rebus/Sagas/ISagaStorage.cs:51-56 | outcome and new table are those of UpdateOutcome; on success the caller's own object gets the new revision (old plus one), and on failure it keeps its revision |
| `SagaStorage.SagaStore.Delete` | Rebus/Sagas/ISagaStorage.cs:58-61 | outcome and new table are those of DeleteOutcome |
| `BasicLoadAndSaveAndFindOperations.ThrowsIfIdHasNotBeenSet` | Rebus.Tests/Contracts/Sagas/BasicLoadAndSaveAndFindOperations.cs:32-38 | inserting saga data with the empty Guid as Id fails with an invalid-operation error |
| `BasicLoadAndSaveAndFindOperations.GetsNullWhenNoInstanceMatches` | Rebus.Tests/Contracts/Sagas/BasicLoadAndSaveAndFindOperations.cs:40-46 | Find on an empty store gives null |
| `BasicLoadAndSaveAndFindOperations.GetsNullWhenPropertyDoesNotExist` | Rebus.Tests/Contracts/Sagas/BasicLoadAndSaveAndFindOperations.cs:48-54 | Find by a property the type does not have gives null |
| `BasicLoadAndSaveAndFindOperations.GetsNullWhenValueDoesNotExist` | Rebus.Tests/Contracts/Sagas/BasicLoadAndSaveAndFindOperations.cs:56-64 | Find by a value no stored instance has gives null |
| `BasicLoadAndSaveAndFindOperations.GetsTheInstanceWhenCorrelationPropertyMatches` | Rebus.Tests/Contracts/Sagas/BasicLoadAndSaveAndFindOperations.cs:66-79 | Find by the correlation value gives the instance with the inserted Id |
| `BasicLoadAndSaveAndFindOperations.GetsNullWhenTheTypeDoesNotMatch` | Rebus.Tests/Contracts/Sagas/BasicLoadAndSaveAndFindOperations.cs:81-92 | Find with another saga data type gives null although name and value match |
| `BasicLoadAndSaveAndFindOperations.GetsTheInstanceWhenIdPropertyMatches` | Rebus.Tests/Contracts/Sagas/BasicLoadAndSaveAndFindOperations.cs:94-107 | Find by "Id" with the saga's Guid gives that instance |
| `BasicLoadAndSaveAndFindOperations.NewlyInsertedSagaDataIsRevisionZero` | Rebus.Tests/Contracts/Sagas/BasicLoadAndSaveAndFindOperations.cs:109-125 | a newly inserted instance is found at revision 0. The method adds a check the fixture test does not have: the found result is locked exactly when the store supports locking, as `Rebus/Sagas/ISagaStorage.cs:34-37` requires |
| `BasicLoadAndSaveAndFindOperations.RevisionIsIncrementedOnEachUpdate` | Rebus.Tests/Contracts/Sagas/BasicLoadAndSaveAndFindOperations.cs:127-153 | the revisions the test reads are 0, 0, 0, 1, 1, 2, 2; each update raises the stored revision by one, writes it onto the updated object, and the next Find sees it |
| `BasicLoadAndSaveAndFindOperations.CanDeleteSagaData` | Rebus.Tests/Contracts/Sagas/BasicLoadAndSaveAndFindOperations.cs:155-175 | after Delete, Find by "Id" gives null. The method adds a step the fixture test does not have: a second Delete of the same object fails with a concurrency error, as `Rebus/Sagas/ISagaStorage.cs:58-61` promises for an instance that no longer exists |
| `BasicLoadAndSaveAndFindOperations.NizzleName` | Rebus.Tests/Contracts/Sagas/BasicLoadAndSaveAndFindOperations.cs:177-219 | one instance inserted with string, int and Guid correlation properties (and decimal, DateTime and DateTimeOffset properties holding 23, 1979-03-19 and 1979-03-19 20:00 +02:00) is found, with its Id, by each of the three values |
| `BasicLoadAndSaveAndFindOperations.SecondInsertWithSameCorrelationValueFails` | Rebus/Sagas/ISagaStorage.cs:45-49 | a second instance with a taken correlation value is rejected with a concurrency error, and only the first stays stored |

## Left out

- Asynchrony (`Task`), NUnit set-up and tear-down, `ISagaStorageFactory.CleanUp`, and the `Reflect.Path` expression-tree helper. Property names are given as strings.
- Real locking and concurrent writers: `SupportsLocking` and `Locked` are flags only, and every operation is one atomic step.
- `SagaStorage.SagaData.Loaded`, `SagaStorage.SagaStore.Insert`, `SagaStorage.SagaStore.Update`: `Revision` and int-typed values are unbounded integers. The 32-bit wrap-around of C# `int` is not modelled.
- Null property values: a string property without a value is absent from the stored properties and matches nothing. A `Find` for the value null is not modelled.
- `Correlation.Validate`: a property missing from the saga data type is modelled as a `NullReference` error. The source then dereferences null, which is not specified behaviour.
- `SagaValues.TypeName`: type names are the `Type.Name` of the six property types the fixture uses, and a type outside them carries its name in `OtherType`. Reflection over arbitrary types (`Rebus/Internals/Shims.cs`) is not part of this model.
- Values of property types other than string, int, Guid, decimal, DateTime and DateTimeOffset are not represented. A property of another type is declared on the saga data type and can be validated as a correlation property, but it never holds a value, so `Find` by it matches nothing.
- `FailFastException`, handler activation, dispatch and retry, and the transaction context are not part of this model. They live outside the saga storage contract.
