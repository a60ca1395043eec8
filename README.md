# JpaKeyValueDao, modelled in Dafny

This project models the template-method key-value DAO of the OpenDaylight persistence
layer: `JpaKeyValueDao`. The DAO turns four subclass hooks into the key-value operations
`add`, `update`, `delete`, `get`, `exist`, `getAll`, `size` and `clear`, and into the
converter `convert`. The hooks are `getId`, `create`, `conform` and `doConvert`. An
optional `UpdateStrategy` acts as a read gate on every conversion and as a write gate on
every update.

- `wrappers.dfy` (`Wrappers`): `Option` stands for a nullable reference. `Result` stands
  for a value or a thrown exception.
- `failures.dfy` (`Failures`): the exceptions. `NullArgument` is the
  `NullPointerException` of `Preconditions.checkNotNull`, with the source's argument names
  `"identifiable"`, `"Id"` and `"id"`. `InvalidId` is the `IllegalStateException` of
  `convert`. Both are fatal. `NotFound` is the `PersistenceException` of `update`.
  `ReadRejected` and `WriteRejected` are the rejections of the update strategy.
- `jpa_context.dfy` (`JpaStore`): the JPA persistence context as a class. Its field
  `entities` maps each primary key to its entity. Its methods stand for the `JpaUtil`
  primitives the DAO calls.
- `jpa_key_value_dao.dfy` (`JpaDao`): the DAO itself. The Java class keeps no mutable
  state (its fields are final), so the DAO is a datatype value. It holds the hooks and the
  optional strategy as function-valued fields, so every lemma holds for every subclass.
  Its operations are methods that change only the context they are given. `AddEffect`
  and `UpdateEffect` give the result and the new store of `add` and `update`. The
  methods are proved equal to them.
- `jpa_key_value_dao_properties.dfy` (`JpaDaoProperties`): lemmas that relate
  configurations and calls. They cover the gate order of `update` and `convert`, the
  permissive behaviour without a strategy, the add/get round trip and the store invariant.

Two behaviours of the code shape the contracts:
- `get` passes a possibly null entity to `convert` (JpaKeyValueDao.java:244-245), so `Get`
  requires the id to be stored.
- `add` returns `convert` of the entity it created (JpaKeyValueDao.java:211-213). The added
  object comes back unchanged only when `doConvert` undoes `create`, so `AddThenGet` takes
  that law as a precondition.

## Model

| member | source | states |
|---|---|---|
| JpaDao.JpaKeyValueDao.WithoutStrategy | persistence-jpa/src/main/java/org/opendaylight/persistence/jpa/dao/JpaKeyValueDao.java:188-190 | the one-argument constructor configures no update strategy |
| JpaDao.JpaKeyValueDao.Convert | persistence-jpa/src/main/java/org/opendaylight/persistence/jpa/dao/JpaKeyValueDao.java:268-280 | a successful conversion is `doConvert(source)` and carries `getId(source)`; it succeeds iff the ids agree and the read gate admits it; a mismatch is always the fatal `InvalidId`; for ids that agree, a read the gate rejects is `ReadRejected`, and that is the only other failure |
| JpaDao.JpaKeyValueDao.ConvertAll | persistence-jpa/src/main/java/org/opendaylight/persistence/jpa/dao/JpaKeyValueDao.java:339-342 | converts every entity or reports the failure of the first entity that fails; on success the objects are the conversions of the entities, in order |
| JpaDao.JpaKeyValueDao.AddEffect | persistence-jpa/src/main/java/org/opendaylight/persistence/jpa/dao/JpaKeyValueDao.java:207-214 | a null identifiable is refused and the store is unchanged; otherwise exactly `create(identifiable)` is stored under its id and the result is its conversion; a returned object carries the id of the stored entity |
| JpaDao.JpaKeyValueDao.Add | persistence-jpa/src/main/java/org/opendaylight/persistence/jpa/dao/JpaKeyValueDao.java:207-214 | the result and the new store are those of `AddEffect` |
| JpaDao.JpaKeyValueDao.UpdateEffect | persistence-jpa/src/main/java/org/opendaylight/persistence/jpa/dao/JpaKeyValueDao.java:216-234 | a null identifiable or id is refused with the store unchanged; any failure leaves the store unchanged; the set of keys never changes; only the entity under the identifiable's id may change; a success returns the identifiable itself, after the write gate admitted it, and conforms the stored entity to it |
| JpaDao.JpaKeyValueDao.Update | persistence-jpa/src/main/java/org/opendaylight/persistence/jpa/dao/JpaKeyValueDao.java:216-234 | the result and the new store are those of `UpdateEffect` |
| JpaDao.JpaKeyValueDao.Delete | persistence-jpa/src/main/java/org/opendaylight/persistence/jpa/dao/JpaKeyValueDao.java:236-240 | a null id is refused with the store unchanged; otherwise exactly the entity under the id is removed |
| JpaDao.JpaKeyValueDao.Get | persistence-jpa/src/main/java/org/opendaylight/persistence/jpa/dao/JpaKeyValueDao.java:242-246 | a null id is refused; otherwise the result is the conversion of the stored entity, and a returned object carries that entity's id |
| JpaDao.JpaKeyValueDao.Exist | persistence-jpa/src/main/java/org/opendaylight/persistence/jpa/dao/JpaKeyValueDao.java:248-251 | true iff an entity is stored under the id |
| JpaDao.JpaKeyValueDao.GetAll | persistence-jpa/src/main/java/org/opendaylight/persistence/jpa/dao/JpaKeyValueDao.java:253-256 | the store is loaded once per key; the call succeeds iff every stored entity converts; on success there is one object per stored entity, the conversion of the entity under the key at the same position; a failure is the failure of some stored entity |
| JpaDao.JpaKeyValueDao.Size | persistence-jpa/src/main/java/org/opendaylight/persistence/jpa/dao/JpaKeyValueDao.java:258-261 | the number of stored entities |
| JpaDao.JpaKeyValueDao.Clear | persistence-jpa/src/main/java/org/opendaylight/persistence/jpa/dao/JpaKeyValueDao.java:263-266 | afterwards the store is empty |
| JpaDao.JpaKeyValueDao.GetEntity | persistence-jpa/src/main/java/org/opendaylight/persistence/jpa/dao/JpaKeyValueDao.java:311-314 | a null id is refused; otherwise the stored entity under the id, or null when there is none |
| JpaStore.JpaContext.Persist | persistence-jpa/src/main/java/org/opendaylight/persistence/jpa/dao/JpaKeyValueDao.java:212 | the new entity is stored under its key, so the store grows by one |
| JpaStore.JpaContext.Store | persistence-jpa/src/main/java/org/opendaylight/persistence/jpa/dao/JpaKeyValueDao.java:232 | the entity conformed in place replaces the stored one under the same key, and no key is added |
| JpaStore.JpaContext.Find | persistence-jpa/src/main/java/org/opendaylight/persistence/jpa/dao/JpaKeyValueDao.java:313 | the entity under the key, or null iff there is none |
| JpaStore.JpaContext.Exists | persistence-jpa/src/main/java/org/opendaylight/persistence/jpa/dao/JpaKeyValueDao.java:250 | true iff the key is stored |
| JpaStore.JpaContext.Count | persistence-jpa/src/main/java/org/opendaylight/persistence/jpa/dao/JpaKeyValueDao.java:260 | the number of stored entities |
| JpaStore.JpaContext.Remove | persistence-jpa/src/main/java/org/opendaylight/persistence/jpa/dao/JpaKeyValueDao.java:239 | exactly the entity under the key is removed |
| JpaStore.JpaContext.RemoveAll | persistence-jpa/src/main/java/org/opendaylight/persistence/jpa/dao/JpaKeyValueDao.java:265 | afterwards the store is empty |
| JpaStore.JpaContext.LoadAll | persistence-jpa/src/main/java/org/opendaylight/persistence/jpa/dao/JpaKeyValueDao.java:255 | every stored entity exactly once, each paired with its key |
| JpaDaoProperties.NoStrategyActsAsAcceptAll | persistence-jpa/src/main/java/org/opendaylight/persistence/jpa/dao/JpaKeyValueDao.java:229-231 | no strategy gives the same conversions, adds and updates as a strategy that accepts everything |
| JpaDaoProperties.NoStrategyFailsOnlyOnContract | persistence-jpa/src/main/java/org/opendaylight/persistence/jpa/dao/JpaKeyValueDao.java:276-278 | without a strategy, `convert` fails iff the ids disagree, and `update` is never rejected by a gate |
| JpaDaoProperties.IdCheckPrecedesReadGate | persistence-jpa/src/main/java/org/opendaylight/persistence/jpa/dao/JpaKeyValueDao.java:270-278 | on an id mismatch `convert` fails with the fatal `InvalidId` whatever strategy is configured, and this is not a persistence failure |
| JpaDaoProperties.UpdateNullRejectedBeforeFetch | persistence-jpa/src/main/java/org/opendaylight/persistence/jpa/dao/JpaKeyValueDao.java:219-222 | a null identifiable or id gives the same fatal failure whatever is stored, so the store is not consulted |
| JpaDaoProperties.UpdateMissingSkipsGateAndConform | persistence-jpa/src/main/java/org/opendaylight/persistence/jpa/dao/JpaKeyValueDao.java:222-227 | an update of an id with no stored entity is a `NotFound` persistence failure with the store unchanged, whatever the strategy and `conform` are |
| JpaDaoProperties.UpdateRejectedWriteSkipsConform | persistence-jpa/src/main/java/org/opendaylight/persistence/jpa/dao/JpaKeyValueDao.java:229-232 | a write the strategy rejects fails with the store unchanged, whatever `conform` is |
| JpaDaoProperties.UpdateAdmittedSucceeds | persistence-jpa/src/main/java/org/opendaylight/persistence/jpa/dao/JpaKeyValueDao.java:222-233 | a stored id whose entity passes the write gate is updated: the result is the identifiable and only its entity is conformed |
| JpaDaoProperties.UpdateFailsOnlyOnMissingOrRejected | persistence-jpa/src/main/java/org/opendaylight/persistence/jpa/dao/JpaKeyValueDao.java:222-232 | for an identifiable with a non-null id, `update` never raises a programming error; it fails iff no entity is stored under the id or the write gate rejects it, and the failure is the `NotFound` persistence failure iff the id is not stored |
| JpaDaoProperties.UpdateDoesNotReconvert | persistence-jpa/src/main/java/org/opendaylight/persistence/jpa/dao/JpaKeyValueDao.java:232-233 | the outcome of `update` does not depend on `doConvert`: the identifiable passed in is returned, not a re-converted object |
| JpaDaoProperties.AddThenGet | persistence-jpa/src/main/java/org/opendaylight/persistence/jpa/dao/JpaKeyValueDao.java:210-213 | when `doConvert` undoes `create` and the read gate admits it, `add` returns the added object and the stored entity converts back to it |
| JpaDaoProperties.AddKeepsKeyed | persistence-jpa/src/main/java/org/opendaylight/persistence/jpa/dao/JpaKeyValueDao.java:211-212 | `add` keeps every entity stored under its own id |
| JpaDaoProperties.UpdateKeepsKeyed | persistence-jpa/src/main/java/org/opendaylight/persistence/jpa/dao/JpaKeyValueDao.java:229-233 | if `conform` never changes an entity's id, `update` keeps every entity stored under its own id |
| JpaDaoProperties.RemoveKeepsKeyed | persistence-jpa/src/main/java/org/opendaylight/persistence/jpa/dao/JpaKeyValueDao.java:236-240 | removing entities, as `delete` and `clear` (:263-266) do, keeps every remaining entity under its own id |
| JpaDaoProperties.GetAllYieldsEachKeyOnce | persistence-jpa/src/main/java/org/opendaylight/persistence/jpa/dao/JpaKeyValueDao.java:253-256 | on a store keyed by entity id, a successful `getAll` yields one object per key, each carrying its entity's key, with no id repeated and none missing |

## Left out

- The JPA plumbing is not modelled: `EntityManager`, transactions, `JpaContext` and the `entityClass` reflection. The context is a map from primary key to entity. The entity class is not modelled, so the constructor's null check on it has no counterpart. The `JpaUtil` primitives always succeed in the model; a storage failure and the partial effects it leaves are not modelled.
- JpaDao.JpaKeyValueDao.Add: requires that no entity is stored under the new entity's id, because what `JpaUtil.persist` does with a duplicate key is not part of this model.
- JpaDao.JpaKeyValueDao.Add: when the conversion after `persist` fails, the entity stays stored in the context. Rolling back the transaction belongs to the data store, which is not part of this model.
- JpaDao.JpaKeyValueDao.Get: requires a non-null id to be stored, because a missing entity is passed as `null` to `doConvert` and `getId`, whose outcome depends on subclass code.
- JpaDao.JpaKeyValueDao.Delete: requires a non-null id to be stored, because `JpaUtil.delete` of a `null` entity is not part of this model.
- JpaDao.JpaKeyValueDao.Exist: takes a non-null id, because `JpaUtil.exist` with a null id is not part of this model.
- JpaDao.JpaKeyValueDao.Size: returns an unbounded natural, not a 64-bit `long`.
- The `deleteEntity` hook is not modelled, because `delete` never calls it.
- `conform` changes the managed entity in place. The model returns the changed entity and writes it back under the same key, so aliasing of managed entities is not captured.
- JpaDao.JpaKeyValueDao.AddEffect: keys that the store generates during `persist` (the `@GeneratedValue` case of JpaKeyValueDao.java:113-115) are not modelled. The model stores and converts the entity exactly as `create` built it, under the id `getId` gives it then, and `getId` never returns null.
- A `doConvert` that returns null is not modelled.
- The `UpdateStrategy` interface is not part of this model. Its checks are predicates. A rejection is `ReadRejected` or `WriteRejected`.
- JpaDao.JpaKeyValueDao.Convert: the exception class of a read rejection is not modelled. `convert(P)` declares no `throws` clause (JpaKeyValueDao.java:269), so `validateRead` cannot throw the checked `PersistenceException` there. The model keeps `ReadRejected` apart from both the fatal failures and `NotFound`. The same holds for `WriteRejected` in `update`, because the `UpdateStrategy` interface (imported at JpaKeyValueDao.java:17) is not modelled.
- `CollectionConverter` is not part of this model. `ConvertAll` converts in list order and stops at the first failure.
- DaoBasedMarkPageObjectStore.java and its mark-page pagination are not part of this model. The pagination code (`PagedFindQuery`, `MarkPageDao`, `MarkPage`) lives outside JpaKeyValueDao.java and is not modelled.
- AddQuery.java is only a delegation to `add`, and Container.java is only an interface, so neither is modelled.
- Thread safety and statelessness are not modelled, because the model is sequential.
