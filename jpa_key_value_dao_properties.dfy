/**
 * What the key-value DAO promises across calls and across configurations: the gate order
 * of `update` and `convert`, the permissive behaviour without a strategy, the add/get round
 * trip and the store invariant that every entity sits under its own id.
 */
module JpaDaoProperties {
  import opened Wrappers
  import opened Failures
  import opened JpaStore
  import opened JpaDao

  /** No strategy behaves exactly like a strategy that accepts everything. */
  lemma NoStrategyActsAsAcceptAll<I, T, P>(dao: JpaKeyValueDao<I, T, P>, source: P, entities: map<I, P>, identifiable: Option<T>)
    requires dao.updateStrategy.None?
    ensures var permissive := dao.(updateStrategy := Some(AcceptAll()));
      && dao.Convert(source) == permissive.Convert(source)
      && dao.AddEffect(entities, identifiable) == permissive.AddEffect(entities, identifiable)
      && dao.UpdateEffect(entities, identifiable) == permissive.UpdateEffect(entities, identifiable)
  {
  }

  /** Without a strategy, `convert` fails only on an id mismatch and `update` never rejects a write. */
  lemma NoStrategyFailsOnlyOnContract<I, T, P>(dao: JpaKeyValueDao<I, T, P>, source: P, entities: map<I, P>, identifiable: Option<T>)
    requires dao.updateStrategy.None?
    ensures dao.Convert(source).Ok? <==> dao.IdConsistent(source)
    ensures dao.UpdateEffect(entities, identifiable).result != Err(WriteRejected)
  {
  }

  /**
   * The id check of `convert` comes before the read gate: on a mismatch the outcome is the
   * fatal `InvalidId` whatever strategy is configured.
   */
  lemma IdCheckPrecedesReadGate<I, T, P>(dao: JpaKeyValueDao<I, T, P>, strategy: Option<UpdateStrategy<P, T>>, source: P)
    requires !dao.IdConsistent(source)
    ensures dao.Convert(source) == dao.(updateStrategy := strategy).Convert(source)
    ensures dao.Convert(source) == Err(InvalidId(dao.hooks.getId(source), dao.hooks.identifier(dao.hooks.doConvert(source))))
    ensures dao.Convert(source).error.IsFatal()
  {
  }

  /** A null identifiable or a null id is refused before the store is looked at. */
  lemma UpdateNullRejectedBeforeFetch<I, T, P>(dao: JpaKeyValueDao<I, T, P>, entities: map<I, P>, others: map<I, P>, identifiable: Option<T>)
    requires identifiable.None? || dao.hooks.identifier(identifiable.value).None?
    ensures dao.UpdateEffect(entities, identifiable).result == dao.UpdateEffect(others, identifiable).result
    ensures dao.UpdateEffect(entities, identifiable).result.Err?
    ensures dao.UpdateEffect(entities, identifiable).result.error.IsFatal()
  {
  }

  /**
   * `update` of an id with no stored entity fails with `NotFound` and leaves the store as it
   * was, whatever the strategy and `conform` would have done: neither is consulted.
   */
  lemma UpdateMissingSkipsGateAndConform<I, T, P>(
    dao: JpaKeyValueDao<I, T, P>, strategy: Option<UpdateStrategy<P, T>>, conform: (P, T) -> P,
    entities: map<I, P>, identifiable: T)
    requires dao.hooks.identifier(identifiable).Some?
    requires dao.hooks.identifier(identifiable).value !in entities
    ensures var id := dao.hooks.identifier(identifiable).value;
      var other := dao.(updateStrategy := strategy, hooks := dao.hooks.(conform := conform));
      && dao.UpdateEffect(entities, Some(identifiable)) == Effect(Err(NotFound(id)), entities)
      && other.UpdateEffect(entities, Some(identifiable)) == Effect(Err(NotFound(id)), entities)
  {
  }

  /**
   * A write the strategy rejects leaves the stored entity untouched, whatever `conform`
   * would have done: the gate runs before `conform`.
   */
  lemma UpdateRejectedWriteSkipsConform<I, T, P>(
    dao: JpaKeyValueDao<I, T, P>, conform: (P, T) -> P, entities: map<I, P>, identifiable: T)
    requires dao.hooks.identifier(identifiable).Some?
    requires dao.hooks.identifier(identifiable).value in entities
    requires !dao.WriteAllowed(entities[dao.hooks.identifier(identifiable).value], identifiable)
    ensures var other := dao.(hooks := dao.hooks.(conform := conform));
      && dao.UpdateEffect(entities, Some(identifiable)) == Effect(Err(WriteRejected), entities)
      && other.UpdateEffect(entities, Some(identifiable)) == Effect(Err(WriteRejected), entities)
  {
  }

  /** An update the gate admits succeeds, returns its argument and conforms only the targeted entity. */
  lemma UpdateAdmittedSucceeds<I, T, P>(dao: JpaKeyValueDao<I, T, P>, entities: map<I, P>, identifiable: T)
    requires dao.hooks.identifier(identifiable).Some?
    requires dao.hooks.identifier(identifiable).value in entities
    requires dao.WriteAllowed(entities[dao.hooks.identifier(identifiable).value], identifiable)
    ensures var id := dao.hooks.identifier(identifiable).value;
      dao.UpdateEffect(entities, Some(identifiable))
        == Effect(Ok(identifiable), entities[id := dao.hooks.conform(entities[id], identifiable)])
  {
  }

  /** `update` hands back the object it was given: `doConvert` plays no part in it. */
  lemma UpdateDoesNotReconvert<I, T, P>(dao: JpaKeyValueDao<I, T, P>, doConvert: P -> T, entities: map<I, P>, identifiable: Option<T>)
    ensures dao.UpdateEffect(entities, identifiable)
      == dao.(hooks := dao.hooks.(doConvert := doConvert)).UpdateEffect(entities, identifiable)
  {
  }

  /**
   * The converter round trip: when `doConvert` undoes `create` and the strategy admits the
   * read, `add` returns an object equal to the one added, and the entity it stored converts
   * back to that object, which is what `get` of its id returns.
   */
  lemma AddThenGet<I, T, P>(dao: JpaKeyValueDao<I, T, P>, entities: map<I, P>, identifiable: T)
    requires dao.hooks.doConvert(dao.hooks.create(identifiable)) == identifiable
    requires dao.hooks.identifier(identifiable) == Some(dao.hooks.getId(dao.hooks.create(identifiable)))
    requires dao.ReadAllowed(dao.hooks.create(identifiable), identifiable)
    ensures var id := dao.hooks.getId(dao.hooks.create(identifiable));
      var e := dao.AddEffect(entities, Some(identifiable));
      && e.result == Ok(identifiable)
      && id in e.after
      && dao.Convert(e.after[id]) == Ok(identifiable)
  {
  }

  /** `add` keeps every entity under its own id. */
  lemma AddKeepsKeyed<I, T, P>(dao: JpaKeyValueDao<I, T, P>, entities: map<I, P>, identifiable: Option<T>)
    requires dao.Keyed(entities)
    ensures dao.Keyed(dao.AddEffect(entities, identifiable).after)
  {
  }

  /**
   * `update` keeps every entity under its own id as long as `conform` never changes an
   * entity's id (a primary key is constant).
   */
  lemma UpdateKeepsKeyed<I, T, P>(dao: JpaKeyValueDao<I, T, P>, entities: map<I, P>, identifiable: Option<T>)
    requires dao.Keyed(entities)
    requires forall e, t :: dao.hooks.getId(dao.hooks.conform(e, t)) == dao.hooks.getId(e)
    ensures dao.Keyed(dao.UpdateEffect(entities, identifiable).after)
  {
  }

  /**
   * For an identifiable with a non-null id, `update` fails without a programming error
   * exactly when no entity is stored under the id or the write gate rejects the stored one.
   */
  lemma UpdateFailsOnlyOnMissingOrRejected<I, T, P>(dao: JpaKeyValueDao<I, T, P>, entities: map<I, P>, identifiable: T)
    requires dao.hooks.identifier(identifiable).Some?
    ensures var id := dao.hooks.identifier(identifiable).value;
      var r := dao.UpdateEffect(entities, Some(identifiable)).result;
      && !(r.Err? && r.error.IsFatal())
      && (r.Err? <==> id !in entities || !dao.WriteAllowed(entities[id], identifiable))
      && (r.Err? && r.error.IsPersistence() <==> id !in entities)
  {
  }

  /** Removing entities, as `delete` and `clear` do, keeps every remaining entity under its own id. */
  lemma RemoveKeepsKeyed<I, T, P>(dao: JpaKeyValueDao<I, T, P>, entities: map<I, P>, removed: set<I>)
    requires dao.Keyed(entities)
    ensures dao.Keyed(entities - removed)
  {
  }

  /**
   * On a store that keeps every entity under its own id, `getAll` yields one object per key,
   * each carrying the key of the entity it came from, so no id is repeated.
   */
  lemma GetAllYieldsEachKeyOnce<I, T, P>(dao: JpaKeyValueDao<I, T, P>, entities: map<I, P>, order: seq<I>, loaded: seq<P>)
    requires dao.Keyed(entities)
    requires Enumerates(order, entities)
    requires |loaded| == |order|
    requires forall i :: 0 <= i < |order| ==> loaded[i] == entities[order[i]]
    requires dao.ConvertAll(loaded).Ok?
    ensures var objects := dao.ConvertAll(loaded).value;
      && |objects| == |entities|
      && (forall i :: 0 <= i < |objects| ==> dao.hooks.identifier(objects[i]) == Some(order[i]))
      && (forall i, j :: 0 <= i < j < |objects| ==> dao.hooks.identifier(objects[i]) != dao.hooks.identifier(objects[j]))
      && (forall k :: k in entities ==> exists i :: 0 <= i < |objects| && dao.hooks.identifier(objects[i]) == Some(k))
  {
  }
}
