/**
 * The JPA persistence context as the key-value DAO sees it: the entities of one entity
 * class, keyed by primary key. Its methods stand for the `JpaUtil` primitives the DAO calls
 * (`persist`, `get`, `exist`, `loadAll`, `size`, `delete`); transactions and the
 * `EntityManager` itself are not modelled.
 */
module JpaStore {
  import opened Wrappers

  /** `order` lists every key of `entities` exactly once. */
  ghost predicate Enumerates<I, P>(order: seq<I>, entities: map<I, P>) {
    && |order| == |entities|
    && (forall i :: 0 <= i < |order| ==> order[i] in entities)
    && (forall i, j :: 0 <= i < j < |order| ==> order[i] != order[j])
    && (forall k :: k in entities ==> k in order)
  }

  class JpaContext<I(==), P> {
    /** The managed entities, by primary key. */
    var entities: map<I, P>

    constructor ()
      ensures entities == map[]
    {
      entities := map[];
    }

    /** `JpaUtil.persist`: makes a new entity managed under its primary key. */
    method Persist(id: I, entity: P)
      requires id !in entities
      modifies this
      ensures entities == old(entities)[id := entity]
      ensures |entities| == |old(entities)| + 1
    {
      entities := entities[id := entity];
    }

    /** Writes back a managed entity that was changed in place. */
    method Store(id: I, entity: P)
      requires id in entities
      modifies this
      ensures entities == old(entities)[id := entity]
      ensures entities.Keys == old(entities).Keys
    {
      entities := entities[id := entity];
    }

    /** `JpaUtil.get`: the entity with this key, or `null`. */
    method Find(id: I) returns (found: Option<P>)
      ensures found.Some? <==> id in entities
      ensures found.Some? ==> found.value == entities[id]
    {
      found := if id in entities then Some(entities[id]) else None;
    }

    /** `JpaUtil.exist`. */
    method Exists(id: I) returns (b: bool)
      ensures b <==> id in entities
    {
      b := id in entities;
    }

    /** `JpaUtil.size`: the number of stored entities. */
    method Count() returns (n: nat)
      ensures n == |entities|
    {
      n := |entities|;
    }

    /** `JpaUtil.delete(entity, context)`: removes one managed entity. */
    method Remove(id: I)
      requires id in entities
      modifies this
      ensures entities == old(entities) - {id}
      ensures |entities| == |old(entities)| - 1
    {
      entities := entities - {id};
    }

    /** `JpaUtil.delete(entityClass, null, context)`: a bulk delete with no filter. */
    method RemoveAll()
      modifies this
      ensures entities == map[]
    {
      entities := map[];
    }

    /**
     * `JpaUtil.loadAll`: every stored entity once, in an order the store chooses;
     * `order` names the key each loaded entity is stored under.
     */
    method LoadAll() returns (loaded: seq<P>, ghost order: seq<I>)
      ensures |loaded| == |entities|
      ensures forall i :: 0 <= i < |loaded| ==> exists k :: k in entities && entities[k] == loaded[i]
      ensures Enumerates(order, entities)
      ensures |loaded| == |order|
      ensures forall i :: 0 <= i < |order| ==> loaded[i] == entities[order[i]]
    {
      var rest := entities.Keys;
      loaded, order := [], [];
      while rest != {}
        invariant rest <= entities.Keys
        invariant |loaded| == |order|
        invariant |order| + |rest| == |entities|
        invariant forall i :: 0 <= i < |order| ==> order[i] in entities && order[i] !in rest
        invariant forall i :: 0 <= i < |order| ==> loaded[i] == entities[order[i]]
        invariant forall i, j :: 0 <= i < j < |order| ==> order[i] != order[j]
        invariant forall k :: k in entities ==> k in rest || k in order
        decreases rest
      {
        var k :| k in rest;
        loaded, order := loaded + [entities[k]], order + [k];
        rest := rest - {k};
      }
    }
  }
}
