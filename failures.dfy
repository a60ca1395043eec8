/**
 * The exceptions the key-value DAO can raise. Two of them are programming errors
 * (a `NullPointerException` from a null-argument check and an `IllegalStateException`
 * from a broken converter), one is the `PersistenceException` that `update` throws for a
 * missing entity, and two are the rejections of the update strategy.
 */
module Failures {
  import opened Wrappers

  datatype Failure<I> =
      /** `Preconditions.checkNotNull(.., name)` found a null argument. */
    | NullArgument(name: string)
      /** `convert` found that the converted object does not carry the entity's id. */
    | InvalidId(source: I, target: Option<I>)
      /** `update` found no stored entity with this id. */
    | NotFound(id: I)
      /** The update strategy refused to expose an entity as a domain object. */
    | ReadRejected
      /** The update strategy refused to apply a domain object to an entity. */
    | WriteRejected
  {
    /** A broken caller or converter contract: not wrapped as a `PersistenceException`. */
    predicate IsFatal() {
      NullArgument? || InvalidId?
    }

    /** The `PersistenceException` thrown by the DAO itself. */
    predicate IsPersistence() {
      NotFound?
    }

    /** Raised by the update strategy, whose exception class is its own. */
    predicate IsRejection() {
      ReadRejected? || WriteRejected?
    }
  }
}
