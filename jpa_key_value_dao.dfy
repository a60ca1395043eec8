/**
 * The template-method key-value DAO over JPA. The DAO keeps no state of its own: it is a
 * value holding the four subclass hooks and an optional update strategy, and each operation
 * works on the `JpaContext` it is given.
 */
module JpaDao {
  import opened Wrappers
  import opened Failures
  import opened JpaStore

  /**
   * What a concrete DAO supplies: `getId`, `create`, `conform` and `doConvert` are the
   * abstract methods a subclass implements, and `identifier` is `Identifiable.getIdentifier`
   * of the domain object, which may be `null`. `conform` changes the entity in place; here it
   * returns the entity as it is afterwards.
   */
  datatype Hooks<I, !T, !P> = Hooks(
    getId: P -> I,
    create: T -> P,
    conform: (P, T) -> P,
    doConvert: P -> T,
    identifier: T -> Option<I>)

  /** `UpdateStrategy`: each check holds when the strategy lets the access through. */
  datatype UpdateStrategy<!P, !T> = UpdateStrategy(
    validateRead: (P, T) -> bool,
    validateWrite: (P, T) -> bool)

  /** The strategy that lets every read and every write through. */
  function AcceptAll<P, T>(): UpdateStrategy<P, T> {
    UpdateStrategy((e: P, t: T) => true, (e: P, t: T) => true)
  }

  /** What an operation returns, together with the stored entities afterwards. */
  datatype Effect<R, I, P> = Effect(result: Result<R, Failure<I>>, after: map<I, P>)

  datatype JpaKeyValueDao<I(==), !T, !P> = JpaKeyValueDao(
    hooks: Hooks<I, T, P>,
    updateStrategy: Option<UpdateStrategy<P, T>>)
  {
    /** The one-argument constructor: a DAO without an update strategy. */
    static function WithoutStrategy(hooks: Hooks<I, T, P>): (dao: JpaKeyValueDao<I, T, P>)
      ensures dao.hooks == hooks && dao.updateStrategy.None?
    {
      JpaKeyValueDao(hooks, None)
    }

    /** The read gate of `convert`: open when no strategy is configured. */
    predicate ReadAllowed(entity: P, target: T) {
      updateStrategy.None? || updateStrategy.value.validateRead(entity, target)
    }

    /** The write gate of `update`: open when no strategy is configured. */
    predicate WriteAllowed(entity: P, source: T) {
      updateStrategy.None? || updateStrategy.value.validateWrite(entity, source)
    }

    /** The id-consistency invariant that `convert` checks: the converted object carries the entity's id. */
    predicate IdConsistent(entity: P) {
      hooks.identifier(hooks.doConvert(entity)) == Some(hooks.getId(entity))
    }

    /** Every entity is stored under its own id. */
    ghost predicate Keyed(entities: map<I, P>) {
      forall k :: k in entities ==> hooks.getId(entities[k]) == k
    }

    /**
     * `convert(P)`: the subclass conversion, then the id check, then the read gate. An id
     * mismatch is fatal and decided before the strategy is consulted.
     */
    function Convert(source: P): (r: Result<T, Failure<I>>)
      ensures r.Ok? ==> r.value == hooks.doConvert(source)
      ensures r.Ok? ==> hooks.identifier(r.value) == Some(hooks.getId(source))
      ensures r.Ok? <==> IdConsistent(source) && ReadAllowed(source, hooks.doConvert(source))
      ensures !IdConsistent(source) ==> r.Err? && r.error.InvalidId? && r.error.IsFatal()
      ensures IdConsistent(source) && !ReadAllowed(source, hooks.doConvert(source)) ==> r == Err(ReadRejected)
      ensures r.Err? && !r.error.IsFatal() ==> r.error == ReadRejected && updateStrategy.Some?
    {
      var target := hooks.doConvert(source);
      if hooks.identifier(target) != Some(hooks.getId(source)) then
        Err(InvalidId(hooks.getId(source), hooks.identifier(target)))
      else if updateStrategy.Some? && !updateStrategy.value.validateRead(source, target) then
        Err(ReadRejected)
      else
        Ok(target)
    }

    /**
     * `convert(Collection<P>)`: converts in order and stops at the first entity that
     * fails, whose failure it reports.
     */
    function ConvertAll(sources: seq<P>): (r: Result<seq<T>, Failure<I>>)
      ensures r.Ok? <==> forall i :: 0 <= i < |sources| ==> Convert(sources[i]).Ok?
      ensures r.Ok? ==> |r.value| == |sources|
      ensures r.Ok? ==> forall i :: 0 <= i < |sources| ==> Convert(sources[i]) == Ok(r.value[i])
      ensures r.Err? ==> exists i :: 0 <= i < |sources| && FirstFailure(sources, i) && Convert(sources[i]) == Err(r.error)
    {
      if sources == [] then Ok([])
      else
        match Convert(sources[0])
        case Err(e) =>
          assert FirstFailure(sources, 0);
          Err(e)
        case Ok(t) =>
          match ConvertAll(sources[1..])
          case Err(e) =>
            ghost var i :| 0 <= i < |sources[1..]| && FirstFailure(sources[1..], i) && Convert(sources[1..][i]) == Err(e);
            assert FirstFailure(sources, i + 1);
            Err(e)
          case Ok(ts) => Ok([t] + ts)
    }

    /** Entry `i` fails to convert and every entry before it converts. */
    ghost predicate FirstFailure(sources: seq<P>, i: int)
      requires 0 <= i < |sources|
    {
      Convert(sources[i]).Err? && forall j :: 0 <= j < i ==> Convert(sources[j]).Ok?
    }

    /** The outcome of `add(identifiable)` on the stored `entities`. */
    function AddEffect(entities: map<I, P>, identifiable: Option<T>): (e: Effect<T, I, P>)
      ensures identifiable.None? ==> e == Effect(Err(NullArgument("identifiable")), entities)
      ensures identifiable.Some? ==>
        var entity := hooks.create(identifiable.value);
        && e.after == entities[hooks.getId(entity) := entity]
        && e.result == Convert(entity)
      ensures e.result.Ok? ==>
        identifiable.Some? && hooks.identifier(e.result.value) == Some(hooks.getId(hooks.create(identifiable.value)))
    {
      match identifiable
      case None => Effect(Err(NullArgument("identifiable")), entities)
      case Some(x) =>
        var entity := hooks.create(x);
        Effect(Convert(entity), entities[hooks.getId(entity) := entity])
    }

    /** The outcome of `update(identifiable)` on the stored `entities`. */
    function UpdateEffect(entities: map<I, P>, identifiable: Option<T>): (e: Effect<T, I, P>)
      ensures identifiable.None? ==> e == Effect(Err(NullArgument("identifiable")), entities)
      ensures identifiable.Some? && hooks.identifier(identifiable.value).None? ==>
        e == Effect(Err(NullArgument("Id")), entities)
      ensures e.result.Err? ==> e.after == entities
      ensures e.after.Keys == entities.Keys
      ensures forall k :: k in entities && (identifiable.None? || hooks.identifier(identifiable.value) != Some(k)) ==>
        e.after[k] == entities[k]
      ensures e.result.Ok? ==>
        && identifiable.Some?
        && e.result.value == identifiable.value
        && var id := hooks.identifier(identifiable.value).value;
        && id in entities
        && WriteAllowed(entities[id], identifiable.value)
        && e.after == entities[id := hooks.conform(entities[id], identifiable.value)]
    {
      match identifiable
      case None => Effect(Err(NullArgument("identifiable")), entities)
      case Some(x) =>
        match hooks.identifier(x)
        case None => Effect(Err(NullArgument("Id")), entities)
        case Some(id) =>
          if id !in entities then
            Effect(Err(NotFound(id)), entities)
          else if updateStrategy.Some? && !updateStrategy.value.validateWrite(entities[id], x) then
            Effect(Err(WriteRejected), entities)
          else
            Effect(Ok(x), entities[id := hooks.conform(entities[id], x)])
    }

    /** `add`: persists `create(identifiable)` and returns its conversion. */
    method Add(identifiable: Option<T>, context: JpaContext<I, P>) returns (r: Result<T, Failure<I>>)
      requires identifiable.Some? ==> hooks.getId(hooks.create(identifiable.value)) !in context.entities
      modifies context
      ensures Effect(r, context.entities) == AddEffect(old(context.entities), identifiable)
    {
      if identifiable.None? {
        return Err(NullArgument("identifiable"));
      }
      var entity := hooks.create(identifiable.value);
      context.Persist(hooks.getId(entity), entity);
      r := Convert(entity);
    }

    /**
     * `update`: fetches the stored entity afresh, fails if there is none, passes it through
     * the write gate and only then conforms it to `identifiable`.
     */
    method Update(identifiable: Option<T>, context: JpaContext<I, P>) returns (r: Result<T, Failure<I>>)
      modifies context
      ensures Effect(r, context.entities) == UpdateEffect(old(context.entities), identifiable)
    {
      if identifiable.None? {
        return Err(NullArgument("identifiable"));
      }
      var x := identifiable.value;
      if hooks.identifier(x).None? {
        return Err(NullArgument("Id"));
      }
      var id := hooks.identifier(x).value;
      var fetched := GetEntity(Some(id), context);
      var entity := fetched.value;
      if entity.None? {
        return Err(NotFound(id));
      }
      if updateStrategy.Some? && !updateStrategy.value.validateWrite(entity.value, x) {
        return Err(WriteRejected);
      }
      context.Store(id, hooks.conform(entity.value, x));
      r := Ok(x);
    }

    /** `delete`: removes the entity stored under `id`. */
    method Delete(id: Option<I>, context: JpaContext<I, P>) returns (r: Result<(), Failure<I>>)
      requires id.Some? ==> id.value in context.entities
      modifies context
      ensures id.None? ==> r == Err(NullArgument("id")) && context.entities == old(context.entities)
      ensures id.Some? ==> r == Ok(()) && context.entities == old(context.entities) - {id.value}
    {
      var fetched := GetEntity(id, context);
      if fetched.Err? {
        return Err(fetched.error);
      }
      context.Remove(id.value);
      r := Ok(());
    }

    /** `get`: the conversion of the entity stored under `id`. */
    method Get(id: Option<I>, context: JpaContext<I, P>) returns (r: Result<T, Failure<I>>)
      requires id.Some? ==> id.value in context.entities
      ensures id.None? ==> r == Err(NullArgument("id"))
      ensures id.Some? ==> r == Convert(context.entities[id.value])
      ensures r.Ok? ==> id.Some? && hooks.identifier(r.value) == Some(hooks.getId(context.entities[id.value]))
    {
      var fetched := GetEntity(id, context);
      if fetched.Err? {
        return Err(fetched.error);
      }
      r := Convert(fetched.value.value);
    }

    /** `exist`: whether an entity is stored under `id`. */
    method Exist(id: I, context: JpaContext<I, P>) returns (b: bool)
      ensures b <==> id in context.entities
    {
      b := context.Exists(id);
    }

    /**
     * `getAll`: one converted object per stored entity, in the order the store loads them;
     * `order` names the key of each.
     */
    method GetAll(context: JpaContext<I, P>) returns (r: Result<seq<T>, Failure<I>>, ghost order: seq<I>)
      ensures Enumerates(order, context.entities)
      ensures r.Ok? <==> forall k :: k in context.entities ==> Convert(context.entities[k]).Ok?
      ensures r.Ok? ==> |r.value| == |context.entities|
      ensures r.Ok? ==> forall i :: 0 <= i < |order| ==> Convert(context.entities[order[i]]) == Ok(r.value[i])
      ensures r.Err? ==> exists k :: k in context.entities && Convert(context.entities[k]) == Err(r.error)
    {
      var loaded;
      loaded, order := context.LoadAll();
      r := ConvertAll(loaded);
      if r.Err? {
        ghost var i :| 0 <= i < |loaded| && FirstFailure(loaded, i) && Convert(loaded[i]) == Err(r.error);
        assert order[i] in context.entities;
      }
    }

    /** `size`: the number of stored entities. */
    method Size(context: JpaContext<I, P>) returns (n: nat)
      ensures n == |context.entities|
    {
      n := context.Count();
    }

    /** `clear`: a bulk delete of every stored entity, bypassing conversion and the strategy. */
    method Clear(context: JpaContext<I, P>)
      modifies context
      ensures context.entities == map[]
    {
      context.RemoveAll();
    }

    /** `getEntity`: the stored entity with this id or `null`; a `null` id is refused. */
    method GetEntity(id: Option<I>, context: JpaContext<I, P>) returns (r: Result<Option<P>, Failure<I>>)
      ensures id.None? ==> r == Err(NullArgument("id"))
      ensures id.Some? ==> r.Ok? && (r.value.Some? <==> id.value in context.entities)
      ensures id.Some? && r.value.Some? ==> r.value.value == context.entities[id.value]
    {
      if id.None? {
        return Err(NullArgument("id"));
      }
      var found := context.Find(id.value);
      r := Ok(found);
    }
  }
}
