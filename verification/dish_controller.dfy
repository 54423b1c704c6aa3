/** The cache side of the admin dish endpoints: each mutating endpoint calls
    the dish service and, once that call has returned, deletes the Redis
    keys that cache the dish lists shown to customers. The service call is
    an input here: whether it returned or threw. */
module DishController {
  import opened Wrappers
  import opened KeyValueStore

  /** Customer-facing dish lists are cached under `dish_<categoryId>`. */
  const DishKeyPrefix: string := "dish_"

  function DishKey(categoryId: int): string {
    DishKeyPrefix + Decimal(categoryId)
  }

  /** The mutating dish endpoints. */
  datatype DishEndpoint = Save(categoryId: int) | Delete | Update | StartOrStop

  /** The pattern each endpoint hands to `cleanCache`. */
  function EvictionPattern(op: DishEndpoint): Pattern {
    match op
    case Save(categoryId) => Exact(DishKey(categoryId))
    case _ => Prefix(DishKeyPrefix)
  }

  /** The key space after `op` has run with the given service outcome. */
  function AfterEndpoint<V>(m: map<string, V>, op: DishEndpoint, service: Outcome<string>): map<string, V> {
    if service.Pass? then Evict(m, EvictionPattern(op)) else m
  }

  /** `cleanCache`: looks up the keys matching the pattern and deletes them. */
  method CleanCache<V>(store: Store<V>, pattern: Pattern)
    modifies store
    ensures store.entries == Evict(old(store.entries), pattern)
  {
    var keys := store.Keys(pattern);
    store.Delete(keys);
  }

  /** POST /admin/dish: saves the dish, then evicts its category's list. */
  method Save<V>(store: Store<V>, categoryId: int, service: Outcome<string>) returns (r: Outcome<string>)
    modifies store
    ensures r == service
    ensures store.entries == AfterEndpoint(old(store.entries), DishEndpoint.Save(categoryId), service)
  {
    if service.Fail? {
      return service;
    }
    var key := DishKeyPrefix + Decimal(categoryId);
    CleanCache(store, Exact(key));
    r := Pass;
  }

  /** DELETE /admin/dish: deletes the dishes, then evicts every dish list. */
  method Delete<V>(store: Store<V>, service: Outcome<string>) returns (r: Outcome<string>)
    modifies store
    ensures r == service
    ensures store.entries == AfterEndpoint(old(store.entries), DishEndpoint.Delete, service)
  {
    if service.Fail? {
      return service;
    }
    CleanCache(store, Prefix(DishKeyPrefix));
    r := Pass;
  }

  /** PUT /admin/dish: updates the dish, then evicts every dish list. */
  method Update<V>(store: Store<V>, service: Outcome<string>) returns (r: Outcome<string>)
    modifies store
    ensures r == service
    ensures store.entries == AfterEndpoint(old(store.entries), DishEndpoint.Update, service)
  {
    if service.Fail? {
      return service;
    }
    CleanCache(store, Prefix(DishKeyPrefix));
    r := Pass;
  }

  /** POST /admin/dish/status/{status}: toggles sale status, then evicts
      every dish list. */
  method StartOrStop<V>(store: Store<V>, service: Outcome<string>) returns (r: Outcome<string>)
    modifies store
    ensures r == service
    ensures store.entries == AfterEndpoint(old(store.entries), DishEndpoint.StartOrStop, service)
  {
    if service.Fail? {
      return service;
    }
    CleanCache(store, Prefix(DishKeyPrefix));
    r := Pass;
  }

  /** Creating a dish removes exactly its own category's key. */
  lemma SaveEvictsExactlyItsKey<V>(m: map<string, V>, categoryId: int)
    ensures DishKey(categoryId) !in AfterEndpoint(m, DishEndpoint.Save(categoryId), Pass)
    ensures forall k :: k != DishKey(categoryId) && k in m ==>
      k in AfterEndpoint(m, DishEndpoint.Save(categoryId), Pass) && AfterEndpoint(m, DishEndpoint.Save(categoryId), Pass)[k] == m[k]
  {
  }

  /** Creating a dish keeps the cached lists of every other category. */
  lemma SaveKeepsOtherCategories<V>(m: map<string, V>, categoryId: int, other: int)
    requires other != categoryId && DishKey(other) in m
    ensures DishKey(other) in AfterEndpoint(m, DishEndpoint.Save(categoryId), Pass)
    ensures AfterEndpoint(m, DishEndpoint.Save(categoryId), Pass)[DishKey(other)] == m[DishKey(other)]
  {
    if DishKey(other) == DishKey(categoryId) {
      PrefixedDecimalInjective(DishKeyPrefix, other, categoryId);
    }
  }

  /** Delete, update and status toggle leave no `dish_` key behind. */
  lemma BulkEndpointsClearDishKeys<V>(m: map<string, V>, op: DishEndpoint)
    requires !op.Save?
    ensures forall k :: k in AfterEndpoint(m, op, Pass) ==> !(DishKeyPrefix <= k)
  {
  }

  /** No dish endpoint removes a key outside the `dish_` prefix. */
  lemma EndpointsSpareOtherKeys<V>(m: map<string, V>, op: DishEndpoint, service: Outcome<string>, k: string)
    requires k in m && !(DishKeyPrefix <= k)
    ensures k in AfterEndpoint(m, op, service) && AfterEndpoint(m, op, service)[k] == m[k]
  {
    if op.Save? {
      assert DishKeyPrefix <= DishKey(op.categoryId);
    }
  }

  /** An endpoint whose service call threw leaves the cache as it was. */
  lemma FailedCallKeepsCache<V>(m: map<string, V>, op: DishEndpoint, error: string)
    ensures AfterEndpoint(m, op, Fail(error)) == m
  {
  }
}
