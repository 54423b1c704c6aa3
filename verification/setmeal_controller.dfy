/** The cache side of the admin set-meal endpoints. Their caching is
    declarative: `@CacheEvict` on the cache named `setmealCache`, whose
    entries live in Redis under `setmealCache::<key>`. With the default
    `beforeInvocation = false` the eviction runs only after the endpoint
    has returned normally. The service call is an input: whether it
    returned or threw. */
module SetMealController {
  import opened Wrappers
  import opened KeyValueStore

  const CacheName: string := "setmealCache"

  /** Spring's Redis key prefix for the cache: its name followed by `::`. */
  const NamespacePrefix: string := CacheName + "::"

  /** The Redis key of the entry keyed by `categoryId`, as in `setmealCache::100`. */
  function CategoryKey(categoryId: int): string {
    NamespacePrefix + Decimal(categoryId)
  }

  datatype SetmealEndpoint =
    | Save(categoryId: int)
    | Page
    | Delete
    | GetById
    | Update
    | StartOrStop

  /** The keys each endpoint's `@CacheEvict` removes; `None` for an endpoint
      that carries no `@CacheEvict`. `allEntries = true` clears the whole
      namespace. */
  function CacheEvictOf(op: SetmealEndpoint): Option<Pattern> {
    match op
    case Save(categoryId) => Some(Exact(CategoryKey(categoryId)))
    case Page => None
    case GetById => None
    case _ => Some(Prefix(NamespacePrefix))
  }

  /** The key space after `op` has run with the given service outcome. */
  function AfterEndpoint<V>(m: map<string, V>, op: SetmealEndpoint, service: Outcome<string>): map<string, V> {
    match CacheEvictOf(op)
    case Some(p) => if service.Pass? then Evict(m, p) else m
    case None => m
  }

  /** What the `@CacheEvict` interceptor does once the endpoint returned. */
  method ApplyCacheEvict<V>(store: Store<V>, p: Pattern)
    modifies store
    ensures store.entries == Evict(old(store.entries), p)
  {
    var keys := store.Keys(p);
    store.Delete(keys);
  }

  /** POST /admin/setmeal: evicts the entry keyed by the new set meal's category. */
  method Save<V>(store: Store<V>, categoryId: int, service: Outcome<string>) returns (r: Outcome<string>)
    modifies store
    ensures r == service
    ensures store.entries == AfterEndpoint(old(store.entries), SetmealEndpoint.Save(categoryId), service)
  {
    r := service;
    if r.Pass? {
      ApplyCacheEvict(store, Exact(NamespacePrefix + Decimal(categoryId)));
    }
  }

  /** GET /admin/setmeal/page: a read; no eviction. */
  method Page<V, P>(store: Store<V>, service: Result<P, string>) returns (r: Result<P, string>)
    ensures r == service
    ensures store.entries == AfterEndpoint(old(store.entries), SetmealEndpoint.Page, Pass)
  {
    r := service;
  }

  /** DELETE /admin/setmeal: clears the namespace. */
  method Delete<V>(store: Store<V>, service: Outcome<string>) returns (r: Outcome<string>)
    modifies store
    ensures r == service
    ensures store.entries == AfterEndpoint(old(store.entries), SetmealEndpoint.Delete, service)
  {
    r := service;
    if r.Pass? {
      ApplyCacheEvict(store, Prefix(NamespacePrefix));
    }
  }

  /** GET /admin/setmeal/{id}: a read; no eviction. */
  method GetById<V, S>(store: Store<V>, service: Result<S, string>) returns (r: Result<S, string>)
    ensures r == service
    ensures store.entries == AfterEndpoint(old(store.entries), SetmealEndpoint.GetById, Pass)
  {
    r := service;
  }

  /** PUT /admin/setmeal: clears the namespace. */
  method Update<V>(store: Store<V>, service: Outcome<string>) returns (r: Outcome<string>)
    modifies store
    ensures r == service
    ensures store.entries == AfterEndpoint(old(store.entries), SetmealEndpoint.Update, service)
  {
    r := service;
    if r.Pass? {
      ApplyCacheEvict(store, Prefix(NamespacePrefix));
    }
  }

  /** POST /admin/setmeal/status/{status}: clears the namespace. */
  method StartOrStop<V>(store: Store<V>, service: Outcome<string>) returns (r: Outcome<string>)
    modifies store
    ensures r == service
    ensures store.entries == AfterEndpoint(old(store.entries), SetmealEndpoint.StartOrStop, service)
  {
    r := service;
    if r.Pass? {
      ApplyCacheEvict(store, Prefix(NamespacePrefix));
    }
  }

  /** Creating a set meal removes only the entry of its own category. */
  lemma SaveEvictsOnlyItsCategory<V>(m: map<string, V>, categoryId: int, k: string)
    requires k in m
    ensures k in AfterEndpoint(m, SetmealEndpoint.Save(categoryId), Pass) <==> k != CategoryKey(categoryId)
  {
  }

  /** Creating a set meal keeps the entries of every other category. */
  lemma SaveKeepsOtherCategories<V>(m: map<string, V>, categoryId: int, other: int)
    requires other != categoryId && CategoryKey(other) in m
    ensures CategoryKey(other) in AfterEndpoint(m, SetmealEndpoint.Save(categoryId), Pass)
    ensures AfterEndpoint(m, SetmealEndpoint.Save(categoryId), Pass)[CategoryKey(other)] == m[CategoryKey(other)]
  {
    if CategoryKey(other) == CategoryKey(categoryId) {
      PrefixedDecimalInjective(NamespacePrefix, other, categoryId);
    }
  }

  /** Delete, update and status toggle leave nothing in the namespace. */
  lemma BulkEndpointsClearNamespace<V>(m: map<string, V>, op: SetmealEndpoint)
    requires op.Delete? || op.Update? || op.StartOrStop?
    ensures forall k :: k in AfterEndpoint(m, op, Pass) ==> !(NamespacePrefix <= k)
  {
  }

  /** Page and getById never change the cache, whatever the service did. */
  lemma ReadsKeepCache<V>(m: map<string, V>, op: SetmealEndpoint, service: Outcome<string>)
    requires op.Page? || op.GetById?
    ensures AfterEndpoint(m, op, service) == m
  {
  }

  /** No set-meal endpoint touches a key outside the namespace. */
  lemma EndpointsSpareOtherKeys<V>(m: map<string, V>, op: SetmealEndpoint, service: Outcome<string>, k: string)
    requires k in m && !(NamespacePrefix <= k)
    ensures k in AfterEndpoint(m, op, service) && AfterEndpoint(m, op, service)[k] == m[k]
  {
    if op.Save? {
      assert NamespacePrefix <= CategoryKey(op.categoryId);
    }
  }
}
