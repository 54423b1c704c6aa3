/** The dish lists (`dish_*`) and the set-meal cache (`setmealCache::*`)
    share one Redis key space; neither controller's evictions reach the
    other's keys. */
module MenuCachePolicy {
  import opened Wrappers
  import opened KeyValueStore
  import DishController
  import SetMealController

  /** Set-meal evictions leave every `dish_` key in place. */
  lemma SetmealEndpointsSpareDishKeys<V>(m: map<string, V>, op: SetMealController.SetmealEndpoint,
                                         service: Outcome<string>, k: string)
    requires k in m && DishController.DishKeyPrefix <= k
    ensures k in SetMealController.AfterEndpoint(m, op, service)
    ensures SetMealController.AfterEndpoint(m, op, service)[k] == m[k]
  {
    assert k[0] == 'd';
    assert !(SetMealController.NamespacePrefix <= k);
    SetMealController.EndpointsSpareOtherKeys(m, op, service, k);
  }

  /** Dish evictions leave every `setmealCache::` key in place. */
  lemma DishEndpointsSpareSetmealKeys<V>(m: map<string, V>, op: DishController.DishEndpoint,
                                         service: Outcome<string>, k: string)
    requires k in m && SetMealController.NamespacePrefix <= k
    ensures k in DishController.AfterEndpoint(m, op, service)
    ensures DishController.AfterEndpoint(m, op, service)[k] == m[k]
  {
    assert k[0] == 's';
    assert !(DishController.DishKeyPrefix <= k);
    DishController.EndpointsSpareOtherKeys(m, op, service, k);
  }
}
