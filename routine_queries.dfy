/** The query keys `routineKeys` builds and the options of the two query hooks. */
module RoutineQueries {
  import opened Wrappers

  /** One element of a query key: a string, or the `{ filters }` object of a list key. */
  datatype KeyPart = Str(s: string) | FiltersObject(filters: Option<string>)

  type QueryKey = seq<KeyPart>

  /** `routineKeys.all`. */
  const ALL: QueryKey := [Str("routines")]

  /** `routineKeys.lists()`. */
  function Lists(): (k: QueryKey)
    ensures ALL < k && |k| == 2 && k[1] == Str("list")
  {
    ALL + [Str("list")]
  }

  /** `routineKeys.list(filters)`: one key per filter below `lists()`. */
  function List(filters: Option<string>): (k: QueryKey)
    ensures Lists() < k && |k| == 3
    ensures k[2] == FiltersObject(filters)
  {
    Lists() + [FiltersObject(filters)]
  }

  /** `routineKeys.details()`. */
  function Details(): (k: QueryKey)
    ensures ALL < k && |k| == 2 && k[1] == Str("detail")
  {
    ALL + [Str("detail")]
  }

  /** `routineKeys.detail(id)`: one key per routine id below `details()`. */
  function Detail(id: string): (k: QueryKey)
    ensures Details() < k && |k| == 3
    ensures k[2] == Str(id)
  {
    Details() + [Str(id)]
  }

  /** Distinct ids give distinct detail keys. */
  lemma DetailInjective(a: string, b: string)
    ensures Detail(a) == Detail(b) <==> a == b
  {
    if Detail(a) == Detail(b) {
      assert Detail(a)[2] == Detail(b)[2];
    }
  }

  /** `invalidateQueries({ queryKey })` without `exact` hits every cached key that starts with
      `queryKey`; for keys made of strings this is plain list-prefix matching. */
  predicate Invalidates(filterKey: QueryKey, key: QueryKey) {
    filterKey <= key
  }

  /** Invalidating `lists()` after a create, update or delete refreshes the list key and every
      filtered list key, and no detail key: list and detail keys differ at index 1. */
  lemma ListsInvalidation(filters: Option<string>, id: string)
    ensures Invalidates(Lists(), Lists()) && Invalidates(Lists(), List(filters))
    ensures !Invalidates(Lists(), Detail(id)) && !Invalidates(Details(), List(filters))
    ensures Lists()[1] != Detail(id)[1]
  {
    assert Detail(id)[1] == Str("detail");
  }

  /** Invalidating `detail(slug)` after an update refreshes that routine's key and no other. */
  lemma DetailInvalidation(slug: string, id: string)
    ensures Invalidates(Detail(slug), Detail(id)) <==> slug == id
  {
    if Invalidates(Detail(slug), Detail(id)) {
      assert Detail(slug) == Detail(id);
      DetailInjective(slug, id);
    }
  }

  /** The options a query hook passes to `useQuery`. */
  datatype QueryOptions = QueryOptions(queryKey: QueryKey, enabled: bool)

  /** `useRoutines()`: the list key, always enabled. */
  function UseRoutines(): (o: QueryOptions)
    ensures o.queryKey == Lists() && o.enabled
  {
    QueryOptions(Lists(), true)
  }

  /** `useRoutine(slug)`: the routine's detail key, enabled (`!!slug`) only for a non-empty slug. */
  function UseRoutine(slug: string): (o: QueryOptions)
    ensures o.queryKey == Detail(slug)
    ensures o.enabled <==> |slug| > 0
  {
    QueryOptions(Detail(slug), slug != "")
  }
}
