/** The cache keys of the clients queries (`src/constants/query-keys.ts`),
    and the prefix matching by which invalidating `all` reaches every list
    and detail. */
module QueryKeys {
  import opened ClientTypes

  /** One element of a key: a string or a filter object. */
  datatype KeyPart = Text(s: string) | FilterPart(filters: ClientFilters)

  type QueryKey = seq<KeyPart>

  /** `queryKeys.clients.all`. */
  const All: QueryKey := [Text("clients")]

  /** `queryKeys.clients.list(filters)`. */
  function ListKey(filters: ClientFilters): QueryKey {
    [Text("clients"), Text("list"), FilterPart(filters)]
  }

  /** `queryKeys.clients.detail(id)`. */
  function DetailKey(id: string): QueryKey {
    [Text("clients"), Text("detail"), Text(id)]
  }

  /** `prefix` is a leading part of `key`: the way an invalidation by key
      selects the queries it reaches. */
  predicate IsPrefix(prefix: QueryKey, key: QueryKey) {
    |prefix| <= |key| && key[..|prefix|] == prefix
  }

  /** Invalidating `all` reaches every list and every detail. */
  lemma AllReachesEveryKey(filters: ClientFilters, id: string)
    ensures IsPrefix(All, ListKey(filters)) && IsPrefix(All, DetailKey(id))
  {
  }

  /** A list key is never a detail key, and neither is a prefix of the other:
      writing one detail leaves every list alone. */
  lemma ListAndDetailApart(filters: ClientFilters, id: string)
    ensures ListKey(filters) != DetailKey(id)
    ensures !IsPrefix(DetailKey(id), ListKey(filters)) && !IsPrefix(ListKey(filters), DetailKey(id))
  {
    assert ListKey(filters)[1] == Text("list");
    assert DetailKey(id)[1] == Text("detail");
    assert "list" != "detail" by {
      assert |"list"| != |"detail"|;
    }
  }

  /** Distinct filters and distinct ids have distinct keys. */
  lemma KeysInjective(f: ClientFilters, g: ClientFilters, a: string, b: string)
    ensures ListKey(f) == ListKey(g) <==> f == g
    ensures DetailKey(a) == DetailKey(b) <==> a == b
  {
    if ListKey(f) == ListKey(g) {
      assert ListKey(f)[2] == ListKey(g)[2];
    }
    if DetailKey(a) == DetailKey(b) {
      assert DetailKey(a)[2] == DetailKey(b)[2];
    }
  }
}
