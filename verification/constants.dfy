/** Cache lifetimes for the query layer, in milliseconds. */
module CacheTime {

  /** 1 minute */
  const SHORT: nat := 1 * 60 * 1000
  /** 5 minutes */
  const MEDIUM: nat := 5 * 60 * 1000
  /** 30 minutes */
  const LONG: nat := 30 * 60 * 1000
  /** 1 hour */
  const VERY_LONG: nat := 60 * 60 * 1000
  /** 24 hours */
  const DAY: nat := 24 * 60 * 60 * 1000

  /** Each lifetime is strictly longer than the one before it. */
  lemma Increasing()
    ensures SHORT < MEDIUM < LONG < VERY_LONG < DAY
  {
  }

  lemma Values()
    ensures SHORT == 60000 && MEDIUM == 300000 && LONG == 1800000
    ensures VERY_LONG == 3600000 && DAY == 86400000
  {
  }

  lemma Ratios()
    ensures MEDIUM == 5 * SHORT && LONG == 6 * MEDIUM && VERY_LONG == 2 * LONG
    ensures DAY == 24 * VERY_LONG
  {
  }
}

/** Query keys: tuples whose leading elements name the feature, so that
    invalidating a short key reaches every longer key that starts with it. */
module QueryKeys {
  import opened Js

  datatype KeyPart = Text(s: string) | Filters(f: map<string, Json>)

  type QueryKey = seq<KeyPart>

  function UserAll(): QueryKey {
    [Text("user")]
  }

  function UserDetail(id: string): (k: QueryKey)
    ensures UserAll() <= k && |k| == 2 && k[1] == Text(id)
  {
    [Text("user"), Text(id)]
  }

  function UserProfile(): (k: QueryKey)
    ensures UserAll() <= k && |k| == 2
  {
    [Text("user"), Text("profile")]
  }

  function ProductsAll(): QueryKey {
    [Text("products")]
  }

  function ProductsList(filters: map<string, Json>): (k: QueryKey)
    ensures ProductsAll() <= k && |k| == 3 && k[2] == Filters(filters)
  {
    [Text("products"), Text("list"), Filters(filters)]
  }

  function ProductsDetail(id: string): (k: QueryKey)
    ensures ProductsAll() <= k && |k| == 2 && k[1] == Text(id)
  {
    [Text("products"), Text(id)]
  }

  /** The detail key of a user whose id is "profile" is the profile key:
      the two entries share one cache slot. */
  lemma DetailOfProfileIsProfile()
    ensures UserDetail("profile") == UserProfile()
  {
  }

  /** Keys of different features never share a prefix: invalidating the
      user feature does not reach product keys. */
  lemma FeaturesAreDisjoint(id: string, filters: map<string, Json>)
    ensures !(UserAll() <= ProductsList(filters)) && !(UserAll() <= ProductsDetail(id))
    ensures !(ProductsAll() <= UserDetail(id)) && !(ProductsAll() <= UserProfile())
  {
    assert UserAll()[0] != ProductsAll()[0];
  }

  /** Two detail keys coincide exactly when the ids do. */
  lemma DetailInjective(a: string, b: string)
    ensures UserDetail(a) == UserDetail(b) <==> a == b
    ensures ProductsDetail(a) == ProductsDetail(b) <==> a == b
  {
    if UserDetail(a) == UserDetail(b) {
      assert UserDetail(a)[1] == UserDetail(b)[1];
    }
    if ProductsDetail(a) == ProductsDetail(b) {
      assert ProductsDetail(a)[1] == ProductsDetail(b)[1];
    }
  }
}
