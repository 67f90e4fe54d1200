/** The base of every service facade: a path prefix fixed when the facade
    is built, and the join of that prefix with an operation's sub-path. */
module Base {

  /** A facade's base path. As a value it cannot change after construction. */
  datatype BaseApi = BaseApi(basePath: string)

  /** `url(path = '')` */
  function Url(api: BaseApi, path: string := ""): (r: string)
    ensures |r| == |api.basePath| + |path|
    ensures api.basePath <= r
    ensures r[|api.basePath|..] == path
  {
    api.basePath + path
  }

  /** With the default argument the url is the base path itself. */
  lemma DefaultPathIsBase(api: BaseApi)
    ensures Url(api) == api.basePath
  {
  }

  /** Within one facade, different sub-paths give different urls. */
  lemma UrlInjective(api: BaseApi, p: string, q: string)
    ensures Url(api, p) == Url(api, q) <==> p == q
  {
    if Url(api, p) == Url(api, q) {
      assert p == Url(api, p)[|api.basePath|..];
    }
  }

  /** Joining is associative: a sub-path built in two steps gives the same
      url as the whole sub-path. */
  lemma UrlAppend(api: BaseApi, p: string, q: string)
    ensures Url(api, p + q) == Url(BaseApi(Url(api, p)), q)
  {
    assert api.basePath + (p + q) == (api.basePath + p) + q;
  }
}
