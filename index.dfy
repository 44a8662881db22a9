/** The informer cache of tokens, indexed by secret key under
    `tokenKeyIndex` (pkg/auth/tokens/server.go:23, 44-51). It is filled by
    watching the store and may lag behind it; the token server only reads
    a snapshot of it. */
module TokenIndex {
  import opened Tokens

  /** What an informer hands to an index function: a token, or an object
      of some other kind. */
  datatype Object = TokenObject(record: Token) | OtherObject

  /** tokenKeyIndexer: a token is indexed under its secret key, anything
      else under no key at all. */
  function TokenKeyIndexer(obj: Object): (keys: seq<string>)
    ensures |keys| <= 1
    ensures forall k :: k in keys <==> obj.TokenObject? && k == obj.record.token
  {
    match obj
    case TokenObject(t) => [t.token]
    case OtherObject => []
  }

  /** A snapshot of the cache: the tokens filed under each key, and the
      error `ByIndex` reports, if any, for every key. */
  datatype Index = Index(byKey: map<string, seq<Token>>, failure: Option<ApiError>)

  /** `ByIndex(tokenKeyIndex, key)`: a key under which nothing is filed
      yields the empty list. */
  function ByIndex(ix: Index, key: string): (r: Result<seq<Token>>)
    ensures r.Err? <==> ix.failure.Some?
    ensures r.Err? ==> r.error == ix.failure.value
    ensures r.Ok? ==> (r.value == [] <==> key !in ix.byKey || ix.byKey[key] == [])
    ensures r.Ok? ==> forall t :: t in r.value ==> key in ix.byKey && t in ix.byKey[key]
  {
    match ix.failure
    case Some(e) => Err(e)
    case None => Ok(if key in ix.byKey then ix.byKey[key] else [])
  }

  /** The snapshot is up to date with `records`: it reports no error, files
      exactly the stored tokens, each under the keys the index function
      gives for it. A stale snapshot is any index that is not so. */
  ghost predicate Reflects(ix: Index, records: map<string, Token>) {
    && ix.failure.None?
    && (forall key, t :: key in ix.byKey && t in ix.byKey[key] ==>
          t.meta.name in records && records[t.meta.name] == t && key in TokenKeyIndexer(TokenObject(t)))
    && (forall n, key :: n in records && key in TokenKeyIndexer(TokenObject(records[n])) ==>
          key in ix.byKey && records[n] in ix.byKey[key])
  }

  /** In an up-to-date snapshot every token found under `key` is a stored
      record whose secret is `key`, and every stored record whose secret is
      `key` is found. */
  lemma ReflectedLookup(ix: Index, records: map<string, Token>, key: string)
    requires Reflects(ix, records)
    ensures ByIndex(ix, key).Ok?
    ensures forall t :: t in ByIndex(ix, key).value ==>
      t.token == key && t.meta.name in records && records[t.meta.name] == t
    ensures forall n :: n in records && records[n].token == key ==> records[n] in ByIndex(ix, key).value
  {
    forall n | n in records && records[n].token == key
      ensures records[n] in ByIndex(ix, key).value
    {
      assert key in TokenKeyIndexer(TokenObject(records[n]));
    }
  }
}
