/** The token API server's decision layer (pkg/auth/tokens/server.go):
    resolving a bearer value through the index and the store, and the
    operations built on it. The pure decisions are functions of a store
    snapshot and an index snapshot; the operations that write to the store
    are methods of TokenAPIServer, each proved equal to the function that
    specifies it. */
module TokenServer {
  import opened Tokens
  import opened TokenStore
  import opened TokenIndex

  /** The errors the server returns, one per kind of failure. */
  datatype Failure =
    | IndexFailed(cause: ApiError)   // the cache lookup failed other than with NotFound
    | FetchFailed(cause: ApiError)   // a store Get failed
    | InvalidTokenValue              // the record's name or key differs from the bearer value's
    | Expired                        // the record matched but has expired
    | KeyGenerationFailed            // no secret key could be generated
    | CreateFailed(cause: ApiError)  // the store refused the new record
    | ListFailed(cause: ApiError)    // the store could not list the caller's tokens
    | DeleteFailed                   // the store could not delete, other than with NotFound
    | NotOwned                       // the requested token belongs to another user

  const StatusUnauthorized := 401
  const StatusNotFound := 404
  const StatusGone := 410
  const StatusServerError := 500

  /** getK8sTokenCR's result: the record (nil in Go when absent), a status
      code (0 when there is none) and an error. */
  datatype Resolution = Resolution(token: Option<Token>, status: int, err: Option<Failure>)

  /** The cross-check and the expiry test applied to the record found. */
  function Checked(t: Token, name: string, key: string, h: Hooks, now: int): (r: Resolution)
    ensures r.token.Some? <==> t.token == key && t.meta.name == name
    ensures r.token.Some? ==> r.token.value == t
    ensures r.token.None? ==> r == Resolution(None, 0, Some(InvalidTokenValue))
    ensures r.token.Some? ==>
      r == if h.isExpired(t, now) then Resolution(Some(t), StatusGone, Some(Expired))
           else Resolution(Some(t), 0, None)
  {
    if t.token != key || t.meta.name != name then Resolution(None, 0, Some(InvalidTokenValue))
    else if h.isExpired(t, now) then Resolution(Some(t), StatusGone, Some(Expired))
    else Resolution(Some(t), 0, None)
  }

  /** getK8sTokenCR: split the bearer value; take the first token the
      index files under the key; on an empty result or a NotFound from the
      index fetch the name from the store instead; trust the record only
      if both its name and its key match. */
  function Resolve(st: StoreState, ix: Index, h: Hooks, now: int, tokenAuthValue: string): (r: Resolution)
    ensures r.token.Some? ==>
      r.token.value.token == KeyPart(h, tokenAuthValue) && r.token.value.meta.name == NamePart(h, tokenAuthValue)
    ensures r.status == 0 || r.status == StatusNotFound || r.status == StatusGone
    ensures r.err.None? <==> r.token.Some? && !h.isExpired(r.token.value, now)
    ensures r.status == StatusGone <==> r.token.Some? && h.isExpired(r.token.value, now)
    ensures r.status == StatusGone ==> r.err == Some(Expired)
    ensures r.err.None? ==> r.status == 0
    ensures r.status == StatusNotFound ==> r.token.None? && r.err.Some? && r.err.value.FetchFailed?
  {
    var name := NamePart(h, tokenAuthValue);
    var key := KeyPart(h, tokenAuthValue);
    var objs := ByIndex(ix, key);
    if objs.Err? && objs.error != NotFound then
      Resolution(None, 0, Some(IndexFailed(objs.error)))
    else if objs.Ok? && |objs.value| > 0 then
      Checked(objs.value[0], name, key, h, now)
    else
      match Get(st, name)
      case Err(e) => Resolution(None, StatusNotFound, Some(FetchFailed(e)))
      case Ok(t) => Checked(t, name, key, h, now)
  }

  /** createK8sTokenCR's changes to the draft before it is stored: the
      generated key, the user-id label, a fresh ObjectMeta that asks the
      store to name the record "token-" plus a suffix. */
  function Prepared(k8sToken: Token, key: string): (d: Token)
    ensures d.token == key
    ensures d.meta.name == "" && d.meta.generateName == GenerateNamePrefix
    ensures d.meta.labels == map[UserIDLabel := k8sToken.userID] && HasOwner(d, k8sToken.userID)
    ensures d.apiVersion == TokenAPIVersion && d.kind == TokenKind
    ensures d.(meta := k8sToken.meta, apiVersion := k8sToken.apiVersion, kind := k8sToken.kind, token := k8sToken.token) == k8sToken
  {
    k8sToken.(
      apiVersion := TokenAPIVersion,
      kind := TokenKind,
      token := key,
      meta := ObjectMeta("", GenerateNamePrefix, map[UserIDLabel := k8sToken.userID], 0))
  }

  /** Result and new store of createK8sTokenCR. `key` is what
      randomtoken.Generate produced (None when it failed), `suffix` the
      name suffix and `now` the clock of the API server. */
  datatype Creation = Creation(next: StoreState, token: Token, err: Option<Failure>)

  function CreationOf(st: StoreState, k8sToken: Token, key: Option<string>, suffix: string, now: int): (c: Creation)
    ensures key.None? ==> c == Creation(st, EmptyToken, Some(KeyGenerationFailed))
    ensures c.err.Some? ==> c.next == st && c.token == EmptyToken
    ensures c.err.None? ==>
      && key.Some?
      && c.token.meta.name !in st.records
      && c.next == st.(records := st.records[c.token.meta.name := c.token])
      && c.token == Prepared(k8sToken, key.value).(meta := c.token.meta)
      && c.token.meta == ObjectMeta(GenerateNamePrefix + suffix, GenerateNamePrefix, map[UserIDLabel := k8sToken.userID], now)
    ensures c.err.None? <==> key.Some? && CreateVerb !in st.failing && GenerateNamePrefix + suffix !in st.records
    ensures WellFormed(st) ==> WellFormed(c.next)
  {
    match key
    case None => Creation(st, EmptyToken, Some(KeyGenerationFailed))
    case Some(k) =>
      var s := AfterCreate(st, Prepared(k8sToken, k), suffix, now);
      match s.result
      case Err(e) => Creation(st, EmptyToken, Some(CreateFailed(e)))
      case Ok(t) => Creation(s.next, t, None)
  }

  /** The draft createDerivedToken builds from the resolved parent and the
      request body. */
  function Derived(parent: Token, jsonInput: Token): (d: Token)
    ensures d.isDerived
    ensures d.userPrincipal == parent.userPrincipal && d.groupPrincipals == parent.groupPrincipals
    ensures d.userID == parent.userID && d.authProvider == parent.authProvider && d.providerInfo == parent.providerInfo
    ensures d.ttlMillis == jsonInput.ttlMillis && d.description == jsonInput.description
    ensures d.meta == EmptyMeta && d.token == "" && !d.expired
  {
    EmptyToken.(
      userPrincipal := parent.userPrincipal,
      groupPrincipals := parent.groupPrincipals,
      isDerived := true,
      ttlMillis := jsonInput.ttlMillis,
      userID := parent.userID,
      authProvider := parent.authProvider,
      providerInfo := parent.providerInfo,
      description := jsonInput.description)
  }

  datatype Derivation = Derivation(next: StoreState, token: Token, status: int, err: Option<Failure>)

  /** Result and new store of createDerivedToken. */
  function DerivationOf(st: StoreState, ix: Index, h: Hooks, now: int, jsonInput: Token, tokenAuthValue: string,
                        key: Option<string>, suffix: string): (d: Derivation)
    ensures var parent := Resolve(st, ix, h, now, tokenAuthValue);
      parent.err.Some? ==> d == Derivation(st, EmptyToken, StatusUnauthorized, parent.err)
    ensures var parent := Resolve(st, ix, h, now, tokenAuthValue);
      parent.err.None? ==> d.status == 0
    ensures var parent := Resolve(st, ix, h, now, tokenAuthValue);
      parent.err.None? ==>
        (d.err.None? <==> key.Some? && CreateVerb !in st.failing && GenerateNamePrefix + suffix !in st.records)
    ensures d.err.Some? ==> d.next == st && d.token == EmptyToken
    ensures d.err.None? ==>
      var parent := Resolve(st, ix, h, now, tokenAuthValue).token.value;
      && d.token.isDerived && d.token.meta.name !in st.records
      && d.next.records == st.records[d.token.meta.name := d.token]
      && d.token.userPrincipal == parent.userPrincipal && d.token.groupPrincipals == parent.groupPrincipals
      && d.token.userID == parent.userID && HasOwner(d.token, parent.userID)
      && d.token.authProvider == parent.authProvider && d.token.providerInfo == parent.providerInfo
      && d.token.ttlMillis == jsonInput.ttlMillis && d.token.description == jsonInput.description
  {
    var parent := Resolve(st, ix, h, now, tokenAuthValue);
    if parent.err.Some? then Derivation(st, EmptyToken, StatusUnauthorized, parent.err)
    else
      var c := CreationOf(st, Derived(parent.token.value, jsonInput), key, suffix, now);
      Derivation(c.next, c.token, 0, c.err)
  }

  datatype Deletion = Deletion(next: StoreState, status: int, err: Option<Failure>)

  /** deleteTokenByName: a record that is already gone counts as deleted. */
  function NameDeletion(st: StoreState, tokenName: string): (d: Deletion)
    ensures d.next.failing == st.failing
    ensures d.status == 0 <==> DeleteVerb !in st.failing
    ensures d.status == 0 ==> d.err.None? && d.next.records == st.records - {tokenName}
    ensures d.status != 0 ==> d == Deletion(st, StatusServerError, Some(DeleteFailed))
  {
    var s := AfterDelete(st, tokenName);
    match s.result
    case Err(e) =>
      if e == NotFound then
        assert st.records - {tokenName} == st.records;
        Deletion(s.next, 0, None)
      else Deletion(s.next, StatusServerError, Some(DeleteFailed))
    case Ok(_) => Deletion(s.next, 0, None)
  }

  /** deleteToken: a bearer value whose record cannot be fetched counts as
      deleted; an expired one is still deleted; any other failure to
      resolve is 401. Only the record named in the bearer value can go. */
  function BearerDeletion(st: StoreState, ix: Index, h: Hooks, now: int, tokenAuthValue: string): (d: Deletion)
    ensures var r := Resolve(st, ix, h, now, tokenAuthValue);
      r.status == StatusNotFound ==> d == Deletion(st, 0, None)
    ensures var r := Resolve(st, ix, h, now, tokenAuthValue);
      r.err.Some? && r.status != StatusNotFound && r.status != StatusGone ==>
        d == Deletion(st, StatusUnauthorized, r.err)
    ensures var r := Resolve(st, ix, h, now, tokenAuthValue);
      r.token.Some? ==> d == NameDeletion(st, NamePart(h, tokenAuthValue))
    ensures d.next == st || d.next.records == st.records - {NamePart(h, tokenAuthValue)}
  {
    var storedToken := Resolve(st, ix, h, now, tokenAuthValue);
    if storedToken.err.Some? && storedToken.status == StatusNotFound then Deletion(st, 0, None)
    else if storedToken.err.Some? && storedToken.status != StatusGone then Deletion(st, StatusUnauthorized, storedToken.err)
    else NameDeletion(st, storedToken.token.value.meta.name)
  }

  /** getTokenByID's result. */
  datatype Reply = Reply(token: Token, status: int, err: Option<Failure>)

  /** getTokenByID: the caller must resolve (401 otherwise); a token that
      cannot be fetched, or that belongs to another user, is 404 and the
      empty token either way. */
  function GetTokenByID(st: StoreState, ix: Index, h: Hooks, now: int, tokenAuthValue: string, tokenID: string): (r: Reply)
    ensures r.status == 0 || r.status == StatusUnauthorized || r.status == StatusNotFound
    ensures var caller := Resolve(st, ix, h, now, tokenAuthValue);
      r.status == StatusUnauthorized <==> caller.err.Some?
    ensures var caller := Resolve(st, ix, h, now, tokenAuthValue);
      caller.err.Some? ==> r == Reply(EmptyToken, StatusUnauthorized, caller.err)
    ensures r.status == StatusNotFound ==> r.token == EmptyToken && r.err.Some?
    ensures var caller := Resolve(st, ix, h, now, tokenAuthValue);
      caller.err.None? && Get(st, tokenID).Ok? && Get(st, tokenID).value.userID != caller.token.value.userID ==>
        r == Reply(EmptyToken, StatusNotFound, Some(NotOwned))
    ensures var caller := Resolve(st, ix, h, now, tokenAuthValue);
      caller.err.None? && Get(st, tokenID).Err? ==>
        r == Reply(EmptyToken, StatusNotFound, Some(FetchFailed(Get(st, tokenID).error)))
    ensures var caller := Resolve(st, ix, h, now, tokenAuthValue);
      caller.err.None? && Get(st, tokenID).Ok? && Get(st, tokenID).value.userID == caller.token.value.userID ==>
        r == Reply(Flag(st.records[tokenID], h, now), 0, None)
    ensures r.status == 0 ==>
      && r.err.None?
      && tokenID in st.records
      && r.token.userID == Resolve(st, ix, h, now, tokenAuthValue).token.value.userID
      && r.token.expired == (st.records[tokenID].expired || h.isExpired(st.records[tokenID], now))
      && r.token.(expired := st.records[tokenID].expired) == st.records[tokenID]
  {
    var storedToken := Resolve(st, ix, h, now, tokenAuthValue);
    if storedToken.err.Some? then Reply(EmptyToken, StatusUnauthorized, storedToken.err)
    else
      match Get(st, tokenID)
      case Err(e) => Reply(EmptyToken, StatusNotFound, Some(FetchFailed(e)))
      case Ok(token) =>
        if token.userID != storedToken.token.value.userID then Reply(EmptyToken, StatusNotFound, Some(NotOwned))
        else Reply(Flag(token, h, now), 0, None)
  }

  /** tokenAPIServer: the store client it writes through, the snapshot of
      the token cache it reads (refreshed by the informer, never by the
      server) and the two external helpers. */
  class TokenAPIServer {
    const tokensClient: TokenStore
    var tokenIndexer: Index
    const hooks: Hooks

    constructor (tokensClient: TokenStore, tokenIndexer: Index, hooks: Hooks)
      ensures this.tokensClient == tokensClient && this.tokenIndexer == tokenIndexer && this.hooks == hooks
    {
      this.tokensClient := tokensClient;
      this.tokenIndexer := tokenIndexer;
      this.hooks := hooks;
    }

    method CreateDerivedToken(jsonInput: Token, tokenAuthValue: string, now: int, key: Option<string>, suffix: string)
      returns (r: Token, status: int, err: Option<Failure>)
      requires tokensClient.Valid()
      modifies tokensClient
      ensures tokensClient.Valid()
      ensures Derivation(tokensClient.State(), r, status, err)
           == DerivationOf(old(tokensClient.State()), tokenIndexer, hooks, now, jsonInput, tokenAuthValue, key, suffix)
    {
      var token := Resolve(tokensClient.State(), tokenIndexer, hooks, now, tokenAuthValue);
      if token.err.Some? {
        return EmptyToken, StatusUnauthorized, token.err;
      }
      var k8sToken := Derived(token.token.value, jsonInput);
      r, err := CreateK8sTokenCR(k8sToken, key, suffix, now);
      status := 0;
    }

    method CreateK8sTokenCR(k8sToken: Token, key: Option<string>, suffix: string, now: int)
      returns (r: Token, err: Option<Failure>)
      requires tokensClient.Valid()
      modifies tokensClient
      ensures tokensClient.Valid()
      ensures Creation(tokensClient.State(), r, err) == CreationOf(old(tokensClient.State()), k8sToken, key, suffix, now)
    {
      if key.None? {
        return EmptyToken, Some(KeyGenerationFailed);
      }
      var labels := map[UserIDLabel := k8sToken.userID];
      var draft := k8sToken;
      draft := draft.(apiVersion := TokenAPIVersion);
      draft := draft.(kind := TokenKind);
      draft := draft.(token := key.value);
      draft := draft.(meta := ObjectMeta("", GenerateNamePrefix, labels, 0));
      var createdToken := tokensClient.Create(draft, suffix, now);
      if createdToken.Err? {
        return EmptyToken, Some(CreateFailed(createdToken.error));
      }
      return createdToken.value, None;
    }

    /** getTokens: every token of the caller's user, expired ones included
        and flagged. `listed` is the store's answer to the List call. */
    method GetTokens(tokenAuthValue: string, now: int)
      returns (tokens: seq<Token>, status: int, err: Option<Failure>, ghost listed: seq<Token>)
      requires tokensClient.Valid()
      ensures var caller := Resolve(tokensClient.State(), tokenIndexer, hooks, now, tokenAuthValue);
        caller.err.Some? ==> tokens == [] && status == StatusUnauthorized && err == caller.err
      ensures var caller := Resolve(tokensClient.State(), tokenIndexer, hooks, now, tokenAuthValue);
        caller.err.None? && ListVerb in tokensClient.failing ==>
          tokens == [] && status == 0 && err == Some(ListFailed(Unavailable))
      ensures var caller := Resolve(tokensClient.State(), tokenIndexer, hooks, now, tokenAuthValue);
        caller.err.None? && ListVerb !in tokensClient.failing ==>
          && status == 0 && err.None?
          && IsListing(listed, tokensClient.records, caller.token.value.userID)
          && |tokens| == |listed|
          && forall i :: 0 <= i < |tokens| ==>
               tokens[i].expired == (listed[i].expired || hooks.isExpired(listed[i], now)) &&
               tokens[i].(expired := listed[i].expired) == listed[i]
    {
      tokens := [];
      listed := [];
      var storedToken := Resolve(tokensClient.State(), tokenIndexer, hooks, now, tokenAuthValue);
      if storedToken.err.Some? {
        return tokens, StatusUnauthorized, storedToken.err, listed;
      }
      var userID := storedToken.token.value.userID;
      var tokenList := tokensClient.List(userID);
      if tokenList.Err? {
        return tokens, 0, Some(ListFailed(tokenList.error)), listed;
      }
      var items := tokenList.value;
      listed := items;
      var i := 0;
      while i < |items|
        invariant 0 <= i <= |items|
        invariant tokens == FlagAll(items[..i], hooks, now)
      {
        var t := items[i];
        if hooks.isExpired(t, now) {
          t := t.(expired := true);
        }
        assert items[..i + 1][..i] == items[..i];
        tokens := tokens + [t];
        i := i + 1;
      }
      assert items[..i] == items;
      return tokens, 0, None, listed;
    }

    method DeleteToken(tokenAuthValue: string, now: int) returns (status: int, err: Option<Failure>)
      requires tokensClient.Valid()
      modifies tokensClient
      ensures tokensClient.Valid()
      ensures Deletion(tokensClient.State(), status, err)
           == BearerDeletion(old(tokensClient.State()), tokenIndexer, hooks, now, tokenAuthValue)
    {
      var storedToken := Resolve(tokensClient.State(), tokenIndexer, hooks, now, tokenAuthValue);
      if storedToken.err.Some? {
        if storedToken.status == StatusNotFound {
          return 0, None;
        } else if storedToken.status != StatusGone {
          return StatusUnauthorized, storedToken.err;
        }
      }
      status, err := DeleteTokenByName(storedToken.token.value.meta.name);
    }

    method DeleteTokenByName(tokenName: string) returns (status: int, err: Option<Failure>)
      requires tokensClient.Valid()
      modifies tokensClient
      ensures tokensClient.Valid()
      ensures Deletion(tokensClient.State(), status, err) == NameDeletion(old(tokensClient.State()), tokenName)
    {
      var deleted := tokensClient.Delete(tokenName);
      if deleted.Err? {
        if deleted.error == NotFound {
          return 0, None;
        }
        return StatusServerError, Some(DeleteFailed);
      }
      return 0, None;
    }
  }
}
