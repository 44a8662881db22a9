/** What resolution promises about the two tiers, whatever the state of
    the cache, and what repeated deletion does. */
module TokenServerProperties {
  import opened Tokens
  import opened TokenStore
  import opened TokenIndex
  import opened TokenServer

  /** On an index hit the first entry alone decides: the store is not
      consulted, so any two stores give the same resolution, and the entry
      is returned only if it carries the bearer's name and key. */
  lemma IndexHitDecidesAlone(st: StoreState, other: StoreState, ix: Index, h: Hooks, now: int, tokenAuthValue: string)
    requires ByIndex(ix, KeyPart(h, tokenAuthValue)).Ok? && ByIndex(ix, KeyPart(h, tokenAuthValue)).value != []
    ensures var first := ByIndex(ix, KeyPart(h, tokenAuthValue)).value[0];
      var r := Resolve(st, ix, h, now, tokenAuthValue);
      && r == Resolve(other, ix, h, now, tokenAuthValue)
      && r.status != StatusNotFound
      && (r.token.Some? <==> first.token == KeyPart(h, tokenAuthValue) && first.meta.name == NamePart(h, tokenAuthValue))
      && (r.token.Some? ==> r.token.value == first)
  {
  }

  /** A stale index entry that fails the cross-check is rejected with
      status 0, even when the store holds the very record the bearer
      names: there is no retry against the store. */
  lemma StaleHitRejected(st: StoreState, ix: Index, h: Hooks, now: int, tokenAuthValue: string)
    requires ByIndex(ix, KeyPart(h, tokenAuthValue)).Ok? && ByIndex(ix, KeyPart(h, tokenAuthValue)).value != []
    requires var first := ByIndex(ix, KeyPart(h, tokenAuthValue)).value[0];
      first.token != KeyPart(h, tokenAuthValue) || first.meta.name != NamePart(h, tokenAuthValue)
    ensures Resolve(st, ix, h, now, tokenAuthValue) == Resolution(None, 0, Some(InvalidTokenValue))
  {
  }

  /** An index error other than NotFound fails the request with status 0,
      without falling back to the store. */
  lemma IndexErrorHasNoFallback(st: StoreState, ix: Index, h: Hooks, now: int, tokenAuthValue: string)
    requires ix.failure.Some? && ix.failure.value != NotFound
    ensures Resolve(st, ix, h, now, tokenAuthValue) == Resolution(None, 0, Some(IndexFailed(ix.failure.value)))
  {
  }

  /** An empty index result or an index NotFound falls back to the store:
      a failed Get is 404, a fetched record is cross-checked like an
      index hit. */
  lemma IndexMissFallsBack(st: StoreState, ix: Index, h: Hooks, now: int, tokenAuthValue: string)
    requires ByIndex(ix, KeyPart(h, tokenAuthValue)) in {Ok([]), Err(NotFound)}
    ensures var name := NamePart(h, tokenAuthValue);
      var r := Resolve(st, ix, h, now, tokenAuthValue);
      && (Get(st, name).Err? ==> r == Resolution(None, StatusNotFound, Some(FetchFailed(Get(st, name).error))))
      && (Get(st, name).Ok? ==>
            && (r.token.Some? <==> st.records[name].token == KeyPart(h, tokenAuthValue) && st.records[name].meta.name == name)
            && (r.token.Some? ==> r.token.value == st.records[name]))
  {
  }

  /** Whether or not the index is up to date, a resolved record names the
      bearer's record; when it is up to date, the record is the store's
      current one under that name. */
  lemma FreshIndexIsAuthoritative(st: StoreState, ix: Index, h: Hooks, now: int, tokenAuthValue: string)
    requires WellFormed(st) && Reflects(ix, st.records)
    ensures var r := Resolve(st, ix, h, now, tokenAuthValue);
      r.token.Some? ==> NamePart(h, tokenAuthValue) in st.records && st.records[NamePart(h, tokenAuthValue)] == r.token.value
  {
    var key := KeyPart(h, tokenAuthValue);
    ReflectedLookup(ix, st.records, key);
    var objs := ByIndex(ix, key).value;
    if objs != [] {
      assert objs[0] in objs;
    }
  }

  /** No two stored records share a secret key. */
  ghost predicate UniqueKeys(records: map<string, Token>) {
    forall a, b :: a in records && b in records && records[a].token == records[b].token ==> a == b
  }

  /** With an up-to-date index and unique keys, a bearer value naming a
      stored record and carrying its key resolves to that record, even
      while store Get calls fail: the index alone answers. */
  lemma FreshIndexAcceptsStoredToken(st: StoreState, ix: Index, h: Hooks, now: int, tokenAuthValue: string)
    requires WellFormed(st) && Reflects(ix, st.records) && UniqueKeys(st.records)
    requires NamePart(h, tokenAuthValue) in st.records
    requires st.records[NamePart(h, tokenAuthValue)].token == KeyPart(h, tokenAuthValue)
    ensures Resolve(st, ix, h, now, tokenAuthValue).token == Some(st.records[NamePart(h, tokenAuthValue)])
  {
    var name, key := NamePart(h, tokenAuthValue), KeyPart(h, tokenAuthValue);
    ReflectedLookup(ix, st.records, key);
    var objs := ByIndex(ix, key).value;
    assert st.records[name] in objs;
    assert objs[0] in objs;
    assert objs[0].meta.name == name;
  }

  /** Without unique keys an up-to-date index can reject a valid bearer
      value: two records share key "k", the index lists the other one
      first, and the cross-check refuses it. */
  lemma SharedKeyRejectsStoredToken()
    ensures var a := EmptyToken.(meta := EmptyMeta.(name := "token-a"), token := "k");
      var b := EmptyToken.(meta := EmptyMeta.(name := "token-b"), token := "k");
      var st := StoreState(map["token-a" := a, "token-b" := b], {});
      var ix := Index(map["k" := [b, a]], None);
      var h := Hooks(v => ("token-a", "k"), (t, now) => false);
      && WellFormed(st) && Reflects(ix, st.records)
      && Resolve(st, ix, h, 0, "token-a:k") == Resolution(None, 0, Some(InvalidTokenValue))
  {
    var a := EmptyToken.(meta := EmptyMeta.(name := "token-a"), token := "k");
    var b := EmptyToken.(meta := EmptyMeta.(name := "token-b"), token := "k");
    var st := StoreState(map["token-a" := a, "token-b" := b], {});
    var ix := Index(map["k" := [b, a]], None);
    assert a != b by { assert a.meta.name != b.meta.name; }
    forall n, key | n in st.records && key in TokenKeyIndexer(TokenObject(st.records[n]))
      ensures key in ix.byKey && st.records[n] in ix.byKey[key]
    {
      assert key == "k";
    }
  }

  /** Deleting by name twice is deleting once. */
  lemma NameDeletionIdempotent(st: StoreState, tokenName: string)
    ensures var once := NameDeletion(st, tokenName);
      NameDeletion(once.next, tokenName) == once
  {
    var once := NameDeletion(st, tokenName);
    if once.status == 0 {
      assert once.next.records - {tokenName} == once.next.records;
    }
  }

  /** Deleting a bearer value whose record is already gone succeeds and
      changes nothing, whether the index has forgotten the record or still
      holds a copy of it, provided the store accepts deletes. */
  lemma DeletingAgainIsNoOp(st: StoreState, ix: Index, h: Hooks, now: int, tokenAuthValue: string)
    requires NamePart(h, tokenAuthValue) !in st.records && DeleteVerb !in st.failing
    requires ix.failure.None? || ix.failure == Some(NotFound)
    requires var objs := ByIndex(ix, KeyPart(h, tokenAuthValue));
      objs.Ok? && objs.value != [] ==>
        objs.value[0].token == KeyPart(h, tokenAuthValue) && objs.value[0].meta.name == NamePart(h, tokenAuthValue)
    ensures BearerDeletion(st, ix, h, now, tokenAuthValue) == Deletion(st, 0, None)
  {
    var name := NamePart(h, tokenAuthValue);
    assert st.records - {name} == st.records;
  }

  /** An expired bearer value is still deleted, and deleting by bearer never
      touches any record but the one it names. */
  lemma ExpiredBearerIsDeleted(st: StoreState, ix: Index, h: Hooks, now: int, tokenAuthValue: string)
    requires Resolve(st, ix, h, now, tokenAuthValue).status == StatusGone
    requires DeleteVerb !in st.failing
    ensures var d := BearerDeletion(st, ix, h, now, tokenAuthValue);
      d.status == 0 && d.err.None? && NamePart(h, tokenAuthValue) !in d.next.records
      && d.next.records == st.records - {NamePart(h, tokenAuthValue)}
  {
  }

  /** An expired parent never yields a derived token: 401 and no record. */
  lemma ExpiredParentDerivesNothing(st: StoreState, ix: Index, h: Hooks, now: int, jsonInput: Token, tokenAuthValue: string,
                                    key: Option<string>, suffix: string)
    requires Resolve(st, ix, h, now, tokenAuthValue).status == StatusGone
    ensures var d := DerivationOf(st, ix, h, now, jsonInput, tokenAuthValue, key, suffix);
      d.status == StatusUnauthorized && d.err == Some(Expired) && d.next == st
  {
  }
}
