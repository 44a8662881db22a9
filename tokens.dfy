/** Token records and the collaborators the token server only calls: the
    bearer-value splitter and the expiry test (pkg/auth/tokens/server.go). */
module Tokens {

  /** Label carrying the owning user's id; listing by user selects on it. */
  const UserIDLabel := "authn.management.cattle.io/token-userId"
  /** Prefix from which the API server derives the name of a new token. */
  const GenerateNamePrefix := "token-"
  const TokenAPIVersion := "management.cattle.io/v3"
  const TokenKind := "Token"

  datatype Option<+T> = None | Some(value: T)

  /** Failures reported by the API server and by the informer cache.
      Only NotFound is told apart by the token server; the others are
      "some other error". */
  datatype ApiError = NotFound | AlreadyExists | Invalid | Unavailable

  datatype Result<+T> = Ok(value: T) | Err(error: ApiError)

  /** A principal is copied, never inspected: its name and an opaque bag of
      its other attributes stand for the whole record. */
  datatype Principal = Principal(name: string, attributes: map<string, string>)

  const NoPrincipal := Principal("", map[])

  /** The part of Kubernetes object metadata the token server touches. */
  datatype ObjectMeta = ObjectMeta(
    name: string,
    generateName: string,
    labels: map<string, string>,
    creationTimestamp: int)

  const EmptyMeta := ObjectMeta("", "", map[], 0)

  /** The Token custom resource. `token` is the secret key; `expired` is
      only ever set on copies handed back to callers. */
  datatype Token = Token(
    meta: ObjectMeta,
    apiVersion: string,
    kind: string,
    token: string,
    userPrincipal: Principal,
    groupPrincipals: seq<Principal>,
    isDerived: bool,
    ttlMillis: int,
    userID: string,
    authProvider: string,
    providerInfo: map<string, string>,
    description: string,
    expired: bool)

  /** The zero value `v3.Token{}` returned on every failure path. */
  const EmptyToken := Token(EmptyMeta, "", "", "", NoPrincipal, [], false, 0, "", "", map[], "", false)

  /** SplitTokenParts and IsExpired live outside the modelled file; the
      server is parameterised by them. `isExpired(t, now)` reads the clock
      through `now`. */
  datatype Hooks = Hooks(
    splitTokenParts: string -> (string, string),
    isExpired: (Token, int) -> bool)

  function NamePart(h: Hooks, tokenAuthValue: string): string {
    h.splitTokenParts(tokenAuthValue).0
  }

  function KeyPart(h: Hooks, tokenAuthValue: string): string {
    h.splitTokenParts(tokenAuthValue).1
  }

  /** The record carries the user-id label with value `userID`. */
  predicate HasOwner(t: Token, userID: string) {
    UserIDLabel in t.meta.labels && t.meta.labels[UserIDLabel] == userID
  }

  /** The copy handed to a caller: `Expired` is raised when the expiry
      test holds, and nothing else changes (server.go:187-189, 241-243). */
  function Flag(t: Token, h: Hooks, now: int): (r: Token)
    ensures r.expired == (t.expired || h.isExpired(t, now))
    ensures r.(expired := t.expired) == t
  {
    if h.isExpired(t, now) then t.(expired := true) else t
  }

  /** Every item flagged, in the same order, none dropped. */
  function FlagAll(items: seq<Token>, h: Hooks, now: int): (r: seq<Token>)
    ensures |r| == |items|
    ensures forall i :: 0 <= i < |r| ==>
      r[i].expired == (items[i].expired || h.isExpired(items[i], now)) &&
      r[i].(expired := items[i].expired) == items[i]
  {
    if items == [] then [] else FlagAll(items[..|items| - 1], h, now) + [Flag(items[|items| - 1], h, now)]
  }
}
