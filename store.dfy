/** The authoritative token store: the Kubernetes API server behind
    `tokensClient`. Its calls are modelled as transitions of a snapshot,
    and a class holds the live state the token server mutates. */
module TokenStore {
  import opened Tokens

  /** The store calls the token server makes. */
  datatype Verb = GetVerb | CreateVerb | ListVerb | DeleteVerb

  /** Records by name, and the calls that currently fail (an unreachable
      or refusing API server); a failing call reports Unavailable. */
  datatype StoreState = StoreState(records: map<string, Token>, failing: set<Verb>)

  /** Every record is filed under its own name. */
  ghost predicate WellFormed(st: StoreState) {
    forall n :: n in st.records ==> st.records[n].meta.name == n
  }

  /** Get by name: the record, NotFound, or the call's failure. */
  function Get(st: StoreState, name: string): (r: Result<Token>)
    ensures r.Ok? <==> GetVerb !in st.failing && name in st.records
    ensures r.Ok? ==> r.value == st.records[name]
    ensures r.Err? ==> r.error == (if GetVerb in st.failing then Unavailable else NotFound)
  {
    if GetVerb in st.failing then Err(Unavailable)
    else if name !in st.records then Err(NotFound)
    else Ok(st.records[name])
  }

  datatype Step<+T> = Step(next: StoreState, result: Result<T>)

  /** Create: the object is named `name`, or `generateName` followed by the
      suffix the API server picks; an existing name is never overwritten;
      the server stamps the creation time. */
  function AfterCreate(st: StoreState, draft: Token, suffix: string, now: int): (s: Step<Token>)
    ensures s.result.Err? ==> s.next == st
    ensures s.result.Ok? ==>
      var t := s.result.value;
      && CreateVerb !in st.failing
      && t.meta.name !in st.records
      && t.meta.name != ""
      && s.next == st.(records := st.records[t.meta.name := t])
      && t == draft.(meta := draft.meta.(name := t.meta.name, creationTimestamp := now))
    ensures s.result.Ok? ==>
      s.result.value.meta.name == (if draft.meta.name != "" then draft.meta.name else draft.meta.generateName + suffix)
    ensures (CreateVerb !in st.failing && draft.meta.name == "" && draft.meta.generateName != ""
             && draft.meta.generateName + suffix !in st.records) ==> s.result.Ok?
    ensures WellFormed(st) ==> WellFormed(s.next)
  {
    var name := if draft.meta.name != "" then draft.meta.name else draft.meta.generateName + suffix;
    if CreateVerb in st.failing then Step(st, Err(Unavailable))
    else if name == "" then Step(st, Err(Invalid))
    else if name in st.records then Step(st, Err(AlreadyExists))
    else
      var t := draft.(meta := draft.meta.(name := name, creationTimestamp := now));
      Step(st.(records := st.records[name := t]), Ok(t))
  }

  /** Delete by name: the record goes, or NotFound, or the call's failure. */
  function AfterDelete(st: StoreState, name: string): (s: Step<()>)
    ensures s.result.Ok? <==> DeleteVerb !in st.failing && name in st.records
    ensures s.result.Err? ==> s.next == st
    ensures s.result.Err? ==> (s.result.error == NotFound <==> DeleteVerb !in st.failing)
    ensures s.next.failing == st.failing
    ensures s.result.Ok? ==> s.next.records.Keys == st.records.Keys - {name}
    ensures forall n :: n in s.next.records ==> n in st.records && s.next.records[n] == st.records[n]
    ensures WellFormed(st) ==> WellFormed(s.next)
  {
    if DeleteVerb in st.failing then Step(st, Err(Unavailable))
    else if name !in st.records then Step(st, Err(NotFound))
    else Step(st.(records := st.records - {name}), Ok(()))
  }

  /** `items` lists, without repetition and in some order of the store's
      choosing, exactly the records labelled with `userID`. */
  predicate IsListing(items: seq<Token>, records: map<string, Token>, userID: string) {
    && (forall i :: 0 <= i < |items| ==>
          items[i].meta.name in records && records[items[i].meta.name] == items[i] && HasOwner(items[i], userID))
    && (forall n :: n in records && HasOwner(records[n], userID) ==>
          exists i :: 0 <= i < |items| && items[i].meta.name == n)
    && (forall i, j :: 0 <= i < j < |items| ==> items[i].meta.name != items[j].meta.name)
  }

  ghost function Pick(keys: set<string>): (k: string)
    requires keys != {}
    ensures k in keys
  {
    var k :| k in keys; k
  }

  /** The records filed under `keys` that carry `userID`, one per name. */
  ghost function Selection(records: map<string, Token>, keys: set<string>, userID: string): seq<Token>
    requires keys <= records.Keys
    decreases keys
  {
    if keys == {} then []
    else
      var k := Pick(keys);
      var rest := Selection(records, keys - {k}, userID);
      if HasOwner(records[k], userID) then rest + [records[k]] else rest
  }

  lemma {:induction false} SelectionLists(records: map<string, Token>, keys: set<string>, userID: string)
    requires keys <= records.Keys
    requires forall n :: n in records ==> records[n].meta.name == n
    ensures var s := Selection(records, keys, userID);
      && (forall i :: 0 <= i < |s| ==>
            s[i].meta.name in keys && records[s[i].meta.name] == s[i] && HasOwner(s[i], userID))
      && (forall n :: n in keys && HasOwner(records[n], userID) ==>
            exists i :: 0 <= i < |s| && s[i].meta.name == n)
      && (forall i, j :: 0 <= i < j < |s| ==> s[i].meta.name != s[j].meta.name)
    decreases keys
  {
    if keys != {} {
      var k := Pick(keys);
      SelectionLists(records, keys - {k}, userID);
      var rest := Selection(records, keys - {k}, userID);
      var s := Selection(records, keys, userID);
      forall n | n in keys && HasOwner(records[n], userID)
        ensures exists i :: 0 <= i < |s| && s[i].meta.name == n
      {
        if n == k {
          assert s[|s| - 1].meta.name == n;
        } else {
          var i :| 0 <= i < |rest| && rest[i].meta.name == n;
          assert s[i] == rest[i];
        }
      }
    }
  }

  /** Every well-formed store has a listing for every user. */
  lemma ListingExists(st: StoreState, userID: string)
    requires WellFormed(st)
    ensures exists items :: IsListing(items, st.records, userID)
  {
    SelectionLists(st.records, st.records.Keys, userID);
    assert IsListing(Selection(st.records, st.records.Keys, userID), st.records, userID);
  }

  /** The live store. */
  class TokenStore {
    var records: map<string, Token>
    var failing: set<Verb>

    ghost predicate Valid()
      reads this
    {
      WellFormed(State())
    }

    function State(): StoreState
      reads this
    {
      StoreState(records, failing)
    }

    constructor (records: map<string, Token>, failing: set<Verb>)
      requires WellFormed(StoreState(records, failing))
      ensures Valid() && State() == StoreState(records, failing)
    {
      this.records := records;
      this.failing := failing;
    }

    method Create(draft: Token, suffix: string, now: int) returns (r: Result<Token>)
      requires Valid()
      modifies this
      ensures Valid()
      ensures Step(State(), r) == AfterCreate(old(State()), draft, suffix, now)
    {
      var s := AfterCreate(State(), draft, suffix, now);
      records := s.next.records;
      r := s.result;
    }

    /** List with a label selector on UserIDLabel. */
    method List(userID: string) returns (r: Result<seq<Token>>)
      requires Valid()
      ensures r.Err? <==> ListVerb in failing
      ensures r.Err? ==> r.error == Unavailable
      ensures r.Ok? ==> IsListing(r.value, records, userID)
    {
      if ListVerb in failing {
        return Err(Unavailable);
      }
      ListingExists(State(), userID);
      var items :| IsListing(items, records, userID);
      r := Ok(items);
    }

    method Delete(name: string) returns (r: Result<()>)
      requires Valid()
      modifies this
      ensures Valid()
      ensures Step(State(), r) == AfterDelete(old(State()), name)
    {
      var s := AfterDelete(State(), name);
      records := s.next.records;
      r := s.result;
    }
  }
}
