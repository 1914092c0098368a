/** The list options of relateiq/relateiq.go and relateiq/accounts.go, and the
    query parameters their `url` struct tags map them to. Parameters are kept as
    a key-to-value map; every key here carries a single value. */
module Query {
  import opened Wrappers
  import opened Text

  type Values = map<string, string>

  /** `ListOptions`: `Start` tagged `_start,omitempty`, `Limit` tagged `_limit,omitempty`. */
  datatype ListOptions = ListOptions(Start: int, Limit: int)

  /** `AccountsListOptions`: `IDs` tagged `_ids,omitempty,comma`, with `ListOptions` embedded. */
  datatype AccountsListOptions = AccountsListOptions(IDs: seq<string>, ListOptions: ListOptions)

  /** The parameters of a `ListOptions`: a zero field is omitted, any other is written in decimal. */
  function ListOptionsValues(o: ListOptions): (v: Values)
    ensures v.Keys <= {"_start", "_limit"}
    ensures "_start" in v <==> o.Start != 0
    ensures "_limit" in v <==> o.Limit != 0
    ensures "_start" in v ==> ParseInteger(v["_start"]) == Some(o.Start)
    ensures "_limit" in v ==> ParseInteger(v["_limit"]) == Some(o.Limit)
  {
    DecimalRoundTrip(o.Start);
    DecimalRoundTrip(o.Limit);
    var start := if o.Start != 0 then map["_start" := Decimal(o.Start)] else map[];
    var limit := if o.Limit != 0 then map["_limit" := Decimal(o.Limit)] else map[];
    start + limit
  }

  /** The parameters of an `AccountsListOptions`: `_ids` only for a non-empty list, as one
      comma-joined value, and the embedded options' parameters flattened beside it. */
  function AccountsListOptionsValues(o: AccountsListOptions): (v: Values)
    ensures "_ids" in v <==> |o.IDs| > 0
    ensures "_ids" in v ==> v["_ids"] == JoinComma(o.IDs)
    ensures "_ids" in v && (forall i :: 0 <= i < |o.IDs| ==> ',' !in o.IDs[i]) ==>
      SplitComma(v["_ids"]) == o.IDs
    ensures v - {"_ids"} == ListOptionsValues(o.ListOptions)
  {
    var rest := ListOptionsValues(o.ListOptions);
    if |o.IDs| == 0 then rest
    else
      var v := rest["_ids" := JoinComma(o.IDs)];
      assert v - {"_ids"} == rest;
      if forall i :: 0 <= i < |o.IDs| ==> ',' !in o.IDs[i] then
        SplitJoin(o.IDs);
        v
      else
        v
  }

  /** What a server reads back from list parameters: an absent parameter means zero. */
  function ReadListOptions(v: Values): ListOptions
  {
    ListOptions(
      if "_start" in v then ParseInteger(v["_start"]).GetOr(0) else 0,
      if "_limit" in v then ParseInteger(v["_limit"]).GetOr(0) else 0)
  }

  /** What a server reads back from account-list parameters: `_ids` split at commas. */
  function ReadAccountsListOptions(v: Values): AccountsListOptions
  {
    AccountsListOptions(
      if "_ids" in v then SplitComma(v["_ids"]) else [],
      ReadListOptions(v))
  }

  /** Nothing is lost in the parameters of a `ListOptions`. */
  lemma ListOptionsRoundTrip(o: ListOptions)
    ensures ReadListOptions(ListOptionsValues(o)) == o
  {
  }

  /** Nothing is lost in the parameters of an `AccountsListOptions` whose IDs hold no comma. */
  lemma AccountsListOptionsRoundTrip(o: AccountsListOptions)
    requires forall i :: 0 <= i < |o.IDs| ==> ',' !in o.IDs[i]
    ensures ReadAccountsListOptions(AccountsListOptionsValues(o)) == o
  {
    var v := AccountsListOptionsValues(o);
    assert ReadListOptions(v) == ReadListOptions(v - {"_ids"});
    ListOptionsRoundTrip(o.ListOptions);
  }

  /** IDs [a, b] with Start 1 and Limit 1 give exactly `_ids=a,b`, `_start=1`, `_limit=1`. */
  lemma AccountsListOptionsVector()
    ensures AccountsListOptionsValues(AccountsListOptions(["a", "b"], ListOptions(1, 1)))
      == map["_ids" := "a,b", "_start" := "1", "_limit" := "1"]
  {
    assert Decimal(1) == "1";
    assert JoinComma(["a", "b"]) == "a,b" by {
      assert JoinComma(["b"]) == "b";
    }
    var v := AccountsListOptionsValues(AccountsListOptions(["a", "b"], ListOptions(1, 1)));
    assert ListOptionsValues(ListOptions(1, 1)) == map["_start" := "1", "_limit" := "1"];
    assert v == map["_ids" := "a,b"] + map["_start" := "1", "_limit" := "1"];
  }

  /** Without the comma-free condition the parameters lose information: the single ID "a,b" and
      the two IDs "a" and "b" give the same parameters, which read back as the two IDs. */
  lemma CommaIDsCollide(l: ListOptions)
    ensures AccountsListOptionsValues(AccountsListOptions(["a,b"], l))
      == AccountsListOptionsValues(AccountsListOptions(["a", "b"], l))
    ensures ReadAccountsListOptions(AccountsListOptionsValues(AccountsListOptions(["a,b"], l))).IDs == ["a", "b"]
  {
    assert JoinComma(["a", "b"]) == "a,b" by {
      assert JoinComma(["b"]) == "b";
    }
    assert ',' !in "a" && ',' !in "b";
    assert SplitComma("a,b") == ["a", "b"] by {
      SplitJoin(["a", "b"]);
    }
  }

  /** Options with no IDs and zero Start and Limit give no parameters at all. */
  lemma EmptyOptionsVector()
    ensures AccountsListOptionsValues(AccountsListOptions([], ListOptions(0, 0))) == map[]
  {
  }
}
