/**
 * The parameter objects of tradier_params.py (the copy under src/ is the
 * same file): each object's attributes, in assignment order, and
 * `to_query_params`, which keeps the attributes whose value is not None.
 */
module Params {

  import opened Values

  /**
   * The parameter classes. SymbolsParams and ExcludedAccountParams are named
   * by the streamers but their definitions are not part of this model, so
   * their attributes are left free.
   */
  datatype ParamsKind =
    | SymbolsParams
    | ExcludedAccountParams
    | AccountParams
    | OrderParams
    | WatchlistParams

  /** A parameter object: its class and its `__dict__`, in assignment order. */
  datatype Params = Params(kind: ParamsKind, attributes: Dict)

  /** `{k: v for k, v in self.__dict__.items() if v is not None}` */
  function ToQueryParams(p: Params): Dict
  {
    WithoutNone(p.attributes)
  }

  function WithoutNone(d: Dict): (r: Dict)
    ensures |r| <= |d|
    ensures forall i :: 0 <= i < |r| ==> r[i].1 != Null
  {
    if d == [] then []
    else if d[0].1 == Null then WithoutNone(d[1..])
    else [d[0]] + WithoutNone(d[1..])
  }

  /** Filtering a concatenation filters each part, so the order is kept. */
  lemma {:induction false} WithoutNoneAppend(a: Dict, b: Dict)
    ensures WithoutNone(a + b) == WithoutNone(a) + WithoutNone(b)
  {
    if a != [] {
      assert (a + b)[0] == a[0] && (a + b)[1..] == a[1..] + b;
      WithoutNoneAppend(a[1..], b);
    } else {
      assert a + b == b;
    }
  }

  /**
   * An entry is in the query map exactly when it is an attribute whose value
   * is not None: only None is dropped and no value is changed.
   */
  lemma {:induction false} QueryParamsKeepExactlyNonNone(p: Params, k: string, v: Value)
    ensures (k, v) in ToQueryParams(p) <==> (k, v) in p.attributes && v != Null
  {
    WithoutNoneMembers(p.attributes, k, v);
  }

  lemma {:induction false} WithoutNoneMembers(d: Dict, k: string, v: Value)
    ensures (k, v) in WithoutNone(d) <==> (k, v) in d && v != Null
  {
    if d != [] {
      WithoutNoneMembers(d[1..], k, v);
      assert d == [d[0]] + d[1..];
    }
  }

  /** The query map lists the surviving attributes in their assignment order. */
  lemma {:induction false} QueryParamsKeepOrder(p: Params, i: nat, j: nat)
    requires i < j < |p.attributes|
    requires p.attributes[i].1 != Null && p.attributes[j].1 != Null
    ensures exists i', j' :: (0 <= i' < j' < |ToQueryParams(p)| &&
                              ToQueryParams(p)[i'] == p.attributes[i] && ToQueryParams(p)[j'] == p.attributes[j])
  {
    var d := p.attributes;
    assert d == d[..i] + [d[i]] + (d[i + 1..j] + [d[j]] + d[j + 1..]);
    WithoutNoneAppend(d[..i] + [d[i]], d[i + 1..j] + [d[j]] + d[j + 1..]);
    WithoutNoneAppend(d[..i], [d[i]]);
    WithoutNoneAppend(d[i + 1..j] + [d[j]], d[j + 1..]);
    WithoutNoneAppend(d[i + 1..j], [d[j]]);
    var pre, mid := WithoutNone(d[..i]), WithoutNone(d[i + 1..j]);
    assert WithoutNone([d[i]]) == [d[i]] && WithoutNone([d[j]]) == [d[j]];
    var q := ToQueryParams(p);
    assert q[|pre|] == d[i];
    assert q[|pre| + 1 + |mid|] == d[j];
  }

  /** Falsy values other than None, such as "" or False, stay in the query map. */
  lemma FalsyValuesAreKept(p: Params, k: string, v: Value)
    requires (k, v) in p.attributes && v != Null && !Truthy(v)
    ensures (k, v) in ToQueryParams(p)
  {
    QueryParamsKeepExactlyNonNone(p, k, v);
  }

  // -------------------------------------------------------- constructors

  /** `AccountParams(account_id)`: the query map holds the account id, whatever it is. */
  function MakeAccountParams(accountId: string): (p: Params)
    ensures p.kind == AccountParams
    ensures ToQueryParams(p) == [("account_id", Str(accountId))]
  {
    Params(AccountParams, [("account_id", Str(accountId))])
  }

  /** `OrderParams(account_id, order_id)`: the account, then the order. */
  function MakeOrderParams(accountId: string, orderId: string): (p: Params)
    ensures p.kind == OrderParams
    ensures ToQueryParams(p) == [("account_id", Str(accountId)), ("order_id", Str(orderId))]
  {
    var attributes := [("account_id", Str(accountId)), ("order_id", Str(orderId))];
    assert attributes[1..] == [attributes[1]] && attributes[1..][1..] == [];
    assert WithoutNone(attributes[1..]) == [attributes[1]];
    Params(OrderParams, attributes)
  }

  /**
   * `WatchlistParams(watchlist_id, symbol=None)`: the query map carries
   * `symbol` exactly when one was given. No id is refused, not even "".
   */
  function MakeWatchlistParams(watchlistId: string, symbol: Option<string>): (p: Params)
    ensures p.kind == WatchlistParams
    ensures symbol.None? ==> ToQueryParams(p) == [("watchlist_id", Str(watchlistId))]
    ensures symbol.Some? ==>
      ToQueryParams(p) == [("watchlist_id", Str(watchlistId)), ("symbol", Str(symbol.value))]
  {
    var attributes := [("watchlist_id", Str(watchlistId)),
                       ("symbol", if symbol.Some? then Str(symbol.value) else Null)];
    assert attributes[1..] == [attributes[1]] && attributes[1..][1..] == [];
    assert WithoutNone(attributes[1..]) == if symbol.Some? then [attributes[1]] else [];
    Params(WatchlistParams, attributes)
  }
}
