/**
  The request paths of the status endpoints. `PathOf` builds the path template
  with the id interpolated; `Route` reads a path back into the endpoint it
  names, so that a request descriptor's path can be checked against the
  endpoint an operation is meant to hit.
 */
module StatusPaths {
  import opened Optional
  import opened Decimal

  /** The trailing segment of the per-status endpoints. */
  datatype Action = Reblog | Unreblog | Favourite | Unfavourite | RebloggedBy | FavouritedBy

  datatype Endpoint =
    | StatusCollection                         // /api/v1/statuses
    | StatusById(id: nat)                      // /api/v1/statuses/{id}
    | StatusAction(id: nat, action: Action)    // /api/v1/statuses/{id}/{action}
    | AccountStatuses(accountId: nat)          // /api/v1/accounts/{account_id}/statuses

  const StatusesRoot: string := "/api/v1/statuses"
  const StatusesPrefix: string := "/api/v1/statuses/"
  const AccountsPrefix: string := "/api/v1/accounts/"

  function ActionName(a: Action): string
  {
    match a
    case Reblog => "reblog"
    case Unreblog => "unreblog"
    case Favourite => "favourite"
    case Unfavourite => "unfavourite"
    case RebloggedBy => "reblogged_by"
    case FavouritedBy => "favourited_by"
  }

  function ActionFromName(s: string): (r: Option<Action>)
    ensures r.Some? ==> ActionName(r.value) == s
  {
    if s == "reblog" then Some(Reblog)
    else if s == "unreblog" then Some(Unreblog)
    else if s == "favourite" then Some(Favourite)
    else if s == "unfavourite" then Some(Unfavourite)
    else if s == "reblogged_by" then Some(RebloggedBy)
    else if s == "favourited_by" then Some(FavouritedBy)
    else None
  }

  /** The path template of an endpoint with its id written in decimal. */
  function PathOf(e: Endpoint): string
  {
    match e
    case StatusCollection => StatusesRoot
    case StatusById(id) => StatusesPrefix + NatToString(id)
    case StatusAction(id, a) => StatusesPrefix + NatToString(id) + "/" + ActionName(a)
    case AccountStatuses(id) => AccountsPrefix + NatToString(id) + "/statuses"
  }

  predicate NoSlash(s: string)
  {
    forall i :: 0 <= i < |s| ==> s[i] != '/'
  }

  /** Splits off the first path segment: the text before the first '/', and the
      text after it if there is one. */
  function SplitSegment(s: string): (string, Option<string>)
  {
    if |s| == 0 then ("", None)
    else if s[0] == '/' then ("", Some(s[1..]))
    else
      var (head, tail) := SplitSegment(s[1..]);
      ([s[0]] + head, tail)
  }

  function RouteStatus(rest: string): Option<Endpoint>
  {
    var (seg, tail) := SplitSegment(rest);
    match ParseDecimal(seg)
    case None => None
    case Some(id) =>
      match tail
      case None => Some(StatusById(id))
      case Some(name) =>
        match ActionFromName(name)
        case None => None
        case Some(a) => Some(StatusAction(id, a))
  }

  function RouteAccount(rest: string): Option<Endpoint>
  {
    var (seg, tail) := SplitSegment(rest);
    match ParseDecimal(seg)
    case None => None
    case Some(id) => if tail == Some("statuses") then Some(AccountStatuses(id)) else None
  }

  /** The endpoint a request path names, if any. */
  function Route(path: string): (r: Option<Endpoint>)
    ensures r.Some? ==> |path| > 0 && path[0] == '/'
  {
    if path == StatusesRoot then Some(StatusCollection)
    else if |StatusesPrefix| <= |path| && path[..|StatusesPrefix|] == StatusesPrefix then
      RouteStatus(path[|StatusesPrefix|..])
    else if |AccountsPrefix| <= |path| && path[..|AccountsPrefix|] == AccountsPrefix then
      RouteAccount(path[|AccountsPrefix|..])
    else None
  }

  lemma {:induction false} SplitSegmentWhole(a: string)
    requires NoSlash(a)
    ensures SplitSegment(a) == (a, None)
  {
    if |a| > 0 {
      SplitSegmentWhole(a[1..]);
      assert [a[0]] + a[1..] == a;
    }
  }

  lemma {:induction false} SplitSegmentAtSlash(a: string, b: string)
    requires NoSlash(a)
    ensures SplitSegment(a + "/" + b) == (a, Some(b))
  {
    var s := a + "/" + b;
    if |a| == 0 {
      assert s == "/" + b;
      assert s[1..] == b;
    } else {
      assert s[1..] == a[1..] + "/" + b;
      SplitSegmentAtSlash(a[1..], b);
      assert [a[0]] + a[1..] == a;
    }
  }

  /** A path under the statuses prefix is routed by what follows the prefix. */
  lemma RouteUnderStatusesPrefix(rest: string)
    requires |rest| > 0
    ensures Route(StatusesPrefix + rest) == RouteStatus(rest)
  {
    var p := StatusesPrefix + rest;
    assert p[..|StatusesPrefix|] == StatusesPrefix;
    assert p[|StatusesPrefix|..] == rest;
    assert |p| != |StatusesRoot|;
  }

  /** A path under the accounts prefix is routed by what follows the prefix. */
  lemma RouteUnderAccountsPrefix(rest: string)
    ensures Route(AccountsPrefix + rest) == RouteAccount(rest)
  {
    var p := AccountsPrefix + rest;
    assert p[..|AccountsPrefix|] == AccountsPrefix;
    assert p[|AccountsPrefix|..] == rest;
    assert p[9] != StatusesPrefix[9];
    assert p != StatusesRoot;
  }

  lemma RouteStatusById(id: nat)
    ensures Route(PathOf(StatusById(id))) == Some(StatusById(id))
  {
    var digits := NatToString(id);
    RouteUnderStatusesPrefix(digits);
    SplitSegmentWhole(digits);
    ParseDecimalInvertsNatToString(id);
  }

  lemma RouteStatusAction(id: nat, a: Action)
    ensures Route(PathOf(StatusAction(id, a))) == Some(StatusAction(id, a))
  {
    var digits := NatToString(id);
    assert StatusesPrefix + digits + "/" + ActionName(a) == StatusesPrefix + (digits + "/" + ActionName(a));
    RouteUnderStatusesPrefix(digits + "/" + ActionName(a));
    SplitSegmentAtSlash(digits, ActionName(a));
    ParseDecimalInvertsNatToString(id);
  }

  lemma RouteAccountStatuses(id: nat)
    ensures Route(PathOf(AccountStatuses(id))) == Some(AccountStatuses(id))
  {
    var digits := NatToString(id);
    assert AccountsPrefix + digits + "/statuses" == AccountsPrefix + (digits + "/" + "statuses");
    RouteUnderAccountsPrefix(digits + "/" + "statuses");
    SplitSegmentAtSlash(digits, "statuses");
    ParseDecimalInvertsNatToString(id);
  }

  /** Every endpoint's path routes back to that endpoint: the path alone
      determines the id and the action. */
  lemma RouteInvertsPathOf(e: Endpoint)
    ensures Route(PathOf(e)) == Some(e)
  {
    match e
    case StatusCollection =>
    case StatusById(id) => RouteStatusById(id);
    case StatusAction(id, a) => RouteStatusAction(id, a);
    case AccountStatuses(id) => RouteAccountStatuses(id);
  }

  /** Two endpoints share a path only if they are the same endpoint. */
  lemma PathOfInjective(e1: Endpoint, e2: Endpoint)
    ensures PathOf(e1) == PathOf(e2) <==> e1 == e2
  {
    RouteInvertsPathOf(e1);
    RouteInvertsPathOf(e2);
  }
}
