/**
  The status actions of the REST client. Each action builds one request
  descriptor (HTTP verb, path, parameter Hash, and how the response is to be
  decoded) instead of performing the request; the request executor and the
  response decoders are outside this model.

  In Ruby, when the caller passes an options Hash, `params[...] =` writes into
  the caller's own Hash. Parameters here are immutable map values, so that
  aliasing effect has no counterpart.
 */
module RestStatuses {
  import opened Optional
  import opened RubyValues
  import opened Decimal
  import opened StatusPaths

  datatype Verb = Get | Post | Delete

  /** The classes responses are decoded into. */
  datatype EntityClass = StatusClass | AccountClass

  /** How the executor's response is returned: as is (`perform_request`), as one
      object (`perform_request_with_object`) or as an ordered collection
      (`perform_request_with_collection`). */
  datatype Decoding = Raw | Object(cls: EntityClass) | Collection(cls: EntityClass)

  datatype Request = Request(verb: Verb, path: string, params: Params, decoding: Decoding)

  const StatusKey: Key := Sym("status")
  const InReplyToIdKey: Key := Sym("in_reply_to_id")
  const MediaIdsKey: Key := Sym("media_ids")
  const MediaIdsArrayKey: Key := Str("media_ids[]")
  const VisibilityKey: Key := Sym("visibility")
  const SpoilerTextKey: Key := Sym("spoiler_text")

  /** The Hash case of `normalize_status_params`: exactly one argument, a Hash. */
  predicate IsOptionsCall(args: seq<Value>)
  {
    |args| == 1 && args[0].Hash?
  }

  /** `normalize_status_params(*args)`: a single options Hash is used as is;
      any other argument list fills the three positional slots by shifting,
      `nil` for a missing slot, extra arguments dropped. */
  function NormalizeStatusParams(args: seq<Value>): (p: Params)
    ensures IsOptionsCall(args) ==> p == args[0].entries
    ensures !IsOptionsCall(args) ==>
      && p.Keys == {InReplyToIdKey, MediaIdsArrayKey, VisibilityKey}
      && p[InReplyToIdKey] == ArgOrNil(args, 0)
      && p[MediaIdsArrayKey] == ArgOrNil(args, 1)
      && p[VisibilityKey] == ArgOrNil(args, 2)
  {
    if IsOptionsCall(args) then args[0].entries
    else
      var (inReplyToId, rest1) := Shift(args);
      var (mediaIds, rest2) := Shift(rest1);
      var (visibility, _) := Shift(rest2);
      map[InReplyToIdKey := inReplyToId, MediaIdsArrayKey := mediaIds, VisibilityKey := visibility]
  }

  /** `params['media_ids[]'] ||= params.delete(:media_ids)`. Ruby's `||=` only
      evaluates its right side when the left side is falsy, so `:media_ids` is
      removed and moved only then; a truthy `'media_ids[]'` leaves the Hash
      exactly as it was, `:media_ids` included. */
  function MergeMediaIds(p: Params): (r: Params)
    ensures MediaIdsArrayKey in r
    ensures Truthy(Fetch(p, MediaIdsArrayKey)) ==> r == p
    ensures !Truthy(Fetch(p, MediaIdsArrayKey)) ==>
      && MediaIdsKey !in r
      && r[MediaIdsArrayKey] == Fetch(p, MediaIdsKey)
      && forall k :: k != MediaIdsKey && k != MediaIdsArrayKey ==>
           (k in r <==> k in p) && (k in p ==> r[k] == p[k])
    // The media list is never lost: one of the two spellings was truthy exactly
    // when the merged key is.
    ensures Truthy(r[MediaIdsArrayKey]) <==>
      Truthy(Fetch(p, MediaIdsArrayKey)) || Truthy(Fetch(p, MediaIdsKey))
    // ... but it can be sent twice: `:media_ids` survives exactly when the
    // caller also supplied a truthy `'media_ids[]'`.
    ensures MediaIdsKey in r <==> MediaIdsKey in p && Truthy(Fetch(p, MediaIdsArrayKey))
  {
    var current := Fetch(p, MediaIdsArrayKey);
    if Truthy(current) then p
    else
      var (removed, rest) := DeleteKey(p, MediaIdsKey);
      rest[MediaIdsArrayKey := removed]
  }

  /** The parameter Hash shared by both create actions. */
  function CreateParams(text: Value, args: seq<Value>): Params
  {
    MergeMediaIds(NormalizeStatusParams(args)[StatusKey := text])
  }

  /** `create_status(text, *args)`: POST /api/v1/statuses with the status text
      overriding any `:status` option, answered as one status. */
  function CreateStatus(text: Value, args: seq<Value>): (r: Request)
    ensures r.verb == Post
    ensures r.path == "/api/v1/statuses" && Route(r.path) == Some(StatusCollection)
    ensures r.decoding == Object(StatusClass)
    ensures StatusKey in r.params && r.params[StatusKey] == text
    ensures MediaIdsArrayKey in r.params
  {
    Request(Post, PathOf(StatusCollection), CreateParams(text, args), Object(StatusClass))
  }

  /** `create_status_with_spoiler(text, spoiler, *args)`: the request of
      `create_status` with `:spoiler_text` set as well. */
  function CreateStatusWithSpoiler(text: Value, spoiler: Value, args: seq<Value>): (r: Request)
    ensures r.verb == CreateStatus(text, args).verb
    ensures r.path == CreateStatus(text, args).path
    ensures r.decoding == CreateStatus(text, args).decoding
    ensures SpoilerTextKey in r.params && r.params[SpoilerTextKey] == spoiler
    ensures r.params - {SpoilerTextKey} == CreateStatus(text, args).params - {SpoilerTextKey}
  {
    Request(Post, PathOf(StatusCollection), CreateParams(text, args)[SpoilerTextKey := spoiler], Object(StatusClass))
  }

  /** `status(id)`: GET /api/v1/statuses/{id}. */
  function Status(id: nat): (r: Request)
    ensures r.verb == Get && r.params == map[] && r.decoding == Object(StatusClass)
    ensures r.path == "/api/v1/statuses/" + NatToString(id)
    ensures Route(r.path) == Some(StatusById(id))
  {
    RouteInvertsPathOf(StatusById(id));
    Request(Get, PathOf(StatusById(id)), map[], Object(StatusClass))
  }

  /** The request `destroy_status(id)` hands to `perform_request`. */
  function DestroyStatusRequest(id: nat): (r: Request)
    ensures r.verb == Delete && r.params == map[] && r.decoding == Raw
    ensures r.path == "/api/v1/statuses/" + NatToString(id)
    ensures Route(r.path) == Some(StatusById(id))
  {
    RouteInvertsPathOf(StatusById(id));
    Request(Delete, PathOf(StatusById(id)), map[], Raw)
  }

  /** `destroy_status(id)`: true exactly when the executor returned something
      other than `nil`. The response is not inspected any further, so even a
      `false` response reads as success. */
  function DestroyStatus(id: nat, perform: Request -> Value): (deleted: bool)
    ensures deleted <==> perform(DestroyStatusRequest(id)) != Nil
    // A `false` response is falsy in Ruby, yet it still reads as success.
    ensures perform(DestroyStatusRequest(id)) == False ==> deleted
    // The outcome is the response's truthiness except for exactly that case.
    ensures deleted != Truthy(perform(DestroyStatusRequest(id))) <==> perform(DestroyStatusRequest(id)) == False
  {
    !perform(DestroyStatusRequest(id)).Nil?
  }

  /** The outcome of `destroy_status` depends only on whether the executor
      answered `nil`, never on what else it answered. */
  lemma DestroyStatusIgnoresContent(id: nat, f: Request -> Value, g: Request -> Value)
    requires (f(DestroyStatusRequest(id)) == Nil) == (g(DestroyStatusRequest(id)) == Nil)
    ensures DestroyStatus(id, f) == DestroyStatus(id, g)
  {
  }

  /** The shared shape of the four toggles: POST to the status's action path
      with no parameters, answered as the affected status. */
  function Toggle(id: nat, a: Action): Request
  {
    Request(Post, PathOf(StatusAction(id, a)), map[], Object(StatusClass))
  }

  /** `reblog(id)`: POST /api/v1/statuses/{id}/reblog. */
  function Reblog(id: nat): (r: Request)
    ensures r.verb == Post && r.params == map[] && r.decoding == Object(StatusClass)
    ensures r.path == "/api/v1/statuses/" + NatToString(id) + "/reblog"
    ensures Route(r.path) == Some(StatusAction(id, Action.Reblog))
  {
    RouteInvertsPathOf(StatusAction(id, Action.Reblog));
    Toggle(id, Action.Reblog)
  }

  /** `unreblog(id)`: POST /api/v1/statuses/{id}/unreblog. */
  function Unreblog(id: nat): (r: Request)
    ensures r.verb == Post && r.params == map[] && r.decoding == Object(StatusClass)
    ensures r.path == "/api/v1/statuses/" + NatToString(id) + "/unreblog"
    ensures Route(r.path) == Some(StatusAction(id, Action.Unreblog))
  {
    RouteInvertsPathOf(StatusAction(id, Action.Unreblog));
    Toggle(id, Action.Unreblog)
  }

  /** `favourite(id)`: POST /api/v1/statuses/{id}/favourite. */
  function Favourite(id: nat): (r: Request)
    ensures r.verb == Post && r.params == map[] && r.decoding == Object(StatusClass)
    ensures r.path == "/api/v1/statuses/" + NatToString(id) + "/favourite"
    ensures Route(r.path) == Some(StatusAction(id, Action.Favourite))
  {
    RouteInvertsPathOf(StatusAction(id, Action.Favourite));
    Toggle(id, Action.Favourite)
  }

  /** `unfavourite(id)`: POST /api/v1/statuses/{id}/unfavourite. */
  function Unfavourite(id: nat): (r: Request)
    ensures r.verb == Post && r.params == map[] && r.decoding == Object(StatusClass)
    ensures r.path == "/api/v1/statuses/" + NatToString(id) + "/unfavourite"
    ensures Route(r.path) == Some(StatusAction(id, Action.Unfavourite))
  {
    RouteInvertsPathOf(StatusAction(id, Action.Unfavourite));
    Toggle(id, Action.Unfavourite)
  }

  /** An omitted `options = {}` argument is `None`. */
  function OptionsOrEmpty(options: Option<Params>): Params
  {
    match options
    case None => map[]
    case Some(o) => o
  }

  /** `reblogged_by(id, options = {})`: GET the accounts that reblogged the
      status; the options are passed through verbatim. */
  function RebloggedBy(id: nat, options: Option<Params>): (r: Request)
    ensures r.verb == Get && r.decoding == Collection(AccountClass)
    ensures options.Some? ==> r.params == options.value
    ensures options.None? ==> r.params == map[]
    ensures r.path == "/api/v1/statuses/" + NatToString(id) + "/reblogged_by"
    ensures Route(r.path) == Some(StatusAction(id, Action.RebloggedBy))
  {
    RouteInvertsPathOf(StatusAction(id, Action.RebloggedBy));
    Request(Get, PathOf(StatusAction(id, Action.RebloggedBy)), OptionsOrEmpty(options), Collection(AccountClass))
  }

  /** `favourited_by(id, options = {})`: GET the accounts that favourited the
      status; the options are passed through verbatim. */
  function FavouritedBy(id: nat, options: Option<Params>): (r: Request)
    ensures r.verb == Get && r.decoding == Collection(AccountClass)
    ensures options.Some? ==> r.params == options.value
    ensures options.None? ==> r.params == map[]
    ensures r.path == "/api/v1/statuses/" + NatToString(id) + "/favourited_by"
    ensures Route(r.path) == Some(StatusAction(id, Action.FavouritedBy))
  {
    RouteInvertsPathOf(StatusAction(id, Action.FavouritedBy));
    Request(Get, PathOf(StatusAction(id, Action.FavouritedBy)), OptionsOrEmpty(options), Collection(AccountClass))
  }

  /** `statuses(account_id, options = {})`: GET the account's statuses; the
      options (`max_id`, `since_id`, `limit`) are passed through verbatim. */
  function Statuses(accountId: nat, options: Option<Params>): (r: Request)
    ensures r.verb == Get && r.decoding == Collection(StatusClass)
    ensures options.Some? ==> r.params == options.value
    ensures options.None? ==> r.params == map[]
    ensures r.path == "/api/v1/accounts/" + NatToString(accountId) + "/statuses"
    ensures Route(r.path) == Some(AccountStatuses(accountId))
  {
    RouteInvertsPathOf(AccountStatuses(accountId));
    Request(Get, PathOf(AccountStatuses(accountId)), OptionsOrEmpty(options), Collection(StatusClass))
  }

  /** The legacy positional call shape, end to end: the create request carries
      exactly the status text and the three slots, and a falsy media slot
      (`nil` or `false`) is sent as `nil`, since the `||=` then reads the absent
      `:media_ids`. */
  lemma CreateStatusPositional(text: Value, args: seq<Value>)
    requires !IsOptionsCall(args)
    ensures CreateStatus(text, args).params == map[
      StatusKey := text,
      InReplyToIdKey := ArgOrNil(args, 0),
      MediaIdsArrayKey := (if Truthy(ArgOrNil(args, 1)) then ArgOrNil(args, 1) else Nil),
      VisibilityKey := ArgOrNil(args, 2)]
  {
  }

  /** The options-Hash call shape, end to end, key by key: `:status` is the
      text; `'media_ids[]'` keeps a truthy value of its own or else takes over
      `:media_ids`; `:media_ids` is sent as well exactly when `'media_ids[]'`
      was truthy; every other option is sent unchanged. */
  lemma CreateStatusWithOptions(text: Value, options: map<Key, Value>, k: Key)
    requires k != StatusKey && k != MediaIdsKey && k != MediaIdsArrayKey
    ensures CreateStatus(text, [Hash(options)]).params[StatusKey] == text
    ensures Fetch(CreateStatus(text, [Hash(options)]).params, MediaIdsArrayKey) ==
      if Truthy(Fetch(options, MediaIdsArrayKey)) then options[MediaIdsArrayKey]
      else Fetch(options, MediaIdsKey)
    ensures k in CreateStatus(text, [Hash(options)]).params <==> k in options
    ensures k in options ==> CreateStatus(text, [Hash(options)]).params[k] == options[k]
    ensures MediaIdsKey in CreateStatus(text, [Hash(options)]).params <==>
      MediaIdsKey in options && Truthy(Fetch(options, MediaIdsArrayKey))
    ensures MediaIdsKey in CreateStatus(text, [Hash(options)]).params ==>
      CreateStatus(text, [Hash(options)]).params[MediaIdsKey] == options[MediaIdsKey]
  {
  }

  /** Positional slots past the third are ignored. */
  lemma ExtraArgumentsIgnored(args: seq<Value>)
    requires |args| > 3
    ensures NormalizeStatusParams(args) == NormalizeStatusParams(args[..3])
  {
  }

  /** Passing `nil` for a missing positional slot changes nothing. */
  lemma MissingSlotsAreNil(args: seq<Value>)
    requires |args| < 3 && !IsOptionsCall(args)
    ensures NormalizeStatusParams(args) == NormalizeStatusParams(args + [Nil])
  {
  }
}
