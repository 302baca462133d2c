# Mastodon API client: streaming classification and status requests

A Dafny model of two pieces of the Ruby Mastodon API client.

* **Streaming message classification** (`Mastodon::Streaming::MessageParser`).
  A frozen registry maps the wire tags `update`, `notification` and `delete`
  to the Status, Notification and DeletedStatus holders. `parse(type, data)`
  looks the tag up by exact string key. It wraps the untouched payload in the
  matching holder, or answers `nil` for any other tag without failing. The
  model is `MessageParser.Parse : (string, Value) -> Option<Entity>`.
* **Status request building** (`Mastodon::REST::Statuses`). The model covers:
  * `normalize_status_params`, with its two call shapes: a single options Hash
    is used as is, and otherwise positional slots are filled by `shift`;
  * the `:status`, `'media_ids[]'` and `:spoiler_text` handling of the two
    create actions;
  * the fixed verb, path and parameters of `status`, `destroy_status`,
    `reblog`, `unreblog`, `favourite`, `unfavourite`, `reblogged_by`,
    `favourited_by` and `statuses`.

  Each action returns a request descriptor (verb, path, parameter Hash,
  response decoding) instead of performing the request.

Ruby values are modelled explicitly (`RubyValues`):
* a Hash key keeps Symbols and Strings apart (`Sym("media_ids")` is not
  `Str("media_ids[]")`);
* `Value` has `Nil` and `False`, so truthiness is exact;
* `Hash#[]` on a Hash without a default, `Hash#delete` and `Array#shift` answer `nil` on absence.

`params['media_ids[]'] ||= params.delete(:media_ids)` is modelled with Ruby's
short-circuit: the delete only happens when `'media_ids[]'` is falsy.

Paths interpolate ids with `Integer#to_s` (`Decimal.NatToString`).
`StatusPaths.Route` reads a path back into the endpoint it names. Every
descriptor's contract then states which endpoint and id its path designates,
and `StatusPaths.RouteInvertsPathOf` proves that paths never confuse two
endpoints or two ids.

Files: `optional.dfy`, `ruby_values.dfy`, `decimal.dfy`, `status_paths.dfy`,
`message_parser.dfy`, `rest_statuses.dfy`.

Behaviour of the code worth knowing:
* A `delete` event wraps the whole payload, as the other two kinds do.
* The media list can be sent under both keys. This happens when the caller
  supplies a truthy `'media_ids[]'` and also `:media_ids` (see `MergeMediaIds`).
* In the positional call shape, a `false` media slot is sent as `nil`.
* `destroy_status` reports success for any response other than `nil`, a
  `false` response included.

## Model

| member | source | states |
|---|---|---|
| MessageParser.Parse | lib/mastodon/streaming/message_parser.rb:14-17 | the result is present exactly for the tags `update`, `notification`, `delete`; each of them yields its own variant built from exactly the given payload; any other tag yields `None` |
| MessageParser.New | lib/mastodon/streaming/message_parser.rb:16 | `klass.new(data)` builds a holder of the selected class that carries the payload unchanged |
| MessageParser.ParseExactlyInvertsTagOf | lib/mastodon/streaming/message_parser.rb:8-17 | parsing yields entity `e` if and only if the tag is `e`'s wire tag and the payload is `e`'s payload, so each entity has exactly one wire form |
| MessageParser.RegistryIsThreeDistinctKinds | lib/mastodon/streaming/message_parser.rb:8-12 | the frozen registry has exactly the three keys and maps no two of them to the same class |
| MessageParser.NearMissTagsAreUnknown | lib/mastodon/streaming/message_parser.rb:15 | lookup is exact and case-sensitive: `Update`, `UPDATE`, the empty tag and padded or prefixed tags are unknown |
| RestStatuses.NormalizeStatusParams | lib/mastodon/rest/statuses.rb:113-123 | a single Hash argument is returned unchanged; any other argument list gives exactly the keys `:in_reply_to_id`, `'media_ids[]'`, `:visibility` bound to arguments 0, 1, 2, or `nil` where missing |
| RestStatuses.ExtraArgumentsIgnored | lib/mastodon/rest/statuses.rb:117-121 | arguments after the third do not affect the parameters |
| RestStatuses.MissingSlotsAreNil | lib/mastodon/rest/statuses.rb:117-121 | omitting a trailing positional argument is the same as passing `nil` for it |
| RestStatuses.MergeMediaIds | lib/mastodon/rest/statuses.rb:27 | `'media_ids[]'` is always present afterwards. A truthy `'media_ids[]'` leaves the Hash unchanged. Otherwise `:media_ids` is removed and its value (or `nil`) moves to `'media_ids[]'`, and no other key changes. The merged key is truthy iff either spelling was. `:media_ids` survives iff it was given together with a truthy `'media_ids[]'` |
| RestStatuses.CreateStatus | lib/mastodon/rest/statuses.rb:24-30 | a POST to `/api/v1/statuses` (the status-collection endpoint), decoded as one Status, whose `:status` is the text whatever the options said and whose `'media_ids[]'` key is present |
| RestStatuses.CreateStatusPositional | lib/mastodon/rest/statuses.rb:24-27 | with positional arguments the parameters are exactly `:status` = text and the three slots; a falsy media slot is sent as `nil` |
| RestStatuses.CreateStatusWithOptions | lib/mastodon/rest/statuses.rb:24-27 | with an options Hash: `:status` is the text; `'media_ids[]'` keeps its own truthy value, or else takes `:media_ids` (or `nil`); `:media_ids` is sent too, unchanged, exactly when `'media_ids[]'` was truthy; every other option is passed through unchanged |
| RestStatuses.CreateStatusWithSpoiler | lib/mastodon/rest/statuses.rb:33-40 | the same verb, path, decoding and parameters as `create_status`, plus `:spoiler_text` = spoiler |
| RestStatuses.Status | lib/mastodon/rest/statuses.rb:45-47 | GET `/api/v1/statuses/{id}`, empty parameters, decoded as one Status; the path routes back to that id |
| RestStatuses.DestroyStatusRequest | lib/mastodon/rest/statuses.rb:52-54 | DELETE `/api/v1/statuses/{id}` with empty parameters and the raw response; the path routes back to that id |
| RestStatuses.DestroyStatus | lib/mastodon/rest/statuses.rb:52-54 | the result is true exactly when the executor's response to the delete request is not `nil`; a `false` response reads as success, and that is the only case where the result differs from the response's truthiness |
| RestStatuses.DestroyStatusIgnoresContent | lib/mastodon/rest/statuses.rb:53 | two executors whose responses agree on being `nil` give the same result: the content of the response is never inspected |
| RestStatuses.Reblog | lib/mastodon/rest/statuses.rb:59-61 | POST `/api/v1/statuses/{id}/reblog`, empty parameters, one Status; the path routes back to (id, reblog) |
| RestStatuses.Unreblog | lib/mastodon/rest/statuses.rb:66-68 | POST `/api/v1/statuses/{id}/unreblog`, empty parameters, one Status; the path routes back to (id, unreblog) |
| RestStatuses.Favourite | lib/mastodon/rest/statuses.rb:73-75 | POST `/api/v1/statuses/{id}/favourite`, empty parameters, one Status; the path routes back to (id, favourite) |
| RestStatuses.Unfavourite | lib/mastodon/rest/statuses.rb:80-82 | POST `/api/v1/statuses/{id}/unfavourite`, empty parameters, one Status; the path routes back to (id, unfavourite) |
| RestStatuses.RebloggedBy | lib/mastodon/rest/statuses.rb:88-90 | GET `/api/v1/statuses/{id}/reblogged_by`, decoded as a collection of Accounts; options are passed through verbatim, `{}` when omitted |
| RestStatuses.FavouritedBy | lib/mastodon/rest/statuses.rb:96-98 | GET `/api/v1/statuses/{id}/favourited_by`, decoded as a collection of Accounts; options are passed through verbatim, `{}` when omitted |
| RestStatuses.Statuses | lib/mastodon/rest/statuses.rb:107-109 | GET `/api/v1/accounts/{account_id}/statuses`, decoded as a collection of Statuses; options are passed through verbatim, `{}` when omitted |
| StatusPaths.RouteInvertsPathOf | lib/mastodon/rest/statuses.rb:46-108 | routing any endpoint's path template gives back that endpoint, with its id and action |
| StatusPaths.PathOfInjective | lib/mastodon/rest/statuses.rb:46-108 | two endpoints have the same path if and only if they are the same endpoint |
| Decimal.NatToString | lib/mastodon/rest/statuses.rb:46 | an interpolated id is a non-empty run of decimal digits, with a leading `0` only for the id 0 |
| Decimal.ParseDecimalInvertsNatToString | lib/mastodon/rest/statuses.rb:46 | reading the interpolated digits back gives the id |
| Decimal.NatToStringInjective | lib/mastodon/rest/statuses.rb:46 | distinct ids are interpolated as distinct digit strings |

## Left out

- HTTP transport: `perform_request`, `perform_request_with_object` and `perform_request_with_collection` are not part of this model. Each action returns the request it would hand over, and `DestroyStatus` takes the executor as a function parameter.
- Response decoding into `Mastodon::Status`, `Mastodon::Account` and `Mastodon::Collection` is not modelled; a request only records which decoding applies.
- The streaming entity classes (`Mastodon::Status`, `Mastodon::Notification`, `Mastodon::Streaming::DeletedStatus`) are opaque holders of their payload; their field lists are not modelled.
- The streaming connection (framing, reconnection, the event loop) is I/O and is left out.
- The caller's options Hash is mutated in place by `params[...] =` in Ruby. Parameters are immutable maps here, so this aliasing is not modelled.
- Ruby Hashes keep insertion order; a Dafny `map` does not, and order has no effect on any parameter value.
- Hash keys other than Symbols and Strings are not modelled.
- Status, DestroyStatusRequest, DestroyStatus, Reblog, Unreblog, Favourite, Unfavourite, RebloggedBy, FavouritedBy, Statuses: ids are natural numbers rendered by `Integer#to_s`. The path text of a negative id or a non-Integer id is not modelled.
- RebloggedBy, FavouritedBy, Statuses: `options` is a Hash or omitted. Passing a non-Hash value such as an explicit `nil` is not modelled.
- MergeMediaIds, CreateStatus, CreateStatusWithOptions: options Hashes are Hashes without a default value or default proc (`Fetch` answers `nil` for an absent key). With a default (say `Hash.new { |h, k| h[k] = [] }`), Ruby reads that default for an absent `'media_ids[]'`, and a truthy default keeps `:media_ids` where `MergeMediaIds` moves it.
- CreateStatus, CreateStatusWithSpoiler: a frozen options Hash makes Ruby raise `FrozenError` at the first parameter assignment; the model always returns a request, since parameters are immutable values here.
