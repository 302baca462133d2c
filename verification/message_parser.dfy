/**
  Classification of streaming events. The streaming connection hands over a
  tag and an already-decoded payload; a frozen registry maps the three known
  tags to the entity each one carries, and any other tag is answered with
  `None` (Ruby's `nil`) so that the event loop can skip it.
 */
module MessageParser {
  import opened Optional
  import opened RubyValues

  /** The entity classes the registry can name. */
  datatype Kind = StatusKind | NotificationKind | DeletedStatusKind

  /** An entity built from a streaming payload. The holders keep the payload
      untouched; their field lists are outside this model. */
  datatype Entity =
    | Status(data: Value)
    | Notification(data: Value)
    | DeletedStatus(data: Value)

  /** The wire tags and the classes they select; frozen, never extended at run time. */
  const MessageTypes: map<string, Kind> :=
    map["update" := StatusKind, "notification" := NotificationKind, "delete" := DeletedStatusKind]

  function KindOf(e: Entity): Kind
  {
    match e
    case Status(_) => StatusKind
    case Notification(_) => NotificationKind
    case DeletedStatus(_) => DeletedStatusKind
  }

  /** `klass.new(data)`: wraps the payload in the holder of the given class. */
  function New(k: Kind, data: Value): (e: Entity)
    ensures KindOf(e) == k
    ensures e.data == data
  {
    match k
    case StatusKind => Status(data)
    case NotificationKind => Notification(data)
    case DeletedStatusKind => DeletedStatus(data)
  }

  /** `MessageParser.parse(type, data)`: registry lookup by exact string key,
      then construction; an unknown tag yields `None` and never fails. */
  function Parse(tag: string, data: Value): (r: Option<Entity>)
    ensures r.Some? <==> tag == "update" || tag == "notification" || tag == "delete"
    ensures tag == "update" ==> r == Some(Status(data))
    ensures tag == "notification" ==> r == Some(Notification(data))
    ensures tag == "delete" ==> r == Some(DeletedStatus(data))
  {
    if tag in MessageTypes then Some(New(MessageTypes[tag], data)) else None
  }

  /** The wire tag under which the server sends each kind of entity. */
  function TagOf(e: Entity): string
  {
    match e
    case Status(_) => "update"
    case Notification(_) => "notification"
    case DeletedStatus(_) => "delete"
  }

  /** `Parse` recovers exactly the entities the server can send, and from
      nothing else: the result is `e` precisely when the tag is `e`'s tag and
      the payload is `e`'s payload. */
  lemma ParseExactlyInvertsTagOf(tag: string, data: Value, e: Entity)
    ensures Parse(tag, data) == Some(e) <==> tag == TagOf(e) && data == e.data
  {
  }

  /** The registry has exactly three entries and no two tags share a class. */
  lemma RegistryIsThreeDistinctKinds()
    ensures MessageTypes.Keys == {"update", "notification", "delete"}
    ensures |MessageTypes| == 3
    ensures forall t1, t2 :: t1 in MessageTypes && t2 in MessageTypes && MessageTypes[t1] == MessageTypes[t2] ==> t1 == t2
  {
  }

  /** Lookup is case-sensitive and exact: near misses are unknown tags. */
  lemma NearMissTagsAreUnknown(data: Value)
    ensures Parse("Update", data) == None
    ensures Parse("UPDATE", data) == None
    ensures Parse("", data) == None
    ensures Parse("update ", data) == None
    ensures Parse("status.update", data) == None
  {
  }
}
