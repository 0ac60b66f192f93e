/**
 * The records the backend hands the client. Every field is optional,
 * because the client reads them from untyped JSON with `?.`; `uid` is the
 * document's `_id`, `id` the alias some responses carry.
 */
module Identity {
  import opened Wrappers

  /** One entry of a profile's `notifications` array. */
  datatype Notification = Notification(
    kind: string,              // `type`, e.g. "friend_request"
    read: Option<bool>,
    senderId: Option<string>,
    message: string)

  /** A signed-in member or a fetched profile. */
  datatype User = User(
    id: Option<string>,
    uid: Option<string>,
    firstName: Option<string>,
    email: Option<string>,
    level: Option<int>,
    isVerified: Option<bool>,
    city: Option<string>,
    connections: Option<seq<string>>,
    notifications: Option<seq<Notification>>)
}
