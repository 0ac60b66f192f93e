/**
 * The HTTP gateway: the catalogue of backend routes, the paths the hooks and
 * components build from it, and the two interceptors every call passes
 * through (attach the bearer token; forget the token on a 401).
 */
module ApiConfigs {
  import opened Wrappers
  import opened Js
  import opened BrowserStorage

  /** What a failed call carries: `error.response?.status` and `error.response?.data?.message`. */
  datatype HttpError = HttpError(status: Option<int>, message: Option<string>)

  /** The outcome of one backend call, as the awaiting code sees it. */
  datatype Response<+T> = Ok(data: T) | Failed(error: HttpError)

  /** A catalogue entry: a fixed path, or a function of an id (`LIKE`). */
  datatype Endpoint = Path(path: string) | PerId(prefix: string, suffix: string)

  /** The groups and entry names of `ENDPOINTS` (and the ones callers ask for). */
  datatype Group = Auth | Users | Posts | Events | Admin
  datatype Key =
    | Login | Signup | Me
    | Profile | Password | Deactivate | Search | Request | Accept | Notifications | UploadPicture
    | Feed | Create | Like
    | Base | Rsvp | Delete | DismissReports
    | Stats | GhostLoginEntry | BanIp | DeleteUserEntry | ResendVerify | TriggerResetEntry | UpdateRoleEntry

  /** What `ENDPOINTS.group.key` finds: an entry, `undefined`, or a missing group. */
  datatype Lookup = Entry(endpoint: Endpoint) | NoEntry | NoGroup

  type Catalogue = (Group, Key) -> Lookup

  /** `ENDPOINTS` exactly as the source declares it. */
  function Endpoints(g: Group, k: Key): Lookup {
    match g
    case Auth => (
      match k
      case Login => Entry(Path("/auth/login"))
      case Signup => Entry(Path("/auth/signup"))
      case Me => Entry(Path("/auth/me"))
      case _ => NoEntry)
    case Users => (
      match k
      case Profile => Entry(Path("/users/profile"))
      case Password => Entry(Path("/users/profile/password"))
      case Deactivate => Entry(Path("/users/profile/deactivate"))
      case Search => Entry(Path("/users/search"))
      case Request => Entry(Path("/users/request"))
      case Accept => Entry(Path("/users/accept"))
      case Notifications => Entry(Path("/users/notifications/read"))
      case UploadPicture => Entry(Path("/users/profile-picture"))
      case _ => NoEntry)
    case Posts => (
      match k
      case Feed => Entry(Path("/posts"))
      case Create => Entry(Path("/posts"))
      case Like => Entry(PerId("/posts/", "/like"))
      case _ => NoEntry)
    case Events => if k == Base then Entry(Path("/events")) else NoEntry
    case Admin => NoGroup
  }

  /** `ENDPOINTS.POSTS.LIKE(postId)`. */
  function LikePath(postId: string): (r: string)
    ensures Invoke(Endpoints, Posts, Like, postId) == Url(r)
  {
    "/posts/" + postId + "/like"
  }

  /** Distinct posts are liked through distinct paths, and the id can be read back. */
  lemma LikePathRecoversId(a: string, b: string)
    ensures LikePath(a)[7..|LikePath(a)| - 5] == a
    ensures LikePath(a) == LikePath(b) ==> a == b
  {
    var p := LikePath(a);
    assert p[7..|p| - 5] == a;
    if p == LikePath(b) {
      var q := LikePath(b);
      assert q[7..|q| - 5] == b;
    }
  }

  // ---------------------------------------------------------------------
  // Building a path from the catalogue, with JavaScript's rules for a
  // missing member: reading it gives `undefined`, which a template literal
  // turns into the text "undefined"; calling it, or reading a member of a
  // missing group, throws a TypeError before any request is made.

  datatype Url = Url(path: string) | Thrown

  /** `${ENDPOINTS.group.key}` inside a template literal. */
  function Interpolate(cat: Catalogue, g: Group, k: Key): (r: Url)
    requires IsPath(cat, g, k)
    ensures r.Thrown? <==> cat(g, k).NoGroup?
    ensures cat(g, k).NoEntry? ==> r == Url("undefined")
    ensures cat(g, k).Entry? ==> r == Url(cat(g, k).endpoint.path)
  {
    match cat(g, k)
    case NoGroup => Thrown
    case NoEntry => Url("undefined")
    case Entry(e) => Url(e.path)
  }

  /** `ENDPOINTS.group.key(id)`. */
  function Invoke(cat: Catalogue, g: Group, k: Key, id: string): (r: Url)
    ensures r.Url? <==> cat(g, k).Entry? && cat(g, k).endpoint.PerId?
    ensures r.Url? ==> r.path == cat(g, k).endpoint.prefix + id + cat(g, k).endpoint.suffix
  {
    match cat(g, k)
    case Entry(PerId(prefix, suffix)) => Url(prefix + id + suffix)
    case _ => Thrown
  }

  function Append(u: Url, tail: string): (r: Url)
    ensures r.Thrown? <==> u.Thrown?
    ensures u.Url? ==> r.path == u.path + tail
  {
    if u.Thrown? then Thrown else Url(u.path + tail)
  }

  /** The entry a caller interpolates is not a function (or is absent). */
  predicate IsPath(cat: Catalogue, g: Group, k: Key) {
    cat(g, k).Entry? ==> cat(g, k).endpoint.Path?
  }

  // The paths the callers build, each over a given catalogue.

  /** useSocial `searchUsers`. */
  function SearchUsersUrl(cat: Catalogue, query: string): Url
    requires IsPath(cat, Users, Search)
  {
    Append(Interpolate(cat, Users, Search), "?query=" + query)
  }

  /** useSocial `searchEvents`. */
  function SearchEventsUrl(cat: Catalogue, query: string): Url
    requires IsPath(cat, Events, Search)
  {
    Append(Interpolate(cat, Events, Search), "?query=" + query)
  }

  /** useSocial `sendRequest`. */
  function RequestUrl(cat: Catalogue, targetId: string): Url
    requires IsPath(cat, Users, Base)
  {
    Append(Interpolate(cat, Users, Base), "/request/" + targetId)
  }

  /** useSocial `acceptRequest`. */
  function AcceptUrl(cat: Catalogue, requestId: string): Url
    requires IsPath(cat, Users, Base)
  {
    Append(Interpolate(cat, Users, Base), "/accept/" + requestId)
  }

  /** useSocial `removeFriend`. */
  function FriendUrl(cat: Catalogue, friendId: string): Url
    requires IsPath(cat, Users, Base)
  {
    Append(Interpolate(cat, Users, Base), "/friends/" + friendId)
  }

  /** CommunityFeed `handleDelete` and AdminDashboard `handleDeletePost`. */
  function PostUrl(cat: Catalogue, postId: string): Url
    requires IsPath(cat, Posts, Base)
  {
    Append(Interpolate(cat, Posts, Base), "/" + postId)
  }

  /** CommunityFeed `handleLike` and useSocial `toggleLike`. */
  function PostLikeUrl(cat: Catalogue, postId: string): Url
    requires IsPath(cat, Posts, Base)
  {
    Append(Interpolate(cat, Posts, Base), "/" + postId + "/like")
  }

  /** UpcomingEvents `handleRSVP`. */
  function EventRsvpUrl(cat: Catalogue, eventId: string): Url {
    Invoke(cat, Events, Rsvp, eventId)
  }

  /** UpcomingEvents `handleDelete`. */
  function EventDeleteUrl(cat: Catalogue, eventId: string): Url {
    Invoke(cat, Events, Delete, eventId)
  }

  /**
   * As written, five of the paths the callers build name entries the
   * catalogue lacks, so the request goes to a path starting "undefined"
   * instead of the route meant.
   */
  lemma UndefinedPathsAsWritten(id: string, query: string)
    ensures RequestUrl(Endpoints, id) == Url("undefined/request/" + id)
    ensures AcceptUrl(Endpoints, id) == Url("undefined/accept/" + id)
    ensures FriendUrl(Endpoints, id) == Url("undefined/friends/" + id)
    ensures PostUrl(Endpoints, id) == Url("undefined/" + id)
    ensures PostLikeUrl(Endpoints, id) == Url("undefined/" + id + "/like")
    ensures SearchEventsUrl(Endpoints, query) == Url("undefined?query=" + query)
  {
    assert Endpoints(Users, Base) == NoEntry;
    assert Endpoints(Posts, Base) == NoEntry;
    assert Endpoints(Events, Search) == NoEntry;
  }

  /** The like path the feed builds is never the catalogue's own `LIKE` path. */
  lemma LikeUrlAsWrittenMissesCatalogue(id: string)
    ensures PostLikeUrl(Endpoints, id) != Url(LikePath(id))
  {
    UndefinedPathsAsWritten(id, "");
    assert PostLikeUrl(Endpoints, id).path[0] == 'u';
  }

  /**
   * As written, the event RSVP and delete paths, the report dismissal and
   * every ADMIN entry are missing, so those handlers throw a TypeError
   * before any request is made.
   */
  lemma ThrowingCallsAsWritten(id: string)
    ensures EventRsvpUrl(Endpoints, id) == Thrown
    ensures EventDeleteUrl(Endpoints, id) == Thrown
    ensures Invoke(Endpoints, Posts, DismissReports, id) == Thrown
    ensures forall k :: Endpoints(Admin, k).NoGroup?
  {
  }

  /** The catalogue with the entries its callers use filled in. */
  function Completed(g: Group, k: Key): Lookup {
    match (g, k)
    case (Users, Base) => Entry(Path("/users"))
    case (Posts, Base) => Entry(Path("/posts"))
    case (Events, Search) => Entry(Path("/events/search"))
    case (Events, Rsvp) => Entry(PerId("/events/", "/rsvp"))
    case (Events, Delete) => Entry(PerId("/events/", ""))
    case _ => Endpoints(g, k)
  }

  /** The completed catalogue keeps every entry of the original. */
  lemma CompletedExtendsCatalogue(g: Group, k: Key)
    ensures Endpoints(g, k).Entry? ==> Completed(g, k) == Endpoints(g, k)
    ensures Completed(g, k).NoGroup? <==> g == Admin
  {
  }

  /**
   * With the completed catalogue the social and feed callers reach the
   * routes the catalogue's own entries and usage notes name.
   */
  lemma CompletedSocialPaths(id: string, query: string)
    ensures RequestUrl(Completed, id) == Append(Interpolate(Endpoints, Users, Request), "/" + id)
    ensures AcceptUrl(Completed, id) == Append(Interpolate(Endpoints, Users, Accept), "/" + id)
    ensures FriendUrl(Completed, id) == Url("/users/friends/" + id)
    ensures SearchUsersUrl(Completed, query) == SearchUsersUrl(Endpoints, query)
  {
    assert Completed(Users, Base) == Entry(Path("/users"));
    assert Completed(Users, Search) == Endpoints(Users, Search);
    assert "/users" + "/request/" + id == "/users/request" + "/" + id;
    assert "/users" + "/accept/" + id == "/users/accept" + "/" + id;
  }

  lemma CompletedFeedPaths(id: string)
    ensures PostUrl(Completed, id) == Url("/posts/" + id)
    ensures PostLikeUrl(Completed, id) == Url(LikePath(id))
  {
    assert Completed(Posts, Base) == Entry(Path("/posts"));
    assert "/posts" + "/" + id + "/like" == "/posts/" + id + "/like";
  }

  lemma CompletedEventPaths(id: string, query: string)
    ensures SearchEventsUrl(Completed, query) == Url("/events/search?query=" + query)
    ensures EventRsvpUrl(Completed, id) == Url("/events/" + id + "/rsvp")
    ensures EventDeleteUrl(Completed, id) == Url("/events/" + id)
  {
    assert "/events/" + id + "" == "/events/" + id;
  }

  // ---------------------------------------------------------------------
  // The interceptors.

  /** The outgoing request object the request interceptor receives. */
  class Request {
    var headers: map<string, string>

    constructor (headers: map<string, string>)
      ensures this.headers == headers
    {
      this.headers := headers;
    }
  }

  /** The headers after the request interceptor, for a stored token `token`. */
  function WithBearer(token: Option<string>, headers: map<string, string>): (r: map<string, string>)
    ensures TruthyText(token) ==> "Authorization" in r && r["Authorization"] == "Bearer " + token.value
    ensures !TruthyText(token) ==> r == headers
    ensures forall k :: k in headers && k != "Authorization" ==> k in r && r[k] == headers[k]
    ensures forall k :: k in r ==> k in headers || k == "Authorization"
  {
    if TruthyText(token) then headers["Authorization" := "Bearer " + token.value] else headers
  }

  /** Intercepting twice attaches the same header as intercepting once. */
  lemma WithBearerIdempotent(token: Option<string>, headers: map<string, string>)
    ensures WithBearer(token, WithBearer(token, headers)) == WithBearer(token, headers)
  {
  }

  /** The request interceptor: it writes the header into the request it is given. */
  method InterceptRequest(storage: LocalStorage, req: Request) returns (out: Request)
    modifies req
    ensures out == req
    ensures req.headers == WithBearer(storage.Get(TokenKey), old(req.headers))
  {
    var token := storage.Get(TokenKey);
    if TruthyText(token) {
      req.headers := req.headers["Authorization" := "Bearer " + token.value];
    }
    out := req;
  }

  predicate Unauthorized<T>(outcome: Response<T>) {
    outcome.Failed? && outcome.error.status == Some(401)
  }

  /** The store after the response interceptor has seen `outcome`. */
  function StoreAfterResponse<T>(items: map<string, string>, outcome: Response<T>): (r: map<string, string>)
    ensures Unauthorized(outcome) ==> TokenKey !in r
    ensures !Unauthorized(outcome) ==> r == items
    ensures forall k :: k != TokenKey ==> (k in r <==> k in items)
    ensures forall k :: k in r ==> k in items && r[k] == items[k]
  {
    if Unauthorized(outcome) then items - {TokenKey} else items
  }

  /**
   * The response interceptor: successes pass through, every error is
   * rejected unchanged, and a 401 first removes the stored token.
   */
  method InterceptResponse<T>(storage: LocalStorage, outcome: Response<T>) returns (passed: Response<T>)
    modifies storage
    ensures passed == outcome
    ensures storage.items == StoreAfterResponse(old(storage.items), outcome)
  {
    if outcome.Failed? && outcome.error.status == Some(401) {
      storage.RemoveItem(TokenKey);
    }
    passed := outcome;
  }
}
