/**
 * The dashboard's header (`DashboardHeader`): the notification bell, its
 * unread badge, the mark-as-read call when the popover opens, and the
 * accept button on friend requests.
 */
module DashboardHeader {
  import opened Wrappers
  import opened Js
  import opened ApiConfigs
  import opened Identity
  import opened Social
  import opened AuthContext

  /** `data.notifications || []`: a profile without the field has none. */
  function NotificationsOf(profile: User): (r: seq<Notification>)
    ensures profile.notifications.None? ==> r == []
    ensures profile.notifications.Some? ==> r == profile.notifications.value
  {
    profile.notifications.GetOr([])
  }

  /** `!n.read`: an absent flag counts as unread. */
  predicate IsUnread(n: Notification) {
    !TruthyBool(n.read)
  }

  /** `filter((n) => !n.read)`. */
  function Unread(ns: seq<Notification>): (r: seq<Notification>)
    ensures forall n :: n in r <==> n in ns && IsUnread(n)
    ensures |r| <= |ns|
    ensures forall n :: multiset(r)[n] == if IsUnread(n) then multiset(ns)[n] else 0
  {
    if ns == [] then []
    else
      assert ns == [ns[0]] + ns[1..];
      (if IsUnread(ns[0]) then [ns[0]] else []) + Unread(ns[1..])
  }

  /** The unread count of a list. */
  function CountUnread(ns: seq<Notification>): (r: nat)
    ensures r <= |ns|
    ensures r == 0 <==> forall n :: n in ns ==> !IsUnread(n)
  {
    var u := Unread(ns);
    assert u != [] ==> u[0] in u;
    |u|
  }

  lemma {:induction false} UnreadAppend(a: seq<Notification>, b: seq<Notification>)
    ensures Unread(a + b) == Unread(a) + Unread(b)
  {
    if a == [] {
      assert a + b == b;
    } else {
      assert (a + b)[1..] == a[1..] + b;
      UnreadAppend(a[1..], b);
    }
  }

  /**
   * The count adds up over the list: one for each unread notification and
   * nothing for a read one.
   */
  lemma CountUnreadAdds(a: seq<Notification>, b: seq<Notification>, n: Notification)
    ensures CountUnread(a + b) == CountUnread(a) + CountUnread(b)
    ensures CountUnread([n]) == if IsUnread(n) then 1 else 0
  {
    UnreadAppend(a, b);
    assert [n][1..] == [];
  }

  /**
   * Reversing does not change the count: the source counts the list after
   * reversing it in place, and that is the count of the list as fetched.
   */
  lemma {:induction false} CountUnreadReverse(ns: seq<Notification>)
    ensures CountUnread(Reverse(ns)) == CountUnread(ns)
    decreases |ns|
  {
    if ns != [] {
      var last := ns[|ns| - 1];
      var init := ns[..|ns| - 1];
      assert ns == init + [last];
      assert Reverse(ns) == [last] + Reverse(init);
      UnreadAppend([last], Reverse(init));
      UnreadAppend(init, [last]);
      CountUnreadReverse(init);
    }
  }

  /** `n.type === 'friend_request' && !n.read`: the accept and dismiss buttons. */
  predicate ShowsAccept(n: Notification) {
    n.kind == "friend_request" && IsUnread(n)
  }

  /**
   * The accept button appears exactly on unread friend requests, and each
   * such notification is one of those the badge counts.
   */
  lemma AcceptShownOnlyForUnreadRequests(ns: seq<Notification>, n: Notification)
    requires n in ns
    ensures ShowsAccept(n) <==> n.kind == "friend_request" && n in Unread(ns)
    ensures ShowsAccept(n) ==> CountUnread(ns) > 0
  {
  }

  /** `ENDPOINTS.USERS.ACCEPT + "/" + requesterId`. */
  function HeaderAcceptUrl(requesterId: string): (r: Url)
    ensures r == Url("/users/accept/" + requesterId)
  {
    assert IsPath(Endpoints, Users, Accept);
    Append(Interpolate(Endpoints, Users, Accept), "/" + requesterId)
  }

  /** The header's state as a value. */
  datatype HeaderState = HeaderState(notifications: seq<Notification>, unreadCount: int)

  /** `fetchNotifications`: newest first, and the count of unread ones; a failure changes nothing. */
  function FetchSpec(s: HeaderState, answer: Response<User>): HeaderState {
    if answer.Ok? then
      HeaderState(Reverse(NotificationsOf(answer.data)), CountUnread(NotificationsOf(answer.data)))
    else s
  }

  /** `markAsRead`: the count drops to 0 on success; the list keeps its read flags. */
  function MarkSpec(s: HeaderState, answer: Response<()>): HeaderState {
    if s.unreadCount == 0 || answer.Failed? then s else s.(unreadCount := 0)
  }

  /** The dot on the bell. */
  predicate BadgeShown(s: HeaderState) {
    s.unreadCount > 0
  }

  /**
   * After a fetch the list is the server's, last first, and the badge shows
   * exactly when some notification is unread.
   */
  lemma FetchOutcomes(s: HeaderState, profile: User)
    ensures FetchSpec(s, Ok(profile)).notifications == Reverse(NotificationsOf(profile))
    ensures BadgeShown(FetchSpec(s, Ok(profile))) <==> exists n :: n in NotificationsOf(profile) && IsUnread(n)
    ensures profile.notifications.None? ==> FetchSpec(s, Ok(profile)) == HeaderState([], 0)
  {
  }

  /**
   * Marking as read never touches the list, hides the badge when it
   * succeeds, and is idempotent.
   */
  lemma MarkOutcomes(s: HeaderState, answer: Response<()>)
    ensures MarkSpec(s, answer).notifications == s.notifications
    ensures answer.Ok? ==> !BadgeShown(MarkSpec(s, answer))
    ensures answer.Failed? ==> MarkSpec(s, answer) == s
    ensures MarkSpec(MarkSpec(s, answer), answer) == MarkSpec(s, answer)
  {
  }

  /** `Array.prototype.reverse`: reverses the array in place. */
  method ReverseInPlace<T>(a: array<T>)
    modifies a
    ensures a[..] == Reverse(old(a[..]))
  {
    var i := 0;
    var n := a.Length;
    while i < n / 2
      invariant 0 <= i <= n / 2
      invariant forall k :: 0 <= k < i ==> a[k] == old(a[n - 1 - k]) && a[n - 1 - k] == old(a[k])
      invariant forall k :: i <= k < n - i ==> a[k] == old(a[k])
    {
      a[i], a[n - 1 - i] := a[n - 1 - i], a[i];
      i := i + 1;
    }
  }

  class Header {
    var notifications: seq<Notification>
    var unreadCount: int

    function State(): HeaderState
      reads this
    {
      HeaderState(notifications, unreadCount)
    }

    constructor ()
      ensures State() == HeaderState([], 0)
    {
      notifications := [];
      unreadCount := 0;
    }

    /** `fetchNotifications`, given the profile request's answer. */
    method FetchNotifications(answer: Response<User>)
      modifies this
      ensures State() == FetchSpec(old(State()), answer)
    {
      if answer.Failed? {
        return;
      }
      var fetched := NotificationsOf(answer.data);
      var list := new Notification[|fetched|](i requires 0 <= i < |fetched| => fetched[i]);
      assert list[..] == fetched;
      ReverseInPlace(list);
      notifications := list[..];
      CountUnreadReverse(fetched);
      unreadCount := |Unread(list[..])|;
    }

    /** `markAsRead`; `requested` says whether the PATCH went out. */
    method MarkAsRead(answer: Response<()>) returns (requested: bool)
      modifies this
      ensures requested <==> old(unreadCount) != 0
      ensures State() == MarkSpec(old(State()), answer)
    {
      if unreadCount == 0 {
        return false;
      }
      requested := true;
      if answer.Ok? {
        unreadCount := 0;
      }
    }

    /** `handleAcceptRequest`: accept, then re-fetch the notifications. */
    method HandleAcceptRequest(requesterId: string, answer: Response<()>, refetch: Response<User>)
      returns (request: Url, toast: Toast)
      modifies this
      ensures request == Url("/users/accept/" + requesterId)
      ensures toast == if answer.Ok? then Toast("Connected!", "You have a new connection.", false)
        else Toast("Error", "Could not accept request.", true)
      ensures State() == if answer.Ok? then FetchSpec(old(State()), refetch) else old(State())
    {
      request := HeaderAcceptUrl(requesterId);
      if answer.Failed? {
        toast := Toast("Error", "Could not accept request.", true);
        return;
      }
      toast := Toast("Connected!", "You have a new connection.", false);
      FetchNotifications(refetch);
    }
  }

  /** `handleLogout`: sign out, then go to the landing page. */
  method HandleLogout(auth: AuthProvider) returns (navigateTo: string)
    modifies auth, auth.storage
    ensures auth.State() == LogoutSpec(old(auth.State()))
    ensures navigateTo == "/"
  {
    auth.Logout();
    navigateTo := "/";
  }
}
