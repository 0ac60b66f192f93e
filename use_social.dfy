/**
 * The social hook (`useSocial`): member and event search, friend requests
 * and RSVPs. It keeps the last search results and a `loading` flag; a sent
 * request is shown at once by rewriting the target's search entry.
 */
module Social {
  import opened Wrappers
  import opened Js
  import opened ApiConfigs

  /** A member in the search results; `uid` is `_id`, the rest is carried along. */
  datatype SearchHit = SearchHit(uid: Option<string>, name: string, connectionStatus: Option<string>)

  /** An event in the event search results. */
  datatype EventHit = EventHit(uid: Option<string>, title: string)

  /** A toast the hook raises. */
  datatype Toast = Toast(title: string, description: string, destructive: bool)

  /** The hook's state as a value. */
  datatype SocialState = SocialState(loading: bool, searchResults: seq<SearchHit>, eventResults: seq<EventHit>)

  const PendingSent: string := "pending_sent"

  /** `u._id === targetId ? { ...u, connectionStatus: 'pending_sent' } : u`. */
  function MarkOne(u: SearchHit, targetId: string): SearchHit {
    if u.uid == Some(targetId) then u.(connectionStatus := Some(PendingSent)) else u
  }

  /**
   * The optimistic rewrite after a sent request: the entries whose id is
   * the target show "pending_sent"; every other entry, the length and the
   * order stay as they were.
   */
  function MarkPendingSent(hits: seq<SearchHit>, targetId: string): (r: seq<SearchHit>)
    ensures |r| == |hits|
    ensures forall i :: 0 <= i < |hits| && hits[i].uid != Some(targetId) ==> r[i] == hits[i]
    ensures forall i :: 0 <= i < |hits| && hits[i].uid == Some(targetId) ==>
      r[i].connectionStatus == Some(PendingSent) && r[i].uid == hits[i].uid && r[i].name == hits[i].name
  {
    if hits == [] then [] else [MarkOne(hits[0], targetId)] + MarkPendingSent(hits[1..], targetId)
  }

  /** Marking the same target twice changes nothing more. */
  lemma {:induction false} MarkPendingSentIdempotent(hits: seq<SearchHit>, targetId: string)
    ensures MarkPendingSent(MarkPendingSent(hits, targetId), targetId) == MarkPendingSent(hits, targetId)
  {
    if hits != [] {
      MarkPendingSentIdempotent(hits[1..], targetId);
      assert MarkPendingSent(hits, targetId)[1..] == MarkPendingSent(hits[1..], targetId);
    }
  }

  /** Requests to two members commute: the order of the clicks does not matter. */
  lemma {:induction false} MarkPendingSentCommutes(hits: seq<SearchHit>, a: string, b: string)
    ensures MarkPendingSent(MarkPendingSent(hits, a), b) == MarkPendingSent(MarkPendingSent(hits, b), a)
  {
    if hits != [] {
      MarkPendingSentCommutes(hits[1..], a, b);
      assert MarkPendingSent(hits, a)[1..] == MarkPendingSent(hits[1..], a);
      assert MarkPendingSent(hits, b)[1..] == MarkPendingSent(hits[1..], b);
    }
  }

  /** `err.response?.data?.message || fallback`. */
  function ErrorText(err: HttpError, fallback: string): (r: string)
    ensures TruthyText(err.message) ==> r == err.message.value
    ensures !TruthyText(err.message) ==> r == fallback
  {
    TextOr(err.message, fallback)
  }

  // The state each handler leaves behind.

  /** `searchUsers`: a blank query clears the results without a call; otherwise the answer replaces them. */
  function SearchUsersSpec(s: SocialState, query: string, answer: Response<seq<SearchHit>>): SocialState {
    if Trim(query) == "" then s.(searchResults := [])
    else s.(loading := false, searchResults := if answer.Ok? then answer.data else s.searchResults)
  }

  /** `searchEvents`, the same over `eventResults`. */
  function SearchEventsSpec(s: SocialState, query: string, answer: Response<seq<EventHit>>): SocialState {
    if Trim(query) == "" then s.(eventResults := [])
    else s.(loading := false, eventResults := if answer.Ok? then answer.data else s.eventResults)
  }

  /** `sendRequest`: on success the target's entry is rewritten; on failure nothing but `loading` moves. */
  function SendRequestSpec(s: SocialState, targetId: string, answer: Response<()>): SocialState {
    s.(loading := false, searchResults := if answer.Ok? then MarkPendingSent(s.searchResults, targetId) else s.searchResults)
  }

  /** `acceptRequest` and `removeFriend`: only `loading` moves. */
  function SettleSpec(s: SocialState): SocialState {
    s.(loading := false)
  }

  /**
   * A blank query (nothing but white space) empties its result list; a
   * real query settles `loading` and keeps the old list when the call fails.
   */
  lemma SearchOutcomes(s: SocialState, query: string, users: Response<seq<SearchHit>>, events: Response<seq<EventHit>>)
    ensures AllWhiteSpace(query) ==> SearchUsersSpec(s, query, users) == s.(searchResults := [])
    ensures AllWhiteSpace(query) ==> SearchEventsSpec(s, query, events) == s.(eventResults := [])
    ensures !AllWhiteSpace(query) ==> !SearchUsersSpec(s, query, users).loading && !SearchEventsSpec(s, query, events).loading
    ensures !AllWhiteSpace(query) && users.Failed? ==> SearchUsersSpec(s, query, users) == s.(loading := false)
    ensures !AllWhiteSpace(query) && events.Failed? ==> SearchEventsSpec(s, query, events) == s.(loading := false)
    ensures !AllWhiteSpace(query) && users.Ok? ==> SearchUsersSpec(s, query, users).searchResults == users.data
    ensures !AllWhiteSpace(query) && events.Ok? ==> SearchEventsSpec(s, query, events).eventResults == events.data
    ensures SearchUsersSpec(s, query, users).eventResults == s.eventResults
    ensures SearchEventsSpec(s, query, events).searchResults == s.searchResults
  {
    TrimEmptyIffAllWhiteSpace(query);
  }

  /**
   * After a successful request to `targetId` the member shows as
   * "pending_sent" wherever it appears; after a failed one the results are
   * untouched; either way `loading` is clear and the event results stay.
   */
  lemma SendRequestOutcomes(s: SocialState, targetId: string, answer: Response<()>, i: int)
    requires 0 <= i < |s.searchResults|
    ensures |SendRequestSpec(s, targetId, answer).searchResults| == |s.searchResults|
    ensures answer.Ok? && s.searchResults[i].uid == Some(targetId) ==>
      SendRequestSpec(s, targetId, answer).searchResults[i].connectionStatus == Some(PendingSent)
    ensures answer.Failed? || s.searchResults[i].uid != Some(targetId) ==>
      SendRequestSpec(s, targetId, answer).searchResults[i] == s.searchResults[i]
    ensures !SendRequestSpec(s, targetId, answer).loading
    ensures SendRequestSpec(s, targetId, answer).eventResults == s.eventResults
  {
  }

  /**
   * Accepting a request or removing a friend leaves both result lists as
   * they were and always clears `loading`.
   */
  lemma SettleOutcomes(s: SocialState)
    ensures !SettleSpec(s).loading
    ensures SettleSpec(s).searchResults == s.searchResults && SettleSpec(s).eventResults == s.eventResults
    ensures SettleSpec(SettleSpec(s)) == SettleSpec(s)
  {
  }

  class SocialHook {
    var loading: bool
    var searchResults: seq<SearchHit>
    var eventResults: seq<EventHit>

    function State(): SocialState
      reads this
    {
      SocialState(loading, searchResults, eventResults)
    }

    constructor ()
      ensures State() == SocialState(false, [], [])
    {
      loading := false;
      searchResults := [];
      eventResults := [];
    }

    /** `searchUsers(query)`; `answer` is what the search endpoint would return. */
    method SearchUsers(query: string, answer: Response<seq<SearchHit>>) returns (request: Option<Url>)
      modifies this
      ensures request.Some? <==> Trim(query) != ""
      ensures request.Some? ==> request.value == SearchUsersUrl(Completed, query)
      ensures State() == SearchUsersSpec(old(State()), query, answer)
    {
      if Trim(query) == "" {
        searchResults := [];
        return None;
      }
      loading := true;
      request := Some(SearchUsersUrl(Completed, query));
      if answer.Ok? {
        searchResults := answer.data;
      }
      loading := false;
    }

    /** `searchEvents(query)`. */
    method SearchEvents(query: string, answer: Response<seq<EventHit>>) returns (request: Option<Url>)
      modifies this
      ensures request.Some? <==> Trim(query) != ""
      ensures request.Some? ==> request.value == SearchEventsUrl(Completed, query)
      ensures State() == SearchEventsSpec(old(State()), query, answer)
    {
      if Trim(query) == "" {
        eventResults := [];
        return None;
      }
      loading := true;
      request := Some(SearchEventsUrl(Completed, query));
      if answer.Ok? {
        eventResults := answer.data;
      }
      loading := false;
    }

    /** `sendRequest(targetId)`. */
    method SendRequest(targetId: string, answer: Response<()>) returns (request: Url, toast: Toast)
      modifies this
      ensures request == RequestUrl(Completed, targetId)
      ensures answer.Ok? ==> toast == Toast("Request Sent", "Waiting for approval.", false)
      ensures answer.Failed? ==> toast == Toast("Error", ErrorText(answer.error, "Could not send request"), true)
      ensures State() == SendRequestSpec(old(State()), targetId, answer)
    {
      loading := true;
      request := RequestUrl(Completed, targetId);
      match answer {
        case Ok(_) =>
          toast := Toast("Request Sent", "Waiting for approval.", false);
          searchResults := MarkPendingSent(searchResults, targetId);
        case Failed(err) =>
          toast := Toast("Error", ErrorText(err, "Could not send request"), true);
      }
      loading := false;
    }

    /** `acceptRequest(requestId)`. */
    method AcceptRequest(requestId: string, answer: Response<()>) returns (request: Url, toast: Toast)
      modifies this
      ensures request == AcceptUrl(Completed, requestId)
      ensures toast == if answer.Ok? then Toast("Request Accepted", "You are now friends!", false)
                       else Toast("Error", "Could not accept request.", true)
      ensures State() == SettleSpec(old(State()))
    {
      loading := true;
      request := AcceptUrl(Completed, requestId);
      toast := if answer.Ok? then Toast("Request Accepted", "You are now friends!", false)
               else Toast("Error", "Could not accept request.", true);
      loading := false;
    }

    /** `removeFriend(friendId)`. */
    method RemoveFriend(friendId: string, answer: Response<()>) returns (request: Url, toast: Toast)
      modifies this
      ensures request == FriendUrl(Completed, friendId)
      ensures toast == if answer.Ok? then Toast("Friend Removed", "Connection updated.", false)
                       else Toast("Error", "Could not remove friend.", true)
      ensures State() == SettleSpec(old(State()))
    {
      loading := true;
      request := FriendUrl(Completed, friendId);
      toast := if answer.Ok? then Toast("Friend Removed", "Connection updated.", false)
               else Toast("Error", "Could not remove friend.", true);
      loading := false;
    }
  }

  /** `toggleLike`: the server flips the like; the hook keeps no state about it. */
  method ToggleLike(postId: string) returns (request: Url)
    ensures request == Url("/posts/" + postId + "/like")
    ensures request == PostLikeUrl(Completed, postId)
  {
    CompletedFeedPaths(postId);
    request := PostLikeUrl(Completed, postId);
  }

  /** `rsvpToEvent(eventId)`: the response data on success, nothing on failure; the hook's state is not touched. */
  method RsvpToEvent<T>(eventId: string, answer: Response<T>) returns (request: Url, data: Option<T>, toast: Toast)
    ensures request == Url("/events/" + eventId + "/rsvp")
    ensures data.Some? <==> answer.Ok?
    ensures answer.Ok? ==> data.value == answer.data && toast == Toast("RSVP Success", "You are now attending this event!", false)
    ensures answer.Failed? ==> toast == Toast("RSVP Failed", ErrorText(answer.error, "Could not join event"), true)
  {
    request := Append(Interpolate(Endpoints, Events, Base), "/" + eventId + "/rsvp");
    assert "/events" + "/" + eventId + "/rsvp" == "/events/" + eventId + "/rsvp";
    match answer {
      case Ok(d) =>
        data := Some(d);
        toast := Toast("RSVP Success", "You are now attending this event!", false);
      case Failed(err) =>
        data := None;
        toast := Toast("RSVP Failed", ErrorText(err, "Could not join event"), true);
    }
  }
}
