/**
 * The meetups board (`UpcomingEvents`): the organizer-only delete button,
 * the attendee preview, RSVP, and the board's loading flag.
 */
module UpcomingEvents {
  import opened Wrappers
  import opened Js
  import opened ApiConfigs
  import opened Identity
  import opened Social

  /** `event.organizer`: a populated record, a bare id, or nothing. */
  datatype Organizer = OrganizerRecord(uid: Option<string>) | OrganizerRef(ref: string) | NoOrganizer

  datatype Attendee = Attendee(uid: Option<string>)

  /** An event as the board reads it. */
  datatype EventItem = EventItem(
    uid: Option<string>,
    organizer: Organizer,
    attendees: Option<seq<Attendee>>,
    category: Option<string>)

  /** What `String(...)` yields for a record: the organizer object without an id. */
  const ObjectText: string := "[object Object]"

  /**
   * `String(event.organizer?._id || event.organizer)`: the record's id if
   * it is non-empty, else the organizer value itself.
   */
  function OrganizerId(o: Organizer): (r: Option<string>)
    ensures o.NoOrganizer? <==> r.None?
    ensures o.OrganizerRecord? && TruthyText(o.uid) ==> r == o.uid
    ensures o.OrganizerRecord? && !TruthyText(o.uid) ==> r == Some(ObjectText)
    ensures o.OrganizerRef? ==> r == Some(o.ref)
  {
    match o
    case OrganizerRecord(uid) => if TruthyText(uid) then uid else Some(ObjectText)
    case OrganizerRef(ref) => Some(ref)
    case NoOrganizer => None
  }

  /** `user?.id || user?._id`. */
  function CurrentUserId(user: Option<User>): (r: Option<string>)
    ensures user.None? ==> r.None?
    ensures user.Some? && TruthyText(user.value.id) ==> r == user.value.id
    ensures user.Some? && !TruthyText(user.value.id) ==> r == user.value.uid
  {
    if user.None? then None
    else if TruthyText(user.value.id) then user.value.id
    else user.value.uid
  }

  /** `currentUserId && organizerId && String(currentUserId) === String(organizerId)`. */
  predicate IsOwner(user: Option<User>, event: EventItem) {
    var me := CurrentUserId(user);
    var organizer := OrganizerId(event.organizer);
    TruthyText(me) && TruthyText(organizer) && me.value == organizer.value
  }

  /**
   * Ownership is decided by the id alone: a populated organizer and a bare
   * id reference give the same answer, and an event without an organizer,
   * or a member without an id, never shows the delete button.
   */
  lemma OwnerCheckIgnoresPopulation(user: Option<User>, event: EventItem, id: string)
    requires id != ""
    ensures IsOwner(user, event.(organizer := OrganizerRecord(Some(id)))) == IsOwner(user, event.(organizer := OrganizerRef(id)))
    ensures IsOwner(user, event.(organizer := OrganizerRef(id))) <==> CurrentUserId(user) == Some(id)
    ensures !IsOwner(user, event.(organizer := NoOrganizer))
    ensures !TruthyText(CurrentUserId(user)) ==> !IsOwner(user, event)
  {
  }

  /** `event.attendees?.slice(0, 3)`: the avatars shown. */
  function AttendeePreview(attendees: Option<seq<Attendee>>): (r: seq<Attendee>)
    ensures attendees.None? ==> r == []
    ensures attendees.Some? ==> |r| == (if |attendees.value| < 3 then |attendees.value| else 3)
    ensures attendees.Some? ==> r == attendees.value[..|r|]
  {
    if attendees.None? then []
    else if |attendees.value| < 3 then attendees.value
    else attendees.value[..3]
  }

  /** `event.attendees?.length > 0 && "N Joined"`: the count, when there is one to show. */
  function JoinedCount(attendees: Option<seq<Attendee>>): (r: Option<nat>)
    ensures r.Some? <==> attendees.Some? && |attendees.value| > 0
    ensures r.Some? ==> r.value == |attendees.value|
  {
    if attendees.Some? && |attendees.value| > 0 then Some(|attendees.value|) else None
  }

  /** The preview never outgrows the count it sits beside. */
  lemma PreviewWithinCount(attendees: Option<seq<Attendee>>)
    ensures |AttendeePreview(attendees)| <= 3
    ensures JoinedCount(attendees).None? <==> AttendeePreview(attendees) == []
    ensures JoinedCount(attendees).Some? ==> |AttendeePreview(attendees)| <= JoinedCount(attendees).value
  {
  }

  /** `event.category || "General"`. */
  function CategoryLabel(event: EventItem): (r: string)
    ensures TruthyText(event.category) ==> r == event.category.value
    ensures !TruthyText(event.category) ==> r == "General"
  {
    TextOr(event.category, "General")
  }

  datatype BoardState = BoardState(events: seq<EventItem>, loading: bool)

  /** `fetchEvents`: the list on success, and the spinner off either way. */
  function FetchEventsSpec(s: BoardState, answer: Response<seq<EventItem>>): BoardState {
    BoardState(if answer.Ok? then answer.data else s.events, false)
  }

  /** What the board shows. */
  datatype BoardView = Spinner | NoGatherings | Cards(events: seq<EventItem>)

  function View(s: BoardState): (r: BoardView)
    ensures r.Spinner? <==> s.loading
    ensures r.NoGatherings? <==> !s.loading && s.events == []
  {
    if s.loading then Spinner else if s.events == [] then NoGatherings else Cards(s.events)
  }

  /** Whatever the backend answers, the first fetch ends the spinner. */
  lemma FetchEndsSpinner(s: BoardState, answer: Response<seq<EventItem>>)
    ensures !View(FetchEventsSpec(s, answer)).Spinner?
    ensures answer.Failed? ==> FetchEventsSpec(s, answer).events == s.events
    ensures answer.Ok? && answer.data != [] ==> View(FetchEventsSpec(s, answer)) == Cards(answer.data)
  {
  }

  class Board {
    var events: seq<EventItem>
    var loading: bool

    function State(): BoardState
      reads this
    {
      BoardState(events, loading)
    }

    constructor ()
      ensures State() == BoardState([], true)
    {
      events := [];
      loading := true;
    }

    method FetchEvents(answer: Response<seq<EventItem>>)
      modifies this
      ensures State() == FetchEventsSpec(old(State()), answer)
    {
      if answer.Ok? {
        events := answer.data;
      }
      loading := false;
    }

    /** `handleRSVP`: join, then re-fetch the board. */
    method HandleRsvp(eventId: string, answer: Response<()>, refetch: Response<seq<EventItem>>)
      returns (request: Url, toast: Toast)
      modifies this
      ensures request == EventRsvpUrl(Completed, eventId)
      ensures answer.Ok? ==> toast == Toast("You're on the list! \U{1F1E8}\U{1F1EE}", "Successfully RSVP'd for this event.", false)
      ensures answer.Failed? ==> toast == Toast("Action failed", ErrorText(answer.error, "Could not complete RSVP."), true)
      ensures State() == if answer.Ok? then FetchEventsSpec(old(State()), refetch) else old(State())
    {
      request := EventRsvpUrl(Completed, eventId);
      if answer.Failed? {
        toast := Toast("Action failed", ErrorText(answer.error, "Could not complete RSVP."), true);
        return;
      }
      toast := Toast("You're on the list! \U{1F1E8}\U{1F1EE}", "Successfully RSVP'd for this event.", false);
      FetchEvents(refetch);
    }

    /** `handleDelete`: a declined confirmation makes no call. */
    method HandleDelete(eventId: string, confirmed: bool, answer: Response<()>, refetch: Response<seq<EventItem>>)
      returns (request: Option<Url>, toast: Option<Toast>)
      modifies this
      ensures request.Some? <==> confirmed
      ensures request.Some? ==> request.value == EventDeleteUrl(Completed, eventId)
      ensures toast.None? <==> !confirmed
      ensures confirmed && answer.Ok? ==> toast == Some(Toast("Event Deleted", "The meetup has been removed.", false))
      ensures confirmed && answer.Failed? ==>
        toast == Some(Toast("Delete failed", "You are not authorized to delete this event.", true))
      ensures State() == if confirmed && answer.Ok? then FetchEventsSpec(old(State()), refetch) else old(State())
    {
      if !confirmed {
        return None, None;
      }
      request := Some(EventDeleteUrl(Completed, eventId));
      if answer.Failed? {
        toast := Some(Toast("Delete failed", "You are not authorized to delete this event.", true));
        return;
      }
      toast := Some(Toast("Event Deleted", "The meetup has been removed.", false));
      FetchEvents(refetch);
    }
  }
}
