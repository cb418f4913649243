/**
 * The event list page (frontend/src/pages/Home.jsx): which events it shows
 * for the search, category and date filters, the guards in front of an RSVP,
 * and the delete confirmation dialog. The API calls, the refresh after them
 * and the toasts are not modelled; a handler's effect is the request it
 * would send, if any.
 */
module HomePage {
  import opened JsText
  import opened JsValues
  import opened UiModel
  import EventsApi

  /** The event passes the page's filter chain; an empty `category` or `date` means "any". */
  predicate Shown(e: Event, search: string, category: string, date: string) {
    && e.title != ""
    && Includes(ToLower(e.title), ToLower(search))
    && (category != "" ==> e.category == category)
    && (date != "" ==> e.date == date)
  }

  /** The events the page renders, in list order. */
  function VisibleEvents(events: seq<Event>, search: string, category: string, date: string): (shown: seq<Event>)
    ensures |shown| <= |events|
    ensures forall e :: e in shown ==> e in events && Shown(e, search, category, date)
    ensures forall e :: e in events && Shown(e, search, category, date) ==> e in shown
  {
    if events == [] then []
    else
      var rest := VisibleEvents(events[1..], search, category, date);
      assert forall e :: e in events[1..] ==> e in events;
      if Shown(events[0], search, category, date) then [events[0]] + rest else rest
  }

  /** Filtering a concatenation filters each part: the shown events keep their relative order. */
  lemma {:induction false} VisibleEventsAppend(a: seq<Event>, b: seq<Event>, search: string, category: string, date: string)
    ensures VisibleEvents(a + b, search, category, date) == VisibleEvents(a, search, category, date) + VisibleEvents(b, search, category, date)
  {
    if a != [] {
      assert (a + b)[1..] == a[1..] + b;
      VisibleEventsAppend(a[1..], b, search, category, date);
    } else {
      assert a + b == b;
    }
  }

  /** With no search text, category or date, exactly the events with a title are shown. */
  lemma EmptyFiltersShowTitled(events: seq<Event>)
    ensures forall e :: e in VisibleEvents(events, "", "", "") <==> e in events && e.title != ""
  {
    forall e | e in events && e.title != "" ensures Shown(e, "", "", "") {
      IncludesEmpty(ToLower(e.title));
    }
  }

  /** What `handleRSVP` does. */
  datatype RsvpDecision = AdminRefused | LoginRequired | SendRsvp(body: EventsApi.RsvpBody)

  /** `!currentUserId`: no id, or the id 0. */
  predicate MissingUserId(currentUserId: Option<int>) {
    currentUserId.None? || currentUserId.value == 0
  }

  function HandleRsvp(eventId: int, status: string, currentUser: JsName, currentUserId: Option<int>, userRole: JsName): (d: RsvpDecision)
    ensures IsAdmin(userRole) <==> d == AdminRefused
    ensures d == LoginRequired <==> !IsAdmin(userRole) && (!Truthy(currentUser) || MissingUserId(currentUserId))
    ensures d.SendRsvp? ==> d.body == EventsApi.RsvpBody(currentUserId.value, eventId, status) && currentUserId.value != 0
  {
    if IsAdmin(userRole) then AdminRefused
    else if !Truthy(currentUser) || MissingUserId(currentUserId) then LoginRequired
    else SendRsvp(EventsApi.RsvpBody(currentUserId.value, eventId, status))
  }

  /** `userRole === "admin" || eventToDelete?.createdBy === currentUser`, the event looked up by `id` (`null` finds nothing). */
  predicate MayDelete(events: seq<Event>, id: Option<int>, currentUser: JsName, userRole: JsName) {
    IsAdmin(userRole) || CreatorOf(if id.Some? then FindById(events, id.value) else None) == currentUser
  }

  /**
   * A user who is not an admin may delete an event the list holds only when
   * the first event with that id names the user as its creator; an id the
   * list does not hold is refused unless the user prop is `undefined`.
   */
  lemma MayDeleteOnlyOwn(events: seq<Event>, id: int, currentUser: JsName, userRole: JsName)
    requires !IsAdmin(userRole)
    ensures MayDelete(events, Some(id), currentUser, userRole) <==>
      if exists i :: 0 <= i < |events| && events[i].id == id
      then exists i :: FirstWithId(events, id, i) && events[i].createdBy == currentUser
      else currentUser == Undefined
  {
    var found := FindById(events, id);
    if found.Some? {
      var i :| FirstWithId(events, id, i) && events[i] == found.value;
    }
  }

  /** The request `deleteEventInApi` would be called with. */
  datatype DeleteRequest = DeleteRequest(id: Option<int>, creatorId: int, requesterRole: string)

  /** The page's props and its delete dialog state. */
  class HomePage {
    const events: seq<Event>
    const currentUser: JsName
    const currentUserId: Option<int>
    const userRole: JsName
    var modalOpen: bool
    var modalEventId: Option<int>

    constructor(events: seq<Event>, currentUser: JsName, currentUserId: Option<int>, userRole: JsName)
      ensures this.events == events && this.currentUser == currentUser
      ensures this.currentUserId == currentUserId && this.userRole == userRole
      ensures !modalOpen && modalEventId.None?
    {
      this.events := events;
      this.currentUser := currentUser;
      this.currentUserId := currentUserId;
      this.userRole := userRole;
      modalOpen := false;
      modalEventId := None;
    }

    /** `handleDeleteClick(id)`: opens the dialog for `id` when deleting it is permitted, and otherwise changes nothing. */
    method DeleteClick(id: int) returns (refused: bool)
      modifies this
      ensures refused <==> !MayDelete(events, Some(id), currentUser, userRole)
      ensures !refused ==> modalOpen && modalEventId == Some(id)
      ensures refused ==> modalOpen == old(modalOpen) && modalEventId == old(modalEventId)
    {
      var eventToDelete := FindById(events, id);
      var canDelete := IsAdmin(userRole) || CreatorOf(eventToDelete) == currentUser;
      if !canDelete {
        return true;
      }
      modalOpen, modalEventId := true, Some(id);
      return false;
    }

    /** `handleDeleteConfirm()`: re-checks the permission, then the user id, and closes the dialog on every path. */
    method DeleteConfirm() returns (request: Option<DeleteRequest>)
      modifies this
      ensures !modalOpen && modalEventId.None?
      ensures request.Some? <==> MayDelete(events, old(modalEventId), currentUser, userRole) && !MissingUserId(currentUserId)
      ensures request.Some? ==> request.value == DeleteRequest(old(modalEventId), currentUserId.value, NameOr(userRole, "user"))
    {
      var eventToDelete := if modalEventId.Some? then FindById(events, modalEventId.value) else None;
      var canDelete := IsAdmin(userRole) || CreatorOf(eventToDelete) == currentUser;
      if !canDelete {
        modalOpen, modalEventId := false, None;
        return None;
      }
      if MissingUserId(currentUserId) {
        modalOpen, modalEventId := false, None;
        return None;
      }
      request := Some(DeleteRequest(modalEventId, currentUserId.value, NameOr(userRole, "user")));
      modalOpen, modalEventId := false, None;
    }

    /** `handleDeleteCancel()` */
    method DeleteCancel()
      modifies this
      ensures !modalOpen && modalEventId.None?
    {
      modalOpen, modalEventId := false, None;
    }
  }

  /** A permitted click followed by a confirmation sends the delete request for that event exactly when the user has an id. */
  method ClickThenConfirm(page: HomePage, id: int) returns (request: Option<DeleteRequest>)
    modifies page
    ensures MayDelete(page.events, Some(id), page.currentUser, page.userRole) && !MissingUserId(page.currentUserId) ==>
      request == Some(DeleteRequest(Some(id), page.currentUserId.value, NameOr(page.userRole, "user")))
    ensures MayDelete(page.events, Some(id), page.currentUser, page.userRole) && MissingUserId(page.currentUserId) ==> request.None?
    ensures !page.modalOpen
  {
    var refused := page.DeleteClick(id);
    request := page.DeleteConfirm();
  }
}
