/**
 * The event editing page (frontend/src/pages/EditEvent.jsx): the guard that
 * sends the user away from an event that does not exist or is not theirs,
 * validation of the form, and the submit, which either sends an update
 * request or replaces the event in the app's list. The form state starts as
 * the event being edited, so fields the form does not show (attendees,
 * creator) travel along. The route id is taken as the integer it denotes.
 */
module EditEvent {
  import opened JsText
  import opened JsValues
  import opened UiModel
  import EventsApi
  import CreateEvent

  /** The outcome of the guard effect. */
  datatype Guard = NotFound | NoPermission | MayEdit(e: Event)

  function EditGuard(events: seq<Event>, id: int, currentUser: JsName, userRole: JsName): (g: Guard)
    ensures g == NotFound <==> forall i :: 0 <= i < |events| ==> events[i].id != id
    ensures g == NoPermission <==> FindById(events, id).Some? && !OwnerOrAdmin(FindById(events, id).value.createdBy, currentUser, userRole)
    ensures g.MayEdit? ==> g.e.id == id && g.e in events && OwnerOrAdmin(g.e.createdBy, currentUser, userRole)
  {
    var found := FindById(events, id);
    if found.None? then NotFound
    else if !OwnerOrAdmin(found.value.createdBy, currentUser, userRole) then NoPermission
    else MayEdit(found.value)
  }

  /** An admin is only ever turned away from an event that does not exist. */
  lemma AdminOnlyNotFound(events: seq<Event>, id: int, currentUser: JsName)
    ensures EditGuard(events, id, currentUser, Name("admin")) != NoPermission
  {
  }

  /** The form fields of the form state. */
  function FormOf(e: Event): EventForm {
    EventForm(e.title, e.date, e.time, e.location, e.description, e.category, e.maxAttendees)
  }

  /**
   * `validateForm()`: the rules of the creation page, written out again in the
   * edit page, applied to the form fields of the form state.
   */
  method ValidateForm(formData: Event, num: string -> JsNumber) returns (errors: FormErrors)
    ensures errors == EventFormErrors(FormOf(formData), num)
  {
    errors := CreateEvent.ValidateForm(FormOf(formData), num);
  }

  /** `events.map((event) => event.id === id ? replacement : event)` */
  function ReplaceById(events: seq<Event>, id: int, replacement: Event): (r: seq<Event>)
    ensures |r| == |events|
    ensures forall i :: 0 <= i < |events| && events[i].id == id ==> r[i] == replacement
    ensures forall i :: 0 <= i < |events| && events[i].id != id ==> r[i] == events[i]
  {
    if events == [] then []
    else [if events[0].id == id then replacement else events[0]] + ReplaceById(events[1..], id, replacement)
  }

  /** Replacing twice with the same event is replacing once, when the replacement keeps the id. */
  lemma ReplaceByIdIdempotent(events: seq<Event>, id: int, replacement: Event)
    requires replacement.id == id
    ensures ReplaceById(ReplaceById(events, id, replacement), id, replacement) == ReplaceById(events, id, replacement)
  {
    var once := ReplaceById(events, id, replacement);
    var twice := ReplaceById(once, id, replacement);
    assert forall i :: 0 <= i < |events| ==> twice[i] == once[i];
  }

  /** After the replacement the id finds the new event, provided the list held it; every other id finds what it found before. */
  lemma {:induction false} ReplaceByIdFind(events: seq<Event>, id: int, replacement: Event, other: int)
    requires replacement.id == id && other != id
    ensures FindById(events, id).Some? ==> FindById(ReplaceById(events, id, replacement), id) == Some(replacement)
    ensures FindById(ReplaceById(events, id, replacement), other) == FindById(events, other)
  {
    if events != [] {
      ReplaceByIdFind(events[1..], id, replacement, other);
    }
  }

  /** The event the form state becomes once saved: its capacity normalised and its id the route's. */
  function SavedEvent(formData: Event, id: int, num: string -> JsNumber): Event {
    formData.(id := id, maxAttendees := NormalizeMax(formData.maxAttendees, num))
  }

  /** What `handleSubmit` did. */
  datatype SubmitOutcome =
    | Invalid(errors: FormErrors)
    | MissingUser
    | UpdateFailed(request: EventsApi.UpdateBody)
    | UpdateSent(request: EventsApi.UpdateBody)
    | SavedLocally

  /** The update request the API path sends. */
  function UpdateRequest(formData: Event, id: int, currentUserId: int, userRole: JsName, num: string -> JsNumber): (b: EventsApi.UpdateBody)
    ensures b.id == id && b.creatorId == Some(currentUserId) && b.requesterRole == NameOr(userRole, "user")
    ensures b.fields == EventsApi.BodyFields(Name(formData.title), Name(formData.description), Name(formData.location),
      formData.date, formData.time, Name(formData.category), NormalizeMax(formData.maxAttendees, num), num)
    ensures b.fields.title == Trim(formData.title) && b.fields.description == Trim(formData.description)
    ensures b.fields.location == Trim(formData.location) && b.fields.category == Trim(formData.category)
    ensures b.fields.eventDate == formData.date && b.fields.eventTime == formData.time
    ensures b.fields.maxAttendees.None? <==> formData.maxAttendees == Text("")
  {
    EventsApi.UpdateEventBody(id, Some(currentUserId), NameOr(userRole, "user"),
      Name(formData.title), Name(formData.description), Name(formData.location), formData.date, formData.time,
      Name(formData.category), NormalizeMax(formData.maxAttendees, num), num)
  }

  /**
   * `handleSubmit()`. `apiFails` is a rejected update request and `synced`
   * whether the refresh after it succeeded; a successful refresh replaces the
   * list with the API's events, which is not modelled here.
   */
  method Submit(list: EventList, formData: Event, id: int, currentUserId: Option<int>, userRole: JsName,
                apiConnected: bool, apiFails: bool, synced: bool, num: string -> JsNumber)
    returns (outcome: SubmitOutcome)
    modifies list
    ensures EventFormErrors(FormOf(formData), num).Any() <==> outcome.Invalid?
    ensures outcome.Invalid? ==> outcome.errors == EventFormErrors(FormOf(formData), num)
    ensures outcome == SavedLocally <==> !outcome.Invalid? && !apiConnected
    ensures outcome == MissingUser <==> !outcome.Invalid? && apiConnected && (currentUserId.None? || currentUserId.value == 0)
    ensures outcome.UpdateSent? || outcome.UpdateFailed? ==>
      outcome.request == UpdateRequest(formData, id, currentUserId.value, userRole, num)
    ensures outcome.UpdateFailed? <==> !outcome.Invalid? && apiConnected && outcome != MissingUser && apiFails
    ensures (outcome == SavedLocally || (outcome.UpdateSent? && !synced)) ==>
      list.events == ReplaceById(old(list.events), id, SavedEvent(formData, id, num))
    ensures !(outcome == SavedLocally || (outcome.UpdateSent? && !synced)) ==> list.events == old(list.events)
  {
    var errors := ValidateForm(formData, num);
    if errors.Any() {
      return Invalid(errors);
    }
    var normalizedMaxAttendees := NormalizeMax(formData.maxAttendees, num);
    if apiConnected {
      if currentUserId.None? || currentUserId.value == 0 {
        return MissingUser;
      }
      var request := EventsApi.UpdateEventBody(id, currentUserId, NameOr(userRole, "user"),
        Name(formData.title), Name(formData.description), Name(formData.location), formData.date, formData.time,
        Name(formData.category), normalizedMaxAttendees, num);
      if apiFails {
        return UpdateFailed(request);
      }
      if !synced {
        list.events := ReplaceById(list.events, id, formData.(id := id, maxAttendees := normalizedMaxAttendees));
      }
      return UpdateSent(request);
    }
    list.events := ReplaceById(list.events, id, formData.(id := id, maxAttendees := normalizedMaxAttendees));
    return SavedLocally;
  }
}
