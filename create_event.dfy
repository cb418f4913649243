/**
 * The event creation page (frontend/src/pages/CreateEvent.jsx): validation
 * of the form and the event it appends to the app's list. `Date.now()`,
 * which gives the new event its id, is a parameter.
 */
module CreateEvent {
  import opened JsText
  import opened JsValues
  import opened UiModel

  /** `validateForm()`: the errors object filled by one conditional write per rule. */
  method ValidateForm(form: EventForm, num: string -> JsNumber) returns (errors: FormErrors)
    ensures errors == EventFormErrors(form, num)
  {
    errors := NO_FORM_ERRORS;
    if Trim(form.title) == "" { errors := errors.(title := Some(TITLE_REQUIRED)); }
    if form.date == "" { errors := errors.(date := Some(DATE_REQUIRED)); }
    if form.time == "" { errors := errors.(time := Some(TIME_REQUIRED)); }
    if Trim(form.location) == "" { errors := errors.(location := Some(LOCATION_REQUIRED)); }
    if Trim(form.category) == "" { errors := errors.(category := Some(CATEGORY_REQUIRED)); }
    if Trim(form.description) == "" { errors := errors.(description := Some(DESCRIPTION_REQUIRED)); }
    if form.maxAttendees != Text("") {
      var parsedCapacity := ToNumber(form.maxAttendees, num);
      if parsedCapacity.NaN? || parsedCapacity.value < 0.0 {
        errors := errors.(maxAttendees := Some(CAPACITY_INVALID));
      }
    }
  }

  /** The event `handleSubmit` builds: the form's fields as typed, no attendees, and the signed-in user as creator. */
  function NewEvent(form: EventForm, now: int, currentUser: JsName, userRole: JsName, num: string -> JsNumber): (e: Event)
    ensures e.id == now && e.attendees == []
    ensures e.title == form.title && e.date == form.date && e.time == form.time && e.location == form.location
    ensures e.description == form.description && e.category == form.category
    ensures e.maxAttendees == NormalizeMax(form.maxAttendees, num)
    ensures e.createdBy == currentUser && e.createdByRole == NameOr(userRole, "user")
    ensures e.creatorId.None?
  {
    Event(now, form.title, form.description, form.location, form.date, form.time, form.category,
          NormalizeMax(form.maxAttendees, num), [], currentUser, NameOr(userRole, "user"), None)
  }

  /** The creator of a new event may edit it, whatever the role. */
  lemma CreatorMayEditNewEvent(form: EventForm, now: int, currentUser: JsName, userRole: JsName, num: string -> JsNumber)
    ensures OwnerOrAdmin(NewEvent(form, now, currentUser, userRole, num).createdBy, currentUser, userRole)
  {
  }

  /** `handleSubmit()`: on a valid form the new event is appended at the end of the list; otherwise the list is left alone. */
  method Submit(list: EventList, form: EventForm, now: int, currentUser: JsName, userRole: JsName, num: string -> JsNumber)
    returns (errors: FormErrors)
    modifies list
    ensures errors == EventFormErrors(form, num)
    ensures errors.Any() ==> list.events == old(list.events)
    ensures !errors.Any() ==> list.events == old(list.events) + [NewEvent(form, now, currentUser, userRole, num)]
  {
    errors := ValidateForm(form, num);
    if errors.Any() {
      return;
    }
    var normalizedMaxAttendees := NormalizeMax(form.maxAttendees, num);
    var newEvent := Event(now, form.title, form.description, form.location, form.date, form.time, form.category,
                          normalizedMaxAttendees, [], currentUser, NameOr(userRole, "user"), None);
    list.events := list.events + [newEvent];
  }

  /** A submitted event is found by its id unless an earlier event already has that id. */
  lemma {:induction false} AppendedEventFound(events: seq<Event>, e: Event)
    requires forall i :: 0 <= i < |events| ==> events[i].id != e.id
    ensures FindById(events + [e], e.id) == Some(e)
  {
    if events != [] {
      assert (events + [e])[1..] == events[1..] + [e];
      AppendedEventFound(events[1..], e);
    }
  }
}
