/**
 * The values the frontend pages share: the event objects held in the app's
 * `events` list, the JavaScript values a user name or role can take, the
 * ownership rule of the pages, and the event-form rules that CreateEvent and
 * EditEvent both apply.
 */
module UiModel {
  import opened JsText
  import opened JsValues

  /**
   * A prop or field that holds a string, `null` or `undefined`. Dafny's `==`
   * on this type is JavaScript's `===`: `undefined === null` is false.
   */
  datatype JsName = Undefined | Null | Name(text: string)

  /** `Boolean(v)` */
  predicate Truthy(v: JsName) {
    v.Name? && v.text != ""
  }

  /** `String(v || "")` */
  function TextOr(v: JsName): (s: string)
    ensures Truthy(v) ==> s == v.text
    ensures !Truthy(v) ==> s == ""
  {
    if v.Name? then v.text else ""
  }

  /** `v || fallback` for a string fallback. */
  function NameOr(v: JsName, fallback: string): (s: string)
    ensures Truthy(v) ==> s == v.text
    ensures !Truthy(v) ==> s == fallback
  {
    if Truthy(v) then v.text else fallback
  }

  /** A capacity as the code holds it: the text of a form field, or a number. */
  datatype MaxValue = Text(s: string) | Numeric(n: JsNumber)

  /** `Number(m)`, where `num` is what `Number` gives for a string. */
  function ToNumber(m: MaxValue, num: string -> JsNumber): JsNumber {
    match m
    case Text(s) => num(s)
    case Numeric(n) => n
  }

  /** `m === "" ? "" : Number(m)`: the capacity kept after a form is submitted. */
  function NormalizeMax(m: MaxValue, num: string -> JsNumber): (r: MaxValue)
    ensures m == Text("") ==> r == Text("")
    ensures m != Text("") ==> r == Numeric(ToNumber(m, num))
  {
    if m == Text("") then Text("") else Numeric(ToNumber(m, num))
  }

  /** Normalising a normalised capacity changes nothing. */
  lemma NormalizeMaxIdempotent(m: MaxValue, num: string -> JsNumber)
    ensures NormalizeMax(NormalizeMax(m, num), num) == NormalizeMax(m, num)
  {
  }

  /** An entry of an event's attendee list: a bare name (the older format) or a name with a status. */
  datatype AttendeeEntry = Legacy(name: string) | Entry(name: string, status: string)

  /** An event object of the frontend's `events` list. */
  datatype Event = Event(
    id: int,
    title: string,
    description: string,
    location: string,
    date: string,
    time: string,
    category: string,
    maxAttendees: MaxValue,
    attendees: seq<AttendeeEntry>,
    createdBy: JsName,
    createdByRole: string,
    creatorId: Option<int>)

  /** `userRole === "admin"` */
  predicate IsAdmin(userRole: JsName) {
    userRole == Name("admin")
  }

  /** The pages' ownership rule: admins may change any event, others only the events `createdBy` names as theirs. */
  predicate OwnerOrAdmin(createdBy: JsName, currentUser: JsName, userRole: JsName) {
    IsAdmin(userRole) || createdBy == currentUser
  }

  /** `i` is the first position of an event with this id. */
  predicate FirstWithId(events: seq<Event>, id: int, i: int) {
    0 <= i < |events| && events[i].id == id && forall j :: 0 <= j < i ==> events[j].id != id
  }

  /** `events.find((event) => event.id === id)` */
  function FindById(events: seq<Event>, id: int): (r: Option<Event>)
    ensures r.Some? <==> exists i :: 0 <= i < |events| && events[i].id == id
    ensures r.Some? ==> exists i :: FirstWithId(events, id, i) && events[i] == r.value
  {
    if events == [] then None
    else if events[0].id == id then Some(events[0])
    else
      var r := FindById(events[1..], id);
      assert forall i :: 1 <= i < |events| ==> events[i] == events[1..][i - 1];
      if r.Some? then
        var k :| FirstWithId(events[1..], id, k) && events[1..][k] == r.value;
        assert FirstWithId(events, id, k + 1);
        r
      else r
  }

  /** `createdBy` of the event `find` returns, or `undefined` when there is none (`eventToDelete?.createdBy`). */
  function CreatorOf(found: Option<Event>): JsName {
    if found.Some? then found.value.createdBy else Undefined
  }

  /** The fields of the event form. */
  datatype EventForm = EventForm(
    title: string,
    date: string,
    time: string,
    location: string,
    description: string,
    category: string,
    maxAttendees: MaxValue)

  const TITLE_REQUIRED: string := "Title is required"
  const DATE_REQUIRED: string := "Date is required"
  const TIME_REQUIRED: string := "Time is required"
  const LOCATION_REQUIRED: string := "Location is required"
  const CATEGORY_REQUIRED: string := "Category is required"
  const DESCRIPTION_REQUIRED: string := "Description is required"
  const CAPACITY_INVALID: string := "Maximum attendees cannot be negative"

  /** The capacity field is rejected: something other than "" that is not a number, or a negative one. */
  predicate BadCapacity(m: MaxValue, num: string -> JsNumber) {
    m != Text("") && (ToNumber(m, num).NaN? || ToNumber(m, num).value < 0.0)
  }

  /** The `errors` object of the event form: one optional message per field. */
  datatype FormErrors = FormErrors(
    title: Option<string>,
    date: Option<string>,
    time: Option<string>,
    location: Option<string>,
    category: Option<string>,
    description: Option<string>,
    maxAttendees: Option<string>)
  {
    /** `Object.keys(errors).length > 0` */
    predicate Any() {
      title.Some? || date.Some? || time.Some? || location.Some? || category.Some? || description.Some? || maxAttendees.Some?
    }
  }

  const NO_FORM_ERRORS: FormErrors := FormErrors(None, None, None, None, None, None, None)

  /** `cond ? Some(message) : None`: the message a check reports. */
  function Check(failed: bool, message: string): (r: Option<string>)
    ensures r.Some? <==> failed
    ensures r.Some? ==> r.value == message
  {
    if failed then Some(message) else None
  }

  /** The errors the event form's `validateForm` reports, field by field. */
  function EventFormErrors(form: EventForm, num: string -> JsNumber): (errors: FormErrors)
    ensures !errors.Any() <==>
      Trim(form.title) != "" && form.date != "" && form.time != "" && Trim(form.location) != ""
      && Trim(form.category) != "" && Trim(form.description) != "" && !BadCapacity(form.maxAttendees, num)
    ensures errors.maxAttendees.Some? <==> BadCapacity(form.maxAttendees, num)
  {
    FormErrors(
      Check(Trim(form.title) == "", TITLE_REQUIRED),
      Check(form.date == "", DATE_REQUIRED),
      Check(form.time == "", TIME_REQUIRED),
      Check(Trim(form.location) == "", LOCATION_REQUIRED),
      Check(Trim(form.category) == "", CATEGORY_REQUIRED),
      Check(Trim(form.description) == "", DESCRIPTION_REQUIRED),
      Check(BadCapacity(form.maxAttendees, num), CAPACITY_INVALID))
  }

  /** A form that passes validation keeps a capacity that is "" or a non-negative number once normalised. */
  lemma ValidFormCapacity(form: EventForm, num: string -> JsNumber)
    requires !EventFormErrors(form, num).Any()
    ensures NormalizeMax(form.maxAttendees, num) == Text("") ||
      (NormalizeMax(form.maxAttendees, num).Numeric? && NormalizeMax(form.maxAttendees, num).n.Finite?
       && NormalizeMax(form.maxAttendees, num).n.value >= 0.0)
  {
  }

  /** The app's `events` state, which the pages replace through `setEvents`. */
  class EventList {
    var events: seq<Event>

    constructor(events: seq<Event>)
      ensures this.events == events
    {
      this.events := events;
    }
  }
}
