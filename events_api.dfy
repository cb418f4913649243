/**
 * The frontend's API helpers (frontend/src/services/eventsApi.js): reading a
 * time of day out of an API value, choosing the error message of a failed
 * response, turning an API event into the frontend's event object, and
 * building the bodies of the create and update requests. `fetch` itself is
 * not modelled; a response is given by its `ok` flag, status and body.
 */
module EventsApi {
  import opened JsText
  import opened JsValues
  import opened UiModel

  // ---------------------------------------------------------------------------
  // toTimeString

  /** `(\d{2}):(\d{2})` matches `s` at position `i`. */
  predicate TimeAt(s: string, i: int) {
    0 <= i && i + 5 <= |s|
    && IsDigit(s[i]) && IsDigit(s[i + 1]) && s[i + 2] == ':' && IsDigit(s[i + 3]) && IsDigit(s[i + 4])
  }

  /** The leftmost position at or after `from` where the time pattern matches, as `String.prototype.match` finds it. */
  function FirstTimeAt(s: string, from: nat): (r: Option<nat>)
    ensures r.Some? ==> from <= r.value && TimeAt(s, r.value)
    ensures r.Some? ==> forall j :: from <= j < r.value ==> !TimeAt(s, j)
    ensures r.None? ==> forall j :: from <= j ==> !TimeAt(s, j)
    decreases |s| - from
  {
    if from + 5 > |s| then None
    else if TimeAt(s, from) then Some(from)
    else FirstTimeAt(s, from + 1)
  }

  /**
   * `toTimeString(value)` for a value whose string form is `raw` ("" when the
   * value is falsy). `dateFallback` is what the `new Date(value)` path yields
   * when the pattern does not match; that path is not modelled.
   */
  function ToTimeString(raw: string, dateFallback: string): (r: string)
    ensures raw == "" ==> r == ""
    ensures raw != "" && FirstTimeAt(raw, 0).Some? ==>
      var i := FirstTimeAt(raw, 0).value; r == raw[i..i + 5] && TimeAt(r, 0) && |r| == 5
    ensures raw != "" && FirstTimeAt(raw, 0).None? ==> r == dateFallback
  {
    if raw == "" then ""
    else
      match FirstTimeAt(raw, 0)
      case Some(i) => raw[i..i + 2] + ":" + raw[i + 3..i + 5]
      case None => dateFallback
  }

  /** A time already written as `HH:MM`, or followed by more text such as seconds, reads back as itself. */
  lemma ToTimeStringKeepsLeadingTime(t: string, rest: string, dateFallback: string)
    requires |t| == 5 && TimeAt(t, 0)
    ensures ToTimeString(t + rest, dateFallback) == t
  {
    assert TimeAt(t + rest, 0);
    assert (t + rest)[0..5] == t;
  }

  /** Whenever the pattern matched, converting the result again changes nothing. */
  lemma ToTimeStringIdempotent(raw: string, dateFallback: string, otherFallback: string)
    requires raw != "" && FirstTimeAt(raw, 0).Some?
    ensures ToTimeString(ToTimeString(raw, dateFallback), otherFallback) == ToTimeString(raw, dateFallback)
  {
    var t := ToTimeString(raw, dateFallback);
    ToTimeStringKeepsLeadingTime(t, "", otherFallback);
    assert t + "" == t;
  }

  // ---------------------------------------------------------------------------
  // parseApiResponse

  /** A field of a JSON error body: missing or falsy, a string, or an array of strings. */
  datatype JsField = Absent | Str(s: string) | StrList(items: seq<string>)

  /** The field is truthy: a non-empty string or any array. */
  predicate FieldTruthy(f: JsField) {
    (f.Str? && f.s != "") || f.StrList?
  }

  /** The text `new Error(message)` gets from a truthy field: an array is joined with ", ". */
  function FieldText(f: JsField): string {
    match f
    case Absent => ""
    case Str(s) => s
    case StrList(items) => Join(items, ", ")
  }

  /**
   * A decoded response body: a JSON object (or `null` or an array, whose
   * `error` and `message` are missing), a string, or another JSON value.
   */
  datatype ResponseBody = ObjectBody(error: JsField, message: JsField) | StringBody(text: string) | OtherBody

  datatype ApiResult = Ok(body: ResponseBody) | Failed(message: string)

  /** The message of the error a failed response throws. */
  function FailureMessage(status: nat, body: ResponseBody): (message: string)
    ensures body.ObjectBody? && FieldTruthy(body.error) ==> message == FieldText(body.error)
    ensures body.ObjectBody? && !FieldTruthy(body.error) && FieldTruthy(body.message) ==> message == FieldText(body.message)
    ensures body.StringBody? && body.text != "" ==> message == body.text
    ensures !(body.ObjectBody? && (FieldTruthy(body.error) || FieldTruthy(body.message))) && !(body.StringBody? && body.text != "") ==>
      message == "Request failed with status " + Decimal(status)
  {
    if body.ObjectBody? && FieldTruthy(body.error) then FieldText(body.error)
    else if body.ObjectBody? && FieldTruthy(body.message) then FieldText(body.message)
    else if body.StringBody? && body.text != "" then body.text
    else "Request failed with status " + Decimal(status)
  }

  /** `parseApiResponse(response)` (Login.jsx holds a copy with the same behaviour). */
  function ParseApiResponse(ok: bool, status: nat, body: ResponseBody): (r: ApiResult)
    ensures ok ==> r == Ok(body)
    ensures !ok ==> r == Failed(FailureMessage(status, body))
  {
    if ok then Ok(body) else Failed(FailureMessage(status, body))
  }

  /** Unless the server sent its error as an array, a failure always comes with a non-empty message. */
  lemma FailureMessageNonEmpty(status: nat, body: ResponseBody)
    requires body.ObjectBody? ==> !body.error.StrList? && !body.message.StrList?
    ensures FailureMessage(status, body) != ""
  {
  }

  /** A list of messages arrives as one text, the items separated by ", "; a single message arrives unchanged. */
  lemma FailureMessageJoinsList(status: nat, items: seq<string>, message: JsField)
    ensures FailureMessage(status, ObjectBody(StrList(items), message)) == Join(items, ", ")
    ensures |items| == 1 ==> FailureMessage(status, ObjectBody(StrList(items), message)) == items[0]
  {
  }

  // ---------------------------------------------------------------------------
  // normalizeEventFromApi

  /** A registration of an API event; `userName` is "" when the registration, its user or the name is missing. */
  datatype ApiRegistration = ApiRegistration(userName: string, status: string)

  /** The creator object of an API event; an `id` of 0 stands for a missing one. */
  datatype ApiCreator = ApiCreator(name: string, role: string, id: int)

  /**
   * An event as the API returns it. A missing or falsy string field is "";
   * `category` is the category's name; `creatorId` 0 stands for a missing
   * one; `registrations` is None when it is not an array.
   */
  datatype ApiEvent = ApiEvent(
    id: int,
    title: string,
    description: string,
    location: string,
    eventDate: string,
    eventTime: string,
    category: string,
    maxAttendees: Option<JsNumber>,
    registrations: Option<seq<ApiRegistration>>,
    creator: Option<ApiCreator>,
    creatorId: int)

  /** `{ name: registration?.user?.name || "Unknown User", status: registration?.status || "going" }` */
  function AttendeeFromApi(r: ApiRegistration): (a: AttendeeEntry)
    ensures a.Entry? && a.name != "" && a.status != ""
    ensures r.userName != "" ==> a.name == r.userName
    ensures r.status != "" ==> a.status == r.status
  {
    Entry(if r.userName != "" then r.userName else "Unknown User", if r.status != "" then r.status else "going")
  }

  /** The attendee list, one entry per registration and in the same order. */
  function AttendeesFromApi(rs: seq<ApiRegistration>): (attendees: seq<AttendeeEntry>)
    ensures |attendees| == |rs|
    ensures forall i :: 0 <= i < |rs| ==> attendees[i] == AttendeeFromApi(rs[i])
  {
    if rs == [] then [] else [AttendeeFromApi(rs[0])] + AttendeesFromApi(rs[1..])
  }

  /** The creator's id: `event.creatorId || event.creator?.id || null`. */
  function CreatorIdFromApi(e: ApiEvent): (r: Option<int>)
    ensures e.creatorId != 0 ==> r == Some(e.creatorId)
    ensures e.creatorId == 0 && e.creator.Some? && e.creator.value.id != 0 ==> r == Some(e.creator.value.id)
    ensures r.None? <==> e.creatorId == 0 && (e.creator.None? || e.creator.value.id == 0)
  {
    if e.creatorId != 0 then Some(e.creatorId)
    else if e.creator.Some? && e.creator.value.id != 0 then Some(e.creator.value.id)
    else None
  }

  /** `normalizeEventFromApi(event)`; `toDate` is `toDateString`, which is not modelled. */
  function NormalizeEventFromApi(e: ApiEvent, toDate: string -> string, timeFallback: string): (r: Event)
    ensures r.id == e.id && r.title == e.title && r.description == e.description && r.location == e.location
    ensures r.category == (if e.category != "" then e.category else "General")
    ensures e.maxAttendees.None? <==> r.maxAttendees == Text("")
    ensures e.maxAttendees.Some? ==> r.maxAttendees == Numeric(e.maxAttendees.value)
    ensures e.registrations.None? ==> r.attendees == []
    ensures e.registrations.Some? ==> r.attendees == AttendeesFromApi(e.registrations.value)
    ensures r.date == toDate(e.eventDate) && r.time == ToTimeString(e.eventTime, timeFallback)
    ensures r.createdBy == Name(if e.creator.Some? then e.creator.value.name else "")
    ensures r.createdByRole == (if e.creator.Some? && e.creator.value.role != "" then e.creator.value.role else "user")
    ensures r.createdByRole != ""
    ensures r.creatorId == CreatorIdFromApi(e)
  {
    Event(
      e.id,
      e.title,
      e.description,
      e.location,
      toDate(e.eventDate),
      ToTimeString(e.eventTime, timeFallback),
      if e.category != "" then e.category else "General",
      if e.maxAttendees.Some? then Numeric(e.maxAttendees.value) else Text(""),
      if e.registrations.Some? then AttendeesFromApi(e.registrations.value) else [],
      Name(if e.creator.Some? then e.creator.value.name else ""),
      if e.creator.Some? && e.creator.value.role != "" then e.creator.value.role else "user",
      CreatorIdFromApi(e))
  }

  /** A capacity of 0 is kept as the number 0: only `null` or `undefined` become "". */
  lemma ZeroCapacityKept(e: ApiEvent, toDate: string -> string, timeFallback: string)
    requires e.maxAttendees == Some(Finite(0.0))
    ensures NormalizeEventFromApi(e, toDate, timeFallback).maxAttendees == Numeric(Finite(0.0))
  {
  }

  // ---------------------------------------------------------------------------
  // Request bodies of createEventInApi and updateEventInApi

  /** The event fields both request bodies send. */
  datatype EventFields = EventFields(
    title: string,
    description: string,
    location: string,
    eventDate: string,
    eventTime: string,
    category: string,
    maxAttendees: Option<JsNumber>)

  /** The field values as both helpers compute them: texts trimmed, and a capacity of "" sent as `null`. */
  function BodyFields(title: JsName, description: JsName, location: JsName, date: string, time: string,
                      category: JsName, maxAttendees: MaxValue, num: string -> JsNumber): (f: EventFields)
    ensures Unpadded(f.title) && Unpadded(f.description) && Unpadded(f.location) && Unpadded(f.category)
    ensures f.title == Trim(TextOr(title)) && f.description == Trim(TextOr(description))
    ensures f.location == Trim(TextOr(location)) && f.category == Trim(TextOr(category))
    ensures f.eventDate == date && f.eventTime == time
    ensures f.maxAttendees.None? <==> maxAttendees == Text("")
    ensures maxAttendees != Text("") ==> f.maxAttendees == Some(ToNumber(maxAttendees, num))
  {
    EventFields(
      Trim(TextOr(title)),
      Trim(TextOr(description)),
      Trim(TextOr(location)),
      date,
      time,
      Trim(TextOr(category)),
      if maxAttendees == Text("") then None else Some(ToNumber(maxAttendees, num)))
  }

  /** Sending the fields of a body back through the helper yields the same body. */
  lemma BodyFieldsIdempotent(f: EventFields, num: string -> JsNumber)
    requires Unpadded(f.title) && Unpadded(f.description) && Unpadded(f.location) && Unpadded(f.category)
    ensures BodyFields(Name(f.title), Name(f.description), Name(f.location), f.eventDate, f.eventTime, Name(f.category),
                       if f.maxAttendees.Some? then Numeric(f.maxAttendees.value) else Text(""), num) == f
  {
    TrimUnpadded(f.title);
    TrimUnpadded(f.description);
    TrimUnpadded(f.location);
    TrimUnpadded(f.category);
  }

  /** The body `createEventInApi` posts to `/events/create`. */
  datatype CreateBody = CreateBody(fields: EventFields, creatorId: Option<int>)

  /** The body `updateEventInApi` posts to `/events/editEvent`. */
  datatype UpdateBody = UpdateBody(id: int, creatorId: Option<int>, requesterRole: string, fields: EventFields)

  function CreateEventBody(title: JsName, description: JsName, location: JsName, date: string, time: string,
                           category: JsName, creatorId: Option<int>, maxAttendees: MaxValue, num: string -> JsNumber): (b: CreateBody)
    ensures b.fields == BodyFields(title, description, location, date, time, category, maxAttendees, num)
    ensures b.creatorId == creatorId
  {
    CreateBody(BodyFields(title, description, location, date, time, category, maxAttendees, num), creatorId)
  }

  function UpdateEventBody(id: int, creatorId: Option<int>, requesterRole: string, title: JsName, description: JsName,
                           location: JsName, date: string, time: string, category: JsName, maxAttendees: MaxValue,
                           num: string -> JsNumber): (b: UpdateBody)
    ensures b.fields == BodyFields(title, description, location, date, time, category, maxAttendees, num)
    ensures b.id == id && b.creatorId == creatorId && b.requesterRole == requesterRole
  {
    UpdateBody(id, creatorId, requesterRole, BodyFields(title, description, location, date, time, category, maxAttendees, num))
  }

  /** The create and update requests send the same event fields for the same input. */
  lemma CreateAndUpdateAgree(id: int, creatorId: Option<int>, requesterRole: string, title: JsName, description: JsName,
                             location: JsName, date: string, time: string, category: JsName, maxAttendees: MaxValue,
                             num: string -> JsNumber)
    ensures CreateEventBody(title, description, location, date, time, category, creatorId, maxAttendees, num).fields
      == UpdateEventBody(id, creatorId, requesterRole, title, description, location, date, time, category, maxAttendees, num).fields
  {
  }

  /** The body `upsertRsvpInApi` posts to `/registrations/register`. */
  datatype RsvpBody = RsvpBody(userId: int, eventId: int, status: string)
}
