/**
 * The values an event card derives from its event and the signed-in user
 * (frontend/src/components/EventCard.jsx): attendance count, capacity,
 * the capacity note, the creator's role, the edit and delete permissions, and
 * the current user's RSVP status. Styling is not modelled.
 */
module EventCard {
  import opened JsText
  import opened JsValues
  import opened UiModel

  /** `normalizeAttendee(a)`: a bare name counts as a "going" attendee. */
  function NormalizeAttendee(a: AttendeeEntry): (n: AttendeeEntry)
    ensures n.Entry? && n.name == a.name
    ensures a.Legacy? ==> n.status == "going"
    ensures a.Entry? ==> n == a
  {
    match a
    case Legacy(name) => Entry(name, "going")
    case Entry(_, _) => a
  }

  /** The attendee is counted: its normalised status is not "notgoing". */
  predicate Counted(a: AttendeeEntry) {
    NormalizeAttendee(a).status != "notgoing"
  }

  /** `goingAttendees`: the counted attendees, in their order. */
  function GoingAttendees(attendees: seq<AttendeeEntry>): (going: seq<AttendeeEntry>)
    ensures |going| <= |attendees|
    ensures forall a :: a in going ==> a in attendees && Counted(a)
    ensures forall a :: a in attendees && Counted(a) ==> a in going
    ensures forall a :: multiset(going)[a] == if Counted(a) then multiset(attendees)[a] else 0
  {
    if attendees == [] then []
    else
      var rest := GoingAttendees(attendees[1..]);
      assert attendees == [attendees[0]] + attendees[1..];
      assert forall a :: a in attendees[1..] ==> a in attendees;
      if Counted(attendees[0]) then [attendees[0]] + rest else rest
  }

  /** Filtering a concatenation filters each part: the counted attendees keep their order. */
  lemma {:induction false} GoingAttendeesAppend(s: seq<AttendeeEntry>, t: seq<AttendeeEntry>)
    ensures GoingAttendees(s + t) == GoingAttendees(s) + GoingAttendees(t)
  {
    if s == [] {
      assert s + t == t;
    } else {
      assert (s + t)[1..] == s[1..] + t;
      GoingAttendeesAppend(s[1..], t);
    }
  }

  /** `attendeeCount` */
  function AttendeeCount(attendees: seq<AttendeeEntry>): (count: nat)
    ensures count <= |attendees|
    ensures count == |GoingAttendees(attendees)|
  {
    |GoingAttendees(attendees)|
  }

  /** Everyone is counted exactly when nobody declined. */
  lemma {:induction false} CountAllIffNoneDeclined(attendees: seq<AttendeeEntry>)
    ensures AttendeeCount(attendees) == |attendees| <==> forall i :: 0 <= i < |attendees| ==> Counted(attendees[i])
  {
    if attendees != [] {
      CountAllIffNoneDeclined(attendees[1..]);
      assert forall i :: 1 <= i < |attendees| ==> attendees[i] == attendees[1..][i - 1];
    }
  }

  /** A "going" or "maybe" RSVP added to the list raises the count by one; a "notgoing" one leaves it. */
  lemma {:induction false} CountOfAdded(a: AttendeeEntry, attendees: seq<AttendeeEntry>)
    ensures AttendeeCount([a] + attendees) == AttendeeCount(attendees) + (if Counted(a) then 1 else 0)
  {
    assert ([a] + attendees)[1..] == attendees;
  }

  /** `hasCapacityLimit`: the capacity is truthy and greater than 0. */
  predicate HasCapacityLimit(m: MaxValue, num: string -> JsNumber) {
    m != Text("") && ToNumber(m, num).Finite? && ToNumber(m, num).value > 0.0
  }

  /** `spotsLeft`: capacity minus count when there is a limit, `null` otherwise. */
  function SpotsLeft(m: MaxValue, count: nat, num: string -> JsNumber): (left: Option<real>)
    ensures left.Some? <==> HasCapacityLimit(m, num)
    ensures left.Some? ==> left.value == ToNumber(m, num).value - count as real
  {
    if HasCapacityLimit(m, num) then Some(ToNumber(m, num).value - count as real) else None
  }

  /** `isFull` */
  predicate IsFull(m: MaxValue, count: nat, num: string -> JsNumber) {
    HasCapacityLimit(m, num) && SpotsLeft(m, count, num).value <= 0.0
  }

  /** A full event has at least as many counted attendees as places. */
  lemma FullMeansCountReachesCapacity(m: MaxValue, count: nat, num: string -> JsNumber)
    ensures IsFull(m, count, num) <==> HasCapacityLimit(m, num) && count as real >= ToNumber(m, num).value
  {
  }

  /** What the card shows after the attendee count. */
  datatype CapacityNote = NoLimit | Full | FewSpotsLeft(left: real) | NoNote

  function CapacityNoteOf(m: MaxValue, count: nat, num: string -> JsNumber): (note: CapacityNote)
    ensures note == NoLimit <==> !HasCapacityLimit(m, num)
    ensures note == Full <==> IsFull(m, count, num)
    ensures note.FewSpotsLeft? <==>
      HasCapacityLimit(m, num) && !IsFull(m, count, num) && SpotsLeft(m, count, num).value <= 5.0
    ensures note.FewSpotsLeft? ==> 0.0 < note.left <= 5.0 && note.left == SpotsLeft(m, count, num).value
  {
    if !HasCapacityLimit(m, num) then NoLimit
    else if IsFull(m, count, num) then Full
    else if SpotsLeft(m, count, num).value <= 5.0 then FewSpotsLeft(SpotsLeft(m, count, num).value)
    else NoNote
  }

  /** `creatorRole` */
  function CreatorRole(e: Event): (role: string)
    ensures e.createdByRole != "" ==> role == e.createdByRole
    ensures e.createdByRole == "" ==> (role == "admin" <==> ToLower(TextOr(e.createdBy)) == "admin")
    ensures e.createdByRole == "" ==> role == "admin" || role == "user"
  {
    if e.createdByRole != "" then e.createdByRole
    else if ToLower(TextOr(e.createdBy)) == "admin" then "admin"
    else "user"
  }

  /** The card's edit and delete buttons. */
  datatype CardActions = CardActions(canEdit: bool, canDelete: bool)

  function Actions(e: Event, currentUser: JsName, userRole: JsName): (actions: CardActions)
    ensures actions.canEdit == actions.canDelete
    ensures actions.canEdit <==> IsAdmin(userRole) || e.createdBy == currentUser
  {
    CardActions(OwnerOrAdmin(e.createdBy, currentUser, userRole), OwnerOrAdmin(e.createdBy, currentUser, userRole))
  }

  /** A signed-in user who is not an admin gets neither button on an event someone else created. */
  lemma NoActionsForOthersEvents(e: Event, currentUser: JsName, userRole: JsName)
    requires !IsAdmin(userRole) && Truthy(currentUser) && e.createdBy != currentUser
    ensures !Actions(e, currentUser, userRole).canEdit && !Actions(e, currentUser, userRole).canDelete
  {
  }

  /** `i` is the first attendee whose name is the current user's. */
  predicate FirstNamed(attendees: seq<AttendeeEntry>, currentUser: JsName, i: int) {
    0 <= i < |attendees| && Name(attendees[i].name) == currentUser
    && forall j :: 0 <= j < i ==> Name(attendees[j].name) != currentUser
  }

  /** `currentUserStatus`: the status of the first attendee named `currentUser`, or `undefined` (None). */
  function CurrentUserStatus(attendees: seq<AttendeeEntry>, currentUser: JsName): (status: Option<string>)
    ensures status.None? <==> forall i :: 0 <= i < |attendees| ==> Name(attendees[i].name) != currentUser
    ensures status.Some? ==> exists i :: FirstNamed(attendees, currentUser, i) && status.value == NormalizeAttendee(attendees[i]).status
  {
    if attendees == [] then None
    else if Name(attendees[0].name) == currentUser then Some(NormalizeAttendee(attendees[0]).status)
    else
      var rest := CurrentUserStatus(attendees[1..], currentUser);
      assert forall i :: 1 <= i < |attendees| ==> attendees[i] == attendees[1..][i - 1];
      if rest.Some? then
        var k :| FirstNamed(attendees[1..], currentUser, k) && rest.value == NormalizeAttendee(attendees[1..][k]).status;
        assert FirstNamed(attendees, currentUser, k + 1);
        rest
      else rest
  }

  /** Without a signed-in user name there is no RSVP status to highlight. */
  lemma NoStatusWithoutUser(attendees: seq<AttendeeEntry>, currentUser: JsName)
    requires !currentUser.Name?
    ensures CurrentUserStatus(attendees, currentUser).None?
  {
  }
}
