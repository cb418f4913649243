/**
 * The RSVP routes of the backend (backend/routes/registrations.js): an upsert
 * into the `registrations` table, which holds at most one row per
 * (user, event) pair, and the attendee list of one event. The upsert has the
 * meaning of PostgreSQL's `INSERT … ON CONFLICT (user_id, event_id) DO UPDATE
 * SET status`: a new pair gets a new row stamped with the current time, an
 * existing pair keeps its row and only its status changes.
 */
module RegistrationRoutes {

  /** One row of `registrations`; `registeredAt` is the time the row was first inserted. */
  datatype Registration = Registration(userId: int, eventId: int, status: string, registeredAt: int)

  /** The `users` columns the attendee query reads. */
  datatype UserInfo = UserInfo(name: string, email: string)

  /** One row of the attendee query. */
  datatype Attendee = Attendee(name: string, email: string, status: string, registeredAt: int)

  datatype Body = RowBody(row: Registration) | AttendeesBody(attendees: set<Attendee>) | ErrorBody(error: string)

  datatype Reply = Reply(status: int, body: Body)

  const SERVER_ERROR: Reply := Reply(500, ErrorBody("Server Error"))

  /** Every row is stored under its own (user, event) pair. */
  predicate KeyedByPair(rows: map<(int, int), Registration>) {
    forall k :: k in rows ==> rows[k].userId == k.0 && rows[k].eventId == k.1
  }

  /** The table after the upsert of (`userId`, `eventId`, `status`) at time `now`. */
  function Upsert(rows: map<(int, int), Registration>, userId: int, eventId: int, status: string, now: int)
    : (after: map<(int, int), Registration>)
    ensures after.Keys == rows.Keys + {(userId, eventId)}
    ensures after[(userId, eventId)].status == status
    ensures after[(userId, eventId)].userId == userId && after[(userId, eventId)].eventId == eventId
    ensures (userId, eventId) in rows && KeyedByPair(rows) ==> after[(userId, eventId)] == rows[(userId, eventId)].(status := status)
    ensures (userId, eventId) !in rows ==> after[(userId, eventId)].registeredAt == now
    ensures forall k :: k in rows && k != (userId, eventId) ==> after[k] == rows[k]
    ensures KeyedByPair(rows) ==> KeyedByPair(after)
  {
    var key := (userId, eventId);
    if key in rows then rows[key := rows[key].(status := status, userId := userId, eventId := eventId)]
    else rows[key := Registration(userId, eventId, status, now)]
  }

  /** Sending the same RSVP twice leaves the table as sending it once, whenever the second one arrives. */
  lemma UpsertIdempotent(rows: map<(int, int), Registration>, userId: int, eventId: int, status: string, now: int, later: int)
    ensures Upsert(Upsert(rows, userId, eventId, status, now), userId, eventId, status, later)
      == Upsert(rows, userId, eventId, status, now)
  {
    var once := Upsert(rows, userId, eventId, status, now);
    var twice := Upsert(once, userId, eventId, status, later);
    assert twice[(userId, eventId)] == once[(userId, eventId)];
  }

  /** Of two RSVPs for the same pair the later status wins, and the first insertion time stays. */
  lemma UpsertLastWriterWins(rows: map<(int, int), Registration>, userId: int, eventId: int, first: string, second: string, now: int, later: int)
    ensures Upsert(Upsert(rows, userId, eventId, first, now), userId, eventId, second, later)
      == Upsert(rows, userId, eventId, second, now)
  {
    var a := Upsert(Upsert(rows, userId, eventId, first, now), userId, eventId, second, later);
    var b := Upsert(rows, userId, eventId, second, now);
    assert a[(userId, eventId)] == b[(userId, eventId)];
  }

  /** The attendee query: the rows of `eventId` joined with their users; rows whose user is missing drop out. */
  function Attendees(rows: map<(int, int), Registration>, users: map<int, UserInfo>, eventId: int): (r: set<Attendee>)
  {
    set k | k in rows && k.1 == eventId && k.0 in users ::
      Attendee(users[k.0].name, users[k.0].email, rows[k].status, rows[k].registeredAt)
  }

  /** After an RSVP by a known user, that user is listed for the event with the new status. */
  lemma UpsertListsAttendee(rows: map<(int, int), Registration>, users: map<int, UserInfo>, userId: int, eventId: int, status: string, now: int)
    requires userId in users
    ensures exists t :: Attendee(users[userId].name, users[userId].email, status, t) in Attendees(Upsert(rows, userId, eventId, status, now), users, eventId)
  {
    var after := Upsert(rows, userId, eventId, status, now);
    var k := (userId, eventId);
    assert Attendee(users[userId].name, users[userId].email, status, after[k].registeredAt) in Attendees(after, users, eventId);
  }

  /** An RSVP for one event leaves the attendee list of every other event unchanged. */
  lemma UpsertKeepsOtherEvents(rows: map<(int, int), Registration>, users: map<int, UserInfo>, userId: int, eventId: int, status: string, now: int, otherEvent: int)
    requires otherEvent != eventId
    ensures Attendees(Upsert(rows, userId, eventId, status, now), users, otherEvent) == Attendees(rows, users, otherEvent)
  {
    var after := Upsert(rows, userId, eventId, status, now);
    forall a | a in Attendees(after, users, otherEvent) ensures a in Attendees(rows, users, otherEvent) {
      var k :| k in after && k.1 == otherEvent && k.0 in users &&
        a == Attendee(users[k.0].name, users[k.0].email, after[k].status, after[k].registeredAt);
      assert k in rows && after[k] == rows[k];
    }
    forall a | a in Attendees(rows, users, otherEvent) ensures a in Attendees(after, users, otherEvent) {
      var k :| k in rows && k.1 == otherEvent && k.0 in users &&
        a == Attendee(users[k.0].name, users[k.0].email, rows[k].status, rows[k].registeredAt);
      assert k in after && after[k] == rows[k];
    }
  }

  /** The registrations table. */
  class RegistrationTable {
    var rows: map<(int, int), Registration>

    ghost predicate Valid()
      reads this
    {
      KeyedByPair(rows)
    }

    constructor()
      ensures Valid() && rows == map[]
    {
      rows := map[];
    }

    /** POST /api/registrations at time `now`; `storeFails` is a rejected statement (a constraint or connection error). */
    method Register(userId: int, eventId: int, status: string, now: int, storeFails: bool) returns (reply: Reply)
      requires Valid()
      modifies this
      ensures Valid()
      ensures storeFails ==> reply == SERVER_ERROR && rows == old(rows)
      ensures !storeFails ==>
        && rows == Upsert(old(rows), userId, eventId, status, now)
        && reply == Reply(200, RowBody(rows[(userId, eventId)]))
    {
      if storeFails {
        return SERVER_ERROR;
      }
      rows := Upsert(rows, userId, eventId, status, now);
      return Reply(200, RowBody(rows[(userId, eventId)]));
    }

    /** GET /api/registrations/:eventId/attendees. */
    method ListAttendees(eventId: int, users: map<int, UserInfo>, storeFails: bool) returns (reply: Reply)
      ensures storeFails ==> reply == SERVER_ERROR
      ensures !storeFails ==> reply.status == 200 && reply.body.AttendeesBody?
      ensures !storeFails ==> forall a :: a in reply.body.attendees <==>
        exists k :: k in rows && k.1 == eventId && k.0 in users &&
          a == Attendee(users[k.0].name, users[k.0].email, rows[k].status, rows[k].registeredAt)
    {
      if storeFails {
        return SERVER_ERROR;
      }
      return Reply(200, AttendeesBody(Attendees(rows, users, eventId)));
    }
  }
}
