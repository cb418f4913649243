/**
 * The events routes of the backend (backend/routes/event.js): creating,
 * updating and deleting rows of the `events` table, and building the
 * parameterised SELECT that searches it. The table is a map from id to row;
 * what the SQL statements do is modelled by their effect on that map.
 */
module EventRoutes {
  import opened JsText
  import opened JsValues

  /** One row of the `events` table. */
  datatype EventRow = EventRow(
    id: int,
    title: Option<string>,
    description: Option<string>,
    location: Option<string>,
    eventDate: Option<string>,
    eventTime: Option<string>,
    categoryId: Option<int>,
    creatorId: Option<int>)

  /** The editable columns a POST or PUT body carries (a missing field is None, stored as NULL). */
  datatype EventInput = EventInput(
    title: Option<string>,
    description: Option<string>,
    location: Option<string>,
    eventDate: Option<string>,
    eventTime: Option<string>,
    categoryId: Option<int>)

  /** The JSON a route answers with. */
  datatype Body = RowBody(row: EventRow) | RowsBody(rows: seq<EventRow>) | ErrorBody(error: string) | MessageBody(message: string)

  datatype Reply = Reply(status: int, body: Body)

  const SERVER_ERROR: Reply := Reply(500, ErrorBody("Server Error"))
  const NOT_FOUND: Reply := Reply(404, ErrorBody("Event not found"))
  const EDIT_FORBIDDEN: Reply := Reply(403, ErrorBody("You do not have permission to edit this event"))
  const DELETE_FORBIDDEN: Reply := Reply(403, ErrorBody("You do not have permission to delete this event"))
  const DELETED: Reply := Reply(200, MessageBody("Event deleted successfully!"))

  /** The row `INSERT … RETURNING *` creates under the id the table assigns. */
  function NewRow(id: int, input: EventInput, creatorId: Option<int>): (row: EventRow)
    ensures row.id == id && row.creatorId == creatorId
    ensures Edited(row, input)
  {
    EventRow(id, input.title, input.description, input.location, input.eventDate, input.eventTime, input.categoryId, creatorId)
  }

  /** The six editable columns of `row` hold what `input` gives. */
  predicate Edited(row: EventRow, input: EventInput) {
    row.title == input.title && row.description == input.description && row.location == input.location
    && row.eventDate == input.eventDate && row.eventTime == input.eventTime && row.categoryId == input.categoryId
  }

  /** The row `UPDATE … SET title, description, location, event_date, event_time, category_id` leaves. */
  function UpdatedRow(row: EventRow, input: EventInput): (r: EventRow)
    ensures r.id == row.id && r.creatorId == row.creatorId
    ensures Edited(r, input)
  {
    row.(title := input.title, description := input.description, location := input.location,
         eventDate := input.eventDate, eventTime := input.eventTime, categoryId := input.categoryId)
  }

  /**
   * The permission check `creator_id !== parseInt(user_id)` fails exactly when
   * this does not hold. `parsedUserId` is what `parseInt(user_id)` returned.
   * There is no role-based override: only the creator may change an event.
   */
  predicate MayMutate(row: EventRow, parsedUserId: JsNumber) {
    row.creatorId.Some? && parsedUserId == FromInt(row.creatorId.value)
  }

  /** Nobody may change an event without a recorded creator, nor a caller whose id does not parse. */
  lemma MayMutateOnlyCreator(row: EventRow, parsedUserId: JsNumber)
    ensures MayMutate(row, parsedUserId) <==>
      row.creatorId.Some? && IsInteger(parsedUserId) && parsedUserId.value.Floor == row.creatorId.value
  {
  }

  /** The events table, with the id sequence the store draws new ids from. */
  class EventTable {
    var rows: map<int, EventRow>
    var nextId: int

    /** Every row is stored under its own id, and the next id is unused. */
    ghost predicate Valid()
      reads this
    {
      forall id :: id in rows ==> rows[id].id == id && id < nextId
    }

    constructor()
      ensures Valid() && rows == map[]
    {
      rows := map[];
      nextId := 1;
    }

    /** POST /api/events; `storeFails` is a rejected INSERT (a constraint or connection error). */
    method Create(input: EventInput, creatorId: Option<int>, storeFails: bool) returns (reply: Reply)
      requires Valid()
      modifies this
      ensures Valid()
      ensures storeFails ==> reply == SERVER_ERROR && rows == old(rows)
      ensures !storeFails ==>
        var row := NewRow(old(nextId), input, creatorId);
        && old(nextId) !in old(rows)
        && reply == Reply(200, RowBody(row))
        && rows == old(rows)[old(nextId) := row]
    {
      if storeFails {
        return SERVER_ERROR;
      }
      var row := NewRow(nextId, input, creatorId);
      rows := rows[nextId := row];
      nextId := nextId + 1;
      return Reply(200, RowBody(row));
    }

    /** PUT /api/events/:id, checking existence before permission. */
    method Update(id: int, input: EventInput, parsedUserId: JsNumber, storeFails: bool) returns (reply: Reply)
      requires Valid()
      modifies this
      ensures Valid() && nextId == old(nextId)
      ensures storeFails ==> reply == SERVER_ERROR && rows == old(rows)
      ensures !storeFails && id !in old(rows) ==> reply == NOT_FOUND && rows == old(rows)
      ensures !storeFails && id in old(rows) && !MayMutate(old(rows)[id], parsedUserId) ==>
        reply == EDIT_FORBIDDEN && rows == old(rows)
      ensures !storeFails && id in old(rows) && MayMutate(old(rows)[id], parsedUserId) ==>
        var row := UpdatedRow(old(rows)[id], input);
        reply == Reply(200, RowBody(row)) && rows == old(rows)[id := row]
    {
      if storeFails {
        return SERVER_ERROR;
      }
      if id !in rows {
        return NOT_FOUND;
      }
      if !MayMutate(rows[id], parsedUserId) {
        return EDIT_FORBIDDEN;
      }
      var row := UpdatedRow(rows[id], input);
      rows := rows[id := row];
      return Reply(200, RowBody(row));
    }

    /** DELETE /api/events/:id, checking existence before permission. */
    method Delete(id: int, parsedUserId: JsNumber, storeFails: bool) returns (reply: Reply)
      requires Valid()
      modifies this
      ensures Valid() && nextId == old(nextId)
      ensures storeFails ==> reply == SERVER_ERROR && rows == old(rows)
      ensures !storeFails && id !in old(rows) ==> reply == NOT_FOUND && rows == old(rows)
      ensures !storeFails && id in old(rows) && !MayMutate(old(rows)[id], parsedUserId) ==>
        reply == DELETE_FORBIDDEN && rows == old(rows)
      ensures !storeFails && id in old(rows) && MayMutate(old(rows)[id], parsedUserId) ==>
        reply == DELETED && rows == old(rows) - {id}
    {
      if storeFails {
        return SERVER_ERROR;
      }
      if id !in rows {
        return NOT_FOUND;
      }
      if !MayMutate(rows[id], parsedUserId) {
        return DELETE_FORBIDDEN;
      }
      rows := rows - {id};
      return DELETED;
    }
  }

  /** An update changes only the row it names, and in that row neither the id nor the creator. */
  lemma UpdateLeavesOthers(rows: map<int, EventRow>, id: int, input: EventInput, other: int)
    requires id in rows && other != id && other in rows
    ensures var after := rows[id := UpdatedRow(rows[id], input)];
      && after.Keys == rows.Keys
      && after[other] == rows[other]
      && after[id].creatorId == rows[id].creatorId
  {
  }

  /** A delete removes exactly the row it names. */
  lemma DeleteLeavesOthers(rows: map<int, EventRow>, id: int)
    ensures (rows - {id}).Keys == rows.Keys - {id}
    ensures forall other :: other in rows && other != id ==> (rows - {id})[other] == rows[other]
  {
  }

  // ---------------------------------------------------------------------------
  // GET /api/events: the search query

  const BASE_QUERY: string := "SELECT e.*, c.name as category_name FROM events e LEFT JOIN categories c ON e.category_id = c.id WHERE 1=1"
  const SEARCH_CONDITION: string := " AND e.title ILIKE $"
  const CATEGORY_CONDITION: string := " AND e.category_id = $"
  const DATE_CONDITION: string := " AND e.event_date = $"

  /** A clause appended to the query, whose placeholder number is written after `condition`, and the value it binds. */
  datatype Filter = Filter(condition: string, value: string)

  /** The filters a request asks for, in the order the route appends them; "" is an absent (falsy) query value. */
  function ActiveFilters(search: string, categoryId: string, date: string): (fs: seq<Filter>)
    ensures |fs| == (if search != "" then 1 else 0) + (if categoryId != "" then 1 else 0) + (if date != "" then 1 else 0)
    ensures search != "" ==> fs[0] == Filter(SEARCH_CONDITION, "%" + search + "%")
    ensures categoryId != "" ==> fs[if search != "" then 1 else 0] == Filter(CATEGORY_CONDITION, categoryId)
    ensures date != "" ==> fs[|fs| - 1] == Filter(DATE_CONDITION, date)
  {
    (if search != "" then [Filter(SEARCH_CONDITION, "%" + search + "%")] else [])
    + (if categoryId != "" then [Filter(CATEGORY_CONDITION, categoryId)] else [])
    + (if date != "" then [Filter(DATE_CONDITION, date)] else [])
  }

  /** The clauses for `filters`, numbering their placeholders from `first` on. */
  function Render(filters: seq<Filter>, first: nat): string
  {
    if filters == [] then "" else filters[0].condition + Decimal(first) + Render(filters[1..], first + 1)
  }

  /** The values bound to the placeholders, in order. */
  function Values(filters: seq<Filter>): (vs: seq<string>)
    ensures |vs| == |filters|
    ensures forall k :: 0 <= k < |filters| ==> vs[k] == filters[k].value
  {
    if filters == [] then [] else [filters[0].value] + Values(filters[1..])
  }

  /** Appending a clause writes its condition followed by the next placeholder number. */
  lemma {:induction false} RenderAppend(filters: seq<Filter>, f: Filter, first: nat)
    ensures Render(filters + [f], first) == Render(filters, first) + f.condition + Decimal(first + |filters|)
  {
    if filters != [] {
      assert (filters + [f])[1..] == filters[1..] + [f];
      RenderAppend(filters[1..], f, first + 1);
    }
  }

  /** The clauses of two filter lists side by side: the second list numbers on from where the first stopped. */
  lemma {:induction false} RenderConcat(a: seq<Filter>, b: seq<Filter>, first: nat)
    ensures Render(a + b, first) == Render(a, first) + Render(b, first + |a|)
  {
    if a == [] {
      assert a + b == b;
    } else {
      assert (a + b)[1..] == a[1..] + b;
      RenderConcat(a[1..], b, first + 1);
    }
  }

  /**
   * The `k`-th clause of the rendered query carries placeholder `first + k`:
   * with `first` = 1 that is `$(k+1)`, which PostgreSQL binds to parameter `k`.
   */
  lemma RenderSplit(filters: seq<Filter>, first: nat, k: nat)
    requires k < |filters|
    ensures Render(filters, first) ==
      Render(filters[..k], first) + filters[k].condition + Decimal(first + k) + Render(filters[k + 1..], first + k + 1)
  {
    var rest := [filters[k]] + filters[k + 1..];
    assert filters == filters[..k] + rest;
    RenderConcat(filters[..k], rest, first);
    assert rest[1..] == filters[k + 1..];
    var pre, clause, post := Render(filters[..k], first), filters[k].condition + Decimal(first + k), Render(filters[k + 1..], first + k + 1);
    assert Render(rest, first + k) == clause + post;
    assert pre + (clause + post) == pre + filters[k].condition + Decimal(first + k) + post;
  }

  /** One `if` block of the GET route: the query and the parameters grow by one filter together. */
  lemma AppendFilter(base: string, query: string, queryParams: seq<string>, filters: seq<Filter>, f: Filter)
    requires query == base + Render(filters, 1) && queryParams == Values(filters)
    ensures query + f.condition + Decimal(|queryParams| + 1) == base + Render(filters + [f], 1)
    ensures queryParams + [f.value] == Values(filters + [f])
  {
    RenderAppend(filters, f, 1);
    var rendered, placeholder := Render(filters, 1), Decimal(1 + |filters|);
    assert (base + rendered) + f.condition + placeholder == base + (rendered + f.condition + placeholder);
    assert Values(filters + [f]) == Values(filters) + [f.value];
  }

  /** The GET route's query construction: the base query and the filter clauses, with parameters kept in step. */
  method BuildEventQuery(search: string, categoryId: string, date: string) returns (query: string, queryParams: seq<string>)
    ensures query == BASE_QUERY + Render(ActiveFilters(search, categoryId, date), 1)
    ensures queryParams == Values(ActiveFilters(search, categoryId, date))
    ensures search == "" && categoryId == "" && date == "" ==> query == BASE_QUERY && queryParams == []
  {
    ghost var filters: seq<Filter> := [];
    query := BASE_QUERY;
    queryParams := [];
    var paramIndex: nat := 1;

    if search != "" {
      var f := Filter(SEARCH_CONDITION, "%" + search + "%");
      AppendFilter(BASE_QUERY, query, queryParams, filters, f);
      query := query + SEARCH_CONDITION + Decimal(paramIndex);
      queryParams := queryParams + [f.value];
      filters := filters + [f];
      paramIndex := paramIndex + 1;
    }
    assert paramIndex == |queryParams| + 1;
    if categoryId != "" {
      var f := Filter(CATEGORY_CONDITION, categoryId);
      AppendFilter(BASE_QUERY, query, queryParams, filters, f);
      query := query + CATEGORY_CONDITION + Decimal(paramIndex);
      queryParams := queryParams + [f.value];
      filters := filters + [f];
      paramIndex := paramIndex + 1;
    }
    assert paramIndex == |queryParams| + 1;
    if date != "" {
      var f := Filter(DATE_CONDITION, date);
      AppendFilter(BASE_QUERY, query, queryParams, filters, f);
      query := query + DATE_CONDITION + Decimal(paramIndex);
      queryParams := queryParams + [f.value];
      filters := filters + [f];
      paramIndex := paramIndex + 1;
    }
    assert filters == ActiveFilters(search, categoryId, date);
  }
}
