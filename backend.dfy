/**
 * The Cloudflare worker of backend/index.ts: routing, the list-query builder, the per-route
 * check order and the writes on the `services` table. The D1 table is a map from id to row
 * plus the next id SQLite hands out; reading rows for the list routes is left to the
 * database, so those replies carry the statement or the selected ids instead of the rows.
 */
module Backend {
  import opened Wrappers
  import opened Text
  import opened ListQuery

  datatype Method = GET | POST | PUT | DELETE | PATCH | OPTIONS | OtherMethod(name: string)

  /** A JSON key that is missing, present as `null`, or present with a value. */
  datatype JsonField<T> = Absent | Null | Given(value: T)

  /** The keys of a request body the worker reads. A JSON value that is not an object reads as all-`Absent`. */
  datatype Body = Body(
    category: JsonField<string>, kind: JsonField<string>, title: JsonField<string>,
    description: JsonField<string>, contactNumber: JsonField<string>, contactName: JsonField<string>,
    location: JsonField<string>, isActive: JsonField<bool>)

  const EmptyBody := Body(Absent, Absent, Absent, Absent, Absent, Absent, Absent, Absent)

  /**
   * What `request.json()` gives: a value, the JSON `null` (reading a key of it throws), or a
   * rejection with the parser's message.
   */
  datatype Payload = Parsed(body: Body) | NullBody | Malformed(message: string)

  datatype Request = Request(
    verb: Method, path: string, userHeader: Option<string>,
    query: map<string, string>, payload: Payload)

  /** A row of the `services` table. */
  datatype Row = Row(
    userId: string, category: string, kind: string, title: string,
    description: Option<string>, contactNumber: Option<string>, contactName: Option<string>,
    location: Option<string>, createdAt: int, updatedAt: int, isActive: int)

  datatype Reply =
    | Preflight                                   // the bare CORS response to OPTIONS
    | Listing(query: string, params: seq<string>)  // 200, the rows the statement selects
    | OwnListing(ids: set<nat>)                    // 200, the caller's active rows
    | Found(id: nat, row: Row)                     // 200, one active row
    | Created(id: nat)                             // 201, only the new id
    | Done                                         // 200 with `data: null`
    | StatusSet(id: nat, row: Row)                 // 200, the row as it now stands
    | Failure(status: nat, code: string, message: string)

  const Unauthorized := Failure(401, "UNAUTHORIZED", "Unauthorized")
  const UnauthorizedCreate := Failure(401, "UNAUTHORIZED", "Unauthorized - User ID required")
  const ServiceNotFound := Failure(404, "SERVICE_NOT_FOUND", "Service not found")
  const NotYours := Failure(403, "FORBIDDEN", "Not your service")
  const MissingFields := Failure(400, "VALIDATION_ERROR", "Missing required fields: category, type, title")
  const EndpointNotFound := Failure(404, "NOT_FOUND", "Endpoint not found")

  /** The reply of the outer `catch`: the error's message, or a stock one when it is empty. */
  function ServerError(message: string): (r: Reply)
    ensures r.Failure? && r.status == 500 && r.code == "INTERNAL_SERVER_ERROR"
    ensures r.message != ""
    ensures message != "" ==> r.message == message
  {
    Failure(500, "INTERNAL_SERVER_ERROR", if message != "" then message else "Internal Server Error")
  }

  /** `X-Encrypted-Yw-ID`, or the empty string when the header is missing. */
  function UserId(r: Request): string {
    if r.userHeader.Some? then r.userHeader.value else ""
  }

  predicate TruthyField(f: JsonField<string>) {
    f.Given? && f.value != ""
  }

  function QueryParam(r: Request, key: string): Option<string> {
    if key in r.query then Some(r.query[key]) else None
  }

  // ---------------------------------------------------------------- routing

  datatype Route =
    | OptionsRoute | ListRoute | GetRoute | MineRoute | CreateRoute
    | EditRoute | RemoveRoute | StatusRoute | NoRoute

  const Collection := "/api/services"
  const ItemPrefix := "/api/services/"

  /**
   * The first matching branch of the worker, tried in the source's order. Since the branches
   * test different methods or disjoint paths, each route is chosen exactly when its own test
   * holds: OPTIONS always wins; the item routes need the `/api/services/` prefix (so they can
   * bind an id); the single-item GET leaves every path ending in `/my` alone, so the
   * own-services path reaches its branch and any other such path gets 404.
   */
  function RouteOf(m: Method, path: string): (r: Route)
    ensures r == OptionsRoute <==> m == OPTIONS
    ensures r == ListRoute <==> m == GET && path == Collection
    ensures r == GetRoute <==> m == GET && StartsWith(path, ItemPrefix) && !EndsWith(path, "/my")
    ensures r == MineRoute <==> m == GET && path == "/api/services/my"
    ensures r == CreateRoute <==> m == POST && path == Collection
    ensures r == EditRoute <==> m == PUT && StartsWith(path, ItemPrefix)
    ensures r == RemoveRoute <==> m == DELETE && StartsWith(path, ItemPrefix)
    ensures r == StatusRoute <==> m == PATCH && EndsWith(path, "/status")
    ensures r == GetRoute ==> path != "/api/services/my"
  {
    if m == OPTIONS then OptionsRoute
    else if path == Collection && m == GET then ListRoute
    else if StartsWith(path, ItemPrefix) && m == GET && !EndsWith(path, "/my") then GetRoute
    else if path == "/api/services/my" && m == GET then MineRoute
    else if path == Collection && m == POST then CreateRoute
    else if StartsWith(path, ItemPrefix) && m == PUT then EditRoute
    else if StartsWith(path, ItemPrefix) && m == DELETE then RemoveRoute
    else if EndsWith(path, "/status") && m == PATCH then StatusRoute
    else NoRoute
  }

  /** `pathname.split('/')[3]`, or nothing when the path has fewer than four parts. */
  function IdSegment(path: string): Option<string> {
    var parts := Split(path, '/');
    if |parts| > 3 then Some(parts[3]) else None
  }

  /** A path of the form `/a/b/rest` splits into "", a, b and the parts of rest. */
  lemma SplitThree(a: string, b: string, rest: string)
    requires '/' !in a && '/' !in b
    ensures Split(['/'] + a + ['/'] + b + ['/'] + rest, '/') == ["", a, b] + Split(rest, '/')
  {
    var p3 := b + ['/'] + rest;
    var p2 := a + ['/'] + p3;
    assert ['/'] + a + ['/'] + b + ['/'] + rest == "" + ['/'] + p2;
    SplitAfterSep("", p2, '/');
    SplitAfterSep(a, p3, '/');
    SplitAfterSep(b, rest, '/');
  }

  /**
   * Under `/api/services/` the id is the text up to the next slash, so PUT, DELETE and the
   * single-item GET always bind a defined id.
   */
  lemma ApiHasNoSlash()
    ensures '/' !in "api"
  {
  }

  lemma ServicesHasNoSlash()
    ensures '/' !in "services"
  {
  }

  lemma PrefixParts()
    ensures ItemPrefix == ['/'] + "api" + ['/'] + "services" + ['/']
  {
  }

  lemma SegmentAfterPrefix(rest: string)
    ensures IdSegment(ItemPrefix + rest) == Some(Split(rest, '/')[0])
  {
    ApiHasNoSlash();
    ServicesHasNoSlash();
    PrefixParts();
    SplitThree("api", "services", rest);
  }

  /** Every path under `/api/services/` binds an id. */
  lemma ItemSegmentDefined(path: string)
    requires StartsWith(path, ItemPrefix)
    ensures IdSegment(path).Some?
  {
    SegmentAfterPrefix(path[|ItemPrefix|..]);
    assert path == ItemPrefix + path[|ItemPrefix|..];
  }

  /**
   * For every id: `GET /api/services/<id>` is the single-item GET, while
   * `GET /api/services/<id>/my` matches no route and gets 404.
   */
  lemma {:induction false} ItemPathsRoute(id: nat)
    ensures RouteOf(GET, ItemPrefix + NatToString(id)) == GetRoute
    ensures RouteOf(GET, ItemPrefix + NatToString(id) + "/my") == NoRoute
  {
    var digits := NatToString(id);
    var p := ItemPrefix + digits;
    assert p[|p| - 1] == digits[|digits| - 1];
    assert IsDigit(digits[|digits| - 1]);
    assert !EndsWith(p, "/my");
    assert StartsWith(p, ItemPrefix);
    var q := p + "/my";
    assert q[..|ItemPrefix|] == ItemPrefix;
    assert q[|q| - 3..] == "/my";
    assert |q| > |"/api/services/my"|;
  }

  // ---------------------------------------------------------------- lookups and checks

  /** `SELECT * FROM services WHERE id = ?` with or without `AND is_active = 1`. */
  function Lookup(rows: map<nat, Row>, segment: string, activeOnly: bool): (r: Option<nat>)
    ensures r.Some? ==> r.value in rows && (activeOnly ==> rows[r.value].isActive == 1)
  {
    match ParseNat(segment)
    case Some(id) => if id in rows && (!activeOnly || rows[id].isActive == 1) then Some(id) else None
    case None => None
  }

  /** A row is found by its decimal id exactly when it exists (and is active, if asked). */
  lemma LookupById(rows: map<nat, Row>, id: nat, activeOnly: bool)
    ensures Lookup(rows, NatToString(id), activeOnly).Some? <==> id in rows && (!activeOnly || rows[id].isActive == 1)
    ensures Lookup(rows, NatToString(id), activeOnly).Some? ==> Lookup(rows, NatToString(id), activeOnly).value == id
  {
    ParseNatToString(id);
  }

  /** The two checks after authentication: the row must be found, then be the caller's. */
  datatype Verdict = Missing | Foreign | Owned

  function Ownership(userId: string, rows: map<nat, Row>, found: Option<nat>): (v: Verdict)
    requires found.Some? ==> found.value in rows
    ensures v == Owned <==> found.Some? && rows[found.value].userId == userId
    ensures v == Missing <==> found.None?
  {
    if found.None? then Missing
    else if rows[found.value].userId != userId then Foreign
    else Owned
  }

  predicate HasRequired(b: Body) {
    TruthyField(b.category) && TruthyField(b.kind) && TruthyField(b.title)
  }

  /** `body.x || null` for the optional text columns of an insert. */
  function OrNull(f: JsonField<string>): (r: Option<string>)
    ensures r.Some? <==> TruthyField(f)
    ensures r.Some? ==> r.value == f.value
  {
    if TruthyField(f) then Some(f.value) else None
  }

  /** The row an accepted POST inserts. */
  function NewRow(userId: string, b: Body, now: int): (row: Row)
    requires HasRequired(b)
    ensures row.userId == userId && row.isActive == 1
    ensures row.createdAt == now && row.updatedAt == now
    ensures row.category == b.category.value && row.kind == b.kind.value && row.title == b.title.value
    ensures row.description == OrNull(b.description) && row.contactNumber == OrNull(b.contactNumber)
    ensures row.contactName == OrNull(b.contactName) && row.location == OrNull(b.location)
  {
    Row(userId, b.category.value, b.kind.value, b.title.value,
        OrNull(b.description), OrNull(b.contactNumber), OrNull(b.contactName), OrNull(b.location),
        now, now, 1)
  }

  /** `body.x !== undefined ? body.x : row.x` for the nullable columns of an update. */
  function Overwrite(f: JsonField<string>, current: Option<string>): Option<string> {
    match f
    case Absent => current
    case Null => None
    case Given(v) => Some(v)
  }

  /**
   * The row after an accepted PUT. Owner, category, type, creation time and the active flag
   * never change; the update time becomes now; the title becomes the body's when that is
   * non-empty and survives otherwise, so a row never loses a non-empty title.
   */
  function Merge(row: Row, b: Body, now: int): (r: Row)
    ensures r.userId == row.userId && r.category == row.category && r.kind == row.kind
    ensures r.createdAt == row.createdAt && r.isActive == row.isActive && r.updatedAt == now
    ensures TruthyField(b.title) ==> r.title == b.title.value
    ensures !TruthyField(b.title) ==> r.title == row.title
    ensures row.title != "" ==> r.title != ""
  {
    row.(title := if TruthyField(b.title) then b.title.value else row.title,
         description := Overwrite(b.description, row.description),
         contactNumber := Overwrite(b.contactNumber, row.contactNumber),
         contactName := Overwrite(b.contactName, row.contactName),
         location := Overwrite(b.location, row.location),
         updatedAt := now)
  }

  /** Applying the same update twice is the same as applying it once. */
  lemma MergeIdempotent(row: Row, b: Body, now: int, later: int)
    ensures Merge(Merge(row, b, now), b, later) == Merge(row, b, later)
  {
  }

  /**
   * Each nullable column follows its key: a missing key keeps the column, `null` clears it,
   * and any other value (the empty string included) is stored.
   */
  lemma MergeNullable(row: Row, b: Body, now: int)
    ensures var r := Merge(row, b, now);
      && (b.description.Absent? ==> r.description == row.description)
      && (b.description.Null? ==> r.description.None?)
      && (b.description.Given? ==> r.description == Some(b.description.value))
    ensures var r := Merge(row, b, now);
      && (b.contactNumber.Absent? ==> r.contactNumber == row.contactNumber)
      && (b.contactNumber.Null? ==> r.contactNumber.None?)
      && (b.contactNumber.Given? ==> r.contactNumber == Some(b.contactNumber.value))
    ensures var r := Merge(row, b, now);
      && (b.contactName.Absent? ==> r.contactName == row.contactName)
      && (b.contactName.Null? ==> r.contactName.None?)
      && (b.contactName.Given? ==> r.contactName == Some(b.contactName.value))
    ensures var r := Merge(row, b, now);
      && (b.location.Absent? ==> r.location == row.location)
      && (b.location.Null? ==> r.location.None?)
      && (b.location.Given? ==> r.location == Some(b.location.value))
  {
  }

  /** An empty body only refreshes the update time. */
  lemma MergeEmptyBody(row: Row, now: int)
    ensures Merge(row, EmptyBody, now) == row.(updatedAt := now)
  {
  }

  /** The flag PATCH stores: 1 for a truthy `is_active`, 0 otherwise. */
  function ActiveFlag(b: Body): (flag: int)
    ensures flag == 0 || flag == 1
    ensures flag == 1 <==> b.isActive == Given(true)
  {
    if b.isActive == Given(true) then 1 else 0
  }

  // ---------------------------------------------------------------- soft delete and reactivation

  /**
   * After a soft delete the row stays in the table, but the active lookups of GET, PUT and
   * DELETE no longer find it (so PUT and DELETE answer 404 whoever asks), while the
   * unfiltered lookup of PATCH still does.
   */
  lemma SoftDeleteHides(rows: map<nat, Row>, segment: string, userId: string)
    requires Lookup(rows, segment, true).Some?
    ensures var id := Lookup(rows, segment, true).value;
      var after := rows[id := rows[id].(isActive := 0)];
      && after.Keys == rows.Keys
      && Lookup(after, segment, true).None?
      && Lookup(after, segment, false) == Some(id)
      && Ownership(userId, after, Lookup(after, segment, true)) == Missing
  {
  }

  /**
   * PATCH finds inactive rows too, so the owner can reactivate a soft-deleted row, which the
   * active lookups then find again.
   */
  lemma OwnerCanReactivate(rows: map<nat, Row>, segment: string, userId: string, now: int)
    requires Lookup(rows, segment, false).Some?
    requires rows[Lookup(rows, segment, false).value].userId == userId
    ensures var id := Lookup(rows, segment, false).value;
      var after := rows[id := rows[id].(isActive := ActiveFlag(EmptyBody.(isActive := Given(true))), updatedAt := now)];
      && Ownership(userId, rows, Lookup(rows, segment, false)) == Owned
      && Lookup(after, segment, true) == Some(id)
  {
  }

  /** A row inserted under the next id is found by the single-item GET on that id. */
  lemma CreatedIsVisible(rows: map<nat, Row>, id: nat, userId: string, b: Body, now: int)
    requires HasRequired(b)
    ensures Lookup(rows[id := NewRow(userId, b, now)], NatToString(id), true) == Some(id)
  {
    LookupById(rows[id := NewRow(userId, b, now)], id, true);
  }

  // ---------------------------------------------------------------- the table and its routes

  class Table {
    var rows: map<nat, Row>
    /** The id SQLite gives the next insert; rows are never removed, so it is one past the largest. */
    var nextId: nat

    ghost predicate Valid()
      reads this
    {
      && nextId >= 1
      && (forall id :: id in rows ==> 1 <= id < nextId)
      && (forall id :: id in rows ==> rows[id].isActive == 0 || rows[id].isActive == 1)
    }

    constructor ()
      ensures Valid() && rows == map[] && nextId == 1
    {
      rows := map[];
      nextId := 1;
    }

    /** `GET /api/services`: the statement for the `category`, `type` and `search` query parameters. */
    method List(r: Request) returns (reply: Reply)
      ensures reply == Listing(ListText(QueryParam(r, "category"), QueryParam(r, "type"), QueryParam(r, "search")),
                               ListParams(QueryParam(r, "category"), QueryParam(r, "type"), QueryParam(r, "search")))
    {
      var query, params := BuildListQuery(QueryParam(r, "category"), QueryParam(r, "type"), QueryParam(r, "search"));
      reply := Listing(query, params);
    }

    /** `GET /api/services/:id`: the active row with that id, or 404; no authentication. */
    method GetOne(segment: string) returns (reply: Reply)
      ensures Lookup(rows, segment, true).None? ==> reply == ServiceNotFound
      ensures Lookup(rows, segment, true).Some? ==>
        reply == Found(Lookup(rows, segment, true).value, rows[Lookup(rows, segment, true).value])
      ensures reply.Found? ==> reply.row.isActive == 1
    {
      var found := Lookup(rows, segment, true);
      if found.None? {
        return ServiceNotFound;
      }
      reply := Found(found.value, rows[found.value]);
    }

    /** `GET /api/services/my`: 401 without a user, else the ids of the caller's active rows. */
    method Mine(userId: string) returns (reply: Reply)
      ensures userId == "" ==> reply == Unauthorized
      ensures userId != "" ==> reply.OwnListing?
      ensures reply.OwnListing? ==>
        forall id :: id in reply.ids <==> id in rows && rows[id].userId == userId && rows[id].isActive == 1
    {
      if userId == "" {
        return Unauthorized;
      }
      reply := OwnListing(set id | id in rows && rows[id].userId == userId && rows[id].isActive == 1);
    }

    /**
     * `POST /api/services`: 401 before the body is read; then the body; then 400 unless
     * category, type and title are non-empty; then a new active row under the next id.
     * `typeError` is the runtime's message for reading a key of a `null` body.
     */
    method Create(userId: string, payload: Payload, now: int, typeError: string) returns (reply: Reply)
      requires Valid()
      modifies this
      ensures Valid()
      ensures reply.Failure? || userId == "" ==> unchanged(this)
      ensures reply.Failure? && reply.status == 500 ==> reply.code == "INTERNAL_SERVER_ERROR"
      ensures rows != old(rows) ==> reply.Created? && userId != "" && payload.Parsed? && HasRequired(payload.body)
      ensures userId == "" ==> reply == UnauthorizedCreate && unchanged(this)
      ensures userId != "" && payload.Malformed? ==> reply == ServerError(payload.message) && unchanged(this)
      ensures userId != "" && payload.NullBody? ==> reply == ServerError(typeError) && unchanged(this)
      ensures userId != "" && payload.Parsed? && !HasRequired(payload.body) ==> reply == MissingFields && unchanged(this)
      ensures userId != "" && payload.Parsed? && HasRequired(payload.body) ==>
        && reply == Created(old(nextId))
        && old(nextId) !in old(rows)
        && rows == old(rows)[old(nextId) := NewRow(userId, payload.body, now)]
        && nextId == old(nextId) + 1
    {
      if userId == "" {
        return UnauthorizedCreate;
      }
      match payload
      case Malformed(message) =>
        return ServerError(message);
      case NullBody =>
        return ServerError(typeError);
      case Parsed(b) =>
        if !HasRequired(b) {
          return MissingFields;
        }
        var id := nextId;
        rows := rows[id := NewRow(userId, b, now)];
        nextId := nextId + 1;
        reply := Created(id);
    }

    /**
     * `PUT /api/services/:id`: 401, then the body is read, then 404 for no active row, then
     * 403 for another owner's row; only then is the row merged with the body (`typeError` as
     * for `Create`).
     */
    method Edit(userId: string, segment: string, payload: Payload, now: int, typeError: string) returns (reply: Reply)
      requires Valid()
      modifies this
      ensures Valid()
      ensures nextId == old(nextId)
      ensures reply.Failure? || userId == "" ==> unchanged(this)
      ensures reply.Failure? && reply.status == 500 ==> reply.code == "INTERNAL_SERVER_ERROR"
      ensures rows != old(rows) ==> reply == Done
      ensures userId == "" ==> reply == Unauthorized && unchanged(this)
      ensures userId != "" && payload.Malformed? ==> reply == ServerError(payload.message) && unchanged(this)
      ensures userId != "" && !payload.Malformed? ==>
        var found := Lookup(old(rows), segment, true);
        && (Ownership(userId, old(rows), found) == Missing ==> reply == ServiceNotFound && unchanged(this))
        && (Ownership(userId, old(rows), found) == Foreign ==> reply == NotYours && unchanged(this))
        && (Ownership(userId, old(rows), found) == Owned && payload.NullBody? ==> reply == ServerError(typeError) && unchanged(this))
        && (Ownership(userId, old(rows), found) == Owned && payload.Parsed? ==>
              && reply == Done && nextId == old(nextId)
              && rows == old(rows)[found.value := Merge(old(rows)[found.value], payload.body, now)])
      ensures rows != old(rows) ==> userId != "" && Ownership(userId, old(rows), Lookup(old(rows), segment, true)) == Owned
    {
      if userId == "" {
        return Unauthorized;
      }
      if payload.Malformed? {
        return ServerError(payload.message);
      }
      var found := Lookup(rows, segment, true);
      var verdict := Ownership(userId, rows, found);
      if verdict == Missing {
        return ServiceNotFound;
      }
      if verdict == Foreign {
        return NotYours;
      }
      if payload.NullBody? {
        return ServerError(typeError);
      }
      var id := found.value;
      rows := rows[id := Merge(rows[id], payload.body, now)];
      reply := Done;
    }

    /**
     * `DELETE /api/services/:id`: 401, then 404 for no active row, then 403 for another
     * owner's row; only then is the row's `is_active` set to 0, keeping the row.
     */
    method Remove(userId: string, segment: string) returns (reply: Reply)
      requires Valid()
      modifies this
      ensures Valid()
      ensures nextId == old(nextId)
      ensures reply.Failure? || userId == "" ==> unchanged(this)
      ensures reply.Failure? && reply.status == 500 ==> reply.code == "INTERNAL_SERVER_ERROR"
      ensures rows != old(rows) ==> reply == Done
      ensures userId == "" ==> reply == Unauthorized && unchanged(this)
      ensures userId != "" ==>
        var found := Lookup(old(rows), segment, true);
        && (Ownership(userId, old(rows), found) == Missing ==> reply == ServiceNotFound && unchanged(this))
        && (Ownership(userId, old(rows), found) == Foreign ==> reply == NotYours && unchanged(this))
        && (Ownership(userId, old(rows), found) == Owned ==>
              && reply == Done && nextId == old(nextId)
              && rows == old(rows)[found.value := old(rows)[found.value].(isActive := 0)])
      ensures rows != old(rows) ==> userId != "" && Ownership(userId, old(rows), Lookup(old(rows), segment, true)) == Owned
    {
      if userId == "" {
        return Unauthorized;
      }
      var found := Lookup(rows, segment, true);
      var verdict := Ownership(userId, rows, found);
      if verdict == Missing {
        return ServiceNotFound;
      }
      if verdict == Foreign {
        return NotYours;
      }
      var id := found.value;
      rows := rows[id := rows[id].(isActive := 0)];
      reply := Done;
    }

    /**
     * `PATCH …/:id/status`: 401, then the body is read, then the id is bound (an undefined id
     * makes the driver throw, with message `bindError`), then 404 for no row at all, active or
     * not, then 403; then a `null` body throws `typeError` as for `Create`; only then are the
     * flag and the update time written, and the reply echoes the row as stored.
     */
    method SetStatus(userId: string, segment: Option<string>, payload: Payload, now: int,
                     typeError: string, bindError: string)
      returns (reply: Reply)
      requires Valid()
      modifies this
      ensures Valid()
      ensures nextId == old(nextId)
      ensures reply.Failure? || userId == "" ==> unchanged(this)
      ensures reply.Failure? && reply.status == 500 ==> reply.code == "INTERNAL_SERVER_ERROR"
      ensures rows != old(rows) ==> reply.StatusSet?
      ensures userId == "" ==> reply == Unauthorized && unchanged(this)
      ensures userId != "" && payload.Malformed? ==> reply == ServerError(payload.message) && unchanged(this)
      ensures userId != "" && !payload.Malformed? && segment.None? ==> reply == ServerError(bindError) && unchanged(this)
      ensures userId != "" && !payload.Malformed? && segment.Some? ==>
        var found := Lookup(old(rows), segment.value, false);
        && (Ownership(userId, old(rows), found) == Missing ==> reply == ServiceNotFound && unchanged(this))
        && (Ownership(userId, old(rows), found) == Foreign ==> reply == NotYours && unchanged(this))
        && (Ownership(userId, old(rows), found) == Owned && payload.NullBody? ==> reply == ServerError(typeError) && unchanged(this))
        && (Ownership(userId, old(rows), found) == Owned && payload.Parsed? ==>
              var row := old(rows)[found.value].(isActive := ActiveFlag(payload.body), updatedAt := now);
              && reply == StatusSet(found.value, row) && nextId == old(nextId)
              && rows == old(rows)[found.value := row])
      ensures rows != old(rows) ==>
        userId != "" && segment.Some? && Ownership(userId, old(rows), Lookup(old(rows), segment.value, false)) == Owned
    {
      if userId == "" {
        return Unauthorized;
      }
      if payload.Malformed? {
        return ServerError(payload.message);
      }
      if segment.None? {
        return ServerError(bindError);
      }
      var found := Lookup(rows, segment.value, false);
      var verdict := Ownership(userId, rows, found);
      if verdict == Missing {
        return ServiceNotFound;
      }
      if verdict == Foreign {
        return NotYours;
      }
      if payload.NullBody? {
        return ServerError(typeError);
      }
      var id := found.value;
      var row := rows[id].(isActive := ActiveFlag(payload.body), updatedAt := now);
      rows := rows[id := row];
      reply := StatusSet(id, row);
    }

    /**
     * The worker's `fetch`: OPTIONS is answered before anything else, each route in turn,
     * and 404 `NOT_FOUND` when none matches. The id a route binds is `IdSegment(r.path)`.
     * Only the four writing routes change the table, and only with a caller and a success
     * reply.
     */
    method Handle(r: Request, now: int, typeError: string, bindError: string) returns (reply: Reply)
      requires Valid()
      modifies this
      ensures Valid()
      ensures r.verb == OPTIONS ==> reply == Preflight && unchanged(this)
      ensures RouteOf(r.verb, r.path) == NoRoute ==> reply == EndpointNotFound && unchanged(this)
      ensures RouteOf(r.verb, r.path) in {OptionsRoute, ListRoute, GetRoute, MineRoute, NoRoute} ==> unchanged(this)
      ensures reply.Failure? ==> unchanged(this)
      ensures UserId(r) == "" ==> unchanged(this)
      ensures reply.Failure? && reply.status == 500 ==> reply.code == "INTERNAL_SERVER_ERROR"
      ensures rows != old(rows) ==> reply == Done || reply.StatusSet? || reply.Created?
      ensures RouteOf(r.verb, r.path) != CreateRoute ==> nextId == old(nextId)
      ensures RouteOf(r.verb, r.path) == ListRoute ==>
        reply == Listing(ListText(QueryParam(r, "category"), QueryParam(r, "type"), QueryParam(r, "search")),
                         ListParams(QueryParam(r, "category"), QueryParam(r, "type"), QueryParam(r, "search")))
      ensures RouteOf(r.verb, r.path) == GetRoute ==>
        && IdSegment(r.path).Some?
        && var found := Lookup(rows, IdSegment(r.path).value, true);
           reply == if found.Some? then Found(found.value, rows[found.value]) else ServiceNotFound
      ensures RouteOf(r.verb, r.path) == MineRoute ==>
        && (UserId(r) == "" ==> reply == Unauthorized)
        && (UserId(r) != "" ==> reply.OwnListing?)
        && (reply.OwnListing? ==>
              forall id :: id in reply.ids <==> id in rows && rows[id].userId == UserId(r) && rows[id].isActive == 1)
      ensures RouteOf(r.verb, r.path) == CreateRoute ==>
        && (UserId(r) == "" ==> reply == UnauthorizedCreate)
        && (UserId(r) != "" && r.payload.Malformed? ==> reply == ServerError(r.payload.message))
        && (UserId(r) != "" && r.payload.NullBody? ==> reply == ServerError(typeError))
        && (UserId(r) != "" && r.payload.Parsed? && !HasRequired(r.payload.body) ==> reply == MissingFields)
        && (UserId(r) != "" && r.payload.Parsed? && HasRequired(r.payload.body) ==>
              && reply == Created(old(nextId))
              && rows == old(rows)[old(nextId) := NewRow(UserId(r), r.payload.body, now)]
              && nextId == old(nextId) + 1)
        && (rows != old(rows) ==> UserId(r) != "" && r.payload.Parsed? && HasRequired(r.payload.body))
      ensures RouteOf(r.verb, r.path) == EditRoute ==>
        && IdSegment(r.path).Some?
        && (UserId(r) == "" ==> reply == Unauthorized)
        && (UserId(r) != "" && r.payload.Malformed? ==> reply == ServerError(r.payload.message))
        && (UserId(r) != "" && !r.payload.Malformed? ==>
              var found := Lookup(old(rows), IdSegment(r.path).value, true);
              && (Ownership(UserId(r), old(rows), found) == Missing ==> reply == ServiceNotFound)
              && (Ownership(UserId(r), old(rows), found) == Foreign ==> reply == NotYours)
              && (Ownership(UserId(r), old(rows), found) == Owned && r.payload.NullBody? ==> reply == ServerError(typeError))
              && (Ownership(UserId(r), old(rows), found) == Owned && r.payload.Parsed? ==>
                    && reply == Done && nextId == old(nextId)
                    && rows == old(rows)[found.value := Merge(old(rows)[found.value], r.payload.body, now)]))
        && (rows != old(rows) ==>
              UserId(r) != "" && Ownership(UserId(r), old(rows), Lookup(old(rows), IdSegment(r.path).value, true)) == Owned)
      ensures RouteOf(r.verb, r.path) == RemoveRoute ==>
        && IdSegment(r.path).Some?
        && (UserId(r) == "" ==> reply == Unauthorized)
        && (UserId(r) != "" ==>
              var found := Lookup(old(rows), IdSegment(r.path).value, true);
              && (Ownership(UserId(r), old(rows), found) == Missing ==> reply == ServiceNotFound)
              && (Ownership(UserId(r), old(rows), found) == Foreign ==> reply == NotYours)
              && (Ownership(UserId(r), old(rows), found) == Owned ==>
                    && reply == Done && nextId == old(nextId)
                    && rows == old(rows)[found.value := old(rows)[found.value].(isActive := 0)]))
        && (rows != old(rows) ==>
              UserId(r) != "" && Ownership(UserId(r), old(rows), Lookup(old(rows), IdSegment(r.path).value, true)) == Owned)
      ensures RouteOf(r.verb, r.path) == StatusRoute ==>
        && (UserId(r) == "" ==> reply == Unauthorized)
        && (UserId(r) != "" && r.payload.Malformed? ==> reply == ServerError(r.payload.message))
        && (UserId(r) != "" && !r.payload.Malformed? && IdSegment(r.path).None? ==> reply == ServerError(bindError))
        && (UserId(r) != "" && !r.payload.Malformed? && IdSegment(r.path).Some? ==>
              var found := Lookup(old(rows), IdSegment(r.path).value, false);
              && (Ownership(UserId(r), old(rows), found) == Missing ==> reply == ServiceNotFound)
              && (Ownership(UserId(r), old(rows), found) == Foreign ==> reply == NotYours)
              && (Ownership(UserId(r), old(rows), found) == Owned && r.payload.NullBody? ==> reply == ServerError(typeError))
              && (Ownership(UserId(r), old(rows), found) == Owned && r.payload.Parsed? ==>
                    var row := old(rows)[found.value].(isActive := ActiveFlag(r.payload.body), updatedAt := now);
                    reply == StatusSet(found.value, row) && nextId == old(nextId) && rows == old(rows)[found.value := row]))
        && (rows != old(rows) ==>
              && UserId(r) != "" && IdSegment(r.path).Some?
              && Ownership(UserId(r), old(rows), Lookup(old(rows), IdSegment(r.path).value, false)) == Owned)
    {
      var userId := UserId(r);
      match RouteOf(r.verb, r.path)
      case OptionsRoute =>
        reply := Preflight;
      case ListRoute =>
        reply := List(r);
      case GetRoute =>
        ItemSegmentDefined(r.path);
        reply := GetOne(IdSegment(r.path).value);
      case MineRoute =>
        reply := Mine(userId);
      case CreateRoute =>
        reply := Create(userId, r.payload, now, typeError);
      case EditRoute =>
        ItemSegmentDefined(r.path);
        reply := Edit(userId, IdSegment(r.path).value, r.payload, now, typeError);
      case RemoveRoute =>
        ItemSegmentDefined(r.path);
        reply := Remove(userId, IdSegment(r.path).value);
      case StatusRoute =>
        reply := SetStatus(userId, IdSegment(r.path), r.payload, now, typeError, bindError);
      case NoRoute =>
        reply := EndpointNotFound;
    }
  }
}
