/** The bookings router of routes/bookings.js over the booking collection:
    create, the per-user listing, the admin listing, the status update with
    its receipt hook, and delete, each behind the checks the handler makes in
    the order it makes them. The collection is a map from booking id to
    booking; the user collection the admin gate consults is a parameter. */
module Bookings {
  import opened Common
  import opened Pricing
  import opened BookingModel
  import Accounts

  // ---------------------------------------------------------------------------
  // The admin gate of this router

  /** This router's copy of verifyAdminToken: the same checks as the account
      router's, answering a token that fails verification with "Invalid token". */
  function AdminGate(header: Option<string>, verify: string -> Option<string>,
                     users: map<string, Accounts.User>): (g: Accounts.Gate)
    ensures g.Admitted? <==> Accounts.VerifyAdminToken(header, verify, users).Admitted?
    ensures g.Admitted? ==> g == Accounts.VerifyAdminToken(header, verify, users)
    ensures g.Denied? ==> g.code == Accounts.VerifyAdminToken(header, verify, users).code
    ensures Accounts.BearerToken(header).None? ==> g == Accounts.Denied(401, "No token provided")
    ensures Accounts.BearerToken(header).Some? && verify(Accounts.BearerToken(header).value).None? ==>
              g == Accounts.Denied(401, "Invalid token")
  {
    var g := Accounts.VerifyAdminToken(header, verify, users);
    if g == Accounts.Denied(401, "Invalid or expired token") then Accounts.Denied(401, "Invalid token") else g
  }

  // ---------------------------------------------------------------------------
  // POST /create: request validation and the document it saves

  /** A date field of the request body: absent, not ISO 8601, or an ISO 8601
      date (as milliseconds since the epoch). */
  datatype DateInput = Missing | Malformed | Iso(ms: int)

  /** The request body of POST /create. A number field is `None` when it is
      absent or not an integer. */
  datatype CreateRequest = CreateRequest(
    userId: Option<string>,
    userName: Option<string>,
    userEmail: Option<string>,
    userPhone: Option<string>,
    roomType: Option<string>,
    checkInDate: DateInput,
    checkOutDate: DateInput,
    numberOfGuests: Option<int>,
    numberOfRooms: Option<int>,
    pricePerNight: Option<int>,
    specialRequests: Option<string>)

  datatype CreateField = RoomTypeField | CheckInField | CheckOutField | GuestsField | RoomsField

  function CreateFieldName(f: CreateField): string {
    match f
    case RoomTypeField => "roomType"
    case CheckInField => "checkInDate"
    case CheckOutField => "checkOutDate"
    case GuestsField => "numberOfGuests"
    case RoomsField => "numberOfRooms"
  }

  /** One check of bookingValidation: a non-empty room type, two ISO 8601
      dates, and integer guest and room counts of at least 1. */
  predicate CreateFieldOk(req: CreateRequest, f: CreateField) {
    match f
    case RoomTypeField => Truthy(req.roomType)
    case CheckInField => req.checkInDate.Iso?
    case CheckOutField => req.checkOutDate.Iso?
    case GuestsField => req.numberOfGuests.Some? && req.numberOfGuests.value >= 1
    case RoomsField => req.numberOfRooms.Some? && req.numberOfRooms.value >= 1
  }

  const CreateFields: seq<CreateField> := [RoomTypeField, CheckInField, CheckOutField, GuestsField, RoomsField]

  function CreateErrors(req: CreateRequest): seq<CreateField> {
    Failing(CreateFields, f => CreateFieldOk(req, f))
  }

  /** Every failing field of a create request is reported, and only those. */
  lemma CreateErrorsExactly(req: CreateRequest, f: CreateField)
    ensures f in CreateErrors(req) <==> !CreateFieldOk(req, f)
  {
    FailingExactly(CreateFields, f => CreateFieldOk(req, f), f);
  }

  function DateMs(d: DateInput): Option<int> {
    if d.Iso? then Some(d.ms) else None
  }

  /** The stay in nights, computed from the two request dates. */
  function RequestNights(req: CreateRequest): int
    requires req.checkInDate.Iso? && req.checkOutDate.Iso?
  {
    Nights(req.checkInDate.ms, req.checkOutDate.ms)
  }

  /** The document the handler builds: the request fields as given, the
      computed nights and total (a missing price makes the total NaN, which
      the schema rejects like a missing value), status "Pending" and
      `specialRequests || ''`. */
  function RequestDraft(req: CreateRequest): (d: Draft)
    requires req.checkInDate.Iso? && req.checkOutDate.Iso?
    ensures d.status == Some("Pending") && d.pdfUrl.None?
    ensures d.specialRequests == Some(if Truthy(req.specialRequests) then req.specialRequests.value else "")
    ensures d.totalNights == Some(Nights(req.checkInDate.ms, req.checkOutDate.ms))
  {
    var nights := RequestNights(req);
    Draft(req.userId, req.userName, req.userEmail, req.userPhone, req.roomType,
          Some(req.checkInDate.ms), Some(req.checkOutDate.ms),
          req.numberOfGuests, req.numberOfRooms, req.pricePerNight,
          Some(nights),
          if req.pricePerNight.Some? && req.numberOfRooms.Some?
          then Some(TotalPrice(nights, req.pricePerNight.value, req.numberOfRooms.value))
          else None,
          Some("Pending"),
          Some(if Truthy(req.specialRequests) then req.specialRequests.value else ""),
          None)
  }

  /** A request that passed validation is saved exactly when the user fields
      are present, the room type is one of the four, check-out is after
      check-in and a price is given: the room-type and date-order checks
      happen only at save time. */
  lemma RequestSavesIff(req: CreateRequest, id: string, now: int)
    requires CreateErrors(req) == []
    ensures req.checkInDate.Iso? && req.checkOutDate.Iso?
    ensures Save(RequestDraft(req), id, now).Success? <==>
              Truthy(req.userId) && Truthy(req.userName) && Truthy(req.userEmail) && Truthy(req.userPhone) &&
              ParseRoomType(req.roomType.value).Some? &&
              req.checkOutDate.ms > req.checkInDate.ms &&
              req.pricePerNight.Some?
  {
    PassedValidation(req);
    var d := RequestDraft(req);
    assert d.roomType == req.roomType && d.numberOfGuests == req.numberOfGuests;
    assert d.numberOfRooms == req.numberOfRooms && d.totalNights.Some?;
    assert d.totalPrice.Some? <==> req.pricePerNight.Some?;
  }

  /** What passing bookingValidation says about a request. */
  lemma PassedValidation(req: CreateRequest)
    requires CreateErrors(req) == []
    ensures req.checkInDate.Iso? && req.checkOutDate.Iso? && Truthy(req.roomType)
    ensures req.numberOfGuests.Some? && req.numberOfGuests.value >= 1
    ensures req.numberOfRooms.Some? && req.numberOfRooms.value >= 1
  {
    CreateErrorsExactly(req, CheckInField);
    CreateErrorsExactly(req, CheckOutField);
    CreateErrorsExactly(req, RoomTypeField);
    CreateErrorsExactly(req, GuestsField);
    CreateErrorsExactly(req, RoomsField);
  }

  /** What a created booking holds: status Pending, the ceiling of the stay in
      nights (at least one), the total nights x price x rooms, the special
      requests or "", and no receipt yet. */
  lemma CreatedBooking(req: CreateRequest, id: string, now: int)
    requires CreateErrors(req) == []
    requires req.checkInDate.Iso? && req.checkOutDate.Iso?
    requires Save(RequestDraft(req), id, now).Success?
    ensures var b := Save(RequestDraft(req), id, now).value;
            b.status == Pending && b.pdfUrl == "" &&
            b.totalNights == Nights(req.checkInDate.ms, req.checkOutDate.ms) >= 1 &&
            b.totalPrice == TotalPrice(b.totalNights, req.pricePerNight.value, req.numberOfRooms.value) &&
            b.specialRequests == (if Truthy(req.specialRequests) then req.specialRequests.value else "") &&
            b.id == id && b.createdAt == now
  {
    RequestSavesIff(req, id, now);
    CreateErrorsExactly(req, RoomsField);
    NightsPositiveIff(req.checkInDate.ms, req.checkOutDate.ms);
  }

  // ---------------------------------------------------------------------------
  // PUT /:id/status: the status change and the receipt hook

  /** The address of a booking's receipt, as the receipt generator returns it. */
  function ReceiptUrl(id: string): (url: string)
    ensures url != ""
  {
    "/public/pdfs/booking-" + id + ".pdf"
  }

  /** `findByIdAndUpdate({status, updatedAt})` followed by the receipt hook: a
      confirmed booking without a receipt gets one when generation succeeds;
      a failed generation leaves the receipt empty. Any status may replace any
      other. */
  function StatusUpdate(b: Booking, s: Status, now: int, receiptOk: bool): (r: Booking)
    ensures r.status == s && r.updatedAt == now
    ensures r.pdfUrl == if b.pdfUrl != "" then b.pdfUrl
                        else if s == Confirmed && receiptOk then ReceiptUrl(b.id)
                        else ""
    ensures r.(status := b.status, updatedAt := b.updatedAt, pdfUrl := b.pdfUrl) == b
    ensures Conforms(b) ==> Conforms(r)
  {
    var changed := b.(status := s, updatedAt := now);
    if s == Confirmed && changed.pdfUrl == "" && receiptOk
    then changed.(pdfUrl := ReceiptUrl(b.id))
    else changed
  }

  /** The receipt is generated at most once: once a booking has one, no later
      status change, confirmation or not, replaces or clears it. */
  lemma {:induction false} ReceiptNeverRegenerated(b: Booking, changes: seq<(Status, int, bool)>)
    requires b.pdfUrl != ""
    ensures ApplyChanges(b, changes).pdfUrl == b.pdfUrl
    ensures ApplyChanges(b, changes).id == b.id
    decreases |changes|
  {
    if changes != [] {
      var c := changes[0];
      ReceiptNeverRegenerated(StatusUpdate(b, c.0, c.1, c.2), changes[1..]);
    }
  }

  /** A sequence of status updates applied in turn. */
  function ApplyChanges(b: Booking, changes: seq<(Status, int, bool)>): Booking
    decreases |changes|
  {
    if changes == [] then b
    else
      var c := changes[0];
      ApplyChanges(StatusUpdate(b, c.0, c.1, c.2), changes[1..])
  }

  /** Confirming twice stores the one receipt of the first successful
      generation: the second confirmation finds it and generates nothing. */
  lemma ConfirmTwice(b: Booking, t1: int, t2: int, ok2: bool)
    requires b.pdfUrl == ""
    ensures var once := StatusUpdate(b, Confirmed, t1, true);
            StatusUpdate(once, Confirmed, t2, ok2).pdfUrl == once.pdfUrl == ReceiptUrl(b.id)
  {
  }

  /** The status is last-write-wins: after any history of updates, the
      stored status is the one most recently written. */
  lemma {:induction false} LastStatusWins(b: Booking, changes: seq<(Status, int, bool)>)
    requires changes != []
    ensures ApplyChanges(b, changes).status == changes[|changes| - 1].0
    decreases |changes|
  {
    var c := changes[0];
    if |changes| > 1 {
      LastStatusWins(StatusUpdate(b, c.0, c.1, c.2), changes[1..]);
    }
  }

  // ---------------------------------------------------------------------------
  // Listing order

  /** Newest `createdAt` first. */
  predicate NewestFirst(s: seq<Booking>) {
    forall i, j :: 0 <= i < j < |s| ==> s[i].createdAt >= s[j].createdAt
  }

  predicate NoRepeats(s: seq<Booking>) {
    forall b :: b in s ==> multiset(s)[b] == 1
  }

  /** Inserts `b` into a newest-first list at its place: ahead of the first
      booking that is not newer than it. */
  function InsertNewest(s: seq<Booking>, b: Booking): (r: seq<Booking>)
    ensures multiset(r) == multiset(s) + multiset{b}
  {
    if s == [] || b.createdAt >= s[0].createdAt then [b] + s
    else
      assert s == [s[0]] + s[1..];
      [s[0]] + InsertNewest(s[1..], b)
  }

  /** Inserting keeps a newest-first list newest first. */
  lemma {:induction false} InsertNewestSorted(s: seq<Booking>, b: Booking)
    requires NewestFirst(s)
    ensures NewestFirst(InsertNewest(s, b))
  {
    if s != [] && b.createdAt < s[0].createdAt {
      var rest := InsertNewest(s[1..], b);
      InsertNewestSorted(s[1..], b);
      InsertNewestBound(s[1..], b, s[0].createdAt);
      var r := [s[0]] + rest;
      assert InsertNewest(s, b) == r;
      forall i, j | 0 <= i < j < |r| ensures r[i].createdAt >= r[j].createdAt {
        assert r[j] == rest[j - 1];
        if i > 0 {
          assert r[i] == rest[i - 1];
        }
      }
    } else {
      var r := [b] + s;
      assert InsertNewest(s, b) == r;
      forall i, j | 0 <= i < j < |r| ensures r[i].createdAt >= r[j].createdAt {
        assert r[j] == s[j - 1];
        if i > 0 {
          assert r[i] == s[i - 1];
        } else if j > 1 {
          assert s[0].createdAt >= s[j - 1].createdAt;
        }
      }
    }
  }

  /** Inserting into bookings no newer than `t` a booking no newer than `t`
      gives bookings no newer than `t`. */
  lemma {:induction false} InsertNewestBound(s: seq<Booking>, b: Booking, t: int)
    requires forall k :: 0 <= k < |s| ==> s[k].createdAt <= t
    requires b.createdAt <= t
    ensures forall k :: 0 <= k < |InsertNewest(s, b)| ==> InsertNewest(s, b)[k].createdAt <= t
  {
    if s != [] && b.createdAt < s[0].createdAt {
      InsertNewestBound(s[1..], b, t);
      var r := InsertNewest(s, b);
      assert r == [s[0]] + InsertNewest(s[1..], b);
    }
  }

  /** Inserting a booking that is not yet listed adds exactly that booking
      and repeats nothing. */
  lemma InsertNewestAdds(s: seq<Booking>, b: Booking)
    requires NoRepeats(s) && b !in s
    ensures var r := InsertNewest(s, b);
            NoRepeats(r) && forall x :: x in r <==> x in s || x == b
  {
    var r := InsertNewest(s, b);
    forall x ensures x in r <==> x in s || x == b {
      assert x in r <==> multiset(r)[x] > 0;
      assert x in s <==> multiset(s)[x] > 0;
    }
    forall x | x in r ensures multiset(r)[x] == 1 {
      if x != b { assert x in s; }
    }
  }

  /** Which bookings a listing returns: a given owner's, or every one. */
  predicate Listed(b: Booking, owner: Option<string>) {
    owner.None? || b.userId == owner.value
  }

  // ---------------------------------------------------------------------------
  // The store

  datatype Body = One(booking: Booking) | Many(count: nat, bookings: seq<Booking>) | Done

  class BookingStore {
    var bookings: map<string, Booking>

    /** Every stored booking is filed under its own id and passed the schema. */
    ghost predicate Valid()
      reads this
    {
      forall id :: id in bookings ==> bookings[id].id == id && Conforms(bookings[id])
    }

    constructor ()
      ensures Valid() && bookings == map[]
    {
      bookings := map[];
    }

    /** POST /create. `newId` is the id the driver generates, `now` the clock.
        A save the schema or the date hook rejects, and a duplicate id, answer
        500 through the handler's catch-all. */
    method Create(req: CreateRequest, newId: string, now: int) returns (reply: Reply<Body>)
      requires Valid()
      modifies this
      ensures Valid()
      ensures CreateErrors(req) != [] ==> reply == Invalid(Names(CreateErrors(req), CreateFieldName))
      ensures CreateErrors(req) == [] ==> req.checkInDate.Iso? && req.checkOutDate.Iso?
      ensures reply.Ok? <==>
                CreateErrors(req) == [] && newId !in old(bookings) &&
                Save(RequestDraft(req), newId, now).Success?
      ensures reply.Fail? ==> reply == Fail(500, "Server error during booking")
      ensures reply.Ok? ==>
                var b := Save(RequestDraft(req), newId, now).value;
                reply == Ok(201, One(b)) && bookings == old(bookings)[newId := b]
      ensures !reply.Ok? ==> bookings == old(bookings)
    {
      var errors := CreateErrors(req);
      if errors != [] {
        return Invalid(Names(errors, CreateFieldName));
      }
      CreateErrorsExactly(req, CheckInField);
      CreateErrorsExactly(req, CheckOutField);
      var saved := Save(RequestDraft(req), newId, now);
      if saved.Failure? || newId in bookings {
        return Fail(500, "Server error during booking");
      }
      bookings := bookings[newId := saved.value];
      reply := Ok(201, One(saved.value));
    }

    /** The bookings a listing returns, newest first. */
    method Collect(owner: Option<string>) returns (list: seq<Booking>)
      requires Valid()
      ensures forall b :: b in list <==> b in bookings.Values && Listed(b, owner)
      ensures NewestFirst(list) && NoRepeats(list)
    {
      var rest := bookings.Keys;
      list := [];
      while rest != {}
        invariant rest <= bookings.Keys
        invariant NewestFirst(list) && NoRepeats(list)
        invariant forall b :: b in list ==>
                    b.id in bookings && b.id !in rest && bookings[b.id] == b && Listed(b, owner)
        invariant forall k :: k in bookings && k !in rest && Listed(bookings[k], owner) ==>
                    bookings[k] in list
        decreases rest
      {
        var k :| k in rest;
        var b := bookings[k];
        if Listed(b, owner) {
          InsertNewestAdds(list, b);
          InsertNewestSorted(list, b);
          list := InsertNewest(list, b);
        }
        rest := rest - {k};
      }
    }

    /** GET /user/:userId: the owner's bookings, newest first. */
    method ListForUser(userId: string) returns (reply: Reply<Body>)
      requires Valid()
      ensures userId == "" || userId == "undefined" || userId == "null" <==>
                reply == Fail(400, "Invalid user ID. Please login again.")
      ensures reply.Ok? ==>
                reply.code == 200 && reply.body.Many? && reply.body.count == |reply.body.bookings| &&
                NewestFirst(reply.body.bookings) && NoRepeats(reply.body.bookings) &&
                forall b :: b in reply.body.bookings <==> b in bookings.Values && b.userId == userId
      ensures reply.Ok? || reply.Fail?
    {
      if userId == "" || userId == "undefined" || userId == "null" {
        return Fail(400, "Invalid user ID. Please login again.");
      }
      var list := Collect(Some(userId));
      reply := Ok(200, Many(|list|, list));
    }

    /** GET /all (admin only): every booking, newest first. */
    method ListAll(header: Option<string>, verify: string -> Option<string>,
                   users: map<string, Accounts.User>) returns (reply: Reply<Body>)
      requires Valid()
      ensures var g := AdminGate(header, verify, users);
              g.Denied? ==> reply == Fail(g.code, g.message)
      ensures reply.Ok? <==> AdminGate(header, verify, users).Admitted?
      ensures reply.Ok? ==>
                reply.code == 200 && reply.body.Many? && reply.body.count == |reply.body.bookings| &&
                NewestFirst(reply.body.bookings) && NoRepeats(reply.body.bookings) &&
                forall b :: b in reply.body.bookings <==> b in bookings.Values
    {
      var g := AdminGate(header, verify, users);
      if g.Denied? {
        return Fail(g.code, g.message);
      }
      var list := Collect(None);
      reply := Ok(200, Many(|list|, list));
    }

    /** PUT /:id/status (admin only). `status` is `None` when the body carries
        no string; `receiptOk` is whether generating and saving the receipt
        succeeds, a failure being logged and ignored. */
    method SetStatus(header: Option<string>, verify: string -> Option<string>,
                     users: map<string, Accounts.User>, id: string, status: Option<string>,
                     now: int, receiptOk: bool) returns (reply: Reply<Body>)
      requires Valid()
      modifies this
      ensures Valid()
      ensures var g := AdminGate(header, verify, users);
              g.Denied? ==> reply == Fail(g.code, g.message)
      ensures AdminGate(header, verify, users).Admitted? &&
              (status.None? || ParseStatus(status.value).None?) ==>
                reply == Fail(400, "Invalid status")
      ensures AdminGate(header, verify, users).Admitted? &&
              status.Some? && ParseStatus(status.value).Some? && id !in old(bookings) ==>
                reply == Fail(404, "Booking not found")
      ensures reply.Ok? <==>
                AdminGate(header, verify, users).Admitted? &&
                status.Some? && ParseStatus(status.value).Some? && id in old(bookings)
      ensures reply.Ok? ==>
                var b := StatusUpdate(old(bookings)[id], ParseStatus(status.value).value, now, receiptOk);
                reply == Ok(200, One(b)) && bookings == old(bookings)[id := b]
      ensures !reply.Ok? ==> bookings == old(bookings)
    {
      var g := AdminGate(header, verify, users);
      if g.Denied? {
        return Fail(g.code, g.message);
      }
      if status.None? || ParseStatus(status.value).None? {
        return Fail(400, "Invalid status");
      }
      if id !in bookings {
        return Fail(404, "Booking not found");
      }
      var b := StatusUpdate(bookings[id], ParseStatus(status.value).value, now, receiptOk);
      bookings := bookings[id := b];
      reply := Ok(200, One(b));
    }

    /** DELETE /:id (admin only). */
    method Delete(header: Option<string>, verify: string -> Option<string>,
                  users: map<string, Accounts.User>, id: string) returns (reply: Reply<Body>)
      requires Valid()
      modifies this
      ensures Valid()
      ensures var g := AdminGate(header, verify, users);
              g.Denied? ==> reply == Fail(g.code, g.message)
      ensures AdminGate(header, verify, users).Admitted? && id !in old(bookings) ==>
                reply == Fail(404, "Booking not found")
      ensures reply.Ok? <==> AdminGate(header, verify, users).Admitted? && id in old(bookings)
      ensures reply.Ok? ==> reply == Ok(200, Done) && bookings == old(bookings) - {id}
      ensures !reply.Ok? ==> bookings == old(bookings)
    {
      var g := AdminGate(header, verify, users);
      if g.Denied? {
        return Fail(g.code, g.message);
      }
      if id !in bookings {
        return Fail(404, "Booking not found");
      }
      bookings := bookings - {id};
      reply := Ok(200, Done);
    }
  }

  /** Deleting twice: the first delete of a stored booking succeeds and
      removes only it, the second answers 404. */
  method DeleteTwice(store: BookingStore, header: Option<string>, verify: string -> Option<string>,
                     users: map<string, Accounts.User>, id: string)
      returns (first: Reply<Body>, second: Reply<Body>)
    requires store.Valid() && id in store.bookings
    requires AdminGate(header, verify, users).Admitted?
    modifies store
    ensures first == Ok(200, Done) && second == Fail(404, "Booking not found")
    ensures store.bookings == old(store.bookings) - {id}
  {
    first := store.Delete(header, verify, users, id);
    second := store.Delete(header, verify, users, id);
  }
}
