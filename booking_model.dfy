/** The booking document of models/Booking.js: its two enumerations, its fields,
    the checks the schema makes when a document is saved (required fields, enum
    membership, minimums, defaults) and the pre-save hook that rejects a
    check-out that is not after the check-in. */
module BookingModel {
  import opened Common

  datatype RoomType = StandardRoom | DeluxeRoom | JuniorSuite | ExecutiveSuite

  /** The wire value of a room type. */
  function RoomTypeName(t: RoomType): string {
    match t
    case StandardRoom => "Standard Room"
    case DeluxeRoom => "Deluxe Room"
    case JuniorSuite => "Junior Suite"
    case ExecutiveSuite => "Executive Suite"
  }

  /** Enum check on `roomType`: exact, case-sensitive match of a wire value. */
  function ParseRoomType(s: string): (r: Option<RoomType>)
    ensures r.Some? ==> RoomTypeName(r.value) == s
    ensures r.None? ==> forall t: RoomType :: RoomTypeName(t) != s
  {
    if s == "Standard Room" then Some(StandardRoom)
    else if s == "Deluxe Room" then Some(DeluxeRoom)
    else if s == "Junior Suite" then Some(JuniorSuite)
    else if s == "Executive Suite" then Some(ExecutiveSuite)
    else None
  }

  datatype Status = Pending | Confirmed | Cancelled | Completed

  /** The wire value of a status. */
  function StatusName(s: Status): string {
    match s
    case Pending => "Pending"
    case Confirmed => "Confirmed"
    case Cancelled => "Cancelled"
    case Completed => "Completed"
  }

  /** Enum check on `status`: exact, case-sensitive match of a wire value. */
  function ParseStatus(s: string): (r: Option<Status>)
    ensures r.Some? ==> StatusName(r.value) == s
    ensures r.None? ==> forall st: Status :: StatusName(st) != s
  {
    if s == "Pending" then Some(Pending)
    else if s == "Confirmed" then Some(Confirmed)
    else if s == "Cancelled" then Some(Cancelled)
    else if s == "Completed" then Some(Completed)
    else None
  }

  /** Printing and parsing the enumerations are inverse, so the wire values are
      pairwise distinct. */
  lemma WireNamesRoundTrip(t: RoomType, st: Status)
    ensures ParseRoomType(RoomTypeName(t)) == Some(t)
    ensures ParseStatus(StatusName(st)) == Some(st)
  {
  }

  /** A stored booking. Dates and timestamps are milliseconds since the epoch. */
  datatype Booking = Booking(
    id: string,
    userId: string,
    userName: string,
    userEmail: string,
    userPhone: string,
    roomType: RoomType,
    checkInDate: int,
    checkOutDate: int,
    numberOfGuests: int,
    numberOfRooms: int,
    pricePerNight: int,
    totalNights: int,
    totalPrice: int,
    status: Status,
    specialRequests: string,
    pdfUrl: string,
    createdAt: int,
    updatedAt: int)

  /** What the schema and the pre-save hook guarantee of every saved booking.
      The pricing fields are only required, never checked against each other. */
  predicate Conforms(b: Booking) {
    b.userId != "" && b.userName != "" && b.userEmail != "" && b.userPhone != "" &&
    b.numberOfGuests >= 1 && b.numberOfRooms >= 1 &&
    b.checkOutDate > b.checkInDate
  }

  /** A document about to be saved: every field as the caller supplied it,
      `None` for a field that is absent (or, for a number, not a number). */
  datatype Draft = Draft(
    userId: Option<string>,
    userName: Option<string>,
    userEmail: Option<string>,
    userPhone: Option<string>,
    roomType: Option<string>,
    checkInDate: Option<int>,
    checkOutDate: Option<int>,
    numberOfGuests: Option<int>,
    numberOfRooms: Option<int>,
    pricePerNight: Option<int>,
    totalNights: Option<int>,
    totalPrice: Option<int>,
    status: Option<string>,
    specialRequests: Option<string>,
    pdfUrl: Option<string>)

  datatype SaveError =
    | ValidationError(paths: seq<string>)   // schema validation, listing every failing path
    | DateOrderError                        // the pre-save hook

  /** A required string fails when absent or empty. */
  function RequiredString(path: string, v: Option<string>): seq<string> {
    if v.Some? && v.value != "" then [] else [path]
  }

  function RequiredNumber(path: string, v: Option<int>): seq<string> {
    if v.Some? then [] else [path]
  }

  /** The paths the schema rejects, in schema order. */
  function SchemaErrors(d: Draft): seq<string> {
    RequiredString("userId", d.userId) +
    RequiredString("userName", d.userName) +
    RequiredString("userEmail", d.userEmail) +
    RequiredString("userPhone", d.userPhone) +
    (if d.roomType.Some? && ParseRoomType(d.roomType.value).Some? then [] else ["roomType"]) +
    RequiredNumber("checkInDate", d.checkInDate) +
    RequiredNumber("checkOutDate", d.checkOutDate) +
    (if d.numberOfGuests.Some? && d.numberOfGuests.value >= 1 then [] else ["numberOfGuests"]) +
    (if d.numberOfRooms.None? || d.numberOfRooms.value >= 1 then [] else ["numberOfRooms"]) +
    RequiredNumber("pricePerNight", d.pricePerNight) +
    RequiredNumber("totalNights", d.totalNights) +
    RequiredNumber("totalPrice", d.totalPrice) +
    (if d.status.None? || ParseStatus(d.status.value).Some? then [] else ["status"])
  }

  function ValueOr<T>(v: Option<T>, default: T): T {
    if v.Some? then v.value else default
  }

  /** `new Booking(draft).save()` with `_id` = id and both timestamps = now:
      schema validation first, then the pre-save hook. The hook calls
      `next(error)` and then falls through to `next()`; the save is rejected
      by the first call. */
  function Save(d: Draft, id: string, now: int): (r: Result<Booking, SaveError>)
    ensures r.Success? ==> Conforms(r.value) && r.value.id == id
    ensures r.Success? ==> r.value.createdAt == now && r.value.updatedAt == now
    ensures r.Failure? && r.error.ValidationError? ==> r.error.paths != []
    ensures r.Failure? && r.error.DateOrderError? ==>
              d.checkInDate.Some? && d.checkOutDate.Some? && d.checkOutDate.value <= d.checkInDate.value
  {
    var errors := SchemaErrors(d);
    if errors != [] then Failure(ValidationError(errors))
    else if d.checkOutDate.value <= d.checkInDate.value then Failure(DateOrderError)
    else Success(Booking(
      id, d.userId.value, d.userName.value, d.userEmail.value, d.userPhone.value,
      ParseRoomType(d.roomType.value).value,
      d.checkInDate.value, d.checkOutDate.value,
      d.numberOfGuests.value, ValueOr(d.numberOfRooms, 1),
      d.pricePerNight.value, d.totalNights.value, d.totalPrice.value,
      if d.status.Some? then ParseStatus(d.status.value).value else Pending,
      ValueOr(d.specialRequests, ""), ValueOr(d.pdfUrl, ""),
      now, now))
  }

  /** The draft that writes every field of `b` explicitly. */
  function DraftOf(b: Booking): Draft {
    Draft(Some(b.userId), Some(b.userName), Some(b.userEmail), Some(b.userPhone),
          Some(RoomTypeName(b.roomType)), Some(b.checkInDate), Some(b.checkOutDate),
          Some(b.numberOfGuests), Some(b.numberOfRooms),
          Some(b.pricePerNight), Some(b.totalNights), Some(b.totalPrice),
          Some(StatusName(b.status)), Some(b.specialRequests), Some(b.pdfUrl))
  }

  /** The schema admits exactly the conforming bookings: every conforming
      booking, written out field by field, saves back to itself (and Save
      guarantees the converse). */
  lemma ConformingSavesToItself(b: Booking)
    requires Conforms(b) && b.createdAt == b.updatedAt
    ensures Save(DraftOf(b), b.id, b.createdAt) == Success(b)
  {
    WireNamesRoundTrip(b.roomType, b.status);
    assert SchemaErrors(DraftOf(b)) == [];
  }

  /** The defaults of the schema: a draft that leaves out the room count,
      status, special requests and receipt reference saves with one room,
      status Pending and two empty strings. */
  lemma SaveDefaults(d: Draft, id: string, now: int)
    requires d.numberOfRooms.None? && d.status.None? && d.specialRequests.None? && d.pdfUrl.None?
    requires Save(d, id, now).Success?
    ensures var b := Save(d, id, now).value;
            b.numberOfRooms == 1 && b.status == Pending && b.specialRequests == "" && b.pdfUrl == ""
  {
  }

  /** Check-out on or before check-in is rejected even when every field is
      present and valid. */
  lemma DateOrderRejected(b: Booking)
    requires Conforms(b)
    ensures Save(DraftOf(b).(checkOutDate := Some(b.checkInDate)), b.id, 0) == Failure(DateOrderError)
  {
    WireNamesRoundTrip(b.roomType, b.status);
    assert SchemaErrors(DraftOf(b).(checkOutDate := Some(b.checkInDate))) == [];
  }

  /** A room type outside the enumeration fails validation on the `roomType`
      path, and on no other path, when every other field is valid. */
  lemma UnknownRoomTypeRejected(b: Booking, rt: string)
    requires Conforms(b) && ParseRoomType(rt).None?
    ensures var r := Save(DraftOf(b).(roomType := Some(rt)), b.id, 0);
            r == Failure(ValidationError(["roomType"]))
  {
    WireNamesRoundTrip(b.roomType, b.status);
    var d := DraftOf(b).(roomType := Some(rt));
    assert SchemaErrors(d) == ["roomType"];
  }

  /** The enumeration is case-sensitive: "Luxury Yacht" and "standard room"
      are both refused. */
  lemma RoomTypeExamples()
    ensures ParseRoomType("Luxury Yacht").None? && ParseRoomType("standard room").None?
    ensures ParseRoomType("Standard Room") == Some(StandardRoom)
  {
  }

  /** The schema stores the pricing fields as given: a total that is not
      nights x price x rooms is saved unchanged. */
  lemma TotalsNotCrossChecked(b: Booking, wrongTotal: int)
    requires Conforms(b) && b.createdAt == b.updatedAt
    ensures var r := Save(DraftOf(b).(totalPrice := Some(wrongTotal)), b.id, b.createdAt);
            r.Success? && r.value.totalPrice == wrongTotal
  {
    WireNamesRoundTrip(b.roomType, b.status);
    assert SchemaErrors(DraftOf(b).(totalPrice := Some(wrongTotal))) == [];
  }
}
