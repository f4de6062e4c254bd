/** The administrator's reservation list (js/admin-bookings.js): how each
    booking the server returns becomes a table row (status tag, Confirm and
    Delete actions, field fallbacks), the count label above the table, and
    the requests the Confirm and Delete buttons send. Dates are shown through
    the browser's locale formatting and are not part of a row here. */
module AdminBookings {
  import opened Common
  import BookingModel
  import Accounts
  import ClientSecurity

  /** A booking as the list request returns it, read as loosely as the page
      reads it: every field may be missing, and the page also accepts the
      older field names (`guestName`, `email`, `total`, `guests`, `id`). */
  datatype ListedBooking = ListedBooking(
    status: Option<string>,
    userName: Option<string>, guestName: Option<string>,
    userEmail: Option<string>, email: Option<string>,
    roomType: Option<string>,
    numberOfGuests: Option<int>, guests: Option<int>,
    numberOfRooms: Option<int>,
    totalPrice: Option<int>, total: Option<int>,
    mongoId: Option<string>, id: Option<string>)

  /** `a || b` on optional numbers: a missing value and 0 are falsy. */
  function NumOr(a: Option<int>, b: int): (r: int)
    ensures a.Some? && a.value != 0 ==> r == a.value
    ensures !(a.Some? && a.value != 0) ==> r == b
  {
    if a.Some? && a.value != 0 then a.value else b
  }

  /** `a || ''` on an optional string. */
  function TextOf(a: Option<string>): string {
    if a.Some? then a.value else ""
  }

  // ---------------------------------------------------------------------------
  // The status tag and the Confirm action

  datatype Tag = ConfirmedTag | PendingTag | CompletedTag | CancelledTag

  /** The text of the tag's badge. */
  function TagLabel(t: Tag): string {
    match t
    case ConfirmedTag => "CONFIRMED"
    case PendingTag => "PENDING"
    case CompletedTag => "COMPLETED"
    case CancelledTag => "CANCELLED"
  }

  /** `(booking.status || '').toLowerCase()`. */
  function LowerStatus(status: Option<string>): string {
    ToLower(TextOf(status))
  }

  /** The if-chain over the lower-cased status: the three other known values
      get their own tag, and everything else, including a missing or empty
      status, is shown as PENDING. */
  function StatusTag(status: Option<string>): (t: Tag)
    ensures t == ConfirmedTag <==> LowerStatus(status) == "confirmed"
    ensures t == CompletedTag <==> LowerStatus(status) == "completed"
    ensures t == CancelledTag <==> LowerStatus(status) == "cancelled"
    ensures t == PendingTag <==> LowerStatus(status) !in {"confirmed", "completed", "cancelled"}
  {
    var s := LowerStatus(status);
    if s == "confirmed" then ConfirmedTag
    else if s == "pending" then PendingTag
    else if s == "completed" then CompletedTag
    else if s == "cancelled" then CancelledTag
    else PendingTag
  }

  /** The Confirm button is rendered only when the lower-cased status is
      exactly "pending"; Delete is rendered on every row. */
  predicate ShowConfirm(status: Option<string>) {
    LowerStatus(status) == "pending"
  }

  /** The tag the page shows for each status the server stores. */
  function ServerTag(st: BookingModel.Status): Tag {
    match st
    case Pending => PendingTag
    case Confirmed => ConfirmedTag
    case Cancelled => CancelledTag
    case Completed => CompletedTag
  }

  /** For the four stored statuses the page shows the matching tag, and
      offers Confirm exactly on pending bookings. */
  lemma TagsAgreeWithServer(st: BookingModel.Status)
    ensures StatusTag(Some(BookingModel.StatusName(st))) == ServerTag(st)
    ensures ShowConfirm(Some(BookingModel.StatusName(st))) <==> st == BookingModel.Pending
  {
    var lower := LowerStatus(Some(BookingModel.StatusName(st)));
    match st
    case Pending => assert lower == "pending";
    case Confirmed => assert lower == "confirmed";
    case Cancelled => assert lower == "cancelled";
    case Completed => assert lower == "completed";
  }

  /** A row that offers Confirm is tagged PENDING; the converse fails, since
      an unknown status is also tagged PENDING but offers no Confirm. */
  lemma ConfirmOnlyForPending(status: Option<string>)
    ensures ShowConfirm(status) ==> StatusTag(status) == PendingTag
  {
  }

  /** Any status outside the four the page knows, including a missing one,
      is shown as PENDING but offers no Confirm. */
  lemma UnknownStatusHasNoConfirm(status: Option<string>)
    requires LowerStatus(status) !in {"pending", "confirmed", "completed", "cancelled"}
    ensures StatusTag(status) == PendingTag && !ShowConfirm(status)
  {
  }

  /** "On hold" and a missing status are two such statuses. */
  lemma UnknownStatusExamples()
    ensures LowerStatus(Some("On hold")) !in {"pending", "confirmed", "completed", "cancelled"}
    ensures LowerStatus(None) !in {"pending", "confirmed", "completed", "cancelled"}
  {
    assert LowerStatus(Some("On hold"))[0] == 'o';
    assert LowerStatus(Some("On hold"))[1] == 'n';
  }

  /** Lower-casing twice changes nothing. */
  lemma ToLowerIdempotent(s: string)
    ensures ToLower(ToLower(s)) == ToLower(s)
  {
    forall i | 0 <= i < |s| ensures ToLower(ToLower(s))[i] == ToLower(s)[i] {
      var c := s[i];
      if 'A' <= c <= 'Z' {
        assert 'a' <= LowerChar(c) <= 'z';
      }
    }
  }

  /** Tag and action depend only on the status's letters, not their case. */
  lemma StatusCaseInsensitive(s: string)
    ensures StatusTag(Some(s)) == StatusTag(Some(ToLower(s)))
    ensures ShowConfirm(Some(s)) == ShowConfirm(Some(ToLower(s)))
  {
    ToLowerIdempotent(s);
  }

  // ---------------------------------------------------------------------------
  // The count label

  /** The text above the table: the number of bookings, 0 when the list is
      missing or empty. */
  function CountLabel(bookings: Option<seq<ListedBooking>>): (text: string)
    ensures var n := if bookings.Some? then |bookings.value| else 0;
            text == "(" + NatToString(n) + " reservations)"
  {
    if bookings.None? || |bookings.value| == 0 then "(0 reservations)"
    else "(" + NatToString(|bookings.value|) + " reservations)"
  }

  /** The label states the count: reading the number back after the
      parenthesis gives the list's length. */
  lemma CountLabelReadsBack(bookings: Option<seq<ListedBooking>>)
    ensures var n := if bookings.Some? then |bookings.value| else 0;
            ParseInt(CountLabel(bookings)[1..]) == Some(n)
  {
    var n := if bookings.Some? then |bookings.value| else 0;
    NumberAfterParen(n, " reservations)");
  }

  /** A number printed after an opening parenthesis and before a non-digit
      reads back after the parenthesis. */
  lemma NumberAfterParen(n: nat, suffix: string)
    requires suffix == [] || !IsDigit(suffix[0])
    ensures ParseInt(("(" + NatToString(n) + suffix)[1..]) == Some(n)
  {
    var rest := NatToString(n) + suffix;
    assert ("(" + NatToString(n) + suffix)[1..] == rest;
    ParseIntOfNumeral(n, suffix);
  }

  // ---------------------------------------------------------------------------
  // The rows

  /** One table row: its number, the sanitised text cells, the numbers, the
      tag, and the booking id carried by the Confirm button (when there is
      one) and by the Delete button. */
  datatype Row = Row(
    number: nat, guestName: string, email: string, roomType: string,
    guests: int, rooms: int, total: int, tag: Tag,
    confirmId: Option<string>, deleteId: string)

  /** `${booking._id || booking.id}`: a template prints a missing value as
      "undefined". */
  function IdAttribute(b: ListedBooking): (r: string)
    ensures Truthy(b.mongoId) ==> r == b.mongoId.value
    ensures !Truthy(b.mongoId) && b.id.Some? ==> r == b.id.value
    ensures !Truthy(b.mongoId) && b.id.None? ==> r == "undefined"
  {
    var v := OrElse(b.mongoId, b.id);
    if v.Some? then v.value else "undefined"
  }

  /** The row for the booking at position `index` of the list. */
  function RowOf(b: ListedBooking, index: nat): (r: Row)
    ensures r.number == index + 1 && r.number >= 1
    ensures r.tag == StatusTag(b.status)
    ensures r.confirmId.Some? <==> ShowConfirm(b.status)
    ensures r.confirmId.Some? ==> r.confirmId.value == r.deleteId
    ensures r.guestName == ClientSecurity.EscapeText(TextOf(OrElse(b.userName, b.guestName)))
    ensures r.rooms == NumOr(b.numberOfRooms, 1) && r.rooms != 0
    ensures r.total == NumOr(b.totalPrice, NumOr(b.total, 0))
  {
    var id := IdAttribute(b);
    Row(index + 1,
        ClientSecurity.EscapeText(TextOf(OrElse(b.userName, b.guestName))),
        ClientSecurity.EscapeText(TextOf(OrElse(b.userEmail, b.email))),
        ClientSecurity.EscapeText(TextOf(b.roomType)),
        NumOr(b.numberOfGuests, NumOr(b.guests, 0)),
        NumOr(b.numberOfRooms, 1),
        NumOr(b.totalPrice, NumOr(b.total, 0)),
        StatusTag(b.status),
        if ShowConfirm(b.status) then Some(id) else None,
        id)
  }

  /** The guest name cell reads back as the name the server stored: the
      sanitiser escapes the markup characters without losing any. A name
      falls back to `guestName` only when `userName` is missing or empty. */
  lemma GuestNameReadsBack(b: ListedBooking, index: nat)
    ensures ClientSecurity.Unescape(RowOf(b, index).guestName) == TextOf(OrElse(b.userName, b.guestName))
    ensures '<' !in RowOf(b, index).guestName && '>' !in RowOf(b, index).guestName
  {
    ClientSecurity.EscapeRoundTrip(TextOf(OrElse(b.userName, b.guestName)));
  }

  /** The sanitiser leaves double quotes alone, so a guest name can still
      close the `data-guest-name="…"` attribute the name is copied into. */
  lemma QuoteSurvivesSanitising()
    ensures ClientSecurity.EscapeText("\"") == "\""
  {
    ClientSecurity.EscapePlainText("\"");
  }

  /** displayBookings: the count label and, for a non-empty list, one row per
      booking in list order. A missing or empty list shows no rows. */
  method DisplayBookings(bookings: Option<seq<ListedBooking>>) returns (countText: string, rows: seq<Row>)
    ensures countText == CountLabel(bookings)
    ensures bookings.None? ==> rows == []
    ensures bookings.Some? ==> |rows| == |bookings.value|
    ensures bookings.Some? ==> forall i :: 0 <= i < |rows| ==> rows[i] == RowOf(bookings.value[i], i)
  {
    countText := CountLabel(bookings);
    rows := [];
    if bookings.None? || |bookings.value| == 0 {
      return;
    }
    rows := RenderRows(bookings.value);
  }

  /** The `forEach` over the list: one row per booking, in list order. */
  method RenderRows(list: seq<ListedBooking>) returns (rows: seq<Row>)
    ensures |rows| == |list|
    ensures forall i :: 0 <= i < |rows| ==> rows[i] == RowOf(list[i], i)
  {
    rows := [];
    var index := 0;
    while index < |list|
      invariant 0 <= index <= |list|
      invariant |rows| == index
      invariant forall i :: 0 <= i < index ==> rows[i] == RowOf(list[i], i)
    {
      var row := RowOf(list[index], index);
      ghost var before := rows;
      rows := rows + [row];
      assert forall i :: 0 <= i < index ==> rows[i] == before[i];
      index := index + 1;
    }
  }

  /** On the rendered table every row can be deleted, and the rows offering
      Confirm are exactly those whose booking is pending. */
  lemma ConfirmRowsArePending(list: seq<ListedBooking>, rows: seq<Row>, i: int)
    requires |rows| == |list|
    requires forall k :: 0 <= k < |rows| ==> rows[k] == RowOf(list[k], k)
    requires 0 <= i < |rows|
    ensures rows[i].confirmId.Some? <==> LowerStatus(list[i].status) == "pending"
    ensures rows[i].confirmId.Some? ==> rows[i].tag == PendingTag
    ensures rows[i].number == i + 1
  {
    assert rows[i] == RowOf(list[i], i);
  }

  // ---------------------------------------------------------------------------
  // The Confirm and Delete requests

  /** An HTTP request the page sends. */
  datatype Request = Request(verb: string, path: string, authorization: string, body: Option<map<string, JsValue>>)

  /** `'Bearer ' + token`: a missing token is printed as "null". */
  function BearerHeader(token: Option<string>): (h: string)
    ensures token.Some? ==> h == "Bearer " + token.value
    ensures token.None? ==> h == "Bearer null"
  {
    "Bearer " + (if token.Some? then token.value else "null")
  }

  /** confirmBooking: nothing is sent unless the administrator accepts the
      prompt; then a PUT of exactly `{status: 'Confirmed'}` to the booking's
      status route. */
  function ConfirmBooking(id: string, accepted: bool, local: map<string, string>): (r: Option<Request>)
    ensures r.Some? <==> accepted
    ensures r.Some? ==> r.value.verb == "PUT" && r.value.path == "/api/bookings/" + id + "/status"
    ensures r.Some? ==> r.value.body == Some(map["status" := JStr("Confirmed")])
    ensures r.Some? ==> r.value.authorization == BearerHeader(ClientSecurity.GetAdminAuthToken(local))
  {
    if !accepted then None
    else
      Some(Request("PUT", "/api/bookings/" + id + "/status",
                   BearerHeader(ClientSecurity.GetAdminAuthToken(local)),
                   Some(map["status" := JStr("Confirmed")])))
  }

  /** deleteBooking: nothing is sent unless the prompt is accepted; then a
      DELETE of the booking with no body. */
  function DeleteBooking(id: string, accepted: bool, local: map<string, string>): (r: Option<Request>)
    ensures r.Some? <==> accepted
    ensures r.Some? ==> r.value.verb == "DELETE" && r.value.path == "/api/bookings/" + id
    ensures r.Some? ==> r.value.body.None?
    ensures r.Some? ==> r.value.authorization == BearerHeader(ClientSecurity.GetAdminAuthToken(local))
  {
    if !accepted then None
    else
      Some(Request("DELETE", "/api/bookings/" + id,
                   BearerHeader(ClientSecurity.GetAdminAuthToken(local)), None))
  }

  /** The status the Confirm request carries passes the server's status check
      and is the Confirmed status. */
  lemma ConfirmPayloadAccepted(id: string, local: map<string, string>)
    ensures var r := ConfirmBooking(id, true, local);
            r.Some? && r.value.body.Some? && "status" in r.value.body.value &&
            r.value.body.value["status"].JStr? &&
            BookingModel.ParseStatus(r.value.body.value["status"].s) == Some(BookingModel.Confirmed)
  {
    BookingModel.WireNamesRoundTrip(BookingModel.StandardRoom, BookingModel.Confirmed);
  }

  /** The server's admin gate reads back the stored admin token from the
      header the page sends, when the token is non-empty and has no space. */
  lemma HeaderCarriesToken(token: string)
    requires token != "" && ' ' !in token
    ensures Accounts.BearerToken(Some(BearerHeader(Some(token)))) == Some(token)
  {
    var h := BearerHeader(Some(token));
    assert h == "Bearer" + [' '] + token;
    IndexOfPrefix("Bearer", ' ', token);
    assert h[7..] == token;
    assert IndexOf(token, ' ') == |token|;
    assert token[..|token|] == token;
  }
}
