/** The booking page of js/booking.js: the room table, the live total, the
    checks made when the form is submitted and the request body it sends, and
    the filling of the guest fields from the stored user record. The
    browser's date parser (`new Date(value)`) is a parameter; `None` stands
    for an invalid date, whose comparisons are all false. */
module ClientBooking {
  import opened Common
  import opened Pricing
  import BookingModel
  import opened ClientSecurity

  datatype Room = Room(name: string, price: int)

  /** The `roomTypes` table: the only source of room names and prices. */
  function RoomTable(key: string): (r: Option<Room>)
    ensures r.Some? <==> key == "standard" || key == "deluxe" || key == "junior" || key == "executive"
  {
    if key == "standard" then Some(Room("Standard Room", 3500))
    else if key == "deluxe" then Some(Room("Deluxe Room", 5500))
    else if key == "junior" then Some(Room("Junior Suite", 8000))
    else if key == "executive" then Some(Room("Executive Suite", 12000))
    else None
  }

  /** The keys `roomTypes` inherits from Object.prototype: as an ordinary
      object literal, looking one of them up finds the prototype's member
      rather than nothing. */
  const PrototypeKeys: set<string> := {
    "constructor", "__proto__", "hasOwnProperty", "isPrototypeOf",
    "propertyIsEnumerable", "toString", "toLocaleString", "valueOf",
    "__defineGetter__", "__defineSetter__", "__lookupGetter__", "__lookupSetter__"}

  /** What `roomTypes[key]` finds. */
  datatype Lookup =
    | Own(room: Room)                  // one of the four rooms
    | Inherited(name: Option<string>)  // a prototype member: a function with that `name` and no `price`, or Object.prototype itself (no `name`)
    | Missing                          // undefined

  /** `roomTypes[key]`: a room for the four own keys; for an inherited key
      the prototype's member, whose `name` is the function's name
      (`constructor` is the function Object) and which has no price; for any
      other key nothing. */
  function LookupRoom(key: string): (l: Lookup)
    ensures l.Own? <==> RoomTable(key).Some?
    ensures l.Own? ==> l.room == RoomTable(key).value
    ensures l.Inherited? <==> key in PrototypeKeys
    ensures l.Inherited? ==> (l.name.None? <==> key == "__proto__")
    ensures l.Inherited? && key != "__proto__" && key != "constructor" ==> l.name == Some(key)
    ensures key == "constructor" ==> l == Inherited(Some("Object"))
    ensures l.Missing? <==> RoomTable(key).None? && key !in PrototypeKeys
  {
    if RoomTable(key).Some? then Own(RoomTable(key).value)
    else if key == "__proto__" then Inherited(None)
    else if key == "constructor" then Inherited(Some("Object"))
    else if key in PrototypeKeys then Inherited(Some(key))
    else Missing
  }

  /** `room.name` and `room.price` of what the lookup found; `None` is
      undefined. */
  function NameOf(l: Lookup): Option<string> {
    match l
    case Own(room) => Some(room.name)
    case Inherited(name) => name
    case Missing => None
  }

  function PriceOf(l: Lookup): Option<int> {
    if l.Own? then Some(l.room.price) else None
  }

  /** `urlParams.get('room') || 'standard'`. */
  function RoomKey(param: Option<string>): string {
    if Truthy(param) then param.value else "standard"
  }

  /** Every room of the table carries a name the booking schema accepts and a
      positive price, and a page opened without a room parameter offers the
      standard room. */
  lemma RoomTableAgreesWithSchema(key: string, param: Option<string>)
    ensures RoomTable(key).Some? ==>
              BookingModel.ParseRoomType(RoomTable(key).value.name).Some? && RoomTable(key).value.price > 0
    ensures !Truthy(param) ==> RoomTable(RoomKey(param)) == Some(Room("Standard Room", 3500))
  {
  }

  /** Room names hold no character the sanitiser rewrites. */
  lemma RoomNameIsPlain(key: string)
    requires RoomTable(key).Some?
    ensures EscapeText(RoomTable(key).value.name) == RoomTable(key).value.name
  {
    var name := RoomTable(key).value.name;
    assert name in {"Standard Room", "Deluxe Room", "Junior Suite", "Executive Suite"};
    forall i | 0 <= i < |name|
      ensures name[i] != '&' && name[i] != '<' && name[i] != '>' && name[i] != NoBreakSpace
    {
      assert 'A' <= name[i] <= 'z' || name[i] == ' ';
    }
    EscapePlainText(name);
  }

  /** `parseInt(field) || 1`: a count that does not parse, or parses to 0,
      becomes 1. */
  function NumRooms(field: string): (n: int)
    ensures n != 0
    ensures ParseInt(field).Some? && ParseInt(field).value != 0 ==> n == ParseInt(field).value
    ensures ParseInt(field).None? || ParseInt(field).value == 0 ==> n == 1
  {
    var p := ParseInt(field);
    if p.None? || p.value == 0 then 1 else p.value
  }

  /** A room count typed as a positive numeral is taken as it is. */
  lemma NumRoomsOfNumeral(k: nat)
    requires k >= 1
    ensures NumRooms(NatToString(k)) == k
  {
    ParseIntOfNumeral(k, []);
    assert NatToString(k) + [] == NatToString(k);
  }

  /** What calculateTotal leaves on the page. */
  datatype TotalDisplay =
    | Unchanged                                           // dates missing, invalid or out of order
    | Shown(nights: int, rooms: int, total: Option<int>)  // the three summary fields; `None` shows "₱NaN"
    | Crashed                                             // nothing under the room key: `room.price` throws

  /** calculateTotal: the summary is updated only for a stay whose check-out
      is after its check-in; a room key inherited from Object.prototype has
      no price, so its total is NaN. */
  function CalculateTotal(param: Option<string>, checkIn: Option<int>, checkOut: Option<int>,
                          roomsField: string): (d: TotalDisplay)
    ensures d.Unchanged? <==> !(checkIn.Some? && checkOut.Some? && checkOut.value > checkIn.value)
    ensures d.Crashed? <==> !d.Unchanged? && LookupRoom(RoomKey(param)).Missing?
    ensures d.Shown? ==>
              d.nights == Nights(checkIn.value, checkOut.value) && d.nights >= 1 &&
              d.rooms == NumRooms(roomsField) &&
              (d.total.Some? <==> RoomTable(RoomKey(param)).Some?) &&
              (d.total.Some? ==> d.total.value == TotalPrice(d.nights, RoomTable(RoomKey(param)).value.price, d.rooms))
  {
    if checkIn.Some? && checkOut.Some? && checkOut.value > checkIn.value then
      var found := LookupRoom(RoomKey(param));
      if found.Missing? then Crashed
      else
        NightsPositiveIff(checkIn.value, checkOut.value);
        var nights := Nights(checkIn.value, checkOut.value);
        var rooms := NumRooms(roomsField);
        Shown(nights, rooms, if found.Own? then Some(found.room.price * nights * rooms) else None)
    else Unchanged
  }

  /** The booking form's fields as typed. */
  datatype BookingForm = BookingForm(
    fullName: string, email: string, phone: string,
    checkInText: string, checkOutText: string,
    numGuests: string, numRooms: string, specialRequests: string)

  /** What `JSON.parse` makes of a stored user record, as far as the page
      reads it: an object's string fields; `null`, whose fields cannot be
      read; or text that is not JSON, on which it throws. Any other JSON value
      (a number, a string, an array) has none of the fields the page reads and
      is `Fields(map[])`. */
  datatype Parsed = Fields(fields: map<string, string>) | NullValue | NotJson

  /** `JSON.parse(localStorage.getItem('userData') || '{}')` as
      handleBookingSubmit reads it, outside any try: `None` when it throws or
      the record is null, so that reading `userData.id` throws. */
  function SubmitRecord(local: map<string, string>, parse: string -> Parsed): (r: Option<map<string, string>>)
    ensures !Truthy(GetItem(local, "userData")) ==> r == Some(map[])
    ensures Truthy(GetItem(local, "userData")) ==> (r.Some? <==> parse(local["userData"]).Fields?)
    ensures Truthy(GetItem(local, "userData")) && r.Some? ==> r.value == parse(local["userData"]).fields
  {
    var text := GetItem(local, "userData");
    if !Truthy(text) then Some(map[])
    else
      match parse(text.value)
      case Fields(record) => Some(record)
      case _ => None
  }

  /** `userData.id || userData._id`. */
  function UserIdOf(userData: map<string, string>): (id: Option<string>)
    ensures Truthy(id) <==> Truthy(GetItem(userData, "id")) || Truthy(GetItem(userData, "_id"))
  {
    OrElse(GetItem(userData, "id"), GetItem(userData, "_id"))
  }

  /** The request body before sanitising. `parseInt` of the guest count is
      NaN for text that does not start with a number, which JSON writes as
      null; an undefined room name or price is left out, as JSON.stringify
      leaves it out of the body. */
  function Payload(form: BookingForm, name: Option<string>, price: Option<int>, userId: string, rooms: int)
    : map<string, JsValue>
  {
    var guests := ParseInt(form.numGuests);
    var fields :=
      map["userId" := JStr(userId),
          "userName" := JStr(form.fullName),
          "userEmail" := JStr(form.email),
          "userPhone" := JStr(form.phone),
          "checkInDate" := JStr(form.checkInText),
          "checkOutDate" := JStr(form.checkOutText),
          "numberOfGuests" := (if guests.Some? then JNum(guests.value) else JNull),
          "numberOfRooms" := JNum(rooms),
          "specialRequests" := JStr(form.specialRequests)];
    var named := if name.Some? then fields["roomType" := JStr(name.value)] else fields;
    if price.Some? then named["pricePerNight" := JNum(price.value)] else named
  }

  /** The outcome of handleBookingSubmit. */
  datatype Submission =
    | DatesRefused                                            // "Check-out date must be after check-in date!"
    | LoginRequired                                           // "Please login to make a booking"
    | SubmitCrashed                                           // the stored record throws, or nothing is under the room key
    | Send(body: map<string, JsValue>, total: Option<int>)   // the sanitised body and the total shown on success

  predicate DatesOutOfOrder(checkIn: Option<int>, checkOut: Option<int>) {
    checkIn.Some? && checkOut.Some? && checkOut.value <= checkIn.value
  }

  /** The total the submit handler computes: NaN (`None`) for an invalid
      date or a room without a price. */
  function SubmitTotal(checkIn: Option<int>, checkOut: Option<int>, found: Lookup, rooms: int): Option<int> {
    if checkIn.Some? && checkOut.Some? && found.Own?
    then Some(TotalPrice(Nights(checkIn.value, checkOut.value), found.room.price, rooms))
    else None
  }

  /** The last step of handleBookingSubmit: the body built from the room
      found, sanitised, with the total computed. */
  method SendBooking(form: BookingForm, found: Lookup, userId: string,
                     checkIn: Option<int>, checkOut: Option<int>) returns (out: Submission)
    ensures out.Send?
    ensures var raw := Payload(form, NameOf(found), PriceOf(found), userId, NumRooms(form.numRooms));
            out.body.Keys == raw.Keys && forall k :: k in raw ==> out.body[k] == SanitizeValue(raw[k])
    ensures out.total == SubmitTotal(checkIn, checkOut, found, NumRooms(form.numRooms))
  {
    var rooms := NumRooms(form.numRooms);
    var total: Option<int> := None;
    if checkIn.Some? && checkOut.Some? && found.Own? {
      var nights := Nights(checkIn.value, checkOut.value);
      total := Some(found.room.price * nights * rooms);
    }
    var body := SanitizeFormData(Payload(form, NameOf(found), PriceOf(found), userId, rooms));
    out := Send(body, total);
  }

  /** handleBookingSubmit: the date order is checked first, then the stored
      user record is parsed and its id looked up, and only then is the room
      looked up and the request body built and sanitised. An invalid date
      passes the order check (NaN compares false) and then the total is NaN
      (`None`); so is the total of a room key inherited from Object.prototype,
      whose body carries no price. */
  method HandleBookingSubmit(form: BookingForm, param: Option<string>, local: map<string, string>,
                             parse: string -> Parsed, parseDate: string -> Option<int>)
    returns (out: Submission)
    ensures out == DatesRefused <==> DatesOutOfOrder(parseDate(form.checkInText), parseDate(form.checkOutText))
    ensures out == LoginRequired <==>
              !DatesOutOfOrder(parseDate(form.checkInText), parseDate(form.checkOutText)) &&
              SubmitRecord(local, parse).Some? && !Truthy(UserIdOf(SubmitRecord(local, parse).value))
    ensures out == SubmitCrashed <==>
              !DatesOutOfOrder(parseDate(form.checkInText), parseDate(form.checkOutText)) &&
              (SubmitRecord(local, parse).None? ||
               (Truthy(UserIdOf(SubmitRecord(local, parse).value)) && LookupRoom(RoomKey(param)).Missing?))
    ensures out.Send? ==>
              var found := LookupRoom(RoomKey(param));
              var raw := Payload(form, NameOf(found), PriceOf(found),
                                 UserIdOf(SubmitRecord(local, parse).value).value, NumRooms(form.numRooms));
              out.body.Keys == raw.Keys &&
              (forall k :: k in raw ==> out.body[k] == SanitizeValue(raw[k])) &&
              out.total == SubmitTotal(parseDate(form.checkInText), parseDate(form.checkOutText),
                                       found, NumRooms(form.numRooms))
  {
    var checkIn := parseDate(form.checkInText);
    var checkOut := parseDate(form.checkOutText);
    if DatesOutOfOrder(checkIn, checkOut) {
      return DatesRefused;
    }
    var userData := SubmitRecord(local, parse);
    if userData.None? {
      return SubmitCrashed;
    }
    var userId := UserIdOf(userData.value);
    if !Truthy(userId) {
      return LoginRequired;
    }
    var found := LookupRoom(RoomKey(param));
    if found.Missing? {
      return SubmitCrashed;
    }
    out := SendBooking(form, found, userId.value, checkIn, checkOut);
  }

  /** The body the page sends names the room as the schema spells it and
      carries the table's price, so the server prices the stay from the
      same numbers as the page's own total. */
  lemma SentRoomAgreesWithServer(form: BookingForm, key: string, userId: string, rooms: int)
    requires RoomTable(key).Some?
    ensures var room := RoomTable(key).value;
            var sent := Payload(form, Some(room.name), Some(room.price), userId, rooms);
            SanitizeValue(sent["roomType"]) == JStr(room.name) &&
            BookingModel.ParseRoomType(room.name).Some? &&
            SanitizeValue(sent["pricePerNight"]) == JNum(room.price) && room.price > 0
  {
    var room := RoomTable(key).value;
    RoomNameIsPlain(key);
    RoomTableAgreesWithSchema(key, None);
    var sent := Payload(form, Some(room.name), Some(room.price), userId, rooms);
    assert sent["roomType"] == JStr(room.name);
    assert sent["pricePerNight"] == JNum(room.price);
  }

  /** The room count the page sends is the one its total used, never 0. */
  lemma SentRoomCount(form: BookingForm, name: Option<string>, price: Option<int>, userId: string)
    ensures SanitizeValue(Payload(form, name, price, userId, NumRooms(form.numRooms))["numberOfRooms"]) ==
              JNum(NumRooms(form.numRooms))
    ensures NumRooms(form.numRooms) != 0
  {
    var rooms := NumRooms(form.numRooms);
    var sent := Payload(form, name, price, userId, rooms);
    assert "numberOfRooms" != "roomType" && "numberOfRooms" != "pricePerNight";
    assert sent["numberOfRooms"] == JNum(rooms);
  }

  /** A room key inherited from Object.prototype still sends a booking, but
      without a price and under a room type the booking schema refuses. */
  lemma InheritedRoomSendsNoPrice(form: BookingForm, key: string, userId: string, rooms: int)
    requires key in PrototypeKeys
    ensures var found := LookupRoom(key);
            var sent := Payload(form, NameOf(found), PriceOf(found), userId, rooms);
            "pricePerNight" !in sent &&
            ("roomType" in sent <==> key != "__proto__") &&
            ("roomType" in sent ==> BookingModel.ParseRoomType(sent["roomType"].s).None?)
  {
    var found := LookupRoom(key);
    var sent := Payload(form, NameOf(found), PriceOf(found), userId, rooms);
    if key != "__proto__" {
      assert sent["roomType"].s == found.name.value;
      PrototypeNameRefused(found.name.value);
    }
  }

  /** No name of a prototype member is a room type of the schema: each of
      them starts with a lower-case letter, `_` or the `O` of "Object". */
  lemma PrototypeNameRefused(name: string)
    requires name in PrototypeKeys || name == "Object"
    ensures BookingModel.ParseRoomType(name).None?
  {
    assert name[0] in {'c', '_', 'h', 'i', 'p', 't', 'v', 'O'};
  }

  // ---------------------------------------------------------------------------
  // autoFillUserInfo

  /** `first + (middle ? ' ' + middle : '') + ' ' + last`. */
  function ComposedName(first: string, middle: Option<string>, last: string): string {
    first + (if Truthy(middle) then " " + middle.value else "") + " " + last
  }

  /** The composed name splits back on spaces into its parts, so none of
      them is lost when each is a single word. */
  lemma ComposedNameSplits(first: string, middle: Option<string>, last: string)
    requires first != "" && last != "" && ' ' !in first && ' ' !in last
    requires Truthy(middle) ==> ' ' !in middle.value
    ensures Split(ComposedName(first, middle, last), ' ') ==
              if Truthy(middle) then [first, middle.value, last] else [first, last]
  {
    if Truthy(middle) {
      var parts := [first, middle.value, last];
      assert Join(parts, ' ') == ComposedName(first, middle, last) by {
        assert Join(parts[1..], ' ') == middle.value + " " + last;
      }
      SplitJoin(parts, ' ');
    } else {
      var parts := [first, last];
      assert Join(parts, ' ') == ComposedName(first, middle, last);
      SplitJoin(parts, ' ');
    }
  }

  /** The values written into the guest fields; `None` leaves a field as it was. */
  datatype AutoFill = AutoFill(fullName: Option<string>, email: Option<string>, phone: Option<string>)

  /** The user record autoFillUserInfo reads: the `userData` entry of local
      storage, or else `currentUser`, parsed as JSON inside a try, so that
      text that is not JSON reads as the empty object, as does no record at
      all. `None` when the record is `null`: reading its fields throws. */
  function StoredProfile(local: map<string, string>, parse: string -> Parsed): (u: Option<map<string, string>>)
    ensures Truthy(GetItem(local, "userData")) ==>
              u == match parse(local["userData"])
                   case Fields(record) => Some(record)
                   case NullValue => None
                   case NotJson => Some(map[])
    ensures !Truthy(GetItem(local, "userData")) && Truthy(GetItem(local, "currentUser")) ==>
              u == match parse(local["currentUser"])
                   case Fields(record) => Some(record)
                   case NullValue => None
                   case NotJson => Some(map[])
    ensures !Truthy(GetItem(local, "userData")) && !Truthy(GetItem(local, "currentUser")) ==> u == Some(map[])
  {
    var text := OrElse(GetItem(local, "userData"), GetItem(local, "currentUser"));
    if !Truthy(text) then Some(map[])
    else
      match parse(text.value)
      case Fields(record) => Some(record)
      case NullValue => None
      case NotJson => Some(map[])
  }

  /** While a `userData` record is stored, whatever `currentUser` holds is
      never read. */
  lemma UserDataShadowsCurrentUser(local: map<string, string>, parse: string -> Parsed, other: string)
    requires Truthy(GetItem(local, "userData"))
    ensures StoredProfile(local["currentUser" := other], parse) == StoredProfile(local, parse)
  {
    assert GetItem(local["currentUser" := other], "userData") == GetItem(local, "userData");
  }

  /** The two handlers read the same record when `userData` holds an object;
      a record that is not JSON is emptied by autoFillUserInfo but makes
      handleBookingSubmit throw. */
  lemma SubmitReadsAutoFilledRecord(local: map<string, string>, parse: string -> Parsed)
    requires Truthy(GetItem(local, "userData"))
    ensures parse(local["userData"]).Fields? ==> SubmitRecord(local, parse) == StoredProfile(local, parse)
    ensures parse(local["userData"]).NotJson? ==>
              SubmitRecord(local, parse).None? && StoredProfile(local, parse) == Some(map[])
  {
  }

  /** A record stored only under `currentUser` fills the guest fields, but
      handleBookingSubmit reads `userData` alone and finds no user id. */
  lemma CurrentUserNotSubmitted(local: map<string, string>, parse: string -> Parsed)
    requires !Truthy(GetItem(local, "userData")) && Truthy(GetItem(local, "currentUser"))
    requires parse(local["currentUser"]).Fields?
    ensures StoredProfile(local, parse) == Some(parse(local["currentUser"]).fields)
    ensures SubmitRecord(local, parse) == Some(map[]) && !Truthy(UserIdOf(SubmitRecord(local, parse).value))
  {
    assert GetItem(map[], "id") == None && GetItem(map[], "_id") == None;
  }

  /** autoFillUserInfo: from the stored user record, the stored full name, or
      else the name composed from first, middle and last name; the e-mail;
      the contact number in preference to the phone. `None` when the record
      is `null`: reading its first field throws and nothing is filled. */
  method AutoFillUserInfo(local: map<string, string>, parse: string -> Parsed)
    returns (fill: Option<AutoFill>)
    ensures fill.None? <==> StoredProfile(local, parse).None?
    ensures fill.Some? ==>
              var u := StoredProfile(local, parse).value;
              Truthy(GetItem(u, "fullName")) ==> fill.value.fullName == GetItem(u, "fullName")
    ensures fill.Some? ==>
              var u := StoredProfile(local, parse).value;
              !Truthy(GetItem(u, "fullName")) ==>
                fill.value.fullName ==
                  if Truthy(GetItem(u, "firstName")) && Truthy(GetItem(u, "lastName"))
                  then Some(ComposedName(u["firstName"], GetItem(u, "middleName"), u["lastName"]))
                  else None
    ensures fill.Some? ==>
              var u := StoredProfile(local, parse).value;
              fill.value.email == if Truthy(GetItem(u, "email")) then GetItem(u, "email") else None
    ensures fill.Some? ==>
              var u := StoredProfile(local, parse).value;
              fill.value.phone == OrElse(GetItem(u, "contactNumber"),
                                         if Truthy(GetItem(u, "phone")) then GetItem(u, "phone") else None)
  {
    var record := StoredProfile(local, parse);
    if record.None? {
      return None;
    }
    var userData := record.value;
    var fullNameVal := "";
    if Truthy(GetItem(userData, "fullName")) {
      fullNameVal := userData["fullName"];
    }
    if fullNameVal == "" && Truthy(GetItem(userData, "firstName")) && Truthy(GetItem(userData, "lastName")) {
      fullNameVal := ComposedName(userData["firstName"], GetItem(userData, "middleName"), userData["lastName"]);
    }
    var email: Option<string> := None;
    if Truthy(GetItem(userData, "email")) {
      email := Some(userData["email"]);
    }
    var phone: Option<string> := None;
    if Truthy(GetItem(userData, "contactNumber")) {
      phone := Some(userData["contactNumber"]);
    } else if Truthy(GetItem(userData, "phone")) {
      phone := Some(userData["phone"]);
    }
    fill := Some(AutoFill(if fullNameVal != "" then Some(fullNameVal) else None, email, phone));
  }
}
