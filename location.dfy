/** Model of the location service: turning a device position into a fix, mapping positioning
    errors, the retry loop of `getCurrentLocation`, reverse-geocoded addresses, the location
    alert text, and the watch-id state of continuous tracking. The positioning module and the
    geocoding service are oracles; number and date renderings come from a `Render`. */
module Location {
  import opened Common

  // ------------------------------------------------------------- positions

  /** `position.coords`; readings the device leaves out are `None`. */
  datatype Coords = Coords(
    latitude: real, longitude: real, accuracy: Option<real>, altitude: Option<real>,
    altitudeAccuracy: Option<real>, speed: Option<real>, heading: Option<real>, provider: Option<string>)

  datatype Position = Position(coords: Coords, timestamp: int)

  /** The location object the service hands out. */
  datatype Fix = Fix(
    latitude: real, longitude: real, accuracy: Option<real>, altitude: Option<real>,
    altitudeAccuracy: Option<real>, speed: Option<real>, heading: Option<real>,
    timestamp: int, provider: string, formattedTime: string)

  /** A string that JavaScript reads as true: present and non-empty. */
  predicate Present(o: Option<string>) {
    o.Some? && o.value != ""
  }

  /** `formatLocation`. */
  function FormatLocation(p: Position, render: Render): Fix {
    var c := p.coords;
    Fix(c.latitude, c.longitude, c.accuracy, c.altitude, c.altitudeAccuracy, c.speed, c.heading,
        p.timestamp, if Present(c.provider) then c.provider.value else "gps", render.localeTime(p.timestamp))
  }

  /** A fix keeps every reading of the position; its provider is never empty and is "gps" unless
      the device named one; its time is the position's timestamp rendered. */
  lemma FormatLocationKeepsReadings(p: Position, render: Render)
    ensures var f := FormatLocation(p, render);
      && f.latitude == p.coords.latitude && f.longitude == p.coords.longitude
      && f.accuracy == p.coords.accuracy && f.altitude == p.coords.altitude
      && f.altitudeAccuracy == p.coords.altitudeAccuracy && f.speed == p.coords.speed
      && f.heading == p.coords.heading && f.timestamp == p.timestamp
      && f.provider != ""
      && (f.provider == "gps" <==> !Present(p.coords.provider) || p.coords.provider.value == "gps")
      && (Present(p.coords.provider) ==> f.provider == p.coords.provider.value)
      && f.formattedTime == render.localeTime(p.timestamp)
  {
  }

  // ---------------------------------------------------------------- errors

  /** The object `formatError` builds. */
  datatype LocationError = LocationError(code: int, message: string, userMessage: string, details: string)

  const PermissionDeniedCode := 1
  const PositionUnavailableCode := 2
  const TimeoutCode := 3

  /** `formatError`: `details` is the positioning error's own message. */
  function FormatError(code: int, details: string): LocationError {
    var (message, userMessage) :=
      if code == PermissionDeniedCode then ("Location permission denied", "Please enable location permissions in settings")
      else if code == PositionUnavailableCode then ("Location unavailable", "Check if GPS is enabled and you have clear sky view")
      else if code == TimeoutCode then ("Location request timed out", "Taking too long to get location. Try moving to open area")
      else ("Unable to get location", "Location service unavailable");
    LocationError(code, message, userMessage, details)
  }

  /** The code and the details pass through; each known code has its own message, and every
      other code gets the fallback pair. */
  lemma FormatErrorCases(code: int, details: string)
    ensures FormatError(code, details).code == code && FormatError(code, details).details == details
    ensures code == 1 ==> FormatError(code, details).message == "Location permission denied"
                          && FormatError(code, details).userMessage == "Please enable location permissions in settings"
    ensures code == 2 ==> FormatError(code, details).message == "Location unavailable"
                          && FormatError(code, details).userMessage == "Check if GPS is enabled and you have clear sky view"
    ensures code == 3 ==> FormatError(code, details).message == "Location request timed out"
                          && FormatError(code, details).userMessage == "Taking too long to get location. Try moving to open area"
    ensures code !in {1, 2, 3} ==> FormatError(code, details).message == "Unable to get location"
                                   && FormatError(code, details).userMessage == "Location service unavailable"
  {
  }

  // ------------------------------------------------------------- retry loop

  /** The defaults `getCurrentLocation` falls back to when the options leave them out. */
  const DefaultRetries := 3
  const DefaultRetryDelay := 2000

  /** What the positioning module answers to one request. */
  datatype PositionReply = Located(position: Position) | Refused(code: int, details: string)

  /** What `getCurrentLocation` settles to: a fix, the last attempt's error, or `undefined`
      when no attempt was allowed. */
  datatype Acquisition = Acquired(fix: Fix) | Failed(error: LocationError) | NoAttempt

  /** A position request (numbered from 1) or a pause between attempts. */
  datatype Attempt = Request(attempt: nat) | Wait(ms: int)

  /** The outcome and the attempts of the loop from attempt `k` on. */
  function AcquireFrom(k: nat, retries: int, retryDelay: int, positioning: nat -> PositionReply, render: Render)
    : (Acquisition, seq<Attempt>)
    requires 1 <= k
    decreases retries - k
  {
    if k > retries then (NoAttempt, [])
    else match positioning(k)
      case Located(p) => (Acquired(FormatLocation(p, render)), [Request(k)])
      case Refused(code, details) =>
        if k == retries then (Failed(FormatError(code, details)), [Request(k)])
        else
          var rest := AcquireFrom(k + 1, retries, retryDelay, positioning, render);
          (rest.0, [Request(k), Wait(retryDelay)] + rest.1)
  }

  function Acquire(retries: int, retryDelay: int, positioning: nat -> PositionReply, render: Render): (Acquisition, seq<Attempt>) {
    AcquireFrom(1, retries, retryDelay, positioning, render)
  }

  /** Requests `k` to `n` with a pause after each but the last. */
  function ScheduleFrom(k: nat, n: nat, retryDelay: int): seq<Attempt>
    requires k <= n
    decreases n - k
  {
    if k == n then [Request(n)] else [Request(k), Wait(retryDelay)] + ScheduleFrom(k + 1, n, retryDelay)
  }

  /** Requests sit at even positions, numbered in order, and pauses at odd ones: `n - k` pauses. */
  lemma {:induction false} ScheduleShape(k: nat, n: nat, retryDelay: int)
    requires k <= n
    ensures |ScheduleFrom(k, n, retryDelay)| == 2 * (n - k) + 1
    ensures forall j :: 0 <= j < |ScheduleFrom(k, n, retryDelay)| ==>
      ScheduleFrom(k, n, retryDelay)[j] == if j % 2 == 0 then Request(k + j / 2) else Wait(retryDelay)
    decreases n - k
  {
    if k < n {
      ScheduleShape(k + 1, n, retryDelay);
      var s := ScheduleFrom(k, n, retryDelay);
      var t := ScheduleFrom(k + 1, n, retryDelay);
      forall j | 2 <= j < |s| ensures s[j] == if j % 2 == 0 then Request(k + j / 2) else Wait(retryDelay) {
        assert s[j] == t[j - 2];
      }
    }
  }

  /** From attempt `k`: when attempt `n` is the first that locates, the fix of `n` is returned
      after requests `k` to `n`. */
  lemma {:induction false} AcquireFromSucceeds(k: nat, n: nat, retries: int, retryDelay: int, positioning: nat -> PositionReply, render: Render)
    requires 1 <= k <= n <= retries
    requires positioning(n).Located?
    requires forall j :: k <= j < n ==> positioning(j).Refused?
    ensures AcquireFrom(k, retries, retryDelay, positioning, render)
         == (Acquired(FormatLocation(positioning(n).position, render)), ScheduleFrom(k, n, retryDelay))
    decreases n - k
  {
    if k < n {
      AcquireFromSucceeds(k + 1, n, retries, retryDelay, positioning, render);
    }
  }

  /** `getCurrentLocation` returns the fix of the first attempt that locates, after exactly that
      many requests with one pause between each two. */
  lemma AcquireSucceeds(n: nat, retries: int, retryDelay: int, positioning: nat -> PositionReply, render: Render)
    requires 1 <= n <= retries
    requires positioning(n).Located?
    requires forall j :: 1 <= j < n ==> positioning(j).Refused?
    ensures Acquire(retries, retryDelay, positioning, render)
         == (Acquired(FormatLocation(positioning(n).position, render)), ScheduleFrom(1, n, retryDelay))
  {
    AcquireFromSucceeds(1, n, retries, retryDelay, positioning, render);
  }

  lemma {:induction false} AcquireFromExhausts(k: nat, retries: int, retryDelay: int, positioning: nat -> PositionReply, render: Render)
    requires 1 <= k <= retries
    requires forall j :: k <= j <= retries ==> positioning(j).Refused?
    ensures AcquireFrom(k, retries, retryDelay, positioning, render)
         == (Failed(FormatError(positioning(retries).code, positioning(retries).details)), ScheduleFrom(k, retries, retryDelay))
    decreases retries - k
  {
    if k < retries {
      AcquireFromExhausts(k + 1, retries, retryDelay, positioning, render);
    }
  }

  /** When every attempt fails, the last attempt's error is thrown, formatted and otherwise
      unchanged, after `retries` requests and `retries - 1` pauses. */
  lemma AcquireExhausts(retries: int, retryDelay: int, positioning: nat -> PositionReply, render: Render)
    requires 1 <= retries
    requires forall j :: 1 <= j <= retries ==> positioning(j).Refused?
    ensures Acquire(retries, retryDelay, positioning, render)
         == (Failed(FormatError(positioning(retries).code, positioning(retries).details)), ScheduleFrom(1, retries, retryDelay))
  {
    AcquireFromExhausts(1, retries, retryDelay, positioning, render);
  }

  /** With the default options, a position that never comes is asked for three times, two
      seconds apart, and the third refusal is the one reported. */
  lemma DefaultAcquireExhausts(positioning: nat -> PositionReply, render: Render)
    requires forall j :: 1 <= j <= DefaultRetries ==> positioning(j).Refused?
    ensures Acquire(DefaultRetries, DefaultRetryDelay, positioning, render)
         == (Failed(FormatError(positioning(3).code, positioning(3).details)),
             [Request(1), Wait(2000), Request(2), Wait(2000), Request(3)])
  {
    AcquireExhausts(DefaultRetries, DefaultRetryDelay, positioning, render);
    assert ScheduleFrom(3, 3, 2000) == [Request(3)];
    assert ScheduleFrom(2, 3, 2000) == [Request(2), Wait(2000), Request(3)];
    assert ScheduleFrom(1, 3, 2000) == [Request(1), Wait(2000), Request(2), Wait(2000), Request(3)];
  }

  /** With no attempt allowed, nothing is requested and the call settles to `undefined`. */
  lemma AcquireNoAttempt(retries: int, retryDelay: int, positioning: nat -> PositionReply, render: Render)
    requires retries <= 0
    ensures Acquire(retries, retryDelay, positioning, render) == (NoAttempt, [])
  {
  }

  // ---------------------------------------------------------------- addresses

  /** The `address` object of a reverse-geocoding answer. */
  datatype AddressParts = AddressParts(
    road: Option<string>, suburb: Option<string>, city: Option<string>, town: Option<string>,
    village: Option<string>, state: Option<string>, country: Option<string>)

  /** `address.city || address.town || address.village`. */
  function Place(a: AddressParts): Option<string> {
    if Present(a.city) then a.city else if Present(a.town) then a.town else a.village
  }

  /** `if (part) formattedAddress += `, ${part}``. */
  function AppendPart(acc: string, part: Option<string>): string {
    if Present(part) then acc + ", " + part.value else acc
  }

  /** The `if`s after the road, one per part, in order. */
  function AppendParts(acc: string, parts: seq<Option<string>>): string
    decreases |parts|
  {
    if parts == [] then acc else AppendParts(AppendPart(acc, parts[0]), parts[1..])
  }

  /** The parts that follow the road: suburb, place, state, country. */
  function LaterParts(a: AddressParts): seq<Option<string>> {
    [a.suburb, Place(a), a.state, a.country]
  }

  /** The address string before its leading comma is stripped. */
  function BuildAddress(a: AddressParts): string {
    AppendParts(if Present(a.road) then a.road.value else "", LaterParts(a))
  }

  // `s.replace(/^,\s*/, '')`: a leading comma goes, with the whitespace after it.
  function StripLeadingComma(s: string): string {
    if s != [] && s[0] == ',' then TrimStart(s[1..]) else s
  }

  function FormattedAddress(a: AddressParts): string {
    StripLeadingComma(BuildAddress(a))
  }

  /** `address.road || address.suburb || address.city || 'Unknown location'`. */
  function ShortAddress(a: AddressParts): string {
    if Present(a.road) then a.road.value
    else if Present(a.suburb) then a.suburb.value
    else if Present(a.city) then a.city.value
    else "Unknown location"
  }

  /** The short address is never empty; it is the first of road, suburb and city that is
      present, and neither town nor village is ever used. */
  lemma ShortAddressPicksFirst(a: AddressParts)
    ensures ShortAddress(a) != ""
    ensures Present(a.road) ==> ShortAddress(a) == a.road.value
    ensures !Present(a.road) && Present(a.suburb) ==> ShortAddress(a) == a.suburb.value
    ensures !Present(a.road) && !Present(a.suburb) && Present(a.city) ==> ShortAddress(a) == a.city.value
    ensures ShortAddress(a) == ShortAddress(a.(town := None, village := None))
  {
  }

  /** The values of the present parts, in order. */
  function PresentValues(parts: seq<Option<string>>): seq<string>
    ensures forall k :: 0 <= k < |PresentValues(parts)| ==> PresentValues(parts)[k] != ""
  {
    if parts == [] then []
    else (if Present(parts[0]) then [parts[0].value] else []) + PresentValues(parts[1..])
  }

  /** The parts that make it into the address, in order. */
  function AddressPartList(a: AddressParts): seq<string> {
    PresentValues([a.road] + LaterParts(a))
  }

  /** `", " + p` for each part, run together. */
  function Separated(parts: seq<string>): string {
    if parts == [] then "" else ", " + parts[0] + Separated(parts[1..])
  }

  /** Each `if` appends its part behind a separator, exactly when the part is present. */
  lemma {:induction false} AppendPartsSeparates(acc: string, parts: seq<Option<string>>)
    ensures AppendParts(acc, parts) == acc + Separated(PresentValues(parts))
    decreases |parts|
  {
    if parts != [] {
      AppendPartsSeparates(AppendPart(acc, parts[0]), parts[1..]);
      var rest := PresentValues(parts[1..]);
      if Present(parts[0]) {
        assert PresentValues(parts) == [parts[0].value] + rest;
        assert Separated(PresentValues(parts)) == ", " + parts[0].value + Separated(rest);
      } else {
        assert PresentValues(parts) == rest;
      }
    }
  }

  lemma {:induction false} JoinSeparated(parts: seq<string>)
    requires parts != []
    ensures Join(parts, ", ") == parts[0] + Separated(parts[1..])
  {
    if |parts| > 1 {
      JoinSeparated(parts[1..]);
      assert parts[1..][1..] == parts[2..];
    }
  }

  /** With a road, nothing is stripped unless the road itself opens with a comma. */
  lemma FormattedAddressWithRoad(a: AddressParts)
    requires Present(a.road) && a.road.value[0] != ','
    ensures FormattedAddress(a) == Join(AddressPartList(a), ", ")
  {
    var rest := PresentValues(LaterParts(a));
    AppendPartsSeparates(a.road.value, LaterParts(a));
    assert ([a.road] + LaterParts(a))[1..] == LaterParts(a);
    assert AddressPartList(a) == [a.road.value] + rest;
    JoinSeparated(AddressPartList(a));
  }

  /** Without a road, the builder's leading ", " is stripped, and with it any whitespace the
      first present part opens with. */
  lemma FormattedAddressWithoutRoad(a: AddressParts)
    requires !Present(a.road)
    requires AddressPartList(a) != [] ==> !IsWhitespace(AddressPartList(a)[0][0])
    ensures FormattedAddress(a) == Join(AddressPartList(a), ", ")
  {
    var rest := PresentValues(LaterParts(a));
    AppendPartsSeparates("", LaterParts(a));
    assert ([a.road] + LaterParts(a))[1..] == LaterParts(a);
    assert AddressPartList(a) == rest;
    if rest != [] {
      JoinSeparated(rest);
      var joined := Join(rest, ", ");
      assert BuildAddress(a) == ", " + joined;
      assert BuildAddress(a)[1..] == " " + joined;
      TrimStartStopsAt(" ", joined);
    }
  }

  /** The formatted address is the present parts joined by ", " — provided the first of them
      does not itself open with a comma or whitespace, which the stripping would also eat. */
  lemma FormattedAddressJoinsParts(a: AddressParts)
    requires AddressPartList(a) != [] ==> AddressPartList(a)[0][0] != ',' && !IsWhitespace(AddressPartList(a)[0][0])
    ensures FormattedAddress(a) == Join(AddressPartList(a), ", ")
  {
    if Present(a.road) {
      assert AddressPartList(a)[0] == a.road.value;
      FormattedAddressWithRoad(a);
    } else {
      FormattedAddressWithoutRoad(a);
    }
  }

  /** What the geocoding request yields: a non-ok response, a thrown request, or a JSON body
      with its `error` and `address` fields. */
  datatype GeocodeReply = NotOk | Unreachable | Body(error: Option<string>, address: Option<AddressParts>)

  /** The two fields the service adds to the geocoding answer. */
  datatype Address = Address(formattedAddress: string, shortAddress: string, parts: AddressParts)

  /** `getAddressFromCoordinates`: every failure, including a body without an `address`,
      becomes `null`. */
  function GetAddressFromCoordinates(reply: GeocodeReply): Option<Address> {
    match reply
    case NotOk => None
    case Unreachable => None
    case Body(error, address) =>
      if Present(error) then None
      else if address.None? then None
      else Some(Address(FormattedAddress(address.value), ShortAddress(address.value), address.value))
  }

  /** It never fails: it yields an address exactly for a body with no error text and an
      `address`, built from that `address`. */
  lemma GeocodeNeverThrows(reply: GeocodeReply)
    ensures GetAddressFromCoordinates(reply).Some?
            <==> reply.Body? && !Present(reply.error) && reply.address.Some?
    ensures GetAddressFromCoordinates(reply).Some? ==>
              GetAddressFromCoordinates(reply).value.formattedAddress == FormattedAddress(reply.address.value)
              && GetAddressFromCoordinates(reply).value.shortAddress == ShortAddress(reply.address.value)
  {
  }

  // ----------------------------------------------------------------- message

  function GoogleMapsLink(f: Fix, render: Render): string {
    "https://maps.google.com/?q=" + render.show(f.latitude) + "," + render.show(f.longitude)
  }

  function AppleMapsLink(f: Fix, render: Render): string {
    "http://maps.apple.com/?ll=" + render.show(f.latitude) + "," + render.show(f.longitude)
  }

  /** `address?.formattedAddress` read as a condition. */
  predicate HasAddressText(address: Option<Address>) {
    address.Some? && address.value.formattedAddress != ""
  }

  const Opening := "🚨 EMERGENCY LOCATION ALERT 🚨\n\nI need immediate assistance at this location:\n\n"
  const Closing := "📍 Sent via SafeSearch Emergency App"

  function AddressBlock(address: Option<Address>): string {
    if HasAddressText(address) then "📍 ADDRESS:\n" + address.value.formattedAddress + "\n\n" else ""
  }

  function CoordinatesBlock(f: Fix, render: Render): string {
    Concat(["📍 COORDINATES:\n", "Lat: " + render.fixed6(f.latitude), "\n", "Lon: " + render.fixed6(f.longitude), "\n\n"])
  }

  function LinksBlock(f: Fix, render: Render): string {
    Concat(["📍 MAP LINKS:\n", "Google Maps: " + GoogleMapsLink(f, render), "\n", "Apple Maps: " + AppleMapsLink(f, render), "\n\n"])
  }

  /** A missing or zero accuracy is falsy. */
  function AccuracyText(f: Fix, render: Render): string {
    if f.accuracy.Some? && f.accuracy.value != 0.0 then render.fixed1(f.accuracy.value) + " meters" else "High precision"
  }

  function AccuracyBlock(f: Fix, render: Render): string {
    Concat(["📍 ACCURACY:\n" + AccuracyText(f, render), "\n\n"])
  }

  /** `location.formattedTime || new Date().toLocaleString()`, the latter given as `now`. */
  function TimeBlock(f: Fix, now: string): string {
    "🕒 TIME: " + (if f.formattedTime != "" then f.formattedTime else now) + "\n\n"
  }

  /** The blocks of the location alert, in order. */
  function LocationMessageBlocks(f: Fix, address: Option<Address>, render: Render, now: string): seq<string> {
    [Opening, AddressBlock(address), CoordinatesBlock(f, render), LinksBlock(f, render),
     AccuracyBlock(f, render), TimeBlock(f, now), Closing]
  }

  /** `generateLocationMessage`: its `+=` steps run the blocks together. */
  function GenerateLocationMessage(f: Fix, address: Option<Address>, render: Render, now: string): string {
    Concat(LocationMessageBlocks(f, address, render, now))
  }

  /** The ADDRESS block appears exactly when there is address text: with text the message
      carries it under the heading, and without it the message is the one for no address. */
  lemma LocationMessageAddress(f: Fix, address: Option<Address>, render: Render, now: string)
    ensures HasAddressText(address) ==>
              Contains(GenerateLocationMessage(f, address, render, now), "📍 ADDRESS:\n" + address.value.formattedAddress)
    ensures !HasAddressText(address) ==> GenerateLocationMessage(f, address, render, now) == GenerateLocationMessage(f, None, render, now)
  {
    var blocks := LocationMessageBlocks(f, address, render, now);
    if HasAddressText(address) {
      ContainsMiddle("", "📍 ADDRESS:\n" + address.value.formattedAddress, "\n\n");
      assert "" + ("📍 ADDRESS:\n" + address.value.formattedAddress) + "\n\n" == blocks[1];
      ContainsBlock(blocks, 1, "📍 ADDRESS:\n" + address.value.formattedAddress);
    } else {
      assert blocks == LocationMessageBlocks(f, None, render, now);
    }
  }

  /** The message always gives both coordinates to six places. */
  lemma LocationMessageCoordinates(f: Fix, address: Option<Address>, render: Render, now: string)
    ensures Contains(GenerateLocationMessage(f, address, render, now), "Lat: " + render.fixed6(f.latitude))
    ensures Contains(GenerateLocationMessage(f, address, render, now), "Lon: " + render.fixed6(f.longitude))
  {
    var lines := ["📍 COORDINATES:\n", "Lat: " + render.fixed6(f.latitude), "\n", "Lon: " + render.fixed6(f.longitude), "\n\n"];
    ContainsSelf(lines[1]);
    ContainsBlock(lines, 1, lines[1]);
    ContainsBlock(LocationMessageBlocks(f, address, render, now), 2, lines[1]);
    ContainsSelf(lines[3]);
    ContainsBlock(lines, 3, lines[3]);
    ContainsBlock(LocationMessageBlocks(f, address, render, now), 2, lines[3]);
  }

  /** The message always carries both map links, built from the coordinates. */
  lemma LocationMessageLinks(f: Fix, address: Option<Address>, render: Render, now: string)
    ensures Contains(GenerateLocationMessage(f, address, render, now), "Google Maps: " + GoogleMapsLink(f, render))
    ensures Contains(GenerateLocationMessage(f, address, render, now), "Apple Maps: " + AppleMapsLink(f, render))
  {
    var lines := ["📍 MAP LINKS:\n", "Google Maps: " + GoogleMapsLink(f, render), "\n", "Apple Maps: " + AppleMapsLink(f, render), "\n\n"];
    ContainsSelf(lines[1]);
    ContainsBlock(lines, 1, lines[1]);
    ContainsBlock(LocationMessageBlocks(f, address, render, now), 3, lines[1]);
    ContainsSelf(lines[3]);
    ContainsBlock(lines, 3, lines[3]);
    ContainsBlock(LocationMessageBlocks(f, address, render, now), 3, lines[3]);
  }

  /** A missing or zero accuracy is reported as high precision; any other accuracy is given in
      meters to one place. */
  lemma LocationMessageAccuracy(f: Fix, address: Option<Address>, render: Render, now: string)
    ensures f.accuracy.None? || f.accuracy.value == 0.0 ==>
              Contains(GenerateLocationMessage(f, address, render, now), "📍 ACCURACY:\n" + "High precision")
    ensures f.accuracy.Some? && f.accuracy.value != 0.0 ==>
              Contains(GenerateLocationMessage(f, address, render, now), "📍 ACCURACY:\n" + (render.fixed1(f.accuracy.value) + " meters"))
  {
    var lines := ["📍 ACCURACY:\n" + AccuracyText(f, render), "\n\n"];
    ContainsSelf(lines[0]);
    ContainsBlock(lines, 0, lines[0]);
    ContainsBlock(LocationMessageBlocks(f, address, render, now), 4, lines[0]);
  }

  // ----------------------------------------------------------------- tracking

  /** The service object: the current watch registration and the last fix seen. */
  class LocationService {
    var watchId: Option<int>
    var lastLocation: Option<Fix>

    constructor()
      ensures watchId == None && lastLocation == None
    {
      watchId := None;
      lastLocation := None;
    }

    /** `getCurrentLocation(options)`: `positioning(k)` is the answer to the `k`-th request.
        The fix of a successful attempt is also kept as the last location. */
    method GetCurrentLocation(retries: int, retryDelay: int, positioning: nat -> PositionReply, render: Render)
      returns (outcome: Acquisition, attempts: seq<Attempt>)
      modifies this`lastLocation
      ensures outcome == Acquire(retries, retryDelay, positioning, render).0
      ensures attempts == Acquire(retries, retryDelay, positioning, render).1
      ensures outcome.Acquired? ==> lastLocation == Some(outcome.fix)
      ensures !outcome.Acquired? ==> lastLocation == old(lastLocation)
    {
      attempts := [];
      var attempt := 1;
      while attempt <= retries
        invariant 1 <= attempt && (attempt == 1 || attempt <= retries)
        invariant Acquire(retries, retryDelay, positioning, render).0
               == AcquireFrom(attempt, retries, retryDelay, positioning, render).0
        invariant Acquire(retries, retryDelay, positioning, render).1
               == attempts + AcquireFrom(attempt, retries, retryDelay, positioning, render).1
        invariant lastLocation == old(lastLocation)
        decreases retries - attempt
      {
        ghost var before := attempts;
        attempts := attempts + [Request(attempt)];
        match positioning(attempt) {
          case Located(p) =>
            var fix := FormatLocation(p, render);
            lastLocation := Some(fix);
            return Acquired(fix), attempts;
          case Refused(code, details) =>
            var error := FormatError(code, details);
            if attempt == retries {
              return Failed(error), attempts;
            }
            ghost var rest := AcquireFrom(attempt + 1, retries, retryDelay, positioning, render).1;
            assert attempts + [Wait(retryDelay)] + rest == before + ([Request(attempt), Wait(retryDelay)] + rest);
            attempts := attempts + [Wait(retryDelay)];
        }
        attempt := attempt + 1;
      }
      outcome := NoAttempt;
    }

    /** `stopLocationTracking`: returns the registration it cleared, if any. Stopping a
        stopped service clears nothing and changes nothing. */
    method StopLocationTracking() returns (cleared: Option<int>)
      modifies this`watchId
      ensures watchId == None
      ensures cleared == old(watchId)
    {
      cleared := None;
      if watchId.Some? {
        cleared := watchId;
        watchId := None;
      }
    }

    /** `startLocationTracking`: `newWatch` is the id the positioning module hands out. A
        registration already in place is cleared first. */
    method StartLocationTracking(newWatch: int) returns (id: int, cleared: Option<int>)
      modifies this`watchId
      ensures watchId == Some(newWatch) && id == newWatch
      ensures cleared == old(watchId)
    {
      cleared := None;
      if watchId.Some? {
        cleared := StopLocationTracking();
      }
      watchId := Some(newWatch);
      id := newWatch;
    }

    /** The watch's success callback: the new fix becomes the last location and is passed on. */
    method OnWatchPosition(p: Position, render: Render) returns (fix: Fix)
      modifies this`lastLocation
      ensures fix == FormatLocation(p, render) && lastLocation == Some(fix)
    {
      fix := FormatLocation(p, render);
      lastLocation := Some(fix);
    }

    /** The watch's error callback: the error is formatted as `getCurrentLocation` formats it
        and reaches `onError` only when one was given; the last location and the registration
        are left as they were. */
    method OnWatchError(hasOnError: bool, code: int, details: string) returns (reported: Option<LocationError>)
      ensures reported.Some? <==> hasOnError
      ensures reported.Some? ==> reported.value == FormatError(code, details)
      ensures reported.Some? ==> reported.value.code == code && reported.value.details == details
      ensures reported.Some? && code == 1 ==> reported.value.message == "Location permission denied"
      ensures reported.Some? && code !in {1, 2, 3} ==> reported.value.message == "Unable to get location"
    {
      reported := None;
      if hasOnError {
        FormatErrorCases(code, details);
        reported := Some(FormatError(code, details));
      }
    }

    /** `getLastKnownLocation`. */
    method GetLastKnownLocation() returns (l: Option<Fix>)
      ensures l == lastLocation
    {
      l := lastLocation;
    }
  }
}
