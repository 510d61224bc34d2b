/** The rider's bus-details screen (client/screens/BusDetailsScreen.tsx):
    the bus fetched from the backend, the live flag kept in step with the
    realtime status key, the location listener that exists only while the
    bus is live, and the pure values the map is drawn from. */
module BusDetails {
  import opened Types
  import Api
  import Realtime
  import Strings
  import Profile

  /** The driver's avatar address as this screen writes it
      (BusDetailsScreen.tsx:55-60). */
  function DriverAvatarUrl(driver: Option<Driver>, baseUrl: string): (r: Option<string>)
    ensures r.Some? <==> driver.Some? && Truthy(driver.value.user.avatar)
    ensures r.Some? ==> var a := driver.value.user.avatar.value;
      |a| <= |r.value| && r.value[|r.value| - |a|..] == a
  {
    var avatar := if driver.Some? then driver.value.user.avatar else None;
    if Truthy(avatar) && Strings.StartsWith(avatar.value, "https") then avatar
    else if Truthy(avatar) then Some(baseUrl + avatar.value)
    else None
  }

  /** It is the profile screen's rule applied to the driver's avatar: none
      without one, kept when `https`, resolved against the base otherwise. */
  lemma DriverAvatarIsProfileRule(driver: Option<Driver>, baseUrl: string)
    ensures DriverAvatarUrl(driver, baseUrl) ==
      Profile.AvatarUrl(if driver.Some? then driver.value.user.avatar else None, baseUrl)
  {
  }

  /** `path.map(([lng, lat]) => [lng, lat])`: the same points in the same
      order. */
  function CopyPoints(path: seq<Coord>): (r: seq<Coord>)
    ensures |r| == |path|
    ensures forall i :: 0 <= i < |r| ==> r[i] == path[i]
  {
    if |path| == 0 then [] else [Coord(path[0].lng, path[0].lat)] + CopyPoints(path[1..])
  }

  /** The coordinates of the route line (BusDetailsScreen.tsx:61-75): none
      without a bus, a route or a path array. An empty array is truthy, so
      it gives an empty line. */
  function RouteLine(bus: Option<Bus>): (r: Option<seq<Coord>>)
    ensures r.Some? <==> bus.Some? && bus.value.route.Some? && bus.value.route.value.path.Some?
    ensures r.Some? ==> r.value == bus.value.route.value.path.value
  {
    if bus.Some? && bus.value.route.Some? && bus.value.route.value.path.Some?
    then Some(CopyPoints(bus.value.route.value.path.value))
    else None
  }

  /** The start marker, the line's first point (BusDetailsScreen.tsx:77). */
  function StartCoord(line: Option<seq<Coord>>): (c: Option<Coord>)
    ensures c.Some? <==> line.Some? && |line.value| > 0
    ensures c.Some? ==> c.value == line.value[0]
  {
    if line.Some? && |line.value| > 0 then Some(line.value[0]) else None
  }

  /** The end marker, the line's last point (BusDetailsScreen.tsx:78). */
  function EndCoord(line: Option<seq<Coord>>): (c: Option<Coord>)
    ensures c.Some? <==> line.Some? && |line.value| > 0
    ensures c.Some? ==> c.value == line.value[|line.value| - 1]
  {
    if line.Some? && |line.value| > 0 then Some(line.value[|line.value| - 1]) else None
  }

  /** A one-point route starts and ends at that point. */
  lemma SinglePointRoute(bus: Bus, p: Coord)
    requires bus.route.Some? && bus.route.value.path == Some([p])
    ensures StartCoord(RouteLine(Some(bus))) == EndCoord(RouteLine(Some(bus))) == Some(p)
  {
  }

  /** A number is truthy unless it is missing or zero. */
  predicate NumberTruthy(x: Option<real>) {
    x.Some? && x.value != 0.0
  }

  const DefaultCenter := Coord(73.0479, 33.6844)

  /** The initial map centre (BusDetailsScreen.tsx:162-166): the live
      location, else the student's home when both coordinates are set and
      non-zero, else a fixed default. */
  function InitialCenter(busLocation: Option<BusLocation>, student: Option<Student>): (c: Coord)
    ensures busLocation.Some? ==> c == Coord(busLocation.value.lng, busLocation.value.lat)
    ensures busLocation.None? && student.Some? && NumberTruthy(student.value.homeLon) && NumberTruthy(student.value.homeLat)
      ==> c == Coord(student.value.homeLon.value, student.value.homeLat.value)
    ensures busLocation.None? && !(student.Some? && NumberTruthy(student.value.homeLon) && NumberTruthy(student.value.homeLat))
      ==> c == DefaultCenter
  {
    if busLocation.Some? then Coord(busLocation.value.lng, busLocation.value.lat)
    else if student.Some? && NumberTruthy(student.value.homeLon) && NumberTruthy(student.value.homeLat)
    then Coord(student.value.homeLon.value, student.value.homeLat.value)
    else DefaultCenter
  }

  /** The live bus marker and the live card (BusDetailsScreen.tsx:231, 385). */
  predicate ShowLiveMarker(busLocation: Option<BusLocation>, isLive: bool): (shown: bool)
    ensures shown <==> busLocation.Some? && isLive
  {
    busLocation.Some? && isLive
  }

  /** When the live marker is drawn, the map opens centred on it, whatever
      the student's home says. */
  lemma LiveMarkerIsCentre(busLocation: Option<BusLocation>, isLive: bool, student: Option<Student>)
    requires ShowLiveMarker(busLocation, isLive)
    ensures InitialCenter(busLocation, student) == Coord(busLocation.value.lng, busLocation.value.lat)
  {
  }

  /** What the screen renders (BusDetailsScreen.tsx:140-159). */
  datatype View = Loader | ErrorView(message: string) | DetailsView(bus: Bus)

  function Render(isLoading: bool, error: Option<string>, bus: Option<Bus>): (v: View)
    ensures isLoading ==> v == Loader
    ensures !isLoading && (Truthy(error) || bus.None?) ==>
      v == ErrorView(if Truthy(error) then error.value else "Bus not found")
    ensures v.DetailsView? <==> !isLoading && !Truthy(error) && bus.Some?
    ensures v.DetailsView? ==> v.bus == bus.value
  {
    if isLoading then Loader
    else if Truthy(error) || bus.None? then ErrorView(if Truthy(error) then error.value else "Bus not found")
    else DetailsView(bus.value)
  }

  class BusDetailsView {
    const busId: int
    var bus: Option<Bus>
    var isLoading: bool
    var error: Option<string>
    var busLocation: Option<BusLocation>
    var isLive: bool
    /** The handles of the attached listeners, if any. */
    var statusSub: Option<nat>
    var locationSub: Option<nat>

    constructor (busId: int)
      ensures this.busId == busId
      ensures bus == None && isLoading && error == None && busLocation == None && !isLive
      ensures statusSub == None && locationSub == None
    {
      this.busId := busId;
      bus := None;
      isLoading := true;
      error := None;
      busLocation := None;
      isLive := false;
      statusSub := None;
      locationSub := None;
    }

    /** fetchBusDetails (BusDetailsScreen.tsx:80-95): without a token nothing
        happens. Otherwise the error is cleared, the bus (or null on 404) is
        stored and its `is_active` copied to the live flag; a failure keeps
        the bus and shows its message or a fallback; loading ends in every
        case. Returns the request sent. */
    method FetchBusDetails(token: Option<string>, resp: Api.Response<Bus>) returns (request: Option<Api.Request>)
      modifies this`bus, this`isLive, this`error, this`isLoading
      ensures !Truthy(token) ==> request == None && unchanged(this)
      ensures Truthy(token) ==> (
        var c := Api.GetBusDetails(token.value, busId, resp);
        && request == Some(c.request) && !isLoading
        && (c.result.Value? ==> (
              && error == None && bus == c.result.value
              && isLive == (if bus.Some? then bus.value.isActive else old(isLive))))
        && (c.result.Error? ==> (
              && bus == old(bus) && isLive == old(isLive)
              && error == Some(if c.result.message != "" then c.result.message else "Failed to load bus details"))))
    {
      if !Truthy(token) {
        return None;
      }
      error := None;
      var c := Api.GetBusDetails(token.value, busId, resp);
      request := Some(c.request);
      if c.result.Value? {
        bus := c.result.value;
        if bus.Some? {
          isLive := bus.value.isActive;
        }
      } else {
        error := Some(if c.result.message != "" then c.result.message else "Failed to load bus details");
      }
      isLoading := false;
    }

    /** The status listener's callback (BusDetailsScreen.tsx:102-106): a null
        push is ignored, a status sets the live flag. */
    method OnStatusPushed(v: Option<Realtime.Value>)
      modifies this`isLive
      ensures v.Some? && v.value.StatusValue? ==> isLive == v.value.isActive
      ensures !(v.Some? && v.value.StatusValue?) ==> isLive == old(isLive)
    {
      if v.Some? && v.value.StatusValue? {
        isLive := v.value.isActive;
      }
    }

    /** The location listener's callback (BusDetailsScreen.tsx:116-117): the
        value pushed, null included, becomes the shown location. */
    method OnLocationPushed(v: Option<BusLocation>)
      modifies this`busLocation
      ensures busLocation == v
    {
      busLocation := v;
    }

    /** The status effect (BusDetailsScreen.tsx:100-108), run whenever the
        bus id changes: the previous listener is detached and, when there is
        a bus, a new one is attached to its status key. */
    method SyncStatusListener(db: Realtime.Database)
      requires db.Valid()
      modifies this`statusSub, db
      ensures db.Valid() && db.values == old(db.values)
      ensures statusSub.Some? <==> bus.Some?
      ensures var detached := if old(statusSub).Some? then old(db.subs) - {old(statusSub).value} else old(db.subs);
        if bus.Some?
        then statusSub.value !in old(db.inbox) && db.subs == detached[statusSub.value := Realtime.StatusPath(bus.value.id)]
        else db.subs == detached
      // a new listener is called at once with the current status; no other
      // listener hears anything
      ensures bus.Some? ==> (
        && db.inbox == old(db.inbox)[statusSub.value := [db.Read(Realtime.StatusPath(bus.value.id))]]
        && statusSub.value == old(db.nextHandle) && db.nextHandle == old(db.nextHandle) + 1)
      ensures bus.None? ==> db.inbox == old(db.inbox) && db.nextHandle == old(db.nextHandle)
    {
      if statusSub.Some? {
        Realtime.Unsubscribe(db, statusSub.value);
      }
      statusSub := None;
      if bus.Some? {
        var h := Realtime.CreateStatusListener(db, bus.value.id);
        statusSub := Some(h);
      }
    }

    /** The location effect (BusDetailsScreen.tsx:110-131), run whenever the
        bus id or the live flag changes: the previous listener is detached;
        a new one is attached only while there is a live bus, and otherwise
        the shown location is cleared. */
    method SyncLocationListener(db: Realtime.Database)
      requires db.Valid()
      modifies this`locationSub, this`busLocation, db
      ensures db.Valid() && db.values == old(db.values)
      ensures locationSub.Some? <==> bus.Some? && isLive
      ensures !(bus.Some? && isLive) ==> busLocation == None
      ensures bus.Some? && isLive ==> busLocation == old(busLocation)
      ensures var detached := if old(locationSub).Some? then old(db.subs) - {old(locationSub).value} else old(db.subs);
        if bus.Some? && isLive
        then locationSub.value !in old(db.inbox) && db.subs == detached[locationSub.value := Realtime.LocationPath(bus.value.id)]
        else db.subs == detached
      ensures bus.Some? && isLive ==> (
        && db.inbox == old(db.inbox)[locationSub.value := [db.Read(Realtime.LocationPath(bus.value.id))]]
        && locationSub.value == old(db.nextHandle) && db.nextHandle == old(db.nextHandle) + 1)
      ensures !(bus.Some? && isLive) ==> db.inbox == old(db.inbox) && db.nextHandle == old(db.nextHandle)
      // the live marker is only ever drawn while a location listener is attached
      ensures ShowLiveMarker(busLocation, isLive) ==> locationSub.Some?
    {
      if locationSub.Some? {
        Realtime.Unsubscribe(db, locationSub.value);
      }
      locationSub := None;
      if bus.None? || !isLive {
        busLocation := None;
        return;
      }
      var h := Realtime.CreateLocationListener(db, bus.value.id);
      locationSub := Some(h);
    }
  }
}
