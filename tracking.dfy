/** The driver's live-tracking screen (client/screens/LiveTrackingScreen.tsx):
    the permission flag, the tracking flag, the one-shot "driver announced"
    flag, the location-watch subscription, the duration counter and the
    displayed speed, and the writes they drive into the realtime store.
    Each handler runs as one step; the platform's answers (permission
    status, whether a store write fails, the watch handle) are parameters. */
module LiveTracking {
  import opened Types
  import Realtime
  import Api
  import Decimal
  import Strings

  // ---- formatDuration (LiveTrackingScreen.tsx:210-214) ----

  /** Minutes, unpadded, then `:`, then the seconds left-padded with `0` to
      two characters. */
  function FormatDuration(seconds: nat): (text: string)
    ensures |Decimal.NatToString(seconds / 60)| + 3 <= |text|
    ensures text[|Decimal.NatToString(seconds / 60)|] == ':'
  {
    Decimal.NatToString(seconds / 60) + ":" + Strings.PadStart(Decimal.NatToString(seconds % 60), 2, '0')
  }

  /** The seconds field is exactly two digits, the minutes field is the plain
      decimal of the whole minutes, and reading both back gives
      `mins * 60 + secs == seconds` with `secs < 60`. */
  lemma FormatDurationFields(seconds: nat)
    ensures var r := FormatDuration(seconds);
      var k := Strings.IndexOf(r, ':');
      && k + 3 == |r|
      && r[..k] == Decimal.NatToString(seconds / 60)
      && Decimal.AllDigits(r[k + 1..])
      && Decimal.ParseNat(r[..k]) * 60 + Decimal.ParseNat(r[k + 1..]) == seconds
      && Decimal.ParseNat(r[k + 1..]) < 60
  {
    var m := Decimal.NatToString(seconds / 60);
    var d := Decimal.NatToString(seconds % 60);
    var p := Strings.PadStart(d, 2, '0');
    var r := FormatDuration(seconds);
    assert r == m + [':'] + p;
    Decimal.IntToStringAvoids(seconds / 60, ':');
    Strings.IndexOfAfter(m, ':', p);
    assert r[..|m|] == m && r[|m| + 1..] == p;
    Decimal.ParseNatToString(seconds / 60);
    Decimal.ParseNatToString(seconds % 60);
    SecondsField(seconds % 60);
  }

  /** The seconds field: two digits that read back to the seconds. */
  lemma SecondsField(secs: nat)
    requires secs < 60
    ensures var p := Strings.PadStart(Decimal.NatToString(secs), 2, '0');
      |p| == 2 && Decimal.AllDigits(p) && Decimal.ParseNat(p) == secs
  {
    var d := Decimal.NatToString(secs);
    var p := Strings.PadStart(d, 2, '0');
    Decimal.ParseNatToString(secs);
    if secs < 10 {
      assert |d| == 1;
      assert p == ['0'] + d;
      Decimal.ParseNatLeadingZero(d);
    } else {
      assert |Decimal.NatToString(secs / 10)| == 1;
      assert |d| == 2;
    }
  }

  // ---- the driver identity written once per screen ----

  /** The id announced for the driver: `user?.id ?? 0`. */
  function DriverId(user: Option<User>): (id: int)
    ensures user.Some? ==> id == user.value.id
    ensures user.None? ==> id == 0
  {
    if user.Some? then user.value.id else 0
  }

  /** The name as the source builds it: `${user?.first_name} ${user?.last_name}`
      (a missing user renders as `undefined`), followed by `|| 'Driver'`. */
  function DriverNameAsWritten(user: Option<User>): (name: string)
    ensures |name| >= 1
  {
    var first := if user.Some? then user.value.firstName else "undefined";
    var last := if user.Some? then user.value.lastName else "undefined";
    var joined := first + " " + last;
    if joined != "" then joined else "Driver"
  }

  /** The template literal always holds the space, so the `'Driver'`
      fallback is never taken: without a user the name is
      `undefined undefined`, with empty names it is a lone space. */
  lemma DriverNameFallbackUnreachable(user: Option<User>)
    ensures DriverNameAsWritten(user) != "Driver" || (user.Some? && user.value.firstName + " " + user.value.lastName == "Driver")
    ensures DriverNameAsWritten(None) == "undefined undefined"
    ensures user.Some? && user.value.firstName == "" && user.value.lastName == "" ==> DriverNameAsWritten(user) == " "
  {
    var first := if user.Some? then user.value.firstName else "undefined";
    var last := if user.Some? then user.value.lastName else "undefined";
    assert (first + " " + last)[|first|] == ' ';
  }

  /** The announced name: first and last name when the user has either,
      `Driver` when there is no user or no name. */
  function DriverName(user: Option<User>): (name: string)
    ensures name != ""
    ensures user.None? || (user.value.firstName == "" && user.value.lastName == "") ==> name == "Driver"
    ensures user.Some? && (user.value.firstName != "" || user.value.lastName != "") ==>
      name == user.value.firstName + " " + user.value.lastName
  {
    if user.Some? && (user.value.firstName != "" || user.value.lastName != "")
    then user.value.firstName + " " + user.value.lastName
    else "Driver"
  }

  /** What `requestForegroundPermissionsAsync` settles with. */
  datatype PermissionAnswer = Answered(status: string) | RequestThrows

  /** What the hardware back button does. */
  datatype BackAction = ConfirmStop | GoBack

  /** The displayed speed: the rounded km/h value when positive, else 0. */
  function DisplayedSpeed(kmh: int): (s: int)
    ensures s >= 0
    ensures kmh > 0 ==> s == kmh
    ensures kmh <= 0 ==> s == 0
  {
    if kmh > 0 then kmh else 0
  }

  /** The location a sample publishes: its position, the time, the speed as
      computed (not clamped) and the heading, 0 when absent. */
  function SampleLocation(lat: real, lng: real, kmh: int, heading: Option<real>, now: int): (l: BusLocation)
    ensures l.lat == lat && l.lng == lng && l.timestamp == now
    ensures l.speed == Some(kmh)
    ensures l.heading == Some(if heading.Some? then heading.value else 0.0)
  {
    BusLocation(lat, lng, now, Some(heading.GetOr(0.0)), Some(kmh))
  }

  class TrackingScreen {
    const busId: int
    var hasPermission: Option<bool>
    var isTracking: bool
    var driverSent: bool
    var watch: Option<nat>
    /** Every watch subscription removed so far, in order. */
    var removedWatches: seq<nat>
    var duration: nat
    var currentSpeed: nat

    constructor (busId: int)
      ensures this.busId == busId
      ensures hasPermission == None && !isTracking && !driverSent && watch == None
      ensures removedWatches == [] && duration == 0 && currentSpeed == 0
    {
      this.busId := busId;
      hasPermission := None;
      isTracking := false;
      driverSent := false;
      watch := None;
      removedWatches := [];
      duration := 0;
      currentSpeed := 0;
    }

    /** requestLocationPermission (LiveTrackingScreen.tsx:140-156): granted
        iff the status is `"granted"`; a throw, including from the position
        fetch that follows a grant, leaves it false. */
    method RequestLocationPermission(answer: PermissionAnswer, positionFails: bool)
      modifies this`hasPermission
      ensures hasPermission == Some(answer.Answered? && answer.status == "granted" && !positionFails)
    {
      match answer
      case RequestThrows =>
        hasPermission := Some(false);
      case Answered(status) =>
        hasPermission := Some(status == "granted");
        if status == "granted" && positionFails {
          hasPermission := Some(false);
        }
    }

    /** startTracking (LiveTrackingScreen.tsx:158-208). Without permission it
        only asks again. With it: tracking on, duration 0, status `true`
        written, the backend told (failure ignored), the driver announced if
        not yet, then the location watch started. A throw from a store write
        or from starting the watch turns tracking off again. Returns the
        backend request sent, if any. */
    method StartTracking(db: Realtime.Database, token: Option<string>, driver: Option<Driver>, user: Option<User>,
                         answer: PermissionAnswer, positionFails: bool,
                         statusFailure: Option<string>, driverFailure: Option<string>, watchHandle: Option<nat>,
                         now: int)
      returns (patch: Option<Api.Request>)
      requires db.Valid()
      modifies this, db
      ensures db.Valid()
      ensures old(driverSent) ==> driverSent
      ensures removedWatches == old(removedWatches) && currentSpeed == old(currentSpeed)
      // without permission: ask again, nothing else
      ensures old(hasPermission) != Some(true) ==> (
        && hasPermission == Some(answer.Answered? && answer.status == "granted" && !positionFails)
        && isTracking == old(isTracking) && duration == old(duration) && watch == old(watch)
        && driverSent == old(driverSent) && patch == None && unchanged(db))
      // with permission but the status write rejected
      ensures old(hasPermission) == Some(true) && statusFailure.Some? ==> (
        && !isTracking && duration == 0 && watch == old(watch) && driverSent == old(driverSent)
        && hasPermission == old(hasPermission) && patch == None && unchanged(db))
      // with permission and the status written
      ensures old(hasPermission) == Some(true) && statusFailure.None? ==> (
        var announce := driver.Some? && !old(driverSent);
        var announced := announce && driverFailure.None?;
        && duration == 0 && hasPermission == old(hasPermission)
        && patch == (if Truthy(token) then Some(Api.StatusRequest(token.value, busId, true)) else None)
        && db.subs == old(db.subs) && db.nextHandle == old(db.nextHandle)
        && (var statusInbox := Realtime.Notify(old(db.inbox), old(db.subs), Realtime.StatusPath(busId),
                                               Some(Realtime.StatusValue(true, now)));
            db.inbox == if announced
                        then Realtime.Notify(statusInbox, old(db.subs), Realtime.DriverPath(busId),
                                             Some(Realtime.DriverValue(DriverId(user), DriverName(user))))
                        else statusInbox)
        && db.values == (if announced
                         then old(db.values)[Realtime.StatusPath(busId) := Realtime.StatusValue(true, now)]
                                            [Realtime.DriverPath(busId) := Realtime.DriverValue(DriverId(user), DriverName(user))]
                         else old(db.values)[Realtime.StatusPath(busId) := Realtime.StatusValue(true, now)])
        && driverSent == (old(driverSent) || announced)
        && (if announce && driverFailure.Some? then !isTracking && watch == old(watch)
            else if watchHandle.None? then !isTracking && watch == old(watch)
            else isTracking && watch == watchHandle))
    {
      patch := None;
      if hasPermission != Some(true) {
        RequestLocationPermission(answer, positionFails);
        return;
      }
      isTracking := true;
      duration := 0;
      var o := Realtime.SetBusActiveStatus(db, busId, true, now, statusFailure);
      if o.Thrown? {
        isTracking := false;
        return;
      }
      if Truthy(token) {
        patch := Some(Api.StatusRequest(token.value, busId, true));
      }
      if driver.Some? && !driverSent {
        o := Realtime.SetBusDriver(db, busId, DriverId(user), DriverName(user), driverFailure);
        if o.Thrown? {
          isTracking := false;
          return;
        }
        driverSent := true;
      }
      if watchHandle.None? {
        isTracking := false;
        return;
      }
      watch := watchHandle;
    }

    /** The location-watch callback (LiveTrackingScreen.tsx:182-202) for a
        sample whose rounded km/h speed is `kmh`. The location write is not
        awaited, so its failure leaves the screen as it is. */
    method OnLocationSample(db: Realtime.Database, lat: real, lng: real, kmh: int, heading: Option<real>,
                            now: int, failure: Option<string>)
      requires db.Valid()
      modifies this`currentSpeed, db
      ensures db.Valid()
      ensures currentSpeed == DisplayedSpeed(kmh)
      ensures failure.Some? ==> unchanged(db)
      ensures failure.None? ==> (
        && db.values == old(db.values)[Realtime.LocationPath(busId) :=
                                       Realtime.LocationValue(SampleLocation(lat, lng, kmh, heading, now))]
        && db.inbox == Realtime.Notify(old(db.inbox), old(db.subs), Realtime.LocationPath(busId),
                                       Some(Realtime.LocationValue(SampleLocation(lat, lng, kmh, heading, now))))
        && db.subs == old(db.subs) && db.nextHandle == old(db.nextHandle))
    {
      currentSpeed := DisplayedSpeed(kmh);
      var _ := Realtime.UpdateBusLocation(db, busId, SampleLocation(lat, lng, kmh, heading, now), failure);
    }

    /** stopTracking (LiveTrackingScreen.tsx:79-88): removes the watch if
        there is one, writes status `false` (a rejection is rethrown, and
        then tracking stays on), tells the backend (failure ignored), turns
        tracking off and the speed to 0. The announced flag is kept. Safe
        to call when not tracking, as the unmount cleanup does. */
    method StopTracking(db: Realtime.Database, token: Option<string>, now: int, statusFailure: Option<string>)
      returns (o: Outcome, patch: Option<Api.Request>)
      requires db.Valid()
      modifies this, db
      ensures db.Valid()
      ensures watch == None
      ensures removedWatches == old(removedWatches) + (if old(watch).Some? then [old(watch).value] else [])
      ensures driverSent == old(driverSent) && hasPermission == old(hasPermission) && duration == old(duration)
      ensures statusFailure.Some? ==> (
        && o == Thrown(statusFailure.value) && patch == None && unchanged(db)
        && isTracking == old(isTracking) && currentSpeed == old(currentSpeed))
      ensures statusFailure.None? ==> (
        && o == Ok && !isTracking && currentSpeed == 0
        && db.values == old(db.values)[Realtime.StatusPath(busId) := Realtime.StatusValue(false, now)]
        && db.inbox == Realtime.Notify(old(db.inbox), old(db.subs), Realtime.StatusPath(busId),
                                       Some(Realtime.StatusValue(false, now)))
        && db.subs == old(db.subs) && db.nextHandle == old(db.nextHandle)
        && patch == (if Truthy(token) then Some(Api.StatusRequest(token.value, busId, false)) else None))
    {
      patch := None;
      if watch.Some? {
        removedWatches := removedWatches + [watch.value];
        watch := None;
      }
      o := Realtime.SetBusActiveStatus(db, busId, false, now, statusFailure);
      if o.Thrown? {
        return;
      }
      if Truthy(token) {
        patch := Some(Api.StatusRequest(token.value, busId, false));
      }
      isTracking := false;
      currentSpeed := 0;
    }

    /** One second of the duration interval, which runs only while tracking
        (LiveTrackingScreen.tsx:132-138). */
    method Tick()
      modifies this`duration
      ensures duration == if isTracking then old(duration) + 1 else old(duration)
    {
      if isTracking {
        duration := duration + 1;
      }
    }

    /** handleBackAction (LiveTrackingScreen.tsx:111-118): while tracking the
        stop confirmation opens instead of leaving. */
    method HandleBackAction() returns (action: BackAction)
      ensures action == ConfirmStop <==> isTracking
      ensures action == GoBack <==> !isTracking
    {
      action := if isTracking then ConfirmStop else GoBack;
    }

    /** The confirmation's "Stop" (LiveTrackingScreen.tsx:100-103): stop, then
        leave the screen, unless stopping threw. The new state is StopTracking's;
        `patch` is the backend request it sent. */
    method ConfirmStopPressed(db: Realtime.Database, token: Option<string>, now: int, statusFailure: Option<string>)
      returns (leaves: bool, patch: Option<Api.Request>)
      requires db.Valid()
      modifies this, db
      ensures db.Valid()
      ensures leaves <==> statusFailure.None?
      ensures watch == None
      ensures removedWatches == old(removedWatches) + (if old(watch).Some? then [old(watch).value] else [])
      ensures driverSent == old(driverSent) && hasPermission == old(hasPermission) && duration == old(duration)
      ensures statusFailure.Some? ==> (
        && patch == None && unchanged(db)
        && isTracking == old(isTracking) && currentSpeed == old(currentSpeed))
      ensures statusFailure.None? ==> (
        && !isTracking && currentSpeed == 0
        && db.values == old(db.values)[Realtime.StatusPath(busId) := Realtime.StatusValue(false, now)]
        && db.inbox == Realtime.Notify(old(db.inbox), old(db.subs), Realtime.StatusPath(busId),
                                       Some(Realtime.StatusValue(false, now)))
        && db.subs == old(db.subs) && db.nextHandle == old(db.nextHandle)
        && patch == (if Truthy(token) then Some(Api.StatusRequest(token.value, busId, false)) else None))
    {
      var o;
      o, patch := StopTracking(db, token, now, statusFailure);
      leaves := o == Ok;
    }
  }
}
