/** The realtime location bridge (client/lib/firebase.ts) over a model of the
    hosted key/value tree: every write overwrites the whole value at one
    key, reads return that value or null, and `on('value')` listeners are
    handed the value at their key once when they attach and again after
    every change to it. */
module Realtime {
  import opened Types
  import Decimal
  import Strings

  /** What is stored at a key. The client writes three shapes. */
  datatype Value =
    | LocationValue(location: BusLocation)
    | StatusValue(isActive: bool, lastUpdated: int)
    | DriverValue(id: int, name: string)

  datatype Field = LocationField | StatusField | DriverField

  function FieldName(f: Field): string {
    match f
    case LocationField => "location"
    case StatusField => "status"
    case DriverField => "driver"
  }

  const BusPrefix: string := "buses/bus_"

  /** `buses/bus_{busId}/{field}` */
  function BusPath(busId: int, f: Field): string {
    BusPrefix + (Decimal.IntToString(busId) + ['/'] + FieldName(f))
  }

  function LocationPath(busId: int): string { BusPath(busId, LocationField) }
  function StatusPath(busId: int): string { BusPath(busId, StatusField) }
  function DriverPath(busId: int): string { BusPath(busId, DriverField) }

  lemma FieldNameInjective(f: Field, g: Field)
    requires FieldName(f) == FieldName(g)
    ensures f == g
  {
    assert FieldName(f)[0] == FieldName(g)[0];
  }

  /** Two keys are the same only for the same bus and the same field: each
      bus has three distinct keys and no key is shared between buses. */
  lemma BusPathInjective(a: int, f: Field, b: int, g: Field)
    requires BusPath(a, f) == BusPath(b, g)
    ensures a == b && f == g
  {
    var x, y := Decimal.IntToString(a), Decimal.IntToString(b);
    var p := BusPath(a, f);
    assert x + ['/'] + FieldName(f) == p[|BusPrefix|..] == y + ['/'] + FieldName(g);
    Decimal.IntToStringAvoids(a, '/');
    Decimal.IntToStringAvoids(b, '/');
    Strings.SplitAtFirst(x, FieldName(f), y, FieldName(g), '/');
    Decimal.IntToStringInjective(a, b);
    FieldNameInjective(f, g);
  }

  /** `snapshot.exists() ? snapshot.val() : null` */
  function Lookup(values: map<string, Value>, path: string): (r: Option<Value>)
    ensures r.Some? <==> path in values
    ensures r.Some? ==> r.value == values[path]
  {
    if path in values then Some(values[path]) else None
  }

  /** A write at one bus's key leaves what is read at every other bus key
      as it was. */
  lemma WriteIsolation(values: map<string, Value>, a: int, f: Field, v: Value, b: int, g: Field)
    requires a != b || f != g
    ensures Lookup(values[BusPath(a, f) := v], BusPath(b, g)) == Lookup(values, BusPath(b, g))
  {
    if BusPath(a, f) == BusPath(b, g) {
      BusPathInjective(a, f, b, g);
    }
  }

  /** Reading a key right after writing it gives the value written. */
  lemma ReadAfterWrite(values: map<string, Value>, path: string, v: Value)
    ensures Lookup(values[path := v], path) == Some(v)
  {
  }

  /** Every listener attached to `path` receives `v` after what it already had. */
  function Notify(inbox: map<nat, seq<Option<Value>>>, subs: map<nat, string>, path: string, v: Option<Value>)
    : (r: map<nat, seq<Option<Value>>>)
    ensures r.Keys == inbox.Keys
  {
    map h | h in inbox :: Delivered(inbox[h], subs, path, v, h)
  }

  /** What listener `h` holds after a change at `path`. */
  function Delivered(got: seq<Option<Value>>, subs: map<nat, string>, path: string, v: Option<Value>, h: nat)
    : seq<Option<Value>>
  {
    if h in subs && subs[h] == path then got + [v] else got
  }

  /** The inboxes after the values `vs` were written at `path` one by one. */
  function NotifyAll(inbox: map<nat, seq<Option<Value>>>, subs: map<nat, string>, path: string, vs: seq<Option<Value>>)
    : map<nat, seq<Option<Value>>>
  {
    if vs == [] then inbox else NotifyAll(Notify(inbox, subs, path, vs[0]), subs, path, vs[1..])
  }

  /** A listener attached to `path` is called once per change, in the order
      of the changes; a listener on any other key is not called at all. */
  lemma {:induction false} ListenerSeesEveryChange(
    inbox: map<nat, seq<Option<Value>>>, subs: map<nat, string>, path: string, vs: seq<Option<Value>>, h: nat)
    requires h in inbox
    ensures h in NotifyAll(inbox, subs, path, vs)
    ensures NotifyAll(inbox, subs, path, vs)[h] ==
      if h in subs && subs[h] == path then inbox[h] + vs else inbox[h]
  {
    if vs != [] {
      var next := Notify(inbox, subs, path, vs[0]);
      var watches := h in subs && subs[h] == path;
      assert h in next;
      ListenerSeesEveryChange(next, subs, path, vs[1..], h);
      assert NotifyAll(inbox, subs, path, vs) == NotifyAll(next, subs, path, vs[1..]);
      if watches {
        assert inbox[h] + [vs[0]] + vs[1..] == inbox[h] + vs;
      }
    }
  }

  /** A detached listener is not called again, whatever is written where. */
  lemma DetachedListenerHearsNothing(
    inbox: map<nat, seq<Option<Value>>>, subs: map<nat, string>, path: string, vs: seq<Option<Value>>, h: nat)
    requires h in inbox
    ensures h in NotifyAll(inbox, subs - {h}, path, vs)
    ensures NotifyAll(inbox, subs - {h}, path, vs)[h] == inbox[h]
  {
    ListenerSeesEveryChange(inbox, subs - {h}, path, vs, h);
  }

  /** The realtime database. `subs` maps each attached listener to the key
      it watches; `inbox` keeps, for every listener ever attached, the
      sequence of values its callback was called with. */
  class Database {
    var values: map<string, Value>
    var subs: map<nat, string>
    var inbox: map<nat, seq<Option<Value>>>
    var nextHandle: nat

    ghost predicate Valid()
      reads this
    {
      && subs.Keys <= inbox.Keys
      && forall h :: h in inbox ==> h < nextHandle
    }

    constructor ()
      ensures Valid()
      ensures values == map[] && subs == map[] && inbox == map[]
    {
      values := map[];
      subs := map[];
      inbox := map[];
      nextHandle := 0;
    }

    function Read(path: string): Option<Value>
      reads this
    {
      Lookup(values, path)
    }

    /** `ref(path).set(v)`: the whole value at `path` is replaced, every
        listener on `path` is called with it; `failure` is the error the
        service rejects the write with, which leaves the store unchanged. */
    method Set(path: string, v: Value, failure: Option<string>) returns (o: Outcome)
      requires Valid()
      modifies this
      ensures Valid()
      ensures failure.Some? ==> o == Thrown(failure.value) && unchanged(this)
      ensures failure.None? ==> (o == Ok
        && values == old(values)[path := v]
        && inbox == Notify(old(inbox), old(subs), path, Some(v))
        && subs == old(subs) && nextHandle == old(nextHandle))
    {
      if failure.Some? {
        return Thrown(failure.value);
      }
      values := values[path := v];
      inbox := Notify(inbox, subs, path, Some(v));
      o := Ok;
    }

    /** Deletion of a key by another party; listeners on it are called with null. */
    method Remove(path: string)
      requires Valid()
      modifies this
      ensures Valid()
      ensures values == old(values) - {path}
      ensures inbox == Notify(old(inbox), old(subs), path, None)
      ensures subs == old(subs) && nextHandle == old(nextHandle)
    {
      values := values - {path};
      inbox := Notify(inbox, subs, path, None);
    }

    /** `ref(path).on('value', cb)`: a fresh listener that is called at once
        with the current value. */
    method On(path: string) returns (h: nat)
      requires Valid()
      modifies this
      ensures Valid()
      ensures h !in old(inbox)
      ensures subs == old(subs)[h := path]
      ensures inbox == old(inbox)[h := [Read(path)]]
      ensures values == old(values)
      ensures h == old(nextHandle) && nextHandle == old(nextHandle) + 1
    {
      h := nextHandle;
      subs := subs[h := path];
      inbox := inbox[h := [Read(path)]];
      nextHandle := nextHandle + 1;
    }

    /** `ref(path).off('value', cb)` for the listener `h` only; detaching
        twice is harmless. */
    method Off(h: nat)
      requires Valid()
      modifies this
      ensures Valid()
      ensures subs == old(subs) - {h}
      ensures values == old(values) && inbox == old(inbox) && nextHandle == old(nextHandle)
    {
      subs := subs - {h};
    }
  }

  /** updateBusLocation (firebase.ts:6-16): overwrite the bus's location
      key; a failed write is rethrown. */
  method UpdateBusLocation(db: Database, busId: int, location: BusLocation, failure: Option<string>)
    returns (o: Outcome)
    requires db.Valid()
    modifies db
    ensures db.Valid()
    ensures failure.Some? ==> o == Thrown(failure.value) && unchanged(db)
    ensures failure.None? ==> (o == Ok
      && db.values == old(db.values)[LocationPath(busId) := LocationValue(location)]
      && db.inbox == Notify(old(db.inbox), old(db.subs), LocationPath(busId), Some(LocationValue(location)))
      && db.subs == old(db.subs) && db.nextHandle == old(db.nextHandle))
  {
    o := db.Set(LocationPath(busId), LocationValue(location), failure);
  }

  /** getBusLocation (firebase.ts:19-28): the stored value or null; a read
      that fails also yields null. */
  method GetBusLocation(db: Database, busId: int, readFails: bool) returns (r: Option<Value>)
    ensures readFails ==> r == None
    ensures !readFails ==> (r.Some? <==> LocationPath(busId) in db.values)
    ensures !readFails && r.Some? ==> r.value == db.values[LocationPath(busId)]
  {
    if readFails {
      return None;
    }
    r := db.Read(LocationPath(busId));
  }

  /** setBusActiveStatus (firebase.ts:34-49): the status key becomes exactly
      `{isActive, lastUpdated: now}`. */
  method SetBusActiveStatus(db: Database, busId: int, isActive: bool, now: int, failure: Option<string>)
    returns (o: Outcome)
    requires db.Valid()
    modifies db
    ensures db.Valid()
    ensures failure.Some? ==> o == Thrown(failure.value) && unchanged(db)
    ensures failure.None? ==> (o == Ok
      && db.values == old(db.values)[StatusPath(busId) := StatusValue(isActive, now)]
      && db.inbox == Notify(old(db.inbox), old(db.subs), StatusPath(busId), Some(StatusValue(isActive, now)))
      && db.subs == old(db.subs) && db.nextHandle == old(db.nextHandle))
  {
    o := db.Set(StatusPath(busId), StatusValue(isActive, now), failure);
  }

  /** setBusDriver (firebase.ts:52-66): the driver key becomes exactly `{id, name}`. */
  method SetBusDriver(db: Database, busId: int, id: int, name: string, failure: Option<string>)
    returns (o: Outcome)
    requires db.Valid()
    modifies db
    ensures db.Valid()
    ensures failure.Some? ==> o == Thrown(failure.value) && unchanged(db)
    ensures failure.None? ==> (o == Ok
      && db.values == old(db.values)[DriverPath(busId) := DriverValue(id, name)]
      && db.inbox == Notify(old(db.inbox), old(db.subs), DriverPath(busId), Some(DriverValue(id, name)))
      && db.subs == old(db.subs) && db.nextHandle == old(db.nextHandle))
  {
    o := db.Set(DriverPath(busId), DriverValue(id, name), failure);
  }

  /** getBusActiveStatus (firebase.ts:70-80): the stored status or null; a
      failed read yields null. */
  method GetBusActiveStatus(db: Database, busId: int, readFails: bool) returns (r: Option<Value>)
    ensures readFails ==> r == None
    ensures !readFails ==> (r.Some? <==> StatusPath(busId) in db.values)
    ensures !readFails && r.Some? ==> r.value == db.values[StatusPath(busId)]
  {
    if readFails {
      return None;
    }
    r := db.Read(StatusPath(busId));
  }

  /** createLocationListener (firebase.ts:84-96): attach a listener to the
      bus's location key; the handle returned is what the unsubscribe
      function detaches. */
  method CreateLocationListener(db: Database, busId: int) returns (h: nat)
    requires db.Valid()
    modifies db
    ensures db.Valid()
    ensures h !in old(db.inbox)
    ensures db.subs == old(db.subs)[h := LocationPath(busId)]
    ensures db.inbox == old(db.inbox)[h := [db.Read(LocationPath(busId))]]
    ensures db.values == old(db.values)
    ensures h == old(db.nextHandle) && db.nextHandle == old(db.nextHandle) + 1
  {
    h := db.On(LocationPath(busId));
  }

  /** createStatusListener (firebase.ts:101-115). */
  method CreateStatusListener(db: Database, busId: int) returns (h: nat)
    requires db.Valid()
    modifies db
    ensures db.Valid()
    ensures h !in old(db.inbox)
    ensures db.subs == old(db.subs)[h := StatusPath(busId)]
    ensures db.inbox == old(db.inbox)[h := [db.Read(StatusPath(busId))]]
    ensures db.values == old(db.values)
    ensures h == old(db.nextHandle) && db.nextHandle == old(db.nextHandle) + 1
  {
    h := db.On(StatusPath(busId));
  }

  /** The function a listener factory returns: detaches exactly listener `h`. */
  method Unsubscribe(db: Database, h: nat)
    requires db.Valid()
    modifies db
    ensures db.Valid()
    ensures db.subs == old(db.subs) - {h}
    ensures db.values == old(db.values) && db.inbox == old(db.inbox) && db.nextHandle == old(db.nextHandle)
  {
    db.Off(h);
  }
}
