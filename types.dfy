/** Entities of the BusNaama client (client/types/index.ts) and the small
    failure-compatible wrappers the rest of the model uses. Latitude,
    longitude and heading are floating point in the app; here they are
    `real` values that are only copied, never computed with. */
module Types {

  datatype Option<+T> = None | Some(value: T) {
    function GetOr(default: T): T {
      match this
      case Some(v) => v
      case None => default
    }
  }

  /** Normal completion (`Ok`) of an async step, or the error it threw. */
  datatype Outcome = Ok | Thrown(message: string)

  /** A value or a thrown error. */
  datatype Result<+T> = Value(value: T) | Error(message: string)

  datatype Role = StudentRole | DriverRole | AdminRole

  datatype User = User(
    id: int,
    username: string,
    email: string,
    firstName: string,
    lastName: string,
    avatar: Option<string>,
    role: Role,
    phone: string)

  datatype Student = Student(
    id: int,
    user: User,
    studentId: string,
    homeLat: Option<real>,
    homeLon: Option<real>,
    busId: Option<int>)

  datatype Driver = Driver(
    id: int,
    user: User,
    employeeId: string,
    licenseId: string)

  /** One `[longitude, latitude]` point of a route polyline. */
  datatype Coord = Coord(lng: real, lat: real)

  /** `path` is `None` when the backend sent no path or something that is
      not an array. */
  datatype Route = Route(id: int, routeStr: string, path: Option<seq<Coord>>)

  datatype Bus = Bus(
    id: int,
    name: string,
    registrationNumber: string,
    driverId: Option<int>,
    driver: Option<Driver>,
    capacity: Option<int>,
    isActive: bool,
    route: Option<Route>)

  /** The most recent published position of a bus; `timestamp` is the
      driver device's clock in epoch milliseconds. */
  datatype BusLocation = BusLocation(
    lat: real,
    lng: real,
    timestamp: int,
    heading: Option<real>,
    speed: Option<int>)

  datatype AuthState = AuthState(
    user: Option<User>,
    student: Option<Student>,
    driver: Option<Driver>,
    token: Option<string>,
    isLoading: bool,
    isAuthenticated: bool)

  /** Text shown to the user: a translation key passed to `t(...)`, or a
      literal string such as a thrown error's message. */
  datatype Message = Key(key: string) | Literal(text: string)

  /** `error.message || t(fallbackKey)` */
  function ThrownOr(message: string, fallbackKey: string): (m: Message)
    ensures message != "" ==> m == Literal(message)
    ensures message == "" ==> m == Key(fallbackKey)
  {
    if message != "" then Literal(message) else Key(fallbackKey)
  }

  /** JavaScript truthiness of an optional string: absent and `""` are falsy. */
  predicate Truthy(s: Option<string>) {
    s.Some? && s.value != ""
  }
}
