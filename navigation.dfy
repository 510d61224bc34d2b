/** The root navigator (client/navigation/RootStackNavigator.tsx): which
    screens are registered for a session state, and the parameters each
    screen is opened with. */
module Navigation {
  import opened Types

  datatype ScreenName = LoginScreen | StudentHome | DriverHome | BusDetails | LiveTracking | Profile

  /** A navigation to a screen together with its parameters
      (RootStackNavigator.tsx:19-26): the bus details need a bus id and may
      carry its driver, live tracking needs a bus id, the rest take none. */
  datatype Route =
    | ToLogin
    | ToStudentHome
    | ToDriverHome
    | ToBusDetails(busId: int, driver: Option<Driver>)
    | ToLiveTracking(busId: int)
    | ToProfile

  function NameOf(r: Route): ScreenName {
    match r
    case ToLogin => LoginScreen
    case ToStudentHome => StudentHome
    case ToDriverHome => DriverHome
    case ToBusDetails(_, _) => BusDetails
    case ToLiveTracking(_) => LiveTracking
    case ToProfile => Profile
  }

  /** What the root renders: the loading indicator, or a stack whose
      registered screens are listed, the first being the initial one. */
  datatype Root = LoadingIndicator | Stack(screens: seq<ScreenName>)

  predicate IsDriver(user: Option<User>) {
    user.Some? && user.value.role == DriverRole
  }

  /** RootStackNavigator (RootStackNavigator.tsx:117-213) */
  function Screens(isLoading: bool, isAuthenticated: bool, user: Option<User>): (root: Root)
    ensures root.LoadingIndicator? <==> isLoading
    ensures !isLoading && !isAuthenticated ==> root == Stack([LoginScreen])
    ensures !isLoading && isAuthenticated ==> (
      && root.Stack? && |root.screens| == 4
      && root.screens[0] == (if IsDriver(user) then DriverHome else StudentHome)
      && root.screens[1..] == [BusDetails, LiveTracking, Profile])
  {
    if isLoading then LoadingIndicator
    else if !isAuthenticated then Stack([LoginScreen])
    else Stack([if IsDriver(user) then DriverHome else StudentHome, BusDetails, LiveTracking, Profile])
  }

  /** A route can be followed when its screen is registered. */
  predicate CanNavigate(root: Root, r: Route) {
    root.Stack? && NameOf(r) in root.screens
  }

  /** Signed out, the login screen is the only destination. */
  lemma SignedOutOnlyLogin(user: Option<User>, r: Route)
    ensures CanNavigate(Screens(false, false, user), r) <==> r == ToLogin
  {
  }

  /** Signed in, the shared screens are open to every role, and exactly one
      home screen is registered: the driver's for role `driver`, the
      student's for any other role or a missing user. */
  lemma SignedInDestinations(user: Option<User>, r: Route)
    ensures var root := Screens(false, true, user);
      && (r.ToBusDetails? || r.ToLiveTracking? || r == ToProfile ==> CanNavigate(root, r))
      && !CanNavigate(root, ToLogin)
      && (CanNavigate(root, ToDriverHome) <==> IsDriver(user))
      && (CanNavigate(root, ToStudentHome) <==> !IsDriver(user))
  {
    var root := Screens(false, true, user);
    assert root.screens == [if IsDriver(user) then DriverHome else StudentHome, BusDetails, LiveTracking, Profile];
  }

  /** While the session loads no screen can be reached. */
  lemma LoadingBlocksNavigation(isAuthenticated: bool, user: Option<User>, r: Route)
    ensures !CanNavigate(Screens(true, isAuthenticated, user), r)
  {
  }
}
