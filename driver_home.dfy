/** The driver's home screen (client/screens/DriverHomeScreen.tsx): the
    driver's bus fetched from the backend, the refresh spinner, the
    start-tracking button and where it leads. */
module DriverHome {
  import opened Types
  import Api
  import Home
  import Navigation

  class DriverHomeView {
    var bus: Option<Bus>
    var isLoading: bool
    var isRefreshing: bool
    var error: Option<Message>

    constructor ()
      ensures bus == None && isLoading && !isRefreshing && error == None
    {
      bus := None;
      isLoading := true;
      isRefreshing := false;
      error := None;
    }

    /** fetchBus (DriverHomeScreen.tsx:68-81): without a token nothing
        happens. Otherwise the error is cleared and the bus (null on 404)
        stored; a failure keeps the bus and shows its message or a fixed
        fallback; both spinners stop in every case. */
    method FetchBus(token: Option<string>, resp: Api.Response<Bus>) returns (request: Option<Api.Request>)
      modifies this
      ensures !Truthy(token) ==> request == None && unchanged(this)
      ensures Truthy(token) ==> (
        var c := Api.GetDriverBus(token.value, resp);
        && request == Some(c.request) && !isLoading && !isRefreshing
        && (c.result.Value? ==> error == None && bus == c.result.value)
        && (c.result.Error? ==> (
              && bus == old(bus)
              && error == Some(Literal(if c.result.message != "" then c.result.message
                                       else "Failed to load bus information")))))
    {
      if !Truthy(token) {
        return None;
      }
      error := None;
      var c := Api.GetDriverBus(token.value, resp);
      request := Some(c.request);
      if c.result.Value? {
        bus := c.result.value;
      } else {
        error := Some(Literal(if c.result.message != "" then c.result.message else "Failed to load bus information"));
      }
      isLoading := false;
      isRefreshing := false;
    }

    /** handleRefresh (DriverHomeScreen.tsx:87-91): the spinner starts, then
        the fetch runs and leaves what FetchBus leaves; without a token it
        keeps spinning. */
    method HandleRefresh(token: Option<string>, resp: Api.Response<Bus>) returns (request: Option<Api.Request>)
      modifies this
      ensures !Truthy(token) ==> (
        && request == None && isRefreshing
        && bus == old(bus) && isLoading == old(isLoading) && error == old(error))
      ensures Truthy(token) ==> (
        var c := Api.GetDriverBus(token.value, resp);
        && request == Some(c.request) && !isLoading && !isRefreshing
        && (c.result.Value? ==> error == None && bus == c.result.value)
        && (c.result.Error? ==> (
              && bus == old(bus)
              && error == Some(Literal(if c.result.message != "" then c.result.message
                                       else "Failed to load bus information")))))
    {
      isRefreshing := true;
      request := FetchBus(token, resp);
    }

    /** The start-tracking button, rendered exactly when there is a bus
        (DriverHomeScreen.tsx:255): it never shows beside the no-bus state,
        and the bus card never shows without it. */
    predicate ShowsStartButton(): (shown: bool)
      reads this
      ensures shown ==> !Content().NoBusAssigned?
      ensures Content().BusCardView? ==> shown
    {
      bus.Some?
    }

    /** handleStartTracking (DriverHomeScreen.tsx:93-98): opens live tracking
        for the bus, only when there is one. */
    method HandleStartTracking() returns (nav: Option<Navigation.Route>)
      ensures nav.Some? <==> ShowsStartButton()
      ensures bus.Some? ==> nav == Some(Navigation.ToLiveTracking(bus.value.id))
    {
      nav := if bus.Some? then Some(Navigation.ToLiveTracking(bus.value.id)) else None;
    }

    function Content(): Home.Content
      reads this
    {
      Home.RenderContent(isLoading, error, bus)
    }
  }

  /** When the button shows, its destination is registered for a signed-in
      driver. */
  lemma StartButtonLeadsSomewhere(user: Option<User>, busId: int)
    ensures Navigation.CanNavigate(Navigation.Screens(false, true, user), Navigation.ToLiveTracking(busId))
  {
    Navigation.SignedInDestinations(user, Navigation.ToLiveTracking(busId));
  }
}
