/** The student's home screen (client/screens/StudentHomeScreen.tsx): the
    assigned bus fetched from the backend, its live flag, the refresh
    spinner, and the navigation a press on the bus card leads to. */
module StudentHome {
  import opened Types
  import Api
  import Home
  import Navigation

  class StudentHomeView {
    var bus: Option<Bus>
    var isLoading: bool
    var isRefreshing: bool
    var error: Option<Message>
    var liveStatus: bool

    constructor ()
      ensures bus == None && isLoading && !isRefreshing && error == None && !liveStatus
    {
      bus := None;
      isLoading := true;
      isRefreshing := false;
      error := None;
      liveStatus := false;
    }

    /** fetchBus (StudentHomeScreen.tsx:46-63): without a token nothing
        happens, so loading never ends. Otherwise the error is cleared, the
        bus (null on 404) stored and its `is_active` copied to the live flag;
        a failure keeps the bus and shows its message or the
        `failed_to_load_bus` key; both spinners stop in every case. */
    method FetchBus(token: Option<string>, resp: Api.Response<Bus>) returns (request: Option<Api.Request>)
      modifies this
      ensures !Truthy(token) ==> request == None && unchanged(this)
      ensures Truthy(token) ==> (
        var c := Api.GetStudentBus(token.value, resp);
        && request == Some(c.request) && !isLoading && !isRefreshing
        && (c.result.Value? ==> (
              && error == None && bus == c.result.value
              && liveStatus == (if bus.Some? then bus.value.isActive else old(liveStatus))))
        && (c.result.Error? ==> (
              && bus == old(bus) && liveStatus == old(liveStatus)
              && error == Some(ThrownOr(c.result.message, "failed_to_load_bus")))))
    {
      if !Truthy(token) {
        return None;
      }
      error := None;
      var c := Api.GetStudentBus(token.value, resp);
      request := Some(c.request);
      if c.result.Value? {
        bus := c.result.value;
        if bus.Some? {
          liveStatus := bus.value.isActive;
        }
      } else {
        error := Some(ThrownOr(c.result.message, "failed_to_load_bus"));
      }
      isLoading := false;
      isRefreshing := false;
    }

    /** handleRefresh (StudentHomeScreen.tsx:68-72): the spinner starts, then
        the fetch runs and leaves what FetchBus leaves; without a token it
        keeps spinning. */
    method HandleRefresh(token: Option<string>, resp: Api.Response<Bus>) returns (request: Option<Api.Request>)
      modifies this
      ensures !Truthy(token) ==> (
        && request == None && isRefreshing
        && bus == old(bus) && isLoading == old(isLoading) && error == old(error) && liveStatus == old(liveStatus))
      ensures Truthy(token) ==> (
        var c := Api.GetStudentBus(token.value, resp);
        && request == Some(c.request) && !isLoading && !isRefreshing
        && (c.result.Value? ==> (
              && error == None && bus == c.result.value
              && liveStatus == (if bus.Some? then bus.value.isActive else old(liveStatus))))
        && (c.result.Error? ==> (
              && bus == old(bus) && liveStatus == old(liveStatus)
              && error == Some(ThrownOr(c.result.message, "failed_to_load_bus")))))
    {
      isRefreshing := true;
      request := FetchBus(token, resp);
    }

    /** handleBusPress (StudentHomeScreen.tsx:74-79): opens the bus details
        with the bus's id and driver, only when there is a bus. */
    method HandleBusPress() returns (nav: Option<Navigation.Route>)
      ensures nav.Some? <==> bus.Some?
      ensures bus.Some? ==> nav == Some(Navigation.ToBusDetails(bus.value.id, bus.value.driver))
    {
      nav := if bus.Some? then Some(Navigation.ToBusDetails(bus.value.id, bus.value.driver)) else None;
    }

    /** The content and the greeting shown (StudentHomeScreen.tsx:81-111, 166). */
    function Content(): Home.Content
      reads this
    {
      Home.RenderContent(isLoading, error, bus)
    }
  }
}
