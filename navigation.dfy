/**
 * Screen-view tracking from navigation events (`withUmamiTracking`): the
 * remembered route name, and the `track` call a navigation state change
 * makes. The tracker itself is not called here; a handler returns the
 * payload it would pass to `track`, or None when it makes no call.
 */
module NavigationTracking {
  import opened Optional
  import opened UmamiTracker

  /** The route name after a leading slash, as the payload's `url` and `referrer` carry it. */
  function RoutePath(route: string): (path: string)
    ensures |path| == |route| + 1 && path[0] == '/' && path[1..] == route
  {
    "/" + route
  }

  /**
   * The `track` call made when the current route is `current` and the
   * remembered one `previous`: a "ScreenView" event for the new route,
   * with the previous route as referrer when there was one, and no call
   * when there is no current route or it has not changed.
   */
  function ScreenViewFor(previous: Option<string>, current: Option<string>): (call: Option<TrackPayload>)
    ensures call.Some? <==> Truthy(current) && current != previous
    ensures call.Some? ==>
      && call.value.name == Some("ScreenView")
      && call.value.url == Some(RoutePath(current.value))
      && call.value.title == current
      && (call.value.referrer.Some? <==> Truthy(previous))
      && (Truthy(previous) ==> call.value.referrer == Some(RoutePath(previous.value)))
  {
    if Truthy(current) && current != previous then
      var referrer := if Truthy(previous) then Some(RoutePath(previous.value)) else None;
      Some(TrackPayload(Some("ScreenView"), Some(RoutePath(current.value)), referrer, Some(current.value)))
    else
      None
  }

  /** A screen view is always tracked as an event, never as a pageview. */
  lemma ScreenViewIsEvent(previous: Option<string>, current: Option<string>)
    requires ScreenViewFor(previous, current).Some?
    ensures TypeOf(ScreenViewFor(previous, current).value) == Event
  {
  }

  /** The module-level `routeNameRef`: the last route name seen. */
  class RouteTracker {
    var routeName: Option<string>

    constructor ()
      ensures routeName == None
    {
      routeName := None;
    }

    /** `onNavigationReady`: remembers the current route; makes no `track` call. */
    method OnReady(current: Option<string>)
      modifies this
      ensures routeName == current
    {
      routeName := current;
    }

    /**
     * `onNavigationStateChange`: the `track` call for the change from the
     * remembered route to `current`, after which `current` is remembered
     * (even when it is absent).
     */
    method OnStateChange(current: Option<string>) returns (call: Option<TrackPayload>)
      modifies this
      ensures call == ScreenViewFor(old(routeName), current)
      ensures routeName == current
    {
      call := ScreenViewFor(routeName, current);
      routeName := current;
    }
  }

  /**
   * Ready on "Home", then a change to "Profile": one screen view of
   * "/Profile" titled "Profile" with referrer "/Home".
   */
  lemma HomeToProfile()
    ensures ScreenViewFor(Some("Home"), Some("Profile"))
         == Some(TrackPayload(Some("ScreenView"), Some("/Profile"), Some("/Home"), Some("Profile")))
  {
    assert "Home"[0] != "Profile"[0];
    assert RoutePath("Profile") == "/Profile";
    assert RoutePath("Home") == "/Home";
  }

  /** A state change that stays on the remembered route makes no call. */
  lemma UnchangedRouteNotTracked(route: Option<string>)
    ensures ScreenViewFor(route, route) == None
  {
  }

  /** The first change after start-up (nothing remembered) carries no referrer. */
  lemma FirstScreenViewHasNoReferrer(current: string)
    requires current != ""
    ensures ScreenViewFor(None, Some(current))
         == Some(TrackPayload(Some("ScreenView"), Some(RoutePath(current)), None, Some(current)))
  {
  }
}
