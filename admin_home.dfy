/** The admin home page: the guard that admits only admins, the `mounted`
    flag that stops a late guard from updating an unmounted page, and the
    auth-state listener. */
module AdminHome {
  import opened Common

  /** The links of the four tiles, in order. */
  const TileLinks := ["/admin/temples", "/admin/ngos", "/admin/donations", "/admin/inventory"]

  class AdminHomePage {
    var loading: bool
    /** The effect's `mounted` flag. */
    var mounted: bool
    /** Whether the auth-state listener is subscribed. */
    var subscribed: bool
    /** The target of the last `router.replace`, if any. */
    var route: Option<string>

    /** The page as its effect starts: loading, mounted and subscribed. */
    constructor ()
      ensures loading && mounted && subscribed && route == None
    {
      loading := true;
      mounted := true;
      subscribed := true;
      route := None;
    }

    /** The links of the tiles shown: all four once loading is over, none
        before. */
    function ShownTiles(): seq<string>
      reads this
    {
      if loading then [] else TileLinks
    }

    /** `guard`, once its lookups return: `session` is the session's user id,
        if any, and `found` the profile lookup. The redirect happens whether
        or not the page is still mounted; the loading flag changes only
        while it is. */
    method GuardResolved(session: Option<string>, found: Option<Record>)
      modifies this`loading, this`route
      ensures session.None? || found.None? || Field(found.value, "role") != Some("admin") ==>
        route == Some("/login") && loading == old(loading)
      ensures session.Some? && found.Some? && Field(found.value, "role") == Some("admin") ==>
        route == old(route) && loading == (old(loading) && !mounted)
    {
      if session.None? {
        route := Some("/login");
        return;
      }
      if found.None? || Field(found.value, "role") != Some("admin") {
        route := Some("/login");
        return;
      }
      if mounted {
        loading := false;
      }
    }

    /** The auth-state listener: losing the session leaves for the login
        page, for as long as the listener is subscribed. */
    method AuthStateChanged(session: bool)
      modifies this`route
      ensures subscribed && !session ==> route == Some("/login")
      ensures !(subscribed && !session) ==> route == old(route)
    {
      if subscribed && !session {
        route := Some("/login");
      }
    }

    /** The effect's cleanup. */
    method Unmount()
      modifies this`mounted, this`subscribed
      ensures !mounted && !subscribed
    {
      mounted := false;
      subscribed := false;
    }

    /** `logout`, after the sign-out call returns. */
    method Logout()
      modifies this`route
      ensures route == Some("/login")
    {
      route := Some("/login");
    }
  }

  /** A visit: the page mounts, is possibly left before the guard's lookups
      return, and the guard then resolves. The four tiles show exactly for
      an admin whose page is still mounted; everyone else is sent to the
      login page and sees none. */
  method Visit(session: Option<string>, found: Option<Record>, leftEarly: bool)
    returns (tiles: seq<string>, route: Option<string>)
    ensures session.Some? && found.Some? && Field(found.value, "role") == Some("admin") && !leftEarly ==>
      tiles == TileLinks
    ensures !(session.Some? && found.Some? && Field(found.value, "role") == Some("admin") && !leftEarly) ==>
      tiles == []
    ensures route == Some("/login") <==>
      session.None? || found.None? || Field(found.value, "role") != Some("admin")
    ensures route != Some("/login") ==> route == None
  {
    var page := new AdminHomePage();
    if leftEarly {
      page.Unmount();
    }
    page.GuardResolved(session, found);
    tiles := page.ShownTiles();
    route := page.route;
  }

  /** Once the session is lost while the page is open, the page is sent to
      the login page, and a later lookup does not undo that. */
  method SessionLost(found: Option<Record>) returns (route: Option<string>)
    ensures route == Some("/login")
  {
    var page := new AdminHomePage();
    page.AuthStateChanged(false);
    page.GuardResolved(Some("user"), found);
    route := page.route;
  }
}
