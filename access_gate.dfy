/** The admin guard: a component that shows its children only to a stored session whose
    user has role 'admin', and otherwise sends the browser to the home page. */
module AccessGate {
  import opened JsValues
  import opened AuthService

  /** Where a refused visitor is sent: the home page, which is not itself guarded. */
  const SafeRoute := "/"

  /** What the guard renders. */
  datatype View =
    | Placeholder  // the full-screen "Loading..." panel
    | Nothing      // `null`
    | Children     // the wrapped content

  /** The navigation primitive; it only records where it was asked to go. */
  class Router {
    var pushed: seq<string>

    constructor ()
      ensures pushed == []
    {
      pushed := [];
    }

    /** `router.push(path)`. */
    method Push(path: string)
      modifies this
      ensures pushed == old(pushed) + [path]
    {
      pushed := pushed + [path];
    }
  }

  /** The effect's test, negated: not `(!user || user.role !== 'admin')`. Only an object whose
      `role` is exactly the string "admin" passes. */
  function IsAdmin(user: Json): (r: bool)
    ensures r <==> user.JObj? && "role" in user.fields && user.fields["role"] == JStr("admin")
  {
    Truthy(user) && GetProp(user, "role") == Ok(Present(JStr("admin")))
  }

  /** One mount of the guard, with its two state flags. */
  class AdminGuard {
    var loading: bool
    var authorized: bool
    const router: Router

    /** A fresh mount: still loading, not authorized, so only the placeholder shows. */
    constructor (router: Router)
      ensures loading && !authorized && this.router == router
      ensures Render() == Placeholder
    {
      loading := true;
      authorized := false;
      this.router := router;
    }

    /** The render function: a function of the two flags alone. The wrapped content
        appears only once loading is over and the check passed. */
    function Render(): (v: View)
      reads this
      ensures loading <==> v == Placeholder
      ensures v == Children <==> !loading && authorized
      ensures v == Nothing <==> !loading && !authorized
    {
      if loading then Placeholder
      else if !authorized then Nothing
      else Children
    }

    /** The effect: reads the session once, then authorizes, or pushes the home page exactly
        once, and ends loading. It never writes the session. Denial does not clear an earlier
        authorization: only a fresh mount starts from `authorized == false`. If reading the
        session throws, the effect throws with it, before any navigation, and the flags keep
        their values. */
    method RunEffect(store: SessionStore) returns (r: Outcome<()>)
      modifies this, router
      ensures unchanged(store)
      ensures store.CurrentUser().Thrown? ==>
        && r == Thrown(store.CurrentUser().error)
        && loading == old(loading) && authorized == old(authorized)
        && router.pushed == old(router.pushed)
      ensures store.CurrentUser().Ok? ==>
        && r == Ok(())
        && !loading
        && authorized == (old(authorized) || IsAdmin(store.CurrentUser().value))
        && router.pushed == old(router.pushed) + (if IsAdmin(store.CurrentUser().value) then [] else [SafeRoute])
    {
      var user := store.CurrentUser();
      if user.Thrown? {
        return Thrown(user.error);
      }
      if !Truthy(user.value) || GetProp(user.value, "role") != Ok(Present(JStr("admin"))) {
        router.Push(SafeRoute);
      } else {
        authorized := true;
      }
      loading := false;
      r := Ok(());
    }
  }

  /** A guarded page's whole life: mount, run the effect once, render. An admin session sees
      the content and is not redirected; anyone else sees nothing and is redirected to the
      home page exactly once. When reading the session throws, the effect throws with it,
      before any navigation, and the flags keep their initial values. */
  method MountAndCheck(store: SessionStore, router: Router) returns (guard: AdminGuard, r: Outcome<()>)
    modifies router
    ensures fresh(guard) && guard.router == router
    ensures unchanged(store)
    ensures store.CurrentUser().Thrown? ==>
      r.Thrown? && guard.Render() == Placeholder && router.pushed == old(router.pushed)
    ensures store.CurrentUser().Ok? ==>
      && r == Ok(())
      && (guard.Render() == Children <==> IsAdmin(store.CurrentUser().value))
      && (guard.Render() == Nothing <==> !IsAdmin(store.CurrentUser().value))
      && router.pushed == old(router.pushed) + (if IsAdmin(store.CurrentUser().value) then [] else [SafeRoute])
  {
    guard := new AdminGuard(router);
    r := guard.RunEffect(store);
  }
}
