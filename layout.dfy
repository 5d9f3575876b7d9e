/** The root layout: the redirect rule of `ProtectedRoute` and the toast
    border colour. */
module Layout {
  import opened Common
  import opened Strings

  /** The three places the guard can send the user to. */
  datatype Route = ToLogin | ToProfileSetup | ToHome {
    function Path(): string {
      match this
      case ToLogin => "/auth/login"
      case ToProfileSetup => "/auth/profile-setup"
      case ToHome => "/"
    }

    /** The route segments of that path. */
    function Segments(): seq<string> {
      match this
      case ToLogin => ["auth", "login"]
      case ToProfileSetup => ["auth", "profile-setup"]
      case ToHome => []
    }
  }

  predicate InAuthGroup(segments: seq<string>) {
    |segments| > 0 && segments[0] == "auth"
  }

  predicate OnProfileSetup(segments: seq<string>) {
    |segments| > 1 && segments[1] == "profile-setup"
  }

  /** The effect of `ProtectedRoute`: where `router.replace` sends the user,
      if anywhere. `name` is `userData?.name`. */
  function Redirect(loading: bool, signedIn: bool, segments: seq<string>, name: Option<string>): (r: Option<Route>)
    ensures r.Some? ==> !loading
    ensures r == Some(ToLogin) <==> !loading && !signedIn && !InAuthGroup(segments)
    ensures r == Some(ToProfileSetup) <==>
      !loading && signedIn && InAuthGroup(segments) && !Truthy(name) && !OnProfileSetup(segments)
    ensures r == Some(ToHome) <==> !loading && signedIn && InAuthGroup(segments) && Truthy(name)
    ensures signedIn && !InAuthGroup(segments) ==> r.None?
  {
    if loading then None
    else if !signedIn && !InAuthGroup(segments) then Some(ToLogin)
    else if signedIn && InAuthGroup(segments) then
      if !Truthy(name) && !OnProfileSetup(segments) then Some(ToProfileSetup)
      else if Truthy(name) then Some(ToHome)
      else None
    else None
  }

  /** One redirect settles the guard: at the route it sends the user to, with
      the same session, it sends them nowhere else. */
  lemma RedirectSettles(signedIn: bool, segments: seq<string>, name: Option<string>)
    requires Redirect(false, signedIn, segments, name).Some?
    ensures Redirect(false, signedIn, Redirect(false, signedIn, segments, name).value.Segments(), name).None?
  {
  }

  /** `toastConfig.base`'s left border colour for a toast type. */
  function BorderColor(kind: string): (c: string)
    ensures kind == "success" ==> c == "#4ade80"
    ensures kind == "error" ==> c == "#ef4444"
    ensures kind != "success" && kind != "error" ==> c == "#ab8bff"
  {
    if kind == "success" then "#4ade80" else if kind == "error" then "#ef4444" else "#ab8bff"
  }
}
