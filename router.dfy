/**
 * The slice of client-side routing the application relies on: locations that
 * may carry a redirect intent in their navigation state, the three kinds of
 * element a route component returns (spinner, `<Navigate>`, content), the
 * history stack that `navigate` pushes onto or replaces the top of, and the
 * post-login redirect target both login hooks compute.
 */
module Router {
  import opened Outcomes

  /** Where a successful login lands when no intent was carried. */
  const DefaultLanding: string := "/dashboard"
  /** The login entry point. */
  const LoginPath: string := "/login"

  /** A history entry: its path and the navigation state attached to it. */
  datatype Location = Location(pathname: string, state: Option<RedirectIntent>)

  /** Navigation state `{ from: location }` attached by a blocked navigation. */
  datatype RedirectIntent = RedirectIntent(from: Option<Location>)

  /** What a route component renders: a spinner, a `<Navigate>` element, or content. */
  datatype View<C> =
    | Spinner
    | Redirect(to: string, replace: bool, state: Option<RedirectIntent>)
    | Render(content: C)

  /** `location.state?.from?.pathname`: the path carried by the intent, if any. */
  function CarriedPath(location: Location): Option<string>
  {
    match location.state
    case Some(RedirectIntent(Some(from))) => Some(from.pathname)
    case _ => None
  }

  /**
   * `location.state?.from?.pathname || "/dashboard"`: the carried path when it
   * is present and non-empty (the only falsy string is the empty one),
   * otherwise the default landing page.
   */
  function RedirectTarget(location: Location): (target: string)
    ensures target != ""
    ensures CarriedPath(location).Some? && CarriedPath(location).value != "" ==>
              target == CarriedPath(location).value
    ensures CarriedPath(location).None? || CarriedPath(location).value == "" ==>
              target == DefaultLanding
  {
    match CarriedPath(location)
    case Some(path) => if path != "" then path else DefaultLanding
    case None => DefaultLanding
  }

  /** The history stack after `navigate(to, { replace, state })`. */
  function Navigated(entries: seq<Location>, to: string, replace: bool, state: Option<RedirectIntent>): (r: seq<Location>)
    requires entries != []
    ensures r != [] && r[|r| - 1] == Location(to, state)
    ensures |r| == if replace then |entries| else |entries| + 1
    ensures r[..|r| - 1] == if replace then entries[..|entries| - 1] else entries
  {
    if replace then entries[..|entries| - 1] + [Location(to, state)]
    else entries + [Location(to, state)]
  }

  /** The browser history the router drives; the last entry is the current location. */
  class History {
    var entries: seq<Location>

    ghost predicate Valid()
      reads this
    {
      entries != []
    }

    function Current(): Location
      reads this
      requires Valid()
    {
      entries[|entries| - 1]
    }

    constructor (start: Location)
      ensures Valid() && entries == [start]
    {
      entries := [start];
    }

    /** `navigate(to, { replace, state })`: push a new entry, or replace the current one. */
    method Navigate(to: string, replace: bool, state: Option<RedirectIntent>)
      requires Valid()
      modifies this`entries
      ensures Valid() && entries == Navigated(old(entries), to, replace, state)
      ensures Current() == Location(to, state)
    {
      if replace {
        entries := entries[..|entries| - 1] + [Location(to, state)];
      } else {
        entries := entries + [Location(to, state)];
      }
    }

    /** Rendering a view: a `<Navigate>` element navigates, anything else leaves history alone. */
    method Follow<C>(view: View<C>)
      requires Valid()
      modifies this`entries
      ensures Valid()
      ensures entries == if view.Redirect? then Navigated(old(entries), view.to, view.replace, view.state)
                         else old(entries)
    {
      if view.Redirect? {
        Navigate(view.to, view.replace, view.state);
      }
    }
  }
}
