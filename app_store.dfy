/** The `app` store: which routes may be visited without being signed in. */
module App {
  import opened Wrappers

  /** The parts of the current route the store can see. */
  datatype Route = Route(path: string, name: Option<string>, fullPath: string, query: map<string, string>)

  const PublicRoutes: seq<string> := ["/login", "/register", "/welcome", "/password"]

  /** `publicRoutes.includes(route.path) || route.name === 'NotFound'`. */
  function IsPublicRoute(route: Route): (public: bool)
    ensures route.name == Some("NotFound") ==> public
    ensures public && route.name != Some("NotFound") ==>
              route.path == "/login" || route.path == "/register" || route.path == "/welcome" || route.path == "/password"
  {
    route.path in PublicRoutes || route.name == Some("NotFound")
  }

  /** Each of the four listed paths is public under any name. */
  lemma ListedPathsArePublic(name: Option<string>, fullPath: string, query: map<string, string>)
    ensures IsPublicRoute(Route("/login", name, fullPath, query))
    ensures IsPublicRoute(Route("/register", name, fullPath, query))
    ensures IsPublicRoute(Route("/welcome", name, fullPath, query))
    ensures IsPublicRoute(Route("/password", name, fullPath, query))
  {
  }

  /** Membership is exact: a trailing slash or a sub-path of a listed path is not public. */
  lemma ExactPathsOnly(name: Option<string>, fullPath: string, query: map<string, string>)
    requires name != Some("NotFound")
    ensures !IsPublicRoute(Route("/login/", name, fullPath, query))
    ensures !IsPublicRoute(Route("/welcome/x", name, fullPath, query))
  {
  }

  /** The answer depends on the path and the name alone. */
  lemma OnlyPathAndNameMatter(r1: Route, r2: Route)
    requires r1.path == r2.path && r1.name == r2.name
    ensures IsPublicRoute(r1) == IsPublicRoute(r2)
  {
  }
}
