/**
 The proxy's route table and its dispatch order.
 */
module Routes {
  import opened Basics

  type Table = map<string, Port>

  const ADMIN_PREFIX := "/admin"

  /** The path is the panel's or lies under it. */
  predicate IsAdminPath(path: string) {
    path == ADMIN_PREFIX || ADMIN_PREFIX + "/" <= path
  }

  /** `q` is the longest routed prefix of `path`. */
  ghost predicate Longest(routes: Table, path: string, q: string) {
    && q in routes && q <= path
    && forall r :: r in routes && r <= path ==> |r| <= |q|
  }

  lemma LongestIsUnique(routes: Table, path: string, q: string, r: string)
    requires Longest(routes, path, q) && Longest(routes, path, r)
    ensures q == r
  {
  }

  /** The port of the longest routed prefix, if any prefix is routed. */
  ghost function Resolved(routes: Table, path: string): Option<Port> {
    if exists q :: Longest(routes, path, q) then var q :| Longest(routes, path, q); Some(routes[q]) else None
  }

  lemma ResolvedIs(routes: Table, path: string, q: string)
    requires Longest(routes, path, q)
    ensures Resolved(routes, path) == Some(routes[q])
  {
    forall r | Longest(routes, path, r) ensures r == q {
      LongestIsUnique(routes, path, q, r);
    }
  }

  /** A path that is itself routed resolves to its own port: the shortcut of the lookup agrees
      with the search. */
  lemma ExactMatch(routes: Table, path: string)
    requires path in routes
    ensures Resolved(routes, path) == Some(routes[path])
  {
    assert Longest(routes, path, path);
    ResolvedIs(routes, path, path);
  }

  /** Nothing resolves exactly when no prefix of the path is routed. */
  lemma {:induction false} ResolvesIff(routes: Table, path: string)
    ensures Resolved(routes, path).Some? <==> exists q :: q in routes && q <= path
  {
    if q :| q in routes && q <= path {
      var best := LongestOf(routes, path, routes.Keys, q);
      ResolvedIs(routes, path, best);
    }
  }

  lemma {:induction false} LongestOf(routes: Table, path: string, rest: set<string>, best: string) returns (q: string)
    requires rest <= routes.Keys && best in routes && best <= path
    requires forall r :: r in routes && r !in rest && r <= path ==> |r| <= |best|
    ensures Longest(routes, path, q)
    decreases rest
  {
    if rest == {} {
      q := best;
    } else {
      var r :| r in rest;
      q := LongestOf(routes, path, rest - {r}, if r <= path && |r| > |best| then r else best);
    }
  }

  datatype SetError = Reserved(path: string) | InUse(path: string)

  function WithoutPort(routes: Table, port: Port): Table {
    map q | q in routes && routes[q] != port :: routes[q]
  }

  class RouteTable {
    var routes: Table

    constructor ()
      ensures routes == map[]
    {
      routes := map[];
    }

    /** Adds a route; reserved and taken paths are refused and change nothing. */
    method Set(path: string, port: Port) returns (r: Result<(), SetError>)
      modifies this
      ensures r == if IsAdminPath(path) then Err(Reserved(path))
                   else if path in old(routes) then Err(InUse(path)) else Ok(())
      ensures routes == if r.Ok? then old(routes)[path := port] else old(routes)
    {
      if IsAdminPath(path) {
        return Err(Reserved(path));
      }
      if path in routes {
        return Err(InUse(path));
      }
      routes := routes[path := port];
      r := Ok(());
    }

    method RemoveByPort(port: Port)
      modifies this
      ensures routes == WithoutPort(old(routes), port)
    {
      routes := map q | q in routes && routes[q] != port :: routes[q];
    }

    /** Longest-prefix lookup.  The table is visited in an arbitrary order, and the answer
        does not depend on it. */
    method Resolve(path: string) returns (r: Option<Port>)
      ensures r == Resolved(routes, path)
    {
      if path in routes {
        ExactMatch(routes, path);
        return Some(routes[path]);
      }
      var best: Option<(string, Port)> := None;
      var rest := routes.Keys;
      while rest != {}
        invariant rest <= routes.Keys
        invariant best.None? ==> forall q :: q in routes && q !in rest ==> !(q <= path)
        invariant best.Some? ==> best.value.0 in routes && best.value.0 <= path && best.value.1 == routes[best.value.0]
        invariant best.Some? ==> forall q :: q in routes && q !in rest && q <= path ==> |q| <= |best.value.0|
        decreases rest
      {
        var route :| route in rest;
        rest := rest - {route};
        if route <= path {
          match best
          case Some(existing) =>
            if |route| > |existing.0| {
              best := Some((route, routes[route]));
            }
          case None =>
            best := Some((route, routes[route]));
        }
      }
      match best
      case None =>
        r := None;
      case Some(found) =>
        ResolvedIs(routes, path, found.0);
        r := Some(found.1);
    }
  }

  // ---- Dispatch ----

  datatype Peer = Panel | Tunnel(port: Port) | NotFound

  /** Where a request goes: wrong host, then the panel, then the routes. */
  ghost function Dispatch(domain: Option<string>, host: string, path: string, routes: Table): Peer {
    if domain.Some? && host != domain.value then NotFound
    else if IsAdminPath(path) then Panel
    else match Resolved(routes, path) case Some(port) => Tunnel(port) case None => NotFound
  }

  /** Exactly "/admin" and what starts with "/admin/" is reserved. */
  lemma ReservedIff(path: string)
    ensures IsAdminPath(path) <==> path == "/admin" || (|path| >= 7 && path[..7] == "/admin/")
  {
  }

  /** A request for the right host outside the panel goes to the port of its longest routed prefix. */
  lemma DispatchIsLongest(domain: Option<string>, host: string, path: string, routes: Table, q: string)
    requires domain.None? || host == domain.value
    requires !(path == "/admin" || "/admin/" <= path) && Longest(routes, path, q)
    ensures Dispatch(domain, host, path, routes) == Tunnel(routes[q])
  {
    ResolvedIs(routes, path, q);
  }

  /** A request for another host than the configured one is not found, whatever its path. */
  lemma WrongHostIsNotFound(domain: string, host: string, path: string, routes: Table)
    requires host != domain
    ensures Dispatch(Some(domain), host, path, routes) == NotFound
  {
  }

  /** No route, however long, ever takes a request away from the panel, and a request for the
      right host reaches a tunnel exactly when it is outside the panel and some prefix of it is
      routed. */
  lemma PanelIsSafe(domain: Option<string>, host: string, path: string, routes: Table)
    requires domain.Some? ==> host == domain.value
    ensures Dispatch(domain, host, path, routes) == Panel <==> IsAdminPath(path)
    ensures Dispatch(domain, host, path, routes).Tunnel? <==>
      !IsAdminPath(path) && exists q :: q in routes && q <= path
  {
    ResolvesIff(routes, path);
  }
}
