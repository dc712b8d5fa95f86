/** The conformance script's route check: can a flow get from one vertex to another without
    passing a blocked one, and does every route therefore pass through a required role. */
module RouteCheck {
  datatype Edge = Edge(source: string, target: string, flow: string)

  datatype Vertex = Vertex(id: string, roles: set<string>)

  predicate Step(edges: seq<Edge>, flow: string, a: string, b: string) {
    exists e :: e in edges && e.source == a && e.target == b && e.flow == flow
  }

  /** A walk along edges of one flow that touches no blocked vertex, ends included. */
  predicate Walk(edges: seq<Edge>, flow: string, blocked: set<string>, path: seq<string>) {
    && path != []
    && (forall i | 0 <= i < |path| :: path[i] !in blocked)
    && (forall i | 0 < i < |path| :: Step(edges, flow, path[i - 1], path[i]))
  }

  ghost predicate Connected(edges: seq<Edge>, start: string, end: string, flow: string, blocked: set<string>) {
    exists path :: Walk(edges, flow, blocked, path) && path[0] == start && path[|path| - 1] == end
  }

  /** The targets a vertex is extended by, in edge order. */
  function Targets(edges: seq<Edge>, flow: string, node: string): (targets: seq<string>)
    ensures forall t :: t in targets <==> Step(edges, flow, node, t)
    ensures |targets| <= |edges|
  {
    if edges == [] then []
    else
      var rest := Targets(edges[1..], flow, node);
      assert edges == [edges[0]] + edges[1..];
      if edges[0].source == node && edges[0].flow == flow then [edges[0].target] + rest else rest
  }

  function Vertices(edges: seq<Edge>): set<string> {
    set e | e in edges :: e.target
  }

  lemma StepStaysInside(edges: seq<Edge>, flow: string, a: string, b: string)
    requires Step(edges, flow, a, b)
    ensures b in Vertices(edges)
  {
  }

  lemma ExtendWalk(edges: seq<Edge>, start: string, flow: string, blocked: set<string>, a: string, b: string)
    requires Connected(edges, start, a, flow, blocked) && Step(edges, flow, a, b) && b !in blocked
    ensures Connected(edges, start, b, flow, blocked)
  {
    var path :| Walk(edges, flow, blocked, path) && path[0] == start && path[|path| - 1] == a;
    var longer := path + [b];
    assert Walk(edges, flow, blocked, longer);
  }

  /** Where the search stands: everything expanded is reachable, and whatever an expanded vertex
      leads to is expanded, blocked or still waiting. */
  ghost predicate Frontier(edges: seq<Edge>, start: string, end: string, flow: string, blocked: set<string>,
                           seen: set<string>, pending: seq<string>) {
    && (forall n | n in seen && n !in blocked :: n != end && Connected(edges, start, n, flow, blocked))
    && (forall n | n in pending && n !in blocked :: Connected(edges, start, n, flow, blocked))
    && (start in seen || start in pending)
    && (forall n, t | n in seen && n !in blocked && Step(edges, flow, n, t) :: t in seen || t in pending)
  }

  /** With nothing left to expand, no walk leaves the expanded vertices. */
  lemma {:induction false} WalksStaySeen(edges: seq<Edge>, start: string, end: string, flow: string,
                                         blocked: set<string>, seen: set<string>, path: seq<string>)
    requires Frontier(edges, start, end, flow, blocked, seen, [])
    requires Walk(edges, flow, blocked, path) && path[0] == start
    ensures path[|path| - 1] in seen && path[|path| - 1] != end
  {
    if |path| > 1 {
      var n := |path| - 1;
      var front := path[..n];
      assert Walk(edges, flow, blocked, front);
      WalksStaySeen(edges, start, end, flow, blocked, seen, front);
      assert Step(edges, flow, path[n - 1], path[n]);
    }
  }

  lemma ExpandKeepsFrontier(edges: seq<Edge>, start: string, end: string, flow: string, blocked: set<string>,
                            seen: set<string>, rest: seq<string>, node: string)
    requires Frontier(edges, start, end, flow, blocked, seen, rest + [node]) && blocked <= seen
    requires node !in seen && node != end
    ensures Frontier(edges, start, end, flow, blocked, seen + {node}, rest + Targets(edges, flow, node))
  {
    var targets := Targets(edges, flow, node);
    assert node in rest + [node];
    forall n | n in rest + targets && n !in blocked ensures Connected(edges, start, n, flow, blocked) {
      if n in targets {
        ExtendWalk(edges, start, flow, blocked, node, n);
      } else {
        assert n in rest + [node];
      }
    }
    forall n, t | n in seen + {node} && n !in blocked && Step(edges, flow, n, t)
      ensures t in seen + {node} || t in rest + targets
    {
      if n != node {
        assert t in seen || t in rest + [node];
      }
    }
  }

  /** The search is exact, and it ends: each round either expands a vertex or shortens the list. */
  method Reachable(edges: seq<Edge>, start: string, end: string, flow: string, blocked: set<string>)
    returns (found: bool)
    ensures found <==> Connected(edges, start, end, flow, blocked)
  {
    var pending := [start];
    var seen := blocked;
    ghost var vertices := Vertices(edges) + {start};
    assert Walk(edges, flow, blocked, [start]) || start in blocked;
    while pending != []
      invariant blocked <= seen
      invariant forall n | n in pending :: n in vertices
      invariant Frontier(edges, start, end, flow, blocked, seen, pending)
      decreases vertices - seen, |pending|
    {
      var node := pending[|pending| - 1];
      ghost var before := pending;
      pending := pending[..|pending| - 1];
      assert before == pending + [node] && node in before;
      if node in seen {
        continue;
      }
      if node == end {
        return true;
      }
      ExpandKeepsFrontier(edges, start, end, flow, blocked, seen, pending, node);
      assert node in vertices - seen;
      seen := seen + {node};
      var targets := Targets(edges, flow, node);
      forall t | t in targets ensures t in vertices {
        StepStaysInside(edges, flow, node, t);
      }
      pending := pending + targets;
    }
    forall path | Walk(edges, flow, blocked, path) && path[0] == start ensures path[|path| - 1] != end {
      WalksStaySeen(edges, start, end, flow, blocked, seen, path);
    }
    found := false;
  }

  // ----- required routes -----

  datatype Route = Route(source: string, target: string, flow: string, roles: seq<string>)

  function Holders(vertices: seq<Vertex>, role: string): set<string> {
    set v | v in vertices && role in v.roles :: v.id
  }

  predicate Known(vertices: seq<Vertex>, id: string) {
    exists v :: v in vertices && v.id == id
  }

  /** Every walk of the flow from source to target touches a vertex that holds the role. */
  ghost predicate Guarded(vertices: seq<Vertex>, edges: seq<Edge>, route: Route, role: string) {
    forall path | Walk(edges, route.flow, {}, path) && path[0] == route.source && path[|path| - 1] == route.target ::
      exists i :: 0 <= i < |path| && path[i] in Holders(vertices, role)
  }

  datatype Finding = Absent | Bypass(role: string)

  /** Blocking a role's holders leaves a walk exactly when some walk avoids them all. */
  lemma GuardedMeansBlocked(vertices: seq<Vertex>, edges: seq<Edge>, route: Route, role: string)
    ensures Guarded(vertices, edges, route, role) <==>
            !Connected(edges, route.source, route.target, route.flow, Holders(vertices, role))
  {
    var holders := Holders(vertices, role);
    forall path | Walk(edges, route.flow, {}, path) && forall i | 0 <= i < |path| :: path[i] !in holders
      ensures Walk(edges, route.flow, holders, path)
    {
    }
    if Connected(edges, route.source, route.target, route.flow, holders) {
      var path :| Walk(edges, route.flow, holders, path) && path[0] == route.source
                  && path[|path| - 1] == route.target;
      assert Walk(edges, route.flow, {}, path);
    }
  }

  /** A required route has no findings exactly when both ends exist, some walk joins them and every
      walk passes through every required role; the findings name exactly the roles bypassed. */
  method CheckRoute(vertices: seq<Vertex>, edges: seq<Edge>, route: Route) returns (findings: seq<Finding>)
    ensures Absent in findings <==>
            !(Known(vertices, route.source) && Known(vertices, route.target)
              && Connected(edges, route.source, route.target, route.flow, {}))
    ensures Absent in findings ==> findings == [Absent]
    ensures Absent !in findings ==>
              forall role :: Bypass(role) in findings <==>
                role in route.roles && !Guarded(vertices, edges, route, role)
    ensures findings == [] <==>
            && Known(vertices, route.source) && Known(vertices, route.target)
            && Connected(edges, route.source, route.target, route.flow, {})
            && forall role | role in route.roles :: Guarded(vertices, edges, route, role)
  {
    findings := [];
    var joined := Reachable(edges, route.source, route.target, route.flow, {});
    if !Known(vertices, route.source) || !Known(vertices, route.target) || !joined {
      return [Absent];
    }
    for i := 0 to |route.roles|
      invariant Absent !in findings
      invariant forall role :: Bypass(role) in findings <==>
                  role in route.roles[..i] && !Guarded(vertices, edges, route, role)
    {
      var role := route.roles[i];
      var open := Reachable(edges, route.source, route.target, route.flow, Holders(vertices, role));
      GuardedMeansBlocked(vertices, edges, route, role);
      if open {
        findings := findings + [Bypass(role)];
      }
      assert route.roles[..i + 1] == route.roles[..i] + [role];
    }
    assert route.roles[..|route.roles|] == route.roles;
    assert forall f | f in findings :: f.Bypass?;
    assert findings != [] ==> findings[0] in findings;
  }
}
