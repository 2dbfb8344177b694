/**
 * The HTTP API registered by `setupApi`: seven GET paths, each running at
 * most one state operation and then answering with the status document.
 */
module Api {
  import opened Wrappers
  import opened LoopModes
  import opened Status
  import Controller

  /** What a registered path does: report the status only, or run an operation first. */
  datatype Endpoint = Report | Act(op: Op)

  /** The seven registered paths. */
  const ApiPaths: set<string> :=
    {"/api/status", "/api/crossed", "/api/loopA", "/api/loopB", "/api/vertical", "/api/off", "/api/on"}

  /** The route table; an unregistered path is left to the web server (`None`). */
  function Route(path: string): (r: Option<Endpoint>)
    ensures r.Some? <==> path in ApiPaths
  {
    if path == "/api/status" then Some(Report)
    else if path == "/api/crossed" then Some(Act(SetMode(Crossed)))
    else if path == "/api/loopA" then Some(Act(SetMode(A)))
    else if path == "/api/loopB" then Some(Act(SetMode(B)))
    else if path == "/api/vertical" then Some(Act(SetMode(Vertical)))
    else if path == "/api/off" then Some(Act(Off))
    else if path == "/api/on" then Some(Act(On))
    else None
  }

  /** The path that reaches an endpoint: every endpoint has one. */
  function PathOf(e: Endpoint): (p: string)
    ensures p in ApiPaths && Route(p) == Some(e)
  {
    match e
    case Report => "/api/status"
    case Act(SetMode(A)) => "/api/loopA"
    case Act(SetMode(B)) => "/api/loopB"
    case Act(SetMode(Crossed)) => "/api/crossed"
    case Act(SetMode(Vertical)) => "/api/vertical"
    case Act(On) => "/api/on"
    case Act(Off) => "/api/off"
  }

  /** Each endpoint has exactly one path: the route table is one-to-one. */
  lemma RouteOneToOne(path: string)
    requires Route(path).Some?
    ensures PathOf(Route(path).value) == path
  {
  }

  /**
   * The new state and the response of one request. Exactly the registered
   * paths answer, each with the snapshot of the state after the request; an
   * action path runs its operation, while the status path and unregistered
   * paths leave the state unchanged.
   */
  function Respond(s: State, path: string): (r: (State, Option<Doc>))
    ensures r.1.Some? <==> path in ApiPaths
    ensures r.1.Some? ==> r.1.value == StatusOf(r.0)
    ensures path == "/api/status" || path !in ApiPaths ==> r.0 == s
    ensures Route(path).Some? && Route(path).value.Act? ==> r.0 == Apply(s, Route(path).value.op)
  {
    match Route(path)
    case None => (s, None)
    case Some(Report) => (s, Some(StatusOf(s)))
    case Some(Act(op)) => (Apply(s, op), Some(StatusOf(Apply(s, op))))
  }

  /** Repeating a request changes nothing more and returns the same document. */
  lemma RespondIdempotent(s: State, path: string)
    ensures Respond(Respond(s, path).0, path) == Respond(s, path)
  {
  }

  /** Every request keeps the invariant of the running controller. */
  lemma RespondKeepsInvariant(s: State, path: string)
    requires Invariant(s)
    ensures Invariant(Respond(s, path).0)
  {
  }

  /**
   * Boot, then GET /api/loopA, /api/on and /api/crossed: the documents report
   * the raw levels Relay1-3 are driven to and the power flag.
   */
  lemma BootLoopAOnCrossedScenario(s: State)
    ensures var s1 := Respond(Boot(s), "/api/loopA");
      && s1.1 == Some([("D0", "false"), ("D1", "true"), ("D2", "true"), ("D3", "false"),
                       ("power", "false"), ("mode", "A")])
      && var s2 := Respond(s1.0, "/api/on");
      && s2.1 == Some([("D0", "false"), ("D1", "true"), ("D2", "true"), ("D3", "true"),
                       ("power", "true"), ("mode", "A")])
      && var s3 := Respond(s2.0, "/api/crossed");
      && s3.1 == Some([("D0", "false"), ("D1", "false"), ("D2", "true"), ("D3", "true"),
                       ("power", "true"), ("mode", "Crossed")])
  {
  }

  /** A request handler registered by `setupApi`: the operation, then `getStatus`. */
  method Serve(c: Controller.LoopController, path: string) returns (response: Option<Doc>)
    requires c.Valid()
    modifies c.pins, c.activeMode, c`power
    ensures (c.Current(), response) == Respond(old(c.Current()), path)
  {
    match Route(path)
    case None =>
      response := None;
    case Some(Report) =>
      var doc := c.GetStatus();
      response := Some(doc);
    case Some(Act(op)) =>
      match op {
        case SetMode(A) => c.LoopA();
        case SetMode(B) => c.LoopB();
        case SetMode(Crossed) => c.Crossed();
        case SetMode(Vertical) => c.Vertical();
        case On => c.On();
        case Off => c.Off();
      }
      var doc := c.GetStatus();
      response := Some(doc);
  }
}
