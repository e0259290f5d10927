/**
  The canary router's per-request decision. Two backend targets, the stable
  (blue) pool and the canary (green) pool, are fixed at start-up from the
  environment. A request for the reserved introspection path is answered
  locally; every other request is forwarded verbatim to one of the two
  targets, chosen by comparing a uniform draw in [0, 100) with the
  configured canary percentage, and the backend's answer is relayed back.
 */
module CanaryRouter {
  import opened Options

  const BlueHost: string := "app-blue"
  const GreenHost: string := "app-green"
  const DefaultBluePort: int := 3001
  const DefaultGreenPort: int := 3002
  const DefaultListenPort: int := 3000
  const DefaultCanaryPercent: real := 10.0
  const HealthPath: string := "/router-health"

  /**
    A port setting as `process.env.X || default` leaves it: the default
    number, or the environment's string exactly as given (nothing parses or
    range-checks it).
   */
  datatype Port = DefaultPort(number: int) | EnvPort(raw: string)

  datatype Target = Target(host: string, port: Port)

  /**
    The environment variables the router reads. `canaryPercent` is the
    numeric value of CANARY_PERCENT when that variable is set to a non-empty
    string, and `None` otherwise.
   */
  datatype Environment = Environment(
    bluePort: Option<string>,
    greenPort: Option<string>,
    listenPort: Option<string>,
    canaryPercent: Option<real>)

  datatype Config = Config(blue: Target, green: Target, listen: Port, canaryPercent: real)

  /** The two pools: blue is stable, green is canary. */
  datatype Pool = Blue | Green

  /** One sample of `Math.random() * 100`. */
  type Draw = r: real | 0.0 <= r < 100.0

  /**
    Headers as Node's HTTP parser presents them (`req.headers`,
    `proxyRes.headers`): names lower-cased and repeated lines merged or
    dropped by Node's rules. "Unchanged" below means unchanged relative to
    this parsed form, not the raw header lines on the wire.
   */
  type Headers = map<string, seq<string>>
  type Bytes = seq<bv8>

  datatype Request = Request(verb: string, url: string, headers: Headers)

  /** The request the router sends to a backend. */
  datatype Outbound = Outbound(target: Target, verb: string, path: string, headers: Headers)

  /** The introspection answer's JSON fields. */
  datatype HealthBody = HealthBody(router: string, canaryPercent: real)

  datatype Decision =
    | Local(status: int, headers: Headers, body: HealthBody)
    | Forward(out: Outbound)

  /** What a backend answers to a forwarded request, its body already drained. */
  datatype BackendResponse = BackendResponse(status: int, headers: Headers, body: Bytes)

  datatype ResponseBody = HealthJson(health: HealthBody) | Relayed(bytes: Bytes)

  /** What the router writes back to its client. */
  datatype ClientResponse = ClientResponse(status: int, headers: Headers, body: ResponseBody)

  /** JavaScript's `value || default` for a port taken from the environment. */
  function PortOr(value: Option<string>, default: int): (p: Port)
    ensures p.DefaultPort? <==> value == None || value == Some("")
    ensures p.DefaultPort? ==> p.number == default
    ensures p.EnvPort? ==> value == Some(p.raw)
  {
    match value
    case Some(s) => if s == "" then DefaultPort(default) else EnvPort(s)
    case None => DefaultPort(default)
  }

  /** The constants BLUE, GREEN, LISTEN and CANARY_PERCENT, resolved once at start-up. */
  function LoadConfig(env: Environment): (c: Config)
    ensures c.blue.host == BlueHost && c.green.host == GreenHost
    ensures c.blue.port == PortOr(env.bluePort, DefaultBluePort)
    ensures c.green.port == PortOr(env.greenPort, DefaultGreenPort)
    ensures c.listen == PortOr(env.listenPort, DefaultListenPort)
    ensures env.canaryPercent.None? ==> c.canaryPercent == DefaultCanaryPercent
    ensures env.canaryPercent.Some? ==> c.canaryPercent == env.canaryPercent.value
  {
    Config(
      Target(BlueHost, PortOr(env.bluePort, DefaultBluePort)),
      Target(GreenHost, PortOr(env.greenPort, DefaultGreenPort)),
      PortOr(env.listenPort, DefaultListenPort),
      match env.canaryPercent
      case Some(p) => p
      case None => DefaultCanaryPercent)
  }

  /** The address of a pool: the BLUE or GREEN object `chooseTarget` hands back. */
  function TargetOf(c: Config, pool: Pool): (t: Target)
    ensures pool == Blue ==> t == c.blue
    ensures pool == Green ==> t == c.green
    ensures c.blue.host != c.green.host ==> (t.host == c.green.host <==> pool == Green)
  {
    match pool
    case Blue => c.blue
    case Green => c.green
  }

  /** `chooseTarget`: canary exactly when the draw is below the percentage. */
  function ChoosePool(percent: real, r: Draw): (pool: Pool)
    ensures pool == Green <==> r < percent
    ensures pool == Blue <==> percent <= r
  {
    if r < percent then Green else Blue
  }

  /** The request handler's branch between local introspection and forwarding. */
  function Dispatch(c: Config, req: Request, r: Draw): (d: Decision)
    ensures d.Local? <==> req.url == HealthPath
    ensures d.Local? ==> d.status == 200 && d.body == HealthBody("ok", c.canaryPercent)
    ensures d.Local? ==> d.headers == map["Content-Type" := ["application/json"]]
    ensures d.Forward? ==> d.out.target == TargetOf(c, ChoosePool(c.canaryPercent, r))
    ensures d.Forward? ==>
              d.out.verb == req.verb && d.out.path == req.url && d.out.headers == req.headers
  {
    if req.url == HealthPath then
      Local(200, map["Content-Type" := ["application/json"]], HealthBody("ok", c.canaryPercent))
    else
      Forward(Outbound(TargetOf(c, ChoosePool(c.canaryPercent, r)), req.verb, req.url, req.headers))
  }

  /**
    One whole exchange: the decision, then either the local answer or the
    backend's status, headers and body relayed as they came.
   */
  function Handle(c: Config, req: Request, r: Draw, backend: Outbound -> BackendResponse): (resp: ClientResponse)
    ensures req.url == HealthPath ==>
              resp == ClientResponse(200, map["Content-Type" := ["application/json"]],
                                     HealthJson(HealthBody("ok", c.canaryPercent)))
    ensures req.url != HealthPath ==>
              var b := backend(Outbound(TargetOf(c, ChoosePool(c.canaryPercent, r)),
                                        req.verb, req.url, req.headers));
              resp.status == b.status && resp.headers == b.headers && resp.body == Relayed(b.body)
  {
    match Dispatch(c, req, r)
    case Local(status, headers, body) => ClientResponse(status, headers, HealthJson(body))
    case Forward(out) =>
      var b := backend(out);
      ClientResponse(b.status, b.headers, Relayed(b.body))
  }

  /** With every variable unset the router uses app-blue:3001, app-green:3002, port 3000 and 10%. */
  lemma DefaultsWhenUnset()
    ensures LoadConfig(Environment(None, None, None, None)) ==
              Config(Target("app-blue", DefaultPort(3001)), Target("app-green", DefaultPort(3002)),
                     DefaultPort(3000), 10.0)
  {
  }

  /** A percentage of zero or less never selects the canary. */
  lemma NonPositivePercentAlwaysBlue(percent: real, r: Draw)
    requires percent <= 0.0
    ensures ChoosePool(percent, r) == Blue
  {
  }

  /** A percentage of 100 or more always selects the canary, because the draw stays below 100. */
  lemma FullPercentAlwaysGreen(percent: real, r: Draw)
    requires percent >= 100.0
    ensures ChoosePool(percent, r) == Green
  {
  }

  /** For a fixed draw, raising the percentage never takes a request away from the canary. */
  lemma ChoiceMonotone(p: real, p': real, r: Draw)
    requires p <= p'
    requires ChoosePool(p, r) == Green
    ensures ChoosePool(p', r) == Green
  {
  }

  /**
    With a configuration loaded from the environment the two targets differ,
    so a forwarded request goes to the canary host exactly when r < percent.
   */
  lemma ForwardedToCanaryIff(env: Environment, req: Request, r: Draw)
    requires req.url != HealthPath
    ensures (Dispatch(LoadConfig(env), req, r).out.target.host == GreenHost)
              <==> r < LoadConfig(env).canaryPercent
  {
  }

  /** The introspection answer depends neither on the draw nor on any backend. */
  lemma HealthNeverForwarded(c: Config, req: Request, r1: Draw, r2: Draw,
                             b1: Outbound -> BackendResponse, b2: Outbound -> BackendResponse)
    requires req.url == HealthPath
    ensures Dispatch(c, req, r1).Local?
    ensures Handle(c, req, r1, b1) == Handle(c, req, r2, b2)
  {
  }

  /** The match is exact: a query string after the reserved path makes the request forwarded. */
  lemma HealthPathWithQueryForwarded(c: Config, verb: string, headers: Headers, r: Draw)
    ensures Dispatch(c, Request(verb, "/router-health?x", headers), r).Forward?
  {
    assert "/router-health?x" != HealthPath by {
      assert |"/router-health?x"| != |HealthPath|;
    }
  }
}
