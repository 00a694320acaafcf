/**
 * The routing engine (lib/proxy.js): option defaults, the path filter, the
 * split between first-contact requests (no "sid" query key) and bound ones,
 * the recording of a binding from a tracked response, and the unbinding of a
 * bound request whose forwarding failed.
 *
 * Forwarding itself is an outcome, Forward(target), not a byte relay. The
 * query string arrives already parsed into a map. The random draw, the
 * clock and the store's errors are parameters of each handler.
 */
module Routing {
  import opened Wrappers
  import opened KeyValue
  import Health
  import Bindings
  import SidMarker

  const DefaultPath: string := "/socket.io/"
  const DefaultCheckInterval: int := 2000
  const DefaultCheckTimeout: int := 1000
  const DefaultKeyPrefix: string := "socket.io#"
  const DefaultKeyExpiry: int := 60

  // ---------------------------------------------------------------------------
  // Options
  // ---------------------------------------------------------------------------

  /**
   * The options object a caller passes; None is an option left unset (for
   * redisClient a falsy one, for hosts a falsy or non-array one). The store
   * client is modelled by the contents of the store it reaches.
   */
  datatype UserOptions = UserOptions(
    redisClient: Option<Store>,
    hosts: Option<seq<string>>,
    path: Option<string>,
    checkInterval: Option<int>,
    checkTimeout: Option<int>,
    keyPrefix: Option<string>,
    keyExpiry: Option<int>)

  /** The options after defaults are filled in. */
  datatype Options = Options(
    redisClient: Store,
    hosts: seq<string>,
    path: string,
    checkInterval: int,
    checkTimeout: int,
    keyPrefix: string,
    keyExpiry: int)

  datatype ConfigError = MissingRedisClient | MissingHosts

  /**
   * The constructor's validation and defaulting: the store client is checked
   * first, then the host array; every option the caller set overrides its
   * default.
   */
  function Configure(user: UserOptions): (r: Result<Options, ConfigError>)
    ensures r.Ok? <==> user.redisClient.Some? && user.hosts.Some?
    ensures user.redisClient.None? ==> r == Err(MissingRedisClient)
    ensures user.redisClient.Some? && user.hosts.None? ==> r == Err(MissingHosts)
    ensures r.Ok? ==> r.value.redisClient == user.redisClient.value && r.value.hosts == user.hosts.value
  {
    if user.redisClient.None? then Err(MissingRedisClient)
    else if user.hosts.None? then Err(MissingHosts)
    else Ok(Options(
      user.redisClient.value,
      user.hosts.value,
      user.path.GetOr(DefaultPath),
      user.checkInterval.GetOr(DefaultCheckInterval),
      user.checkTimeout.GetOr(DefaultCheckTimeout),
      user.keyPrefix.GetOr(DefaultKeyPrefix),
      user.keyExpiry.GetOr(DefaultKeyExpiry)))
  }

  /** Each option left unset takes its default: "/socket.io/", 2000, 1000, "socket.io#" and 60. */
  lemma UnsetOptionsTakeDefaults(user: UserOptions)
    requires user.redisClient.Some? && user.hosts.Some?
    ensures user.path.None? ==> Configure(user).value.path == "/socket.io/"
    ensures user.checkInterval.None? ==> Configure(user).value.checkInterval == 2000
    ensures user.checkTimeout.None? ==> Configure(user).value.checkTimeout == 1000
    ensures user.keyPrefix.None? ==> Configure(user).value.keyPrefix == "socket.io#"
    ensures user.keyExpiry.None? ==> Configure(user).value.keyExpiry == 60
  {
  }

  /** Options the caller sets win over the defaults. */
  lemma CallerOptionsOverride(user: UserOptions)
    requires user.redisClient.Some? && user.hosts.Some?
    ensures user.path.Some? ==> Configure(user).value.path == user.path.value
    ensures user.checkInterval.Some? ==> Configure(user).value.checkInterval == user.checkInterval.value
    ensures user.checkTimeout.Some? ==> Configure(user).value.checkTimeout == user.checkTimeout.value
    ensures user.keyPrefix.Some? ==> Configure(user).value.keyPrefix == user.keyPrefix.value
    ensures user.keyExpiry.Some? ==> Configure(user).value.keyExpiry == user.keyExpiry.value
  {
  }

  // ---------------------------------------------------------------------------
  // The per-request decision
  // ---------------------------------------------------------------------------

  /**
   * What happens to a request: refused for its path, refused for want of a
   * live node, sent to a chosen node and tracked, or looked up by session id.
   */
  datatype Decision = BadPath | NoNode | Dispatch(host: string) | Lookup(sid: string)

  /**
   * The decision for a request with this url and query, when the monitor
   * would answer `picked`. The path filter comes first; then the mere
   * presence of the "sid" key, whatever its value, selects the bound path.
   */
  function Decide(path: string, url: string, query: map<string, string>, picked: Option<string>): (d: Decision)
    ensures d == BadPath <==> !(path <= url)
    ensures d.Lookup? <==> path <= url && "sid" in query
    ensures d.Lookup? ==> d.sid == query["sid"]
    ensures d == NoNode <==> path <= url && "sid" !in query && (picked.None? || picked.value == "")
    ensures d.Dispatch? <==> path <= url && "sid" !in query && picked.Some? && picked.value != ""
    ensures d.Dispatch? ==> picked == Some(d.host)
  {
    if !(path <= url) then BadPath
    else if "sid" !in query then
      match picked
      case None => NoNode
      case Some(host) => if host == "" then NoNode else Dispatch(host)
    else Lookup(query["sid"])
  }

  /**
   * A first-contact request on the routing path goes to the host of a node
   * that is UP. It is refused when no node is UP, or when the drawn node's
   * host string is empty (falsy); with non-empty host strings, it is refused
   * exactly when no node is UP.
   */
  lemma FirstContactGoesToLiveNode(nodes: seq<Health.Node>, path: string, url: string,
                                   query: map<string, string>, u: real)
    requires 0.0 <= u < 1.0
    requires path <= url && "sid" !in query
    ensures var d := Decide(path, url, query, Health.PickHost(nodes, u));
            && (d == NoNode <==> Health.NoneUp(nodes) || Health.PickHost(nodes, u) == Some(""))
            && (d.Dispatch? ==> exists j :: 0 <= j < |nodes| && nodes[j].state == Health.Up && nodes[j].host == d.host)
            && ((forall i :: 0 <= i < |nodes| ==> nodes[i].host != "") ==> (d == NoNode <==> Health.NoneUp(nodes)))
  {
  }

  /**
   * When a single node is UP, every first-contact request on the path goes
   * to it, unless its host string is empty, in which case every one is refused.
   */
  lemma {:induction false} FailoverToSoleLiveNode(nodes: seq<Health.Node>, j: nat, path: string, url: string,
                                                  query: map<string, string>, u: real)
    requires j < |nodes| && nodes[j].state == Health.Up
    requires forall i :: 0 <= i < |nodes| && i != j ==> nodes[i].state == Health.Down
    requires 0.0 <= u < 1.0
    requires path <= url && "sid" !in query
    ensures nodes[j].host != "" ==> Decide(path, url, query, Health.PickHost(nodes, u)) == Dispatch(nodes[j].host)
    ensures nodes[j].host == "" ==> Decide(path, url, query, Health.PickHost(nodes, u)) == NoNode
  {
    Health.OnlyLiveNode(nodes, j, u);
  }

  // ---------------------------------------------------------------------------
  // Requests and the proxy
  // ---------------------------------------------------------------------------

  /** Why getHost gave no host. */
  datatype HostError = NoNodeAvailable | BindingError(cause: Bindings.LookupError)

  /** What a handler does with a request: answer 400, or forward it to the target. */
  datatype Outcome = BadRequest | Forward(target: string)

  /** The concatenation of the response chunks, in order. */
  function Concat(chunks: seq<string>): string
    decreases |chunks|
  {
    if chunks == [] then "" else Concat(chunks[..|chunks| - 1]) + chunks[|chunks| - 1]
  }

  /**
   * An incoming request and the marks getHost leaves on it:
   * PROXY_TRACK_ID, PROXY_TARGET and PROXY_SID.
   */
  class Request {
    const url: string
    const query: map<string, string>
    var trackId: bool
    var target: Option<string>
    var sid: Option<string>

    /** A tracked request always names its target. */
    ghost predicate Valid()
      reads this
    {
      trackId ==> target.Some?
    }

    constructor (url: string, query: map<string, string>)
      ensures this.url == url && this.query == query
      ensures !trackId && target.None? && sid.None?
      ensures Valid()
    {
      this.url := url;
      this.query := query;
      trackId := false;
      target := None;
      sid := None;
    }
  }

  /** The proxy: its options, the health monitor and the binding repository. */
  class Proxy {
    const opts: Options
    const manager: Health.Manager
    const repository: Bindings.BindingRepository

    constructor (opts: Options)
      ensures this.opts == opts
      ensures fresh(manager) && fresh(repository)
      ensures manager.nodes == Health.ParseHosts(opts.hosts)
      ensures manager.checkInterval == opts.checkInterval && manager.checkTimeout == opts.checkTimeout
      ensures repository.keyPrefix == opts.keyPrefix && repository.keyExpiry == opts.keyExpiry
      ensures repository.store == opts.redisClient
    {
      this.opts := opts;
      manager := new Health.Manager(opts.hosts, opts.checkInterval, opts.checkTimeout);
      repository := new Bindings.BindingRepository(opts.keyPrefix, opts.keyExpiry, opts.redisClient);
    }

    /** new Proxy(options): refused without a store client or a host array, else built from the filled-in options. */
    static method Create(user: UserOptions) returns (r: Result<Proxy, ConfigError>)
      ensures Configure(user).Err? ==> r.Err? && r.error == Configure(user).error
      ensures Configure(user).Ok? ==>
                && r.Ok? && fresh(r.value) && fresh(r.value.manager) && fresh(r.value.repository)
                && r.value.opts == Configure(user).value
                && r.value.manager.nodes == Health.ParseHosts(r.value.opts.hosts)
                && r.value.repository.keyPrefix == r.value.opts.keyPrefix
                && r.value.repository.keyExpiry == r.value.opts.keyExpiry
                && r.value.repository.store == r.value.opts.redisClient
    {
      if user.redisClient.None? {
        return Err(MissingRedisClient);
      }
      if user.hosts.None? {
        return Err(MissingHosts);
      }
      var p := new Proxy(Configure(user).value);
      r := Ok(p);
    }

    /**
     * getHost: without a "sid" key, ask the monitor for a live host and mark
     * the request as tracked towards it; with one, record the session id and
     * answer whatever the repository's lookup answers.
     */
    method GetHost(req: Request, u: real, now: int, readError: Option<string>, expireFailed: bool)
      returns (r: Result<string, HostError>)
      requires 0.0 <= u < 1.0 && req.Valid()
      modifies req, repository
      ensures req.Valid()
      ensures "sid" !in req.query && Health.PickHost(manager.nodes, u) in {None, Some("")} ==>
                && r == Err(NoNodeAvailable)
                && unchanged(req) && repository.store == old(repository.store)
      ensures "sid" !in req.query && Health.PickHost(manager.nodes, u).Some? && Health.PickHost(manager.nodes, u) != Some("") ==>
                && r == Ok(Health.PickHost(manager.nodes, u).value)
                && req.trackId && req.target == Health.PickHost(manager.nodes, u) && req.sid == old(req.sid)
                && repository.store == old(repository.store)
      ensures "sid" in req.query ==>
                var key := Bindings.Key(repository.keyPrefix, req.query["sid"]);
                var found := Bindings.Lookup(old(repository.store), key, now, readError);
                && r == (if found.Ok? then Ok(found.value) else Err(BindingError(found.error)))
                && req.sid == Some(req.query["sid"])
                && req.trackId == old(req.trackId) && req.target == old(req.target)
                && repository.store == Bindings.AfterLookup(old(repository.store), key, repository.keyExpiry, now, readError, expireFailed)
    {
      if "sid" !in req.query {
        var host := manager.GetRandomHost(u);
        if host.None? || host.value == "" {
          return Err(NoNodeAvailable);
        }
        req.trackId := true;
        req.target := host;
        return Ok(host.value);
      }
      req.sid := Some(req.query["sid"]);
      var found := repository.FindBinding(req.query["sid"], now, readError, expireFailed);
      r := if found.Ok? then Ok(found.value) else Err(BindingError(found.error));
    }

    /** onRequest: an HTTP request, forwarded to "http://" + host. */
    method OnRequest(req: Request, u: real, now: int, readError: Option<string>, expireFailed: bool)
      returns (o: Outcome)
      requires 0.0 <= u < 1.0 && req.Valid()
      modifies req, repository
      ensures req.Valid()
      ensures match Decide(opts.path, req.url, req.query, Health.PickHost(manager.nodes, u))
              case BadPath =>
                o == BadRequest && unchanged(req) && repository.store == old(repository.store)
              case NoNode =>
                o == BadRequest && unchanged(req) && repository.store == old(repository.store)
              case Dispatch(host) =>
                && o == Forward("http://" + host)
                && req.trackId && req.target == Some(host) && req.sid == old(req.sid)
                && repository.store == old(repository.store)
              case Lookup(sid) =>
                var key := Bindings.Key(repository.keyPrefix, sid);
                var found := Bindings.Lookup(old(repository.store), key, now, readError);
                && o == (if found.Ok? then Forward("http://" + found.value) else BadRequest)
                && req.sid == Some(sid) && req.trackId == old(req.trackId) && req.target == old(req.target)
                && repository.store == Bindings.AfterLookup(old(repository.store), key, repository.keyExpiry, now, readError, expireFailed)
    {
      if !(opts.path <= req.url) {
        return BadRequest;
      }
      var host := GetHost(req, u, now, readError, expireFailed);
      if host.Err? {
        return BadRequest;
      }
      o := Forward("http://" + host.value);
    }

    /** onUpgrade: a WebSocket upgrade, forwarded to "ws://" + host. */
    method OnUpgrade(req: Request, u: real, now: int, readError: Option<string>, expireFailed: bool)
      returns (o: Outcome)
      requires 0.0 <= u < 1.0 && req.Valid()
      modifies req, repository
      ensures req.Valid()
      ensures match Decide(opts.path, req.url, req.query, Health.PickHost(manager.nodes, u))
              case BadPath =>
                o == BadRequest && unchanged(req) && repository.store == old(repository.store)
              case NoNode =>
                o == BadRequest && unchanged(req) && repository.store == old(repository.store)
              case Dispatch(host) =>
                && o == Forward("ws://" + host)
                && req.trackId && req.target == Some(host) && req.sid == old(req.sid)
                && repository.store == old(repository.store)
              case Lookup(sid) =>
                var key := Bindings.Key(repository.keyPrefix, sid);
                var found := Bindings.Lookup(old(repository.store), key, now, readError);
                && o == (if found.Ok? then Forward("ws://" + found.value) else BadRequest)
                && req.sid == Some(sid) && req.trackId == old(req.trackId) && req.target == old(req.target)
                && repository.store == Bindings.AfterLookup(old(repository.store), key, repository.keyExpiry, now, readError, expireFailed)
    {
      if !(opts.path <= req.url) {
        return BadRequest;
      }
      var host := GetHost(req, u, now, readError, expireFailed);
      if host.Err? {
        return BadRequest;
      }
      o := Forward("ws://" + host.value);
    }

    /**
     * onProxyRes: for a tracked request only, gather the whole body, and if it
     * holds a session marker bind that session to the request's target.
     */
    method OnProxyRes(req: Request, chunks: seq<string>, now: int, writeFailed: bool)
      requires req.Valid()
      modifies repository
      ensures !req.trackId ==> repository.store == old(repository.store)
      ensures req.trackId ==>
                match SidMarker.ExtractSid(Concat(chunks))
                case None => repository.store == old(repository.store)
                case Some(sid) =>
                  repository.store ==
                    if writeFailed then old(repository.store)
                    else SetEx(old(repository.store), Bindings.Key(repository.keyPrefix, sid),
                               req.target.value, repository.keyExpiry, now)
    {
      if !req.trackId {
        return;
      }
      var body := "";
      var i := 0;
      while i < |chunks|
        invariant 0 <= i <= |chunks|
        invariant body == Concat(chunks[..i])
      {
        assert chunks[..i + 1][..i] == chunks[..i];
        body := body + chunks[i];
        i := i + 1;
      }
      assert chunks[..|chunks|] == chunks;
      var sid := SidMarker.ExtractSid(body);
      if sid.None? {
        return;
      }
      repository.CreateBinding(sid.value, req.target.value, now, writeFailed);
    }

    /** onError: a forwarding error unbinds the request's session id, if it carried a non-empty one. */
    method OnError(req: Request, deleteFailed: bool)
      modifies repository
      ensures req.sid.Some? && req.sid.value != "" ==>
                repository.store ==
                  if deleteFailed then old(repository.store)
                  else Del(old(repository.store), Bindings.Key(repository.keyPrefix, req.sid.value))
      ensures req.sid.None? || req.sid.value == "" ==> repository.store == old(repository.store)
    {
      if req.sid.None? || req.sid.value == "" {
        return;
      }
      repository.DeleteBinding(req.sid.value, deleteFailed);
    }
  }
}
