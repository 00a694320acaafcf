/**
 * Whole exchanges stated as verified client code: what a caller can conclude
 * about them from the handlers' contracts alone, without looking inside.
 */
module Scenarios {
  import opened Wrappers
  import Health
  import Bindings
  import SidMarker
  import opened Routing

  /** A proxy with default options over nodes A and B and an empty store. */
  method TwoNodeProxy() returns (p: Proxy)
    ensures fresh(p) && fresh(p.manager) && fresh(p.repository)
    ensures p.opts.path == "/socket.io/" && p.repository.keyPrefix == "socket.io#" && p.repository.keyExpiry == 60
    ensures p.repository.store == map[]
    ensures p.manager.nodes == Health.ParseHosts(["A:1", "B:2"])
  {
    var user := UserOptions(Some(map[]), Some(["A:1", "B:2"]), None, None, None, None, None);
    UnsetOptionsTakeDefaults(user);
    var r := Proxy.Create(user);
    p := r.value;
  }

  /** With both nodes UP, the draw 0 selects node A. */
  lemma BothUpDrawZero(nodes: seq<Health.Node>)
    requires nodes == Health.AfterRound(Health.ParseHosts(["A:1", "B:2"]), [true, true])
    ensures Health.PickHost(nodes, 0.0) == Some("A:1")
  {
    assert nodes[0].host == "A:1" && nodes[0].state == Health.Up;
    assert nodes[1].state == Health.Up;
    assert Health.UpNodes(nodes) == nodes;
    assert Health.ScaledIndex(0.0, 2) == 0;
  }

  /** A polling handshake body announcing session "abc-123". */
  function Handshake(): string {
    SidMarker.Embed("0{", "abc-123", ",\"upgrades\":[\"websocket\"]}")
  }

  /** The handshake, received as one chunk, names session "abc-123". */
  lemma HandshakeNamesSession()
    ensures SidMarker.ExtractSid(Concat([Handshake()])) == Some("abc-123")
  {
    SidMarker.ExtractEmbedded("0{", "abc-123", ",\"upgrades\":[\"websocket\"]}");
    assert Concat([Handshake()]) == Handshake();
  }

  /** First contact with both nodes UP: the draw 0 sends a session-less request to A and tracks it. */
  method FirstContactToA() returns (p: Proxy, first: Request)
    ensures fresh(p) && fresh(p.repository) && fresh(first)
    ensures p.opts.path == "/socket.io/" && p.repository.keyPrefix == "socket.io#" && p.repository.keyExpiry == 60
    ensures p.repository.store == map[]
    ensures first.Valid() && first.trackId && first.target == Some("A:1")
  {
    p := TwoNodeProxy();
    p.manager.HealthCheck([true, true]);
    BothUpDrawZero(p.manager.nodes);
    first := new Request("/socket.io/?EIO=3&transport=polling", map["EIO" := "3", "transport" := "polling"]);
    var o := p.OnRequest(first, 0.0, 0, None, false);
    assert o == Forward("http://A:1");
  }

  /**
   * Binding creation: a response to a request tracked towards A whose body
   * names session "abc-123" (such as the handshake, by HandshakeNamesSession)
   * binds it, and a later request with that sid is forwarded to A again.
   */
  method BindingCreation(chunks: seq<string>)
    requires SidMarker.ExtractSid(Concat(chunks)) == Some("abc-123")
  {
    var p, first := FirstContactToA();
    p.OnProxyRes(first, chunks, 1, false);
    Bindings.CreateThenFind(map[], Bindings.Key("socket.io#", "abc-123"), "A:1", 60, 1, 2);

    var next := new Request("/socket.io/?EIO=3&transport=polling&sid=abc-123",
                            map["EIO" := "3", "transport" := "polling", "sid" := "abc-123"]);
    var o := p.OnRequest(next, 0.9, 2, None, false);
    assert o == Forward("http://A:1");
  }

  /** Unknown session: a request carrying sid=zzz-999 that was never bound is refused. */
  method UnknownSession() {
    var p := TwoNodeProxy();
    p.manager.HealthCheck([true, true]);
    var req := new Request("/socket.io/?sid=zzz-999", map["sid" := "zzz-999"]);
    var o := p.OnRequest(req, 0.5, 0, None, false);
    assert o == BadRequest;
    assert req.sid == Some("zzz-999") && !req.trackId;
  }

  /** Failover: A fails its next probe; every session-less request then goes to B. */
  method FailoverAfterNodeDeath(u: real)
    requires 0.0 <= u < 1.0
  {
    var p := TwoNodeProxy();
    p.manager.HealthCheck([true, true]);
    p.manager.OnProbe(0, false);
    Health.OnlyLiveNode(p.manager.nodes, 1, u);
    var req := new Request("/socket.io/", map[]);
    var o := p.OnUpgrade(req, u, 0, None, false);
    assert o == Forward("ws://B:2");
  }

  /** Eager unbind: a forwarding error on a bound request drops its binding. */
  method EagerUnbind() {
    var p := TwoNodeProxy();
    p.repository.CreateBinding("s1", "A:1", 0, false);
    var req := new Request("/socket.io/?sid=s1", map["sid" := "s1"]);
    var o := p.OnRequest(req, 0.0, 1, None, false);
    assert o == Forward("http://A:1");
    p.OnError(req, false);
    var again := new Request("/socket.io/?sid=s1", map["sid" := "s1"]);
    o := p.OnRequest(again, 0.0, 2, None, false);
    assert o == BadRequest;
  }

  /** A path outside the prefix is refused before any routing. */
  method OutsidePath() {
    var p := TwoNodeProxy();
    p.manager.HealthCheck([true, true]);
    var req := new Request("/other/?sid=s1", map["sid" := "s1"]);
    assert !(p.opts.path <= req.url) by {
      assert req.url[1] != p.opts.path[1];
    }
    var o := p.OnRequest(req, 0.0, 0, None, false);
    assert o == BadRequest && req.sid.None?;
  }
}
