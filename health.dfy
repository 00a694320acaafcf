/**
 * The node health monitor (lib/manager.js): the configured backend nodes,
 * their UP/DOWN state as set by health probes, and the choice of a live node
 * for a first-contact request.
 *
 * A probe completion is an input event (node index, whether the node
 * answered); the random number the source draws with Math.random is a
 * parameter `u` with 0 <= u < 1.
 */
module Health {
  import opened Wrappers

  datatype State = Up | Down

  /** One backend node: the configured string, its two ':'-separated fields and its state. */
  datatype Node = Node(host: string, hostname: string, port: Option<string>, state: State)

  // ---------------------------------------------------------------------------
  // Parsing "hostname:port" strings
  // ---------------------------------------------------------------------------

  /** String.prototype.split with a one-character separator: the fields between separators. */
  function Split(s: string, sep: char): (r: seq<string>)
    ensures |r| >= 1
    ensures forall k :: 0 <= k < |r| ==> sep !in r[k]
    decreases |s|
  {
    if |s| == 0 then [""]
    else
      var rest := Split(s[1..], sep);
      if s[0] == sep then [""] + rest
      else [[s[0]] + rest[0]] + rest[1..]
  }

  /** Array.prototype.join with a one-character separator. */
  function Join(parts: seq<string>, sep: char): string
    requires |parts| >= 1
    decreases |parts|
  {
    if |parts| == 1 then parts[0] else parts[0] + [sep] + Join(parts[1..], sep)
  }

  /** Joining the fields back together gives the original string: splitting loses nothing. */
  lemma {:induction false} JoinSplit(s: string, sep: char)
    ensures Join(Split(s, sep), sep) == s
    decreases |s|
  {
    if |s| > 0 {
      JoinSplit(s[1..], sep);
      var rest := Split(s[1..], sep);
      if s[0] == sep {
        assert Split(s, sep)[1..] == rest;
      } else if |rest| == 1 {
        assert Split(s, sep) == [[s[0]] + rest[0]];
      } else {
        var r := Split(s, sep);
        assert r[1..] == rest[1..];
        calc {
          Join(r, sep);
          r[0] + [sep] + Join(rest[1..], sep);
          [s[0]] + (rest[0] + [sep] + Join(rest[1..], sep));
          [s[0]] + Join(rest, sep);
          s;
        }
      }
    }
  }

  /** Splitting a separator-free field followed by more text extends the first field. */
  lemma {:induction false} SplitPrepend(a: string, t: string, sep: char)
    requires sep !in a
    ensures Split(a + t, sep) == [a + Split(t, sep)[0]] + Split(t, sep)[1..]
    decreases |a|
  {
    if |a| > 0 {
      assert (a + t)[0] == a[0] && (a + t)[1..] == a[1..] + t;
      SplitPrepend(a[1..], t, sep);
      var rest := Split(a[1..] + t, sep);
      assert Split(a + t, sep) == [[a[0]] + rest[0]] + rest[1..];
      assert [a[0]] + (a[1..] + Split(t, sep)[0]) == a + Split(t, sep)[0];
    } else {
      var r := Split(t, sep);
      assert a == [];
      assert a + t == t && a + r[0] == r[0] && r == [r[0]] + r[1..];
    }
  }

  /** Splitting a join of separator-free fields gives the fields back. */
  lemma {:induction false} SplitJoin(parts: seq<string>, sep: char)
    requires |parts| >= 1
    requires forall k :: 0 <= k < |parts| ==> sep !in parts[k]
    ensures Split(Join(parts, sep), sep) == parts
    decreases |parts|
  {
    if |parts| == 1 {
      SplitPrepend(parts[0], "", sep);
      assert parts[0] + "" == parts[0];
    } else {
      var tail := Join(parts[1..], sep);
      SplitJoin(parts[1..], sep);
      assert Join(parts, sep) == parts[0] + ([sep] + tail);
      SplitPrepend(parts[0], [sep] + tail, sep);
      assert ([sep] + tail)[1..] == tail;
      assert Split([sep] + tail, sep) == [""] + parts[1..];
      assert parts[0] + "" == parts[0];
    }
  }

  /** The first field is the text before the first separator (all of s when it has none). */
  lemma {:induction false} FirstField(s: string, sep: char)
    ensures Split(s, sep)[0] <= s
    ensures |Split(s, sep)[0]| < |s| ==> s[|Split(s, sep)[0]|] == sep
    ensures |Split(s, sep)| > 1 <==> sep in s
    decreases |s|
  {
    if |s| > 0 {
      FirstField(s[1..], sep);
    }
  }

  /** Past the first separator, the fields are those of the remaining text. */
  lemma SplitAtFirst(s: string, sep: char)
    requires sep in s
    ensures |Split(s, sep)[0]| < |s|
    ensures Split(s, sep)[1..] == Split(s[|Split(s, sep)[0]| + 1..], sep)
  {
    FirstField(s, sep);
    var f := Split(s, sep)[0];
    var rest := s[|f| + 1..];
    assert s == f + ([sep] + rest);
    SplitPrepend(f, [sep] + rest, sep);
    assert ([sep] + rest)[1..] == rest;
  }

  /** The second field is the text between the first separator and the next one (or the end). */
  lemma SecondField(s: string, sep: char)
    ensures |Split(s, sep)| > 1 ==>
              var start := |Split(s, sep)[0]| + 1;
              var f := Split(s, sep)[1];
              && start <= |s| && f <= s[start..]
              && (start + |f| < |s| ==> s[start + |f|] == sep)
  {
    FirstField(s, sep);
    if sep in s {
      SplitAtFirst(s, sep);
      FirstField(s[|Split(s, sep)[0]| + 1..], sep);
    }
  }

  /**
   * A node as the constructor builds it from one configured host string:
   * hostname is the text before the first ':', port the text between the
   * first ':' and the next one (or the end), absent when there is no ':'.
   */
  function ParseNode(host: string): (n: Node)
    ensures n.host == host && n.state == Down
    ensures n.hostname <= host && ':' !in n.hostname
    ensures |n.hostname| < |host| ==> host[|n.hostname|] == ':'
    ensures n.port.Some? <==> ':' in host
    ensures n.port.Some? ==>
              var start := |n.hostname| + 1;
              && ':' !in n.port.value
              && n.port.value <= host[start..]
              && (start + |n.port.value| < |host| ==> host[start + |n.port.value|] == ':')
  {
    FirstField(host, ':');
    SecondField(host, ':');
    var fields := Split(host, ':');
    Node(host, fields[0], if |fields| > 1 then Some(fields[1]) else None, Down)
  }

  /** The node table built from the configured host list: one node per host, in order. */
  function ParseHosts(hosts: seq<string>): (nodes: seq<Node>)
    ensures |nodes| == |hosts|
    ensures forall i :: 0 <= i < |hosts| ==> nodes[i] == ParseNode(hosts[i])
    ensures forall i :: 0 <= i < |hosts| ==> nodes[i].host == hosts[i] && nodes[i].state == Down
  {
    seq(|hosts|, i requires 0 <= i < |hosts| => ParseNode(hosts[i]))
  }

  // ---------------------------------------------------------------------------
  // Probe completions
  // ---------------------------------------------------------------------------

  /** The state a probe completion leaves behind: UP on any response, DOWN on an error. */
  function StateAfter(responded: bool): State {
    if responded then Up else Down
  }

  /** The node table after the probe of node i completes. */
  function AfterProbe(nodes: seq<Node>, i: nat, responded: bool): (r: seq<Node>)
    requires i < |nodes|
    ensures |r| == |nodes|
    ensures r[i].state == StateAfter(responded)
    ensures r[i].host == nodes[i].host && r[i].hostname == nodes[i].hostname && r[i].port == nodes[i].port
    ensures forall j :: 0 <= j < |nodes| && j != i ==> r[j] == nodes[j]
  {
    nodes[i := nodes[i].(state := StateAfter(responded))]
  }

  /** Repeating the same probe outcome changes nothing more. */
  lemma ProbeIdempotent(nodes: seq<Node>, i: nat, responded: bool)
    requires i < |nodes|
    ensures AfterProbe(AfterProbe(nodes, i, responded), i, responded) == AfterProbe(nodes, i, responded)
  {
  }

  /** Completions for different nodes commute: overlapping probes of two nodes cannot interfere. */
  lemma ProbesCommute(nodes: seq<Node>, i: nat, a: bool, j: nat, b: bool)
    requires i < |nodes| && j < |nodes| && i != j
    ensures AfterProbe(AfterProbe(nodes, i, a), j, b) == AfterProbe(AfterProbe(nodes, j, b), i, a)
  {
  }

  /** A probe completion event: which node, and whether it answered. */
  datatype Probe = Probe(index: nat, responded: bool)

  predicate InRange(probes: seq<Probe>, n: nat) {
    forall k :: 0 <= k < |probes| ==> probes[k].index < n
  }

  /** The node table after a sequence of probe completions, applied in order. */
  function AfterProbes(nodes: seq<Node>, probes: seq<Probe>): (r: seq<Node>)
    requires InRange(probes, |nodes|)
    ensures |r| == |nodes|
    decreases |probes|
  {
    if probes == [] then nodes
    else
      var last := probes[|probes| - 1];
      AfterProbe(AfterProbes(nodes, probes[..|probes| - 1]), last.index, last.responded)
  }

  /** The outcome of the last completion for node i, if any. */
  function LastOutcome(probes: seq<Probe>, i: nat): Option<bool>
    decreases |probes|
  {
    if probes == [] then None
    else if probes[|probes| - 1].index == i then Some(probes[|probes| - 1].responded)
    else LastOutcome(probes[..|probes| - 1], i)
  }

  /**
   * Last completion wins: after any sequence of completions, a node's state is
   * the one its last completion set (or its earlier state if it had none), and
   * its address fields never change.
   */
  lemma {:induction false} LastCompletionWins(nodes: seq<Node>, probes: seq<Probe>, i: nat)
    requires InRange(probes, |nodes|) && i < |nodes|
    ensures AfterProbes(nodes, probes)[i].state ==
            match LastOutcome(probes, i)
            case None => nodes[i].state
            case Some(responded) => StateAfter(responded)
    ensures AfterProbes(nodes, probes)[i].host == nodes[i].host
    ensures AfterProbes(nodes, probes)[i].hostname == nodes[i].hostname
    ensures AfterProbes(nodes, probes)[i].port == nodes[i].port
    decreases |probes|
  {
    if probes != [] {
      var init := probes[..|probes| - 1];
      assert InRange(init, |nodes|);
      LastCompletionWins(nodes, init, i);
    }
  }

  /** The node table after one probe round in which node k answered exactly when responded[k]. */
  function AfterRound(nodes: seq<Node>, responded: seq<bool>): (r: seq<Node>)
    requires |responded| == |nodes|
    ensures |r| == |nodes|
    ensures forall k :: 0 <= k < |nodes| ==> r[k] == AfterProbe(nodes, k, responded[k])[k]
  {
    seq(|nodes|, k requires 0 <= k < |nodes| => nodes[k].(state := StateAfter(responded[k])))
  }

  // ---------------------------------------------------------------------------
  // Choosing a live node
  // ---------------------------------------------------------------------------

  predicate NoneUp(nodes: seq<Node>) {
    forall j :: 0 <= j < |nodes| ==> nodes[j].state == Down
  }

  /** The number of nodes that are UP. */
  function CountUp(nodes: seq<Node>): nat
    decreases |nodes|
  {
    if nodes == [] then 0 else (if nodes[0].state == Up then 1 else 0) + CountUp(nodes[1..])
  }

  /**
   * The nodes currently UP, in table order (the source's filter): one entry
   * per UP node, and the UP node at table position j is entry number
   * CountUp(nodes[..j]), the number of UP nodes before it.
   */
  function UpNodes(nodes: seq<Node>): (r: seq<Node>)
    ensures |r| == CountUp(nodes) <= |nodes|
    ensures forall k :: 0 <= k < |r| ==> r[k].state == Up && r[k] in nodes
    ensures forall j :: 0 <= j < |nodes| && nodes[j].state == Up ==>
              CountUp(nodes[..j]) < |r| && r[CountUp(nodes[..j])] == nodes[j]
    decreases |nodes|
  {
    if nodes == [] then []
    else
      var rest := UpNodes(nodes[1..]);
      FilterStep(nodes, rest);
      if nodes[0].state == Up then [nodes[0]] + rest else rest
  }

  /** Putting the first node (when UP) in front of the filter of the others keeps every UP node at its place. */
  lemma FilterStep(nodes: seq<Node>, rest: seq<Node>)
    requires nodes != [] && |rest| == CountUp(nodes[1..])
    requires forall j :: 0 <= j < |nodes[1..]| && nodes[1..][j].state == Up ==>
               CountUp(nodes[1..][..j]) < |rest| && rest[CountUp(nodes[1..][..j])] == nodes[1..][j]
    ensures var r := if nodes[0].state == Up then [nodes[0]] + rest else rest;
            forall j :: 0 <= j < |nodes| && nodes[j].state == Up ==>
              CountUp(nodes[..j]) < |r| && r[CountUp(nodes[..j])] == nodes[j]
  {
    var r := if nodes[0].state == Up then [nodes[0]] + rest else rest;
    forall j | 0 <= j < |nodes| && nodes[j].state == Up
      ensures CountUp(nodes[..j]) < |r| && r[CountUp(nodes[..j])] == nodes[j]
    {
      if j == 0 {
        assert nodes[..j] == [];
      } else {
        assert nodes[..j][1..] == nodes[1..][..j - 1];
        assert nodes[1..][j - 1] == nodes[j];
      }
    }
  }

  /** Math.floor(u * k): the index a draw u in [0, 1) selects among k candidates. */
  function ScaledIndex(u: real, k: nat): (r: nat)
    requires 0.0 <= u < 1.0 && k > 0
    ensures r < k
  {
    ScaledIndexBounds(u, k);
    (u * k as real).Floor
  }

  lemma ScaledIndexBounds(u: real, k: nat)
    requires 0.0 <= u < 1.0 && k > 0
    ensures 0.0 <= u * k as real < k as real
  {
  }

  /**
   * Each index owns the interval [j/k, (j+1)/k) of draws, all of the same width,
   * so a uniform draw picks every candidate with the same probability 1/k.
   */
  lemma IndexInterval(u: real, k: nat, j: nat)
    requires 0.0 <= u < 1.0 && k > 0
    ensures ScaledIndex(u, k) == j <==> j as real / k as real <= u < (j + 1) as real / k as real
  {
    var kr := k as real;
    var x := u * kr;
    assert x.Floor as real <= x < x.Floor as real + 1.0;
    DivideBoth(j as real, u, kr);
    DivideBoth((j + 1) as real, u, kr);
  }

  /** Dividing by a positive c: a / c <= b exactly when a <= b * c, and likewise strictly. */
  lemma DivideBoth(a: real, b: real, c: real)
    requires c > 0.0
    ensures a / c <= b <==> a <= b * c
    ensures b < a / c <==> b * c < a
  {
    assert a / c * c == a;
  }

  /** getRandomHost: the host of the UP node the draw selects, or None when no node is UP. */
  function PickHost(nodes: seq<Node>, u: real): (r: Option<string>)
    requires 0.0 <= u < 1.0
    ensures r.None? <==> NoneUp(nodes)
    ensures r.Some? ==> exists j :: 0 <= j < |nodes| && nodes[j].state == Up && nodes[j].host == r.value
    ensures r.Some? ==> r.value == UpNodes(nodes)[ScaledIndex(u, |UpNodes(nodes)|)].host
  {
    var up := UpNodes(nodes);
    if |up| == 0 then
      None
    else
      var n := up[ScaledIndex(u, |up|)];
      assert n in nodes;
      Some(n.host)
  }

  /** With exactly one node UP, every draw selects it. */
  lemma {:induction false} OnlyLiveNode(nodes: seq<Node>, j: nat, u: real)
    requires j < |nodes| && nodes[j].state == Up
    requires forall i :: 0 <= i < |nodes| && i != j ==> nodes[i].state == Down
    requires 0.0 <= u < 1.0
    ensures PickHost(nodes, u) == Some(nodes[j].host)
  {
    var up := UpNodes(nodes);
    var k := ScaledIndex(u, |up|);
    assert up[k] in nodes;
    var i :| 0 <= i < |nodes| && nodes[i] == up[k];
  }

  /**
   * Uniform choice: with k nodes UP, the UP node at table position j, preceded
   * by m UP nodes, is picked by every draw in [m/k, (m+1)/k), an interval of
   * width 1/k.
   */
  lemma UniformPick(nodes: seq<Node>, j: nat, u: real)
    requires j < |nodes| && nodes[j].state == Up
    requires 0.0 <= u < 1.0
    ensures CountUp(nodes[..j]) < CountUp(nodes)
    ensures var m, k := CountUp(nodes[..j]), CountUp(nodes);
            m as real / k as real <= u < (m + 1) as real / k as real ==> PickHost(nodes, u) == Some(nodes[j].host)
  {
    var up := UpNodes(nodes);
    var m, k := CountUp(nodes[..j]), |up|;
    assert m < k && up[m] == nodes[j];
    if m as real / k as real <= u < (m + 1) as real / k as real {
      IndexInterval(u, k, m);
      PickByIndex(nodes, u, m);
    }
  }

  /** The draw that scales to index m picks the m-th UP node. */
  lemma PickByIndex(nodes: seq<Node>, u: real, m: nat)
    requires 0.0 <= u < 1.0 && m < |UpNodes(nodes)| && ScaledIndex(u, |UpNodes(nodes)|) == m
    ensures PickHost(nodes, u) == Some(UpNodes(nodes)[m].host)
  {
  }

  /** The draw k/n selects index k among n candidates. */
  lemma ExactDraw(k: nat, n: nat) returns (u: real)
    requires k < n
    ensures 0.0 <= u < 1.0 && ScaledIndex(u, n) == k
  {
    u := k as real / n as real;
    assert u * n as real == k as real;
  }

  /** Every UP node is selected by some draw. */
  lemma {:induction false} EveryLiveNodeReachable(nodes: seq<Node>, j: nat)
    requires j < |nodes| && nodes[j].state == Up
    ensures exists u :: 0.0 <= u < 1.0 && PickHost(nodes, u) == Some(nodes[j].host)
  {
    var up := UpNodes(nodes);
    assert nodes[j] in up;
    var k :| 0 <= k < |up| && up[k] == nodes[j];
    var u := ExactDraw(k, |up|);
    assert PickHost(nodes, u) == Some(nodes[j].host);
  }

  // ---------------------------------------------------------------------------
  // The monitor
  // ---------------------------------------------------------------------------

  /** The health monitor: the node table, updated in place by probe completions. */
  class Manager {
    const checkInterval: int
    const checkTimeout: int
    var nodes: seq<Node>

    /** One DOWN node per configured host, in order. */
    constructor (hosts: seq<string>, checkInterval: int, checkTimeout: int)
      ensures nodes == ParseHosts(hosts)
      ensures this.checkInterval == checkInterval && this.checkTimeout == checkTimeout
    {
      this.checkInterval := checkInterval;
      this.checkTimeout := checkTimeout;
      nodes := ParseHosts(hosts);
    }

    /** The probe of node i completed: a response marks it UP, an error marks it DOWN. */
    method OnProbe(i: nat, responded: bool)
      requires i < |nodes|
      modifies this
      ensures nodes == AfterProbe(old(nodes), i, responded)
    {
      if responded {
        if nodes[i].state == Down {
          nodes := nodes[i := nodes[i].(state := Up)];
        }
      } else {
        if nodes[i].state == Up {
          nodes := nodes[i := nodes[i].(state := Down)];
        }
      }
    }

    /** One health-check round: the probe of every node, completing in table order. */
    method HealthCheck(responded: seq<bool>)
      requires |responded| == |nodes|
      modifies this
      ensures nodes == AfterRound(old(nodes), responded)
    {
      var i := 0;
      while i < |nodes|
        invariant 0 <= i <= |nodes| == |old(nodes)|
        invariant forall k :: 0 <= k < i ==> nodes[k] == old(nodes)[k].(state := StateAfter(responded[k]))
        invariant forall k :: i <= k < |nodes| ==> nodes[k] == old(nodes)[k]
      {
        OnProbe(i, responded[i]);
        i := i + 1;
      }
    }

    /** getRandomHost: reads the table, changes nothing. */
    method GetRandomHost(u: real) returns (host: Option<string>)
      requires 0.0 <= u < 1.0
      ensures host == PickHost(nodes, u)
      ensures host.None? <==> NoneUp(nodes)
      ensures host.Some? ==> exists j :: 0 <= j < |nodes| && nodes[j].state == Up && nodes[j].host == host.value
    {
      var available := UpNodes(nodes);
      if |available| == 0 {
        host := None;
      } else {
        host := Some(available[ScaledIndex(u, |available|)].host);
      }
    }
  }
}
