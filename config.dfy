/**
 * The config rewriter: each node's `config.json` as a record, the address
 * rewrite of one record, and the scan that rewrites `node0, node1, ...` up
 * to the first missing config.
 */
module Config {
  import opened Wrappers
  import opened Decimal

  /**
   * A node's `config.json`: the two listen addresses the localnet rewrites
   * (`rpc.addr` and `network.addr`) and every other field, opaque here.
   */
  datatype NodeConfig = NodeConfig(rpcAddr: string, networkAddr: string, rest: map<string, string>)

  /** The workspace's config files, by node index: `node{i}/config.json`. */
  type Configs = map<nat, NodeConfig>

  const RPC_BASE_PORT: nat := 3030
  const NETWORK_BASE_PORT: nat := 24567
  const LISTEN_HOST: string := "0.0.0.0:"

  /** `f'0.0.0.0:{port}'` */
  function ListenAddr(port: nat): string {
    LISTEN_HOST + NatToString(port)
  }

  /** The port of a `0.0.0.0:<digits>` address, if it has that shape. */
  function ParseListenAddr(s: string): Option<nat> {
    if |s| > |LISTEN_HOST| && s[..|LISTEN_HOST|] == LISTEN_HOST && AllDigits(s[|LISTEN_HOST|..])
    then Some(ParseNat(s[|LISTEN_HOST|..]))
    else None
  }

  lemma ListenAddrRoundTrip(port: nat)
    ensures ParseListenAddr(ListenAddr(port)) == Some(port)
  {
    var s := ListenAddr(port);
    assert s[..|LISTEN_HOST|] == LISTEN_HOST;
    assert s[|LISTEN_HOST|..] == NatToString(port);
    ParseNatToString(port);
  }

  /** Different ports give different listen addresses. */
  lemma ListenAddrInjective(p: nat, q: nat)
    ensures ListenAddr(p) == ListenAddr(q) ==> p == q
  {
    ListenAddrRoundTrip(p);
    ListenAddrRoundTrip(q);
  }

  /**
   * Rewrite one config for the node whose 1-based ordinal is `ordinal`:
   * it then listens for RPC on `3030 + ordinal` and for peers on
   * `24567 + ordinal`, and every other field is left as it was.
   */
  function RewriteConfig(c: NodeConfig, ordinal: nat): NodeConfig {
    c.(rpcAddr := ListenAddr(RPC_BASE_PORT + ordinal), networkAddr := ListenAddr(NETWORK_BASE_PORT + ordinal))
  }

  /** The rewritten addresses read back as the two ports; other fields pass through. */
  lemma RewriteConfigPorts(c: NodeConfig, ordinal: nat)
    ensures RewriteConfig(c, ordinal).rest == c.rest
    ensures ParseListenAddr(RewriteConfig(c, ordinal).rpcAddr) == Some(RPC_BASE_PORT + ordinal)
    ensures ParseListenAddr(RewriteConfig(c, ordinal).networkAddr) == Some(NETWORK_BASE_PORT + ordinal)
  {
    ListenAddrRoundTrip(RPC_BASE_PORT + ordinal);
    ListenAddrRoundTrip(NETWORK_BASE_PORT + ordinal);
  }

  /** Rewriting a config twice for the same ordinal is rewriting it once. */
  lemma RewriteConfigIdempotent(c: NodeConfig, ordinal: nat)
    ensures RewriteConfig(RewriteConfig(c, ordinal), ordinal) == RewriteConfig(c, ordinal)
  {
  }

  /** `k` is the first index with no config, every smaller index having one. */
  predicate IsFirstGap(m: Configs, k: nat) {
    k !in m && forall j: nat :: j < k ==> j in m
  }

  lemma FirstGapUnique(m: Configs, a: nat, b: nat)
    requires IsFirstGap(m, a) && IsFirstGap(m, b)
    ensures a == b
  {
  }

  /** A strict upper bound on the node indices present: the scan never passes it. */
  ghost function KeyBound(m: Configs): (b: nat)
    ensures forall k :: k in m ==> k < b
    decreases |m|
  {
    if m == map[] then 0
    else
      var k :| k in m;
      var rest := m - {k};
      var b := KeyBound(rest);
      assert forall j :: j in m ==> j == k || j in rest;
      if k < b then b else k + 1
  }

  /** The first gap at or after `k`, given that `0 .. k-1` are all present. */
  function CountFrom(m: Configs, k: nat): (r: nat)
    requires forall j: nat :: j < k ==> j in m
    ensures k <= r && IsFirstGap(m, r)
    decreases KeyBound(m) - k
  {
    if k !in m then k else CountFrom(m, k + 1)
  }

  /** The number of nodes the scan finds: the index of the first missing config. */
  function CountNodes(m: Configs): (n: nat)
    ensures IsFirstGap(m, n)
  {
    CountFrom(m, 0)
  }

  /** The count depends on which configs exist, not on what they hold. */
  lemma CountNodesKeys(m: Configs, m': Configs)
    requires m.Keys == m'.Keys
    ensures CountNodes(m) == CountNodes(m')
  {
    assert IsFirstGap(m', CountNodes(m));
    FirstGapUnique(m', CountNodes(m), CountNodes(m'));
  }

  /**
   * The workspace after the scan has rewritten nodes `0 .. n-1`, node `i`
   * with ordinal `i + 1`; the set of config files is unchanged.
   */
  function RewriteAll(m: Configs, n: nat): (r: Configs)
    ensures r.Keys == m.Keys
  {
    map k | k in m :: if k < n then RewriteConfig(m[k], k + 1) else m[k]
  }

  lemma RewriteAllAt(m: Configs, n: nat, k: nat)
    requires k in m && k < n
    ensures RewriteAll(m, n)[k] == RewriteConfig(m[k], k + 1)
  {
  }

  lemma RewriteAllBeyond(m: Configs, n: nat, k: nat)
    requires k in m && k >= n
    ensures RewriteAll(m, n)[k] == m[k]
  {
  }

  lemma RewriteAllStepAt(m: Configs, n: nat, k: nat)
    requires n in m && k in m
    ensures RewriteAll(m, n)[n := RewriteConfig(m[n], n + 1)][k] == RewriteAll(m, n + 1)[k]
  {
    if k < n {
      RewriteAllAt(m, n, k);
      RewriteAllAt(m, n + 1, k);
    } else if k == n {
      RewriteAllAt(m, n + 1, k);
    }
  }

  /** One more step of the scan: rewriting node `n` extends the rewritten prefix. */
  lemma RewriteAllStep(m: Configs, n: nat)
    requires n in m
    ensures RewriteAll(m, n)[n := RewriteConfig(m[n], n + 1)] == RewriteAll(m, n + 1)
  {
    var a, b := RewriteAll(m, n)[n := RewriteConfig(m[n], n + 1)], RewriteAll(m, n + 1);
    forall k | k in a
      ensures a[k] == b[k]
    {
      RewriteAllStepAt(m, n, k);
    }
  }

  /**
   * After the scan, node `i` below the count listens on RPC port `3031 + i`
   * and network port `24568 + i`, and keeps every other field.
   */
  lemma RewrittenAddresses(m: Configs, i: nat)
    requires i < CountNodes(m)
    ensures i in RewriteAll(m, CountNodes(m))
    ensures RewriteAll(m, CountNodes(m))[i].rpcAddr == ListenAddr(3031 + i)
    ensures RewriteAll(m, CountNodes(m))[i].networkAddr == ListenAddr(24568 + i)
    ensures RewriteAll(m, CountNodes(m))[i].rest == m[i].rest
  {
    RewriteAllAt(m, CountNodes(m), i);
  }

  /** The scan touches nothing at or beyond the first gap. */
  lemma RewriteLeavesTail(m: Configs, k: nat)
    requires k in m && k >= CountNodes(m)
    ensures RewriteAll(m, CountNodes(m))[k] == m[k]
  {
  }

  /** Rewriting for two different ordinals gives different addresses. */
  lemma RewriteConfigDistinct(c: NodeConfig, d: NodeConfig, o: nat, o': nat)
    requires o != o'
    ensures RewriteConfig(c, o).rpcAddr != RewriteConfig(d, o').rpcAddr
    ensures RewriteConfig(c, o).networkAddr != RewriteConfig(d, o').networkAddr
  {
    var ci, cj := RewriteConfig(c, o), RewriteConfig(d, o');
    RewriteConfigPorts(c, o);
    RewriteConfigPorts(d, o');
    assert ParseListenAddr(ci.rpcAddr) != ParseListenAddr(cj.rpcAddr);
    assert ParseListenAddr(ci.networkAddr) != ParseListenAddr(cj.networkAddr);
  }

  /** No two rewritten nodes share an RPC port or a network port. */
  lemma RewriteDistinctPorts(m: Configs, n: nat, i: nat, j: nat)
    requires i in m && j in m && i < n && j < n && i != j
    ensures RewriteAll(m, n)[i].rpcAddr != RewriteAll(m, n)[j].rpcAddr
    ensures RewriteAll(m, n)[i].networkAddr != RewriteAll(m, n)[j].networkAddr
  {
    RewriteAllAt(m, n, i);
    RewriteAllAt(m, n, j);
    RewriteConfigDistinct(m[i], m[j], i + 1, j + 1);
  }

  /** The RPC and network port ranges are 21537 apart (24568 - 3031). */
  const PORT_RANGE_GAP: nat := NETWORK_BASE_PORT - RPC_BASE_PORT

  /** A config's rewritten RPC address is another's network address exactly when the ports agree. */
  lemma RewriteConfigRpcMeetsNetwork(c: NodeConfig, d: NodeConfig, o: nat, o': nat)
    ensures RewriteConfig(c, o).rpcAddr == RewriteConfig(d, o').networkAddr <==> o == o' + PORT_RANGE_GAP
  {
    ListenAddrInjective(RPC_BASE_PORT + o, NETWORK_BASE_PORT + o');
  }

  /**
   * A rewritten node's RPC address equals a rewritten node's network
   * address exactly when the first sits 21537 indices after the second.
   */
  lemma RewriteRpcMeetsNetwork(m: Configs, n: nat, i: nat, j: nat)
    requires i in m && j in m && i < n && j < n
    ensures RewriteAll(m, n)[i].rpcAddr == RewriteAll(m, n)[j].networkAddr <==> i == j + PORT_RANGE_GAP
  {
    RewriteAllAt(m, n, i);
    RewriteAllAt(m, n, j);
    RewriteConfigRpcMeetsNetwork(m[i], m[j], i + 1, j + 1);
  }

  /** With at most 21537 nodes, no node's RPC address is any node's network address. */
  lemma RewriteRpcNetworkDisjoint(m: Configs, n: nat, i: nat, j: nat)
    requires i in m && j in m && i < n && j < n && n <= PORT_RANGE_GAP
    ensures RewriteAll(m, n)[i].rpcAddr != RewriteAll(m, n)[j].networkAddr
  {
    RewriteRpcMeetsNetwork(m, n, i, j);
  }

  /**
   * From 21538 nodes on, ports collide: node 21537 listens for RPC on
   * `0.0.0.0:24568`, the network address of node 0.
   */
  lemma RewriteRpcNetworkCollide(m: Configs, n: nat)
    requires 0 in m && PORT_RANGE_GAP in m && PORT_RANGE_GAP < n
    ensures RewriteAll(m, n)[PORT_RANGE_GAP].rpcAddr == RewriteAll(m, n)[0].networkAddr
  {
    RewriteRpcMeetsNetwork(m, n, PORT_RANGE_GAP, 0);
  }

  /**
   * Scanning an already rewritten workspace finds the same count and leaves
   * every config as it is.
   */
  lemma RewriteIdempotent(m: Configs)
    ensures CountNodes(RewriteAll(m, CountNodes(m))) == CountNodes(m)
    ensures RewriteAll(RewriteAll(m, CountNodes(m)), CountNodes(m)) == RewriteAll(m, CountNodes(m))
  {
    var n := CountNodes(m);
    var r := RewriteAll(m, n);
    CountNodesKeys(m, r);
    forall k | k in r
      ensures RewriteAll(r, n)[k] == r[k]
    {
      if k < n {
        RewriteAllAt(m, n, k);
        RewriteAllAt(r, n, k);
        RewriteConfigIdempotent(m[k], k + 1);
      }
    }
  }
}
